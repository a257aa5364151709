/**
 * The running client as a step relation: the caller, the router, the unsubscription task and the session driver, over
 * the queues between them. The driver is an environment that reports on keys whose request was queued, and nothing
 * else is assumed of it or of the caller.
 */
module Protocol {
  import opened Sequences
  import opened RouterCore
  import opened Router
  import opened History

  type Capacity = n: nat | 1 <= n witness 1

  /**
   * The bounded queues' capacities, and whether one poll of a `select!` runs without the other tasks in between. On one
   * thread it does; on several, a task may act after one branch was polled and before the next one is.
   */
  datatype Deployment =
    Deployment(events: Capacity, requests: Capacity, stream: Capacity, session: Capacity, atomicPoll: bool)

  /**
   * Who has the receiving half of a stream. Dropping an `Updates` reports the drop first and gives up the half after.
   */
  datatype Holder = Requesting | Held | Dropping | Gone

  datatype Outlet<T> = Outlet(received: seq<T>, buffer: seq<T>, holder: Holder)

  datatype Request = Add(key: Key) | Delete(key: Key) | OtherRequest

  /**
   * Where the router is: before its poll, behind one or two of its branches, awaiting a send, or done. `refused` in a
   * system says that the send it awaits has found its stream full.
   */
  datatype Phase = Selecting | PastCommands | PastStop | Sending(event: WireEvent, send: Send) | Finished

  /** The unsubscription task. At its end it may have left the key it was issuing. */
  datatype Unsubscriber = Waiting | Issuing(key: Key) | Ended(left: seq<Key>)

  datatype Driver = Running | Blocked(event: WireEvent) | Over

  /** What went into the queues that end or start at the driver, and what it took out of them; only proofs read it. */
  datatype Log = Log(reported: seq<WireEvent>, asked: seq<Request>, served: seq<Request>)

  datatype System = System(
    commands: seq<Command>, events: seq<WireEvent>, requests: seq<Request>, keys: seq<Key>,
    streams: map<Key, Outlet<SubscriptionEvent>>, session: Outlet<SessionEvent>, client: bool, stop: bool,
    phase: Phase, refused: bool, taking: bool, router: State, unsubscriber: Unsubscriber, driver: Driver,
    turns: seq<Turn>, pushed: seq<Command>, requested: set<Key>, issued: seq<Key>,
    log: Log)

  const START := System([], [], [], [], map[], Outlet([], [], Held), true, false,
                        Selecting, false, true, INITIAL, Waiting, Running, [], [], {}, [], Log([], [], []))

  datatype CallerAction =
    | BeginSubscribe(key: Key)
    | QueueRequest(key: Key)
    | FailRequest(key: Key)
    | CancelSubscribe(key: Key)
    | Receive(key: Key)
    | BeginDrop(key: Key)
    | EndDrop(key: Key)
    | ReceiveSession
    | DropSession
    | Ask(request: Request)
    | DropClient(stops: bool)
    | OrderStop

  datatype RouterAction =
    | HandleCommand
    | NoticeClosed
    | PassCommands
    | SeeStop
    | PassStop
    | TakeEvent
    | SeeEnd
    | Repoll
    | Deliver
    | FindGone
    | FindFull
    | AbandonSend

  datatype UnsubscriberAction = TakeKey | Issue | IssueFails | EndTask

  datatype DriverAction = Produce(event: WireEvent) | PushEvent | DiscardEvent | GiveUpEvent | Consume | EndDriver

  datatype Action =
    | OfCaller(caller: CallerAction)
    | OfRouter(router: RouterAction)
    | OfUnsubscriber(unsubscriber: UnsubscriberAction)
    | OfDriver(driver: DriverAction)

  /* The caller. */

  predicate HeldBy(s: System, k: Key, holder: Holder) {
    k in s.streams && s.streams[k].holder == holder
  }

  /** The readiness that `connect` waits for has come, and with it the caller's client. */
  predicate IsReady(s: System) {
    s.router.effects.signals != [] && s.router.effects.signals[0].Ok?
  }

  predicate CallerCan(cfg: Deployment, s: System, a: CallerAction) {
    match a
    case BeginSubscribe(k) => s.client && IsReady(s) && k !in s.streams && s.phase != Finished
    case QueueRequest(k) => HeldBy(s, k, Requesting) && s.driver != Over && |s.requests| < cfg.requests
    case FailRequest(k) => HeldBy(s, k, Requesting) && s.driver == Over
    case CancelSubscribe(k) => HeldBy(s, k, Requesting)
    case Receive(k) => HeldBy(s, k, Held) && s.streams[k].buffer != []
    case BeginDrop(k) => HeldBy(s, k, Held)
    case EndDrop(k) => HeldBy(s, k, Dropping)
    case ReceiveSession => s.session.holder == Held && s.session.buffer != []
    case DropSession => s.session.holder == Held
    case Ask(request) => s.client && IsReady(s) && !request.Add? && s.driver != Over && |s.requests| < cfg.requests
    case DropClient(_) => s.client && forall k <- s.streams :: s.streams[k].holder != Requesting
    case OrderStop => true
  }

  /** A send on the router's unbounded command queue, which fails once the router has ended. */
  function Push(s: System, command: Command): System {
    if s.phase == Finished then s else s.(commands := s.commands + [command], pushed := s.pushed + [command])
  }

  /** A send on the driver's bounded request queue. */
  function Queued(s: System, request: Request): System {
    s.(requests := s.requests + [request], log := s.log.(asked := s.log.asked + [request]))
  }

  function Given(s: System, k: Key, holder: Holder): System
    requires k in s.streams
  {
    s.(streams := s.streams[k := s.streams[k].(holder := holder)])
  }

  function Taken<T>(o: Outlet<T>): Outlet<T>
    requires o.buffer != []
  {
    o.(received := o.received + [o.buffer[0]], buffer := o.buffer[1..])
  }

  function CallerDo(cfg: Deployment, s: System, a: CallerAction): System
    requires CallerCan(cfg, s, a)
  {
    match a
    case BeginSubscribe(k) => Push(s.(streams := s.streams[k := Outlet([], [], Requesting)]), Register(k))
    case QueueRequest(k) => Queued(Given(s, k, Held), Add(k)).(requested := s.requested + {k})
    case FailRequest(k) => Push(Given(s, k, Gone), Unregister(k))
    case CancelSubscribe(k) => Given(s, k, Gone)
    case Receive(k) => s.(streams := s.streams[k := Taken(s.streams[k])])
    case BeginDrop(k) => Push(Given(s, k, Dropping), StreamDropped(k))
    case EndDrop(k) => Given(s, k, Gone)
    case ReceiveSession => s.(session := Taken(s.session))
    case DropSession => s.(session := s.session.(holder := Gone))
    case Ask(request) => Queued(s, request)
    case DropClient(stops) => s.(client := false, stop := s.stop || stops)
    case OrderStop => s.(stop := true)
  }

  /* The router. */

  predicate HasRoom(cfg: Deployment, s: System, send: Send) {
    match send
    case ToStream(k, _) => k in s.streams && |s.streams[k].buffer| < cfg.stream
    case ToSession(_) => |s.session.buffer| < cfg.session
  }

  predicate ReceiverLeft(s: System, send: Send) {
    match send
    case ToStream(k, _) => HeldBy(s, k, Gone)
    case ToSession(_) => s.session.holder == Gone
  }

  predicate NoCommand(s: System) {
    !s.taking || s.commands == []
  }

  predicate RouterCan(cfg: Deployment, s: System, a: RouterAction) {
    match a
    case HandleCommand => s.phase == Selecting && s.taking && s.commands != []
    case NoticeClosed =>
      && s.phase == Selecting && s.taking && s.commands == []
      && !s.client && forall k <- s.streams :: s.streams[k].holder == Gone
    case PassCommands => s.phase == Selecting && NoCommand(s)
    case SeeStop => s.phase == PastCommands && s.stop
    case PassStop => s.phase == PastCommands && !s.stop
    case TakeEvent => s.phase == PastStop && s.events != []
    case SeeEnd => s.phase == PastStop && s.events == [] && s.driver == Over
    case Repoll => s.phase == PastStop && s.events == [] && s.driver != Over
    case Deliver => s.phase.Sending? && HasRoom(cfg, s, s.phase.send) && !ReceiverLeft(s, s.phase.send)
    case FindGone => s.phase.Sending? && ReceiverLeft(s, s.phase.send)
    case FindFull =>
      s.phase.Sending? && !s.refused && !HasRoom(cfg, s, s.phase.send) && !ReceiverLeft(s, s.phase.send)
    case AbandonSend =>
      && s.phase.Sending? && s.refused && s.stop
      && (cfg.atomicPoll ==> !HasRoom(cfg, s, s.phase.send) && !ReceiverLeft(s, s.phase.send))
  }

  /** The router's end. */
  function Finish(s: System, t: Turn): System {
    s.(turns := s.turns + [t], router := AfterEnd(s.router), phase := Finished)
  }

  /** The end of an event's handling. */
  function Conclude(s: System, e: WireEvent, delivery: Delivery): System {
    if IsLast(e) then Finish(s, Happened(e, delivery))
    else s.(turns := s.turns + [Happened(e, delivery)], phase := Selecting)
  }

  /** The end of the send an event awaited. */
  function Complete(s: System, delivery: Delivery): System
    requires s.phase.Sending?
  {
    var send := s.phase.send;
    Conclude(s.(router := State(OnSent(s.router.core, send, delivery), Sent(s.router.effects, send, delivery))),
             s.phase.event, delivery)
  }

  function Put(s: System, send: Send): System
    requires send.ToStream? ==> send.key in s.streams
  {
    match send
    case ToStream(k, x) => s.(streams := s.streams[k := s.streams[k].(buffer := s.streams[k].buffer + [x])])
    case ToSession(m) => s.(session := s.session.(buffer := s.session.buffer + [m]))
  }

  function Take(s: System): System
    requires s.events != []
  {
    var e := s.events[0];
    var d := OnEvent(s.router.core, e);
    var t := s.(events := s.events[1..], router := State(d.core, Told(s.router.effects, d.signal)));
    match d.send
    case None => Conclude(t, e, Delivered)
    case Some(send) => t.(phase := Sending(e, send), refused := false)
  }

  function Handle(s: System): System
    requires s.commands != []
  {
    var (core, unsubscribe) := OnCommand(s.router.core, s.commands[0]);
    s.(commands := s.commands[1..], router := AfterCommand(s.router, s.commands[0]),
       keys := s.keys + OneOf(unsubscribe), turns := s.turns + [Commanded(s.commands[0])])
  }

  function RouterDo(cfg: Deployment, s: System, a: RouterAction): System
    requires RouterCan(cfg, s, a)
  {
    match a
    case HandleCommand => Handle(s)
    case NoticeClosed => s.(taking := false, turns := s.turns + [CommandsClosed])
    case PassCommands => s.(phase := PastCommands)
    case SeeStop => Finish(s, StopSeen)
    case PassStop => s.(phase := PastStop)
    case TakeEvent => Take(s)
    case SeeEnd => Finish(s, EventsClosed)
    case Repoll => s.(phase := Selecting)
    case Deliver => Complete(Put(s, s.phase.send), Delivered)
    case FindGone => Complete(s, ReceiverGone)
    case FindFull => s.(refused := true)
    case AbandonSend => Complete(s, Stopped)
  }

  /* The unsubscription task. */

  predicate UnsubscriberCan(cfg: Deployment, s: System, a: UnsubscriberAction) {
    match a
    case TakeKey => s.unsubscriber == Waiting && s.keys != []
    case Issue => s.unsubscriber.Issuing? && s.driver != Over && |s.requests| < cfg.requests
    case IssueFails => s.unsubscriber.Issuing? && s.driver == Over
    case EndTask =>
      || (s.unsubscriber == Waiting && (s.stop || !s.client || (s.phase == Finished && s.keys == [])))
      || (s.unsubscriber.Issuing? && s.stop && (cfg.atomicPoll ==> s.driver != Over && |s.requests| >= cfg.requests))
  }

  function InHand(u: Unsubscriber): seq<Key> {
    match u case Waiting => [] case Issuing(k) => [k] case Ended(left) => left
  }

  function UnsubscriberDo(cfg: Deployment, s: System, a: UnsubscriberAction): System
    requires UnsubscriberCan(cfg, s, a)
  {
    match a
    case TakeKey => s.(unsubscriber := Issuing(s.keys[0]), keys := s.keys[1..])
    case Issue =>
      var k := s.unsubscriber.key;
      Queued(s, Delete(k)).(issued := s.issued + [k], unsubscriber := Waiting)
    case IssueFails => s.(unsubscriber := Ended(InHand(s.unsubscriber)))
    case EndTask => s.(unsubscriber := Ended(InHand(s.unsubscriber)))
  }

  /* The driver. */

  predicate DriverCan(cfg: Deployment, s: System, a: DriverAction) {
    match a
    case Produce(e) => s.driver == Running && (Addressee(e).Some? ==> Addressee(e).value in s.requested)
    case PushEvent => s.driver.Blocked? && s.phase != Finished && |s.events| < cfg.events
    case DiscardEvent => s.driver.Blocked? && s.phase == Finished
    case GiveUpEvent =>
      s.driver.Blocked? && s.stop && (cfg.atomicPoll ==> s.phase != Finished && |s.events| >= cfg.events)
    case Consume => s.driver == Running && s.requests != []
    case EndDriver => s.driver == Running
  }

  function DriverDo(cfg: Deployment, s: System, a: DriverAction): System
    requires DriverCan(cfg, s, a)
  {
    match a
    case Produce(e) => s.(driver := Blocked(e))
    case PushEvent =>
      s.(driver := Running, events := s.events + [s.driver.event],
         log := s.log.(reported := s.log.reported + [s.driver.event]))
    case DiscardEvent => s.(driver := Running)
    case GiveUpEvent => s.(driver := Running)
    case Consume => s.(requests := s.requests[1..], log := s.log.(served := s.log.served + [s.requests[0]]))
    case EndDriver => s.(driver := Over)
  }

  /* Runs. */

  /** The router is in the middle of a poll. */
  predicate Polling(s: System) {
    s.phase == PastCommands || s.phase == PastStop
  }

  predicate Can(cfg: Deployment, s: System, a: Action) {
    && (cfg.atomicPoll && Polling(s) ==> a.OfRouter?)
    && match a
       case OfCaller(caller) => CallerCan(cfg, s, caller)
       case OfRouter(router) => RouterCan(cfg, s, router)
       case OfUnsubscriber(unsubscriber) => UnsubscriberCan(cfg, s, unsubscriber)
       case OfDriver(driver) => DriverCan(cfg, s, driver)
  }

  function Do(cfg: Deployment, s: System, a: Action): System
    requires Can(cfg, s, a)
  {
    match a
    case OfCaller(caller) => CallerDo(cfg, s, caller)
    case OfRouter(router) => RouterDo(cfg, s, router)
    case OfUnsubscriber(unsubscriber) => UnsubscriberDo(cfg, s, unsubscriber)
    case OfDriver(driver) => DriverDo(cfg, s, driver)
  }

  /** Where a sequence of actions leads, if each can be taken. */
  function Exec(cfg: Deployment, actions: seq<Action>): Option<System> {
    if actions == [] then Some(START)
    else
      match Exec(cfg, actions[..|actions| - 1])
      case None => None
      case Some(s) =>
        var a := actions[|actions| - 1];
        if Can(cfg, s, a) then Some(Do(cfg, s, a)) else None
  }
}
