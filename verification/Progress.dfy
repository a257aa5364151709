/** The client's tasks never wait for each other in a circle, and settle in boundedly many steps. */
module Progress {
  import opened Sequences
  import opened RouterCore
  import opened Router
  import opened Protocol
  import opened Invariants

  /**
   * The steps of the router, the unsubscription task and the driver's queues that do something, as opposed to idle
   * polls.
   */
  predicate Productive(s: System, a: Action) {
    match a
    case OfCaller(_) => false
    case OfRouter(PassCommands) => s.events != [] || s.driver == Over || s.stop
    case OfRouter(_) => true
    case OfUnsubscriber(_) => true
    case OfDriver(driver) => !driver.Produce? && !driver.EndDriver?
  }

  /** Whether a task has something left to do. */
  predicate Pending(s: System) {
    || Polling(s) || s.phase.Sending?
    || (s.phase == Selecting && ((s.taking && s.commands != []) || s.events != [] || s.driver == Over || s.stop))
    || s.unsubscriber.Issuing?
    || (s.unsubscriber == Waiting && (s.keys != [] || s.stop || !s.client || s.phase == Finished))
    || s.driver.Blocked? || (s.driver == Running && s.requests != [])
  }

  /**
   * The caller does not hold up the send the router awaits, if it awaits one: room, no receiver, or an ordered stop.
   */
  predicate CallerReady(cfg: Deployment, s: System) {
    s.phase.Sending? ==> HasRoom(cfg, s, s.phase.send) || ReceiverLeft(s, s.phase.send) || s.stop
  }

  /** A task that can go on: the router before the driver before the unsubscription task. */
  function NextTask(cfg: Deployment, s: System): Action {
    match s.phase
    case PastCommands =>
      OfRouter(if s.stop then SeeStop else PassStop)
    case PastStop =>
      OfRouter(if s.events != [] then TakeEvent else if s.driver == Over then SeeEnd else Repoll)
    case Sending(_, send) =>
      OfRouter(if ReceiverLeft(s, send) then FindGone
               else if HasRoom(cfg, s, send) then Deliver
               else if s.refused then AbandonSend else FindFull)
    case _ =>
      if s.phase == Selecting && s.taking && s.commands != [] then OfRouter(HandleCommand)
      else if s.phase == Selecting && (s.events != [] || s.driver == Over || s.stop) then OfRouter(PassCommands)
      else if s.driver.Blocked? then OfDriver(if s.phase == Finished then DiscardEvent else PushEvent)
      else if s.driver == Running && s.requests != [] then OfDriver(Consume)
      else
        OfUnsubscriber(if s.unsubscriber == Waiting then (if s.keys != [] then TakeKey else EndTask)
                       else if s.driver == Over then IssueFails else Issue)
  }

  /** No deadlock: while anything is pending and the caller is ready, some task can take a productive step. */
  lemma SomeTaskCanGoOn(cfg: Deployment, s: System)
    requires Pending(s) && CallerReady(cfg, s)
    ensures Can(cfg, s, NextTask(cfg, s)) && Productive(s, NextTask(cfg, s))
  {
  }

  /** A `subscribe` call that waits for room in the driver's queue is waiting for a task with something to do. */
  lemma SubscribeIsNeverStuck(cfg: Deployment, s: System, k: Key)
    requires HeldBy(s, k, Requesting) && !Pending(s)
    ensures Can(cfg, s, OfCaller(QueueRequest(k))) || Can(cfg, s, OfCaller(FailRequest(k)))
  {
  }

  /* How much is left. */

  function UnsubscriberWork(u: Unsubscriber): nat {
    match u case Waiting => 1 case Issuing(_) => 4 case Ended(_) => 0
  }

  /** A poll goes round until it finds something; once a stop is ordered, it is found next. */
  function RouterWork(s: System): nat {
    match s.phase
    case Finished => 0
    case Selecting => if s.stop then 3 else if s.events != [] || s.driver == Over then 4 else 1
    case PastCommands => if s.stop then 2 else 3
    case PastStop => if s.stop then 4 else 2
    case Sending(_, _) => if s.refused then 6 else 7
  }

  /** What is left to do, weighing each item by the steps it may still take. */
  function Work(s: System): nat {
    6 * |s.commands| + 4 * |s.keys| + 6 * |s.events| + 2 * |s.requests| + |s.session.buffer|
    + (if s.taking then 1 else 0) + UnsubscriberWork(s.unsubscriber)
    + (if s.driver.Blocked? then 10 else 0) + RouterWork(s)
  }

  lemma ConcludeWork(s: System, e: WireEvent, delivery: Delivery)
    ensures var t := Conclude(s, e, delivery);
            t == s.(router := t.router, turns := t.turns, phase := t.phase) && t.phase in {Selecting, Finished}
  {
    hide IsLast;
  }

  lemma TakeWork(s: System)
    requires s.events != [] && s.phase == PastStop
    ensures Work(Take(s)) < Work(s)
  {
    hide OnEvent, Conclude;
    var e := s.events[0];
    var d := OnEvent(s.router.core, e);
    ConcludeWork(s.(events := s.events[1..], router := State(d.core, Told(s.router.effects, d.signal))), e, Delivered);
  }

  lemma CompleteWork(s: System, delivery: Delivery)
    requires s.phase.Sending?
    ensures Work(Complete(s, delivery)) <= Work(s) - 2
  {
    hide OnSent, Conclude;
    var send := s.phase.send;
    ConcludeWork(s.(router := State(OnSent(s.router.core, send, delivery), Sent(s.router.effects, send, delivery))),
                 s.phase.event, delivery);
  }

  lemma PutWork(s: System, send: Send)
    requires send.ToStream? ==> send.key in s.streams
    ensures Work(Put(s, send)) <= Work(s) + 1
  {
  }

  lemma RouterReducesWork(cfg: Deployment, s: System, a: RouterAction)
    requires RouterCan(cfg, s, a) && Productive(s, OfRouter(a))
    ensures Work(RouterDo(cfg, s, a)) < Work(s)
  {
    hide Take, Complete, Put, AfterCommand;
    match a
    case TakeEvent => TakeWork(s);
    case Deliver =>
      PutKeepsPhase(s, s.phase.send);
      PutWork(s, s.phase.send);
      CompleteWork(Put(s, s.phase.send), Delivered);
    case FindGone => CompleteWork(s, ReceiverGone);
    case AbandonSend => CompleteWork(s, Stopped);
    case _ =>
  }

  lemma UnsubscriberReducesWork(cfg: Deployment, s: System, a: UnsubscriberAction)
    requires UnsubscriberCan(cfg, s, a)
    ensures Work(UnsubscriberDo(cfg, s, a)) < Work(s)
  {
  }

  lemma DriverReducesWork(cfg: Deployment, s: System, a: DriverAction)
    requires DriverCan(cfg, s, a) && Productive(s, OfDriver(a))
    ensures Work(DriverDo(cfg, s, a)) < Work(s)
  {
  }

  /** Every productive step leaves less to do. */
  lemma StepReducesWork(cfg: Deployment, s: System, a: Action)
    requires Can(cfg, s, a) && Productive(s, a)
    ensures Work(Do(cfg, s, a)) < Work(s)
  {
    hide CallerCan, CallerDo, RouterCan, RouterDo, UnsubscriberCan, UnsubscriberDo, DriverCan, DriverDo, Work;
    match a
    case OfRouter(router) => RouterReducesWork(cfg, s, router);
    case OfUnsubscriber(unsubscriber) => UnsubscriberReducesWork(cfg, s, unsubscriber);
    case OfDriver(driver) => DriverReducesWork(cfg, s, driver);
  }

  /** Where a sequence of actions leads from a system, if each can be taken. */
  function From(cfg: Deployment, s: System, actions: seq<Action>): Option<System>
    decreases |actions|
  {
    if actions == [] then Some(s)
    else if Can(cfg, s, actions[0]) then From(cfg, Do(cfg, s, actions[0]), actions[1..])
    else None
  }

  /** Whether every action of a run from a system is productive. */
  ghost predicate Tasks(cfg: Deployment, s: System, actions: seq<Action>)
    decreases |actions|
  {
    actions != [] ==>
      && Can(cfg, s, actions[0]) && Productive(s, actions[0])
      && Tasks(cfg, Do(cfg, s, actions[0]), actions[1..])
  }

  /** However the tasks are scheduled, they take no more steps than there is work: no task spins. */
  lemma {:induction false} TasksAreBounded(cfg: Deployment, s: System, tasks: seq<Action>)
    requires Tasks(cfg, s, tasks)
    ensures From(cfg, s, tasks).Some? && |tasks| + Work(From(cfg, s, tasks).value) <= Work(s)
    decreases |tasks|
  {
    hide Can, Do, Productive, Work;
    if tasks != [] {
      StepReducesWork(cfg, s, tasks[0]);
      TasksAreBounded(cfg, Do(cfg, s, tasks[0]), tasks[1..]);
    }
  }

  /** No task has a productive step left. */
  ghost predicate Exhausted(cfg: Deployment, s: System) {
    forall a :: !(Can(cfg, s, a) && Productive(s, a))
  }

  /** Where no task can go on, nothing is pending, or the caller holds up a send. */
  lemma ExhaustedIsSettled(cfg: Deployment, s: System)
    requires Exhausted(cfg, s) && CallerReady(cfg, s)
    ensures !Pending(s)
  {
    hide Can, Productive, Pending, CallerReady, NextTask;
    if Pending(s) {
      SomeTaskCanGoOn(cfg, s);
    }
  }

  /**
   * However the tasks are scheduled, they take no more steps than there is work, and when none can go on, nothing is
   * pending or the caller holds up a send.
   */
  lemma TasksSettle(cfg: Deployment, s: System, tasks: seq<Action>)
    requires Tasks(cfg, s, tasks)
    ensures var t := From(cfg, s, tasks);
            && t.Some? && |tasks| + Work(t.value) <= Work(s)
            && (Exhausted(cfg, t.value) && CallerReady(cfg, t.value) ==> !Pending(t.value))
  {
    hide From, Tasks, Work, Exhausted, Pending, CallerReady;
    TasksAreBounded(cfg, s, tasks);
    var t := From(cfg, s, tasks).value;
    if Exhausted(cfg, t) && CallerReady(cfg, t) {
      ExhaustedIsSettled(cfg, t);
    }
  }

  /** A schedule that stops only where the tasks do, or at a send that the caller holds up. */
  function Schedule(cfg: Deployment, s: System): seq<Action>
    decreases Work(s)
  {
    if Pending(s) && CallerReady(cfg, s) then
      var a := NextTask(cfg, s);
      SomeTaskCanGoOn(cfg, s);
      StepReducesWork(cfg, s, a);
      [a] + Schedule(cfg, Do(cfg, s, a))
    else []
  }

  /** There is such a schedule from every system. */
  lemma {:induction false} ScheduleSettles(cfg: Deployment, s: System)
    ensures Tasks(cfg, s, Schedule(cfg, s))
    ensures var t := From(cfg, s, Schedule(cfg, s)); t.Some? && !(Pending(t.value) && CallerReady(cfg, t.value))
    decreases Work(s)
  {
    hide Can, Do, Productive, Work, Pending, CallerReady, NextTask;
    if Pending(s) && CallerReady(cfg, s) {
      var a := NextTask(cfg, s);
      SomeTaskCanGoOn(cfg, s);
      StepReducesWork(cfg, s, a);
      var rest := Schedule(cfg, Do(cfg, s, a));
      assert ([a] + rest)[1..] == rest;
      ScheduleSettles(cfg, Do(cfg, s, a));
    }
  }

  lemma StopStays(cfg: Deployment, s: System, a: Action)
    requires Can(cfg, s, a) && s.stop
    ensures Do(cfg, s, a).stop
  {
    hide CallerCan, RouterCan, CallerDo, RouterDo, UnsubscriberCan, UnsubscriberDo, DriverCan, DriverDo;
    match a
    case OfCaller(caller) => CallerKeepsStop(cfg, s, caller);
    case OfRouter(HandleCommand) => HandleKeepsStop(cfg, s);
    case OfRouter(router) => RouterIsQuiet(cfg, s, router);
    case _ => OthersKeep(cfg, s, a);
  }

  lemma HandleKeepsStop(cfg: Deployment, s: System)
    requires RouterCan(cfg, s, HandleCommand)
    ensures RouterDo(cfg, s, HandleCommand).stop == s.stop
  {
  }

  lemma CallerKeepsStop(cfg: Deployment, s: System, a: CallerAction)
    requires CallerCan(cfg, s, a) && s.stop
    ensures CallerDo(cfg, s, a).stop
  {
    hide Taken;
  }

  lemma {:induction false} StopStaysThroughout(cfg: Deployment, s: System, actions: seq<Action>)
    requires s.stop && From(cfg, s, actions).Some?
    ensures From(cfg, s, actions).value.stop
    decreases |actions|
  {
    hide Can, Do;
    if actions != [] {
      StopStays(cfg, s, actions[0]);
      StopStaysThroughout(cfg, Do(cfg, s, actions[0]), actions[1..]);
    }
  }

  lemma StoppedIsSettled(cfg: Deployment, s: System)
    requires s.stop && !Pending(s)
    ensures s.phase == Finished && s.unsubscriber.Ended?
  {
  }

  /**
   * Once a stop is ordered no full stream holds the tasks up: however they are scheduled, when none can go on the
   * router and the unsubscription task have ended.
   */
  lemma StopEndsTheTasks(cfg: Deployment, s: System, tasks: seq<Action>)
    requires s.stop && Tasks(cfg, s, tasks)
    ensures var t := From(cfg, s, tasks);
            && t.Some? && |tasks| + Work(t.value) <= Work(s)
            && (Exhausted(cfg, t.value) ==> t.value.phase == Finished && t.value.unsubscriber.Ended?)
  {
    hide From, Tasks, Exhausted, Pending, Work;
    TasksSettle(cfg, s, tasks);
    StopStaysThroughout(cfg, s, tasks);
    var t := From(cfg, s, tasks).value;
    if Exhausted(cfg, t) {
      StoppedIsSettled(cfg, t);
    }
  }

  // ---- the caller can hold everything ------------------------------------------------------------------------------

  /** The driver waits for the router, and the router for a caller's full stream, with no stop ordered. */
  predicate Stalled(cfg: Deployment, s: System) {
    s.driver.Blocked? && |s.events| >= cfg.events && s.phase.Sending? && !CallerReady(cfg, s)
  }

  lemma StallStays(cfg: Deployment, s: System, a: Action)
    requires Stalled(cfg, s) && Can(cfg, s, a) && !a.OfCaller?
    ensures Stalled(cfg, Do(cfg, s, a)) && Do(cfg, s, a).driver == s.driver
  {
    hide CallerCan, CallerDo, UnsubscriberCan, UnsubscriberDo, Complete, Put, Take, Handle;
    match a
    case OfUnsubscriber(unsubscriber) => UnsubscriberKeeps(cfg, s, unsubscriber);
    case _ =>
  }

  /** However long it goes on, whatever the tasks do, the driver stays where it is until the caller acts. */
  lemma {:induction false} StallLasts(cfg: Deployment, s: System, actions: seq<Action>)
    requires Stalled(cfg, s) && From(cfg, s, actions).Some?
    requires forall i :: 0 <= i < |actions| ==> !actions[i].OfCaller?
    ensures Stalled(cfg, From(cfg, s, actions).value) && From(cfg, s, actions).value.driver == s.driver
    decreases |actions|
  {
    hide Can, Do, Stalled;
    if actions != [] {
      StallStays(cfg, s, actions[0]);
      StallLasts(cfg, Do(cfg, s, actions[0]), actions[1..]);
    }
  }
}
