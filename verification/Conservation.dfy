/**
 * Nothing is lost, doubled or reordered in the queues between the driver and the rest, and none outgrows its
 * capacity.
 */
module Conservation {
  import opened Sequences
  import opened RouterCore
  import opened Router
  import opened History
  import opened Protocol
  import opened Invariants
  import opened Runs

  /** The events among the turns. */
  function EventsOf(turns: seq<Turn>): seq<WireEvent> {
    if turns == [] then []
    else
      var t := turns[|turns| - 1];
      EventsOf(turns[..|turns| - 1]) + if t.Happened? then [t.event] else []
  }

  /** The event whose send the router awaits. */
  function InSend(phase: Phase): seq<WireEvent> {
    if phase.Sending? then [phase.event] else []
  }

  /** What the driver reported is what the router has handled, handles, and has still to take. */
  ghost predicate Reported(s: System) {
    EventsOf(s.turns) + InSend(s.phase) + s.events == s.log.reported
  }

  /** What was asked of the driver is what it has served and has still to serve. */
  ghost predicate Served(s: System) {
    s.log.served + s.requests == s.log.asked
  }

  /** Exactly the keys that were requested are among what was asked. */
  ghost predicate Requested(s: System) {
    forall k :: Add(k) in s.log.asked <==> k in s.requested
  }

  ghost predicate Bounded(cfg: Deployment, s: System) {
    && |s.events| <= cfg.events && |s.requests| <= cfg.requests && |s.session.buffer| <= cfg.session
    && forall k <- s.streams :: |s.streams[k].buffer| <= cfg.stream
  }

  ghost predicate Conserved(cfg: Deployment, s: System) {
    Reported(s) && Served(s) && Requested(s) && Bounded(cfg, s)
  }

  lemma {:induction false} EventsOfSnoc(turns: seq<Turn>, t: Turn)
    ensures EventsOf(turns + [t]) == EventsOf(turns) + if t.Happened? then [t.event] else []
  {
    assert (turns + [t])[..|turns|] == turns;
  }

  /** What a step of the router leaves alone of all this. */
  ghost predicate Apart(s: System, t: System) {
    && t.log == s.log && t.requests == s.requests && t.requested == s.requested && t.events == s.events
    && t.streams == s.streams && t.session == s.session
  }

  lemma ConcludeReports(s: System, e: WireEvent, delivery: Delivery)
    ensures var t := Conclude(s, e, delivery);
            Apart(s, t) && EventsOf(t.turns) == EventsOf(s.turns) + [e] && !t.phase.Sending?
  {
    hide EventsOf;
    EventsOfSnoc(s.turns, Happened(e, delivery));
  }

  lemma TakeConserves(cfg: Deployment, s: System)
    requires Conserved(cfg, s) && s.phase == PastStop && s.events != []
    ensures Conserved(cfg, Take(s))
  {
    hide EventsOf, OnEvent, Conclude;
    var e := s.events[0];
    ConcludeReports(Taking(s), e, Delivered);
    assert EventsOf(s.turns) + [] + s.events == EventsOf(s.turns) + [e] + [] + s.events[1..];
  }

  lemma CompleteConserves(cfg: Deployment, s: System, delivery: Delivery)
    requires Conserved(cfg, s) && s.phase.Sending?
    ensures Conserved(cfg, Complete(s, delivery))
  {
    hide EventsOf, OnSent, Conclude;
    var send := s.phase.send;
    var core, effects := OnSent(s.router.core, send, delivery), Sent(s.router.effects, send, delivery);
    ConcludeReports(s.(router := State(core, effects)), s.phase.event, delivery);
    assert EventsOf(s.turns) + [s.phase.event] + [] == EventsOf(s.turns) + [s.phase.event];
  }

  lemma PutConserves(cfg: Deployment, s: System)
    requires Conserved(cfg, s) && s.phase.Sending? && HasRoom(cfg, s, s.phase.send)
    ensures Conserved(cfg, Put(s, s.phase.send))
  {
    hide EventsOf;
  }

  lemma TurnsConserve(cfg: Deployment, s: System, a: RouterAction)
    requires Conserved(cfg, s) && RouterCan(cfg, s, a)
    requires a.HandleCommand? || a.NoticeClosed? || a.SeeStop? || a.SeeEnd?
    ensures Conserved(cfg, RouterDo(cfg, s, a))
  {
    hide EventsOf, OnCommand;
    var t := RouterDo(cfg, s, a);
    EventsOfSnoc(s.turns, t.turns[|s.turns|]);
    assert EventsOf(s.turns) + [] == EventsOf(s.turns);
  }

  lemma RouterConserves(cfg: Deployment, s: System, a: RouterAction)
    requires Conserved(cfg, s) && RouterCan(cfg, s, a)
    ensures Conserved(cfg, RouterDo(cfg, s, a))
  {
    hide EventsOf, Take, Complete, Put, Handle;
    match a
    case TakeEvent => TakeConserves(cfg, s);
    case Deliver =>
      PutConserves(cfg, s);
      PutKeepsPhase(s, s.phase.send);
      CompleteConserves(cfg, Put(s, s.phase.send), Delivered);
    case FindGone => CompleteConserves(cfg, s, ReceiverGone);
    case AbandonSend => CompleteConserves(cfg, s, Stopped);
    case PassCommands =>
    case PassStop =>
    case Repoll =>
    case FindFull =>
    case _ => TurnsConserve(cfg, s, a);
  }

  lemma QueueingConserves(cfg: Deployment, s: System, request: Request)
    requires Served(s) && |s.requests| < cfg.requests && Bounded(cfg, s)
    ensures var t := Queued(s, request);
            && Served(t) && Bounded(cfg, t)
            && forall k :: Add(k) in t.log.asked <==> Add(k) in s.log.asked || request == Add(k)
  {
    assert s.log.served + (s.requests + [request]) == s.log.asked + [request];
  }

  predicate Queues(a: CallerAction) {
    a.QueueRequest? || a.Ask?
  }

  lemma CallerQueues(cfg: Deployment, s: System, a: CallerAction)
    requires Conserved(cfg, s) && CallerCan(cfg, s, a) && Queues(a)
    ensures Conserved(cfg, CallerDo(cfg, s, a))
  {
    hide EventsOf;
    match a
    case QueueRequest(k) => QueueingConserves(cfg, Given(s, k, Held), Add(k));
    case Ask(request) => QueueingConserves(cfg, s, request);
  }

  /** One stream's queue is as it was, or shorter, or new and empty. */
  predicate NoLonger(s: System, t: System, k: Key) {
    k in t.streams ==>
      t.streams[k].buffer == [] || (k in s.streams && |t.streams[k].buffer| <= |s.streams[k].buffer|)
  }

  /** Every other action of the caller leaves these queues alone, and its streams as they are or shorter. */
  lemma CallerLeaves(cfg: Deployment, s: System, a: CallerAction, k: Key)
    requires CallerCan(cfg, s, a) && !Queues(a)
    ensures var t := CallerDo(cfg, s, a);
            && t.log == s.log && t.requests == s.requests && t.requested == s.requested
            && |t.session.buffer| <= |s.session.buffer| && NoLonger(s, t, k)
  {
    if Pushing(a) {
      hide CallerDo, Push, Ahead;
      CallerPushes(cfg, s, a);
      AheadKeeps(s, a);
      AheadLeaves(s, a, k);
      PushKeeps(Ahead(s, a), Pushed(a));
    } else {
      PushlessLeaves(cfg, s, a, k);
    }
  }

  lemma AheadLeaves(s: System, a: CallerAction, k: Key)
    requires Pushing(a) && (a.BeginSubscribe? || a.key in s.streams)
    ensures NoLonger(s, Ahead(s, a), k)
  {
  }

  lemma PushlessLeaves(cfg: Deployment, s: System, a: CallerAction, k: Key)
    requires CallerCan(cfg, s, a) && !Queues(a) && !Pushing(a)
    ensures var t := CallerDo(cfg, s, a);
            && t.log == s.log && t.requests == s.requests && t.requested == s.requested
            && |t.session.buffer| <= |s.session.buffer| && NoLonger(s, t, k)
  {
    hide Given, NoLonger;
    if a.CancelSubscribe? || a.EndDrop? {
      GivenKeepsRest(s, a.key, Gone);
      GivenLeaves(s, a.key, Gone, k);
    } else if a.Receive? {
      ReceiveLeaves(s, a.key, k);
    } else {
      SameStreams(s, CallerDo(cfg, s, a), k);
    }
  }

  lemma GivenLeaves(s: System, j: Key, holder: Holder, k: Key)
    requires j in s.streams
    ensures NoLonger(s, Given(s, j, holder), k)
  {
  }

  lemma ReceiveLeaves(s: System, j: Key, k: Key)
    requires j in s.streams && s.streams[j].buffer != []
    ensures NoLonger(s, s.(streams := s.streams[j := Taken(s.streams[j])]), k)
  {
  }

  lemma SameStreams(s: System, t: System, k: Key)
    requires s.streams == t.streams
    ensures NoLonger(s, t, k)
  {
  }

  lemma CallerConserves(cfg: Deployment, s: System, a: CallerAction)
    requires Conserved(cfg, s) && CallerCan(cfg, s, a)
    ensures Conserved(cfg, CallerDo(cfg, s, a))
  {
    hide EventsOf, CallerCan, CallerDo;
    if Queues(a) {
      CallerQueues(cfg, s, a);
    } else {
      CallerKeeps(cfg, s, a);
      CallerLeaves(cfg, s, a, 0);
      var t := CallerDo(cfg, s, a);
      forall k <- t.streams ensures |t.streams[k].buffer| <= cfg.stream {
        CallerLeaves(cfg, s, a, k);
      }
    }
  }

  lemma UnsubscriberConserves(cfg: Deployment, s: System, a: UnsubscriberAction)
    requires Conserved(cfg, s) && UnsubscriberCan(cfg, s, a)
    ensures Conserved(cfg, UnsubscriberDo(cfg, s, a))
  {
    hide EventsOf;
    if a.Issue? {
      QueueingConserves(cfg, s, Delete(s.unsubscriber.key));
    }
  }

  lemma DriverConserves(cfg: Deployment, s: System, a: DriverAction)
    requires Conserved(cfg, s) && DriverCan(cfg, s, a)
    ensures Conserved(cfg, DriverDo(cfg, s, a))
  {
    hide EventsOf;
    match a
    case PushEvent =>
      var handled := EventsOf(s.turns) + InSend(s.phase);
      assert handled + (s.events + [s.driver.event]) == handled + s.events + [s.driver.event];
    case Consume =>
      assert s.log.served + [s.requests[0]] + s.requests[1..] == s.log.served + s.requests;
    case _ =>
  }

  lemma {:induction false} RunConserves(cfg: Deployment, actions: seq<Action>)
    requires Exec(cfg, actions).Some?
    ensures Conserved(cfg, Exec(cfg, actions).value)
    decreases |actions|
  {
    hide Conserved, CallerCan, CallerDo, RouterCan, RouterDo, UnsubscriberCan, UnsubscriberDo, DriverCan, DriverDo;
    if actions == [] {
      StartConserves(cfg);
    } else {
      var before := actions[..|actions| - 1];
      RunConserves(cfg, before);
      var s := Exec(cfg, before).value;
      match actions[|actions| - 1]
      case OfCaller(caller) => CallerConserves(cfg, s, caller);
      case OfRouter(router) => RouterConserves(cfg, s, router);
      case OfUnsubscriber(unsubscriber) => UnsubscriberConserves(cfg, s, unsubscriber);
      case OfDriver(driver) => DriverConserves(cfg, s, driver);
    }
  }

  lemma StartConserves(cfg: Deployment)
    ensures Conserved(cfg, START)
  {
  }

  lemma ReachableIsConserved(cfg: Deployment, s: System)
    requires Reachable(cfg, s)
    ensures Conserved(cfg, s)
  {
    hide Exec, Conserved;
    var actions: seq<Action> :| Exec(cfg, actions) == Some(s);
    RunConserves(cfg, actions);
  }

  /**
   * In every reachable state the events handled, the one whose send is awaited and those still queued are together
   * what the driver reported, in order: between the driver and the router none is lost, doubled or overtaken.
   */
  lemma EventsArriveInOrder(cfg: Deployment, s: System)
    requires Reachable(cfg, s)
    ensures EventsOf(s.turns) + InSend(s.phase) + s.events == s.log.reported
  {
    hide Reachable, EventsOf;
    ReachableIsConserved(cfg, s);
  }

  /** The requests that the driver has taken and those still queued are together what was asked, in order. */
  lemma RequestsArriveInOrder(cfg: Deployment, s: System)
    requires Reachable(cfg, s)
    ensures s.log.served + s.requests == s.log.asked
    ensures forall k :: Add(k) in s.log.asked <==> k in s.requested
  {
    hide Reachable, EventsOf;
    ReachableIsConserved(cfg, s);
  }

  /** Backpressure: no bounded queue ever holds more than its capacity. */
  lemma QueuesAreBounded(cfg: Deployment, s: System)
    requires Reachable(cfg, s)
    ensures |s.events| <= cfg.events && |s.requests| <= cfg.requests && |s.session.buffer| <= cfg.session
    ensures forall k <- s.streams :: |s.streams[k].buffer| <= cfg.stream
  {
    hide Reachable, EventsOf;
    ReachableIsConserved(cfg, s);
  }
}
