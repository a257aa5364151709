/** Safety over whole runs of the client. */
module Runs {
  import opened Sequences
  import opened RouterCore
  import opened Router
  import opened History
  import opened Protocol
  import opened Invariants
  import opened Fanout

  ghost predicate Asked(s: System, e: WireEvent) {
    Addressee(e).Some? ==> Addressee(e).value in s.requested
  }

  /** Events speak of requested keys, and a poll in one piece reaches the events only when no command waits. */
  ghost predicate Sourced(cfg: Deployment, s: System) {
    && (forall i :: 0 <= i < |s.events| ==> Asked(s, s.events[i]))
    && (s.driver.Blocked? ==> Asked(s, s.driver.event))
    && (cfg.atomicPoll && Polling(s) ==> s.commands == [])
  }

  lemma CallerKeepsSourced(cfg: Deployment, s: System, a: CallerAction)
    requires Sourced(cfg, s) && Can(cfg, s, OfCaller(a))
    ensures Sourced(cfg, CallerDo(cfg, s, a))
  {
    var t := CallerDo(cfg, s, a);
    CallerKeeps(cfg, s, a);
    assert s.requested <= t.requested;
    forall i | 0 <= i < |t.events| ensures Asked(t, t.events[i]) {
      assert Asked(s, s.events[i]);
    }
  }

  lemma ConcludeSteps(s: System, e: WireEvent, delivery: Delivery)
    ensures var t := Conclude(s, e, delivery);
            && t.requested == s.requested && t.driver == s.driver
            && t.events == s.events && t.phase in {Selecting, Finished}
  {
  }

  lemma TakeSteps(s: System)
    requires s.events != []
    ensures var t := Take(s);
            && t.requested == s.requested && t.driver == s.driver
            && t.events == s.events[1..] && !Polling(t)
  {
    hide OnEvent, Conclude;
    var e := s.events[0];
    var d := OnEvent(s.router.core, e);
    ConcludeSteps(s.(events := s.events[1..], router := State(d.core, Told(s.router.effects, d.signal))), e, Delivered);
  }

  lemma CompleteSteps(s: System, delivery: Delivery)
    requires s.phase.Sending?
    ensures var t := Complete(s, delivery);
            && t.requested == s.requested && t.driver == s.driver
            && t.events == s.events && !Polling(t)
  {
    hide OnSent, Conclude;
    var send := s.phase.send;
    ConcludeSteps(s.(router := State(OnSent(s.router.core, send, delivery), Sent(s.router.effects, send, delivery))),
                  s.phase.event, delivery);
  }

  lemma RouterSteps(cfg: Deployment, s: System, a: RouterAction)
    requires RouterCan(cfg, s, a)
    ensures var t := RouterDo(cfg, s, a);
            && t.requested == s.requested && t.driver == s.driver
            && t.events == (if a.TakeEvent? then s.events[1..] else s.events)
            && (Polling(t) ==> a.PassCommands? || a.PassStop?)
  {
    hide AfterCommand, OnCommand, Take, Put, Complete;
    match a
    case TakeEvent => TakeSteps(s);
    case Deliver =>
      PutKeepsPhase(s, s.phase.send);
      CompleteSteps(Put(s, s.phase.send), Delivered);
    case FindGone => CompleteSteps(s, ReceiverGone);
    case AbandonSend => CompleteSteps(s, Stopped);
    case _ =>
  }

  lemma RouterKeepsSourced(cfg: Deployment, s: System, a: RouterAction)
    requires Sourced(cfg, s) && Wired(s) && RouterCan(cfg, s, a)
    ensures Sourced(cfg, RouterDo(cfg, s, a))
  {
    hide RouterDo;
    var t := RouterDo(cfg, s, a);
    RouterSteps(cfg, s, a);
    if Polling(t) {
      PollsOn(cfg, s, a);
    }
    forall i | 0 <= i < |t.events| ensures Asked(t, t.events[i]) {
      assert Asked(s, s.events[if a.TakeEvent? then i + 1 else i]);
    }
  }

  lemma PollsOn(cfg: Deployment, s: System, a: RouterAction)
    requires RouterCan(cfg, s, a) && (a.PassCommands? || a.PassStop?)
    ensures RouterDo(cfg, s, a) == s.(phase := if a.PassCommands? then PastCommands else PastStop)
  {
  }

  lemma OthersKeepSourced(cfg: Deployment, s: System, a: Action)
    requires Sourced(cfg, s) && Can(cfg, s, a) && (a.OfUnsubscriber? || a.OfDriver?)
    ensures Sourced(cfg, Do(cfg, s, a))
  {
    hide CallerCan, CallerDo, RouterCan, RouterDo, UnsubscriberDo, DriverDo, UnsubscriberCan, DriverCan, Asked;
    match a
    case OfUnsubscriber(unsubscriber) =>
      UnsubscriberKeeps(cfg, s, unsubscriber);
      SameRequestsAll(s, UnsubscriberDo(cfg, s, unsubscriber));
    case OfDriver(driver) => DriverKeepsSourced(cfg, s, driver);
  }

  lemma DriverKeepsSourced(cfg: Deployment, s: System, a: DriverAction)
    requires Sourced(cfg, s) && DriverCan(cfg, s, a)
    ensures Sourced(cfg, DriverDo(cfg, s, a))
  {
    hide Asked;
    SameRequestsAll(s, DriverDo(cfg, s, a));
    if a.Produce? {
      MayProduce(cfg, s, a.event);
    }
  }

  lemma SameRequestsAll(s: System, t: System)
    requires s.requested == t.requested
    ensures forall e :: Asked(s, e) ==> Asked(t, e)
  {
  }

  lemma MayProduce(cfg: Deployment, s: System, e: WireEvent)
    requires DriverCan(cfg, s, Produce(e))
    ensures Asked(s, e)
  {
  }

  /** Before the client is handed out nobody can have subscribed. */
  predicate HandedOut(s: System) {
    !IsReady(s) ==> s.streams == map[]
  }

  lemma CallerKeepsHandedOut(cfg: Deployment, s: System, a: CallerAction)
    requires HandedOut(s) && CallerCan(cfg, s, a)
    ensures HandedOut(CallerDo(cfg, s, a))
  {
  }

  lemma HandleKeepsHandedOut(cfg: Deployment, s: System)
    requires HandedOut(s) && RouterCan(cfg, s, HandleCommand)
    ensures HandedOut(RouterDo(cfg, s, HandleCommand))
  {
  }

  lemma QuietKeepsHandedOut(s: System, t: System)
    requires HandedOut(s) && Quiet(s, t)
    ensures HandedOut(t)
  {
    hide CommandsOf;
    if !IsReady(t) {
      assert t.streams.Keys == {};
    }
  }

  lemma StepKeepsHandedOut(cfg: Deployment, s: System, a: Action)
    requires HandedOut(s) && Can(cfg, s, a)
    ensures HandedOut(Do(cfg, s, a))
  {
    hide CallerCan, CallerDo, RouterCan, RouterDo, UnsubscriberCan, UnsubscriberDo, DriverCan, DriverDo,
      HandedOut, Quiet;
    match a
    case OfCaller(caller) => CallerKeepsHandedOut(cfg, s, caller);
    case OfRouter(HandleCommand) => HandleKeepsHandedOut(cfg, s);
    case OfRouter(router) =>
      RouterIsQuiet(cfg, s, router);
      QuietKeepsHandedOut(s, RouterDo(cfg, s, router));
    case _ => OthersKeepHandedOut(cfg, s, a);
  }

  lemma OthersKeepHandedOut(cfg: Deployment, s: System, a: Action)
    requires HandedOut(s) && Can(cfg, s, a) && (a.OfUnsubscriber? || a.OfDriver?)
    ensures HandedOut(Do(cfg, s, a))
  {
    hide Do, Can;
    OthersKeep(cfg, s, a);
  }

  ghost predicate Sane(cfg: Deployment, s: System) {
    Wired(s) && Logged(s) && Refines(s) && AllServed(s) && Forwarded(s) && Sourced(cfg, s) && HandedOut(s)
  }

  lemma StartIsSane(cfg: Deployment)
    ensures Sane(cfg, START)
  {
    NoTurns(0);
    forall k ensures LoggedFor(START, k) && StreamServed(START, k) {
      NoTurns(k);
    }
  }

  lemma StepKeepsSane(cfg: Deployment, s: System, a: Action)
    requires Sane(cfg, s) && Can(cfg, s, a)
    ensures Sane(cfg, Do(cfg, s, a))
  {
    hide Wired, Logged, Refines, AllServed, Forwarded, Sourced, HandedOut, Do;
    StepKeepsWired(cfg, s, a);
    StepKeepsLogged(cfg, s, a);
    StepKeepsRefines(cfg, s, a);
    StepServes(cfg, s, a);
    StepKeepsForwarded(cfg, s, a);
    StepKeepsSourced(cfg, s, a);
    StepKeepsHandedOut(cfg, s, a);
  }

  lemma StepKeepsSourced(cfg: Deployment, s: System, a: Action)
    requires Sourced(cfg, s) && Wired(s) && Can(cfg, s, a)
    ensures Sourced(cfg, Do(cfg, s, a))
  {
    hide CallerCan, CallerDo, RouterCan, RouterDo, UnsubscriberCan, UnsubscriberDo, DriverCan, DriverDo, Sourced, Wired;
    match a
    case OfCaller(caller) => CallerKeepsSourced(cfg, s, caller);
    case OfRouter(router) => RouterKeepsSourced(cfg, s, router);
    case _ => OthersKeepSourced(cfg, s, a);
  }

  lemma {:induction false} AlwaysSane(cfg: Deployment, actions: seq<Action>)
    requires Exec(cfg, actions).Some?
    ensures Sane(cfg, Exec(cfg, actions).value)
    decreases |actions|
  {
    hide Sane, Can, Do;
    if actions == [] {
      StartIsSane(cfg);
    } else {
      var before := actions[..|actions| - 1];
      AlwaysSane(cfg, before);
      StepKeepsSane(cfg, Exec(cfg, before).value, actions[|actions| - 1]);
    }
  }

  /** Whether some run leads to a system. */
  ghost predicate Reachable(cfg: Deployment, s: System) {
    exists actions: seq<Action> :: Exec(cfg, actions) == Some(s)
  }

  /** Every invariant holds in every reachable system. */
  lemma ReachableIsSane(cfg: Deployment, s: System)
    requires Reachable(cfg, s)
    ensures Sane(cfg, s)
  {
    hide Exec, Sane;
    var actions: seq<Action> :| Exec(cfg, actions) == Some(s);
    AlwaysSane(cfg, actions);
  }

  /* Discarded events. */

  /** Whether some turn ended the key while it was live. */
  predicate EndedBy(k: Key, turns: seq<Turn>) {
    exists i | 0 <= i < |turns| :: EndsKey(k, turns[i]) && Live(k, turns[..i])
  }

  /** A subscription registered once and ended is never live again. */
  lemma {:induction false} EndedIsOver(k: Key, turns: seq<Turn>, i: nat)
    requires Registrations(k, CommandsOf(turns)) <= 1
    requires i < |turns| && EndsKey(k, turns[i]) && Live(k, turns[..i])
    ensures !Live(k, turns)
    decreases |turns|
  {
    hide Owed, Live, CommandsOf, NewsFor;
    var before, t := turns[..|turns| - 1], turns[|turns| - 1];
    assert turns == before + [t];
    LiveSnoc(k, before, t);
    CommandsOfSnoc(before, t);
    OwedEndsOnce(k, before);
    if i == |before| {
      assert turns[..i] == before;
    } else {
      assert turns[..i] == before[..i];
      LiveWasRegistered(k, before, i);
      EndedIsOver(k, before, i);
    }
  }

  lemma {:induction false} LiveWasRegistered(k: Key, turns: seq<Turn>, i: nat)
    requires i <= |turns| && Live(k, turns[..i])
    ensures Registrations(k, CommandsOf(turns)) >= 1
    decreases |turns|
  {
    hide Live, CommandsOf;
    if i == |turns| {
      assert turns[..i] == turns;
      LiveIsRegistered(k, turns);
    } else {
      var before, t := turns[..|turns| - 1], turns[|turns| - 1];
      assert turns == before + [t] && turns[..i] == before[..i];
      CommandsOfSnoc(before, t);
      LiveWasRegistered(k, before, i);
    }
  }

  lemma LiveIsRegistered(k: Key, turns: seq<Turn>)
    requires Live(k, turns)
    ensures Registrations(k, CommandsOf(turns)) >= 1
  {
    if Registrations(k, CommandsOf(turns)) == 0 {
      OwedEndsOnce(k, turns);
    }
  }

  /** The router is about to take an event with news for a subscription. */
  predicate Telling(s: System, k: Key) {
    s.phase == PastStop && s.events != [] && NewsFor(k, s.events[0]).Some?
  }

  /** The event the router is about to take says something to a subscription that will not reach its stream. */
  predicate Discards(s: System, k: Key) {
    && Telling(s, k)
    && OnEvent(s.router.core, s.events[0]).send != Some(ToStream(k, NewsFor(k, s.events[0]).value))
  }

  lemma NewsIsAddressed(k: Key, e: WireEvent)
    requires NewsFor(k, e).Some?
    ensures Addressee(e) == Some(k)
  {
  }

  /**
   * When the router is about to take an event with news for a subscription, it discards it exactly when the
   * subscription has already ended, or its registration still waits in the command queue.
   */
  lemma DiscardsExactly(cfg: Deployment, s: System, k: Key)
    requires Reachable(cfg, s) && Telling(s, k)
    ensures Discards(s, k) <==> EndedBy(k, s.turns) || Register(k) in s.commands
  {
    hide Reachable, Live, AllServed, Forwarded, OnEvent, NewsFor, AfterTurns, EndsKey, CommandsOf, EndedBy;
    ReachableIsSane(cfg, s);
    assert Asked(s, s.events[0]);
    NewsIsAddressed(k, s.events[0]);
    SendsWhatIsOwed(s.router.core, s.events[0]);
    RegisteredExactlyLive(k, s.turns);
    assert Discards(s, k) == !Live(k, s.turns);
    NotLiveExactly(s, k);
  }

  lemma NotLiveExactly(s: System, k: Key)
    requires Logged(s) && k in s.streams
    ensures !Live(k, s.turns) <==> EndedBy(k, s.turns) || Register(k) in s.commands
  {
    hide Live, EndsKey, CommandsOf;
    assert LoggedFor(s, k);
    assert multiset(s.pushed) == multiset(CommandsOf(s.turns)) + multiset(s.commands);
    if Register(k) in s.commands {
      assert multiset(s.commands)[Register(k)] >= 1;
      if Live(k, s.turns) {
        LiveIsRegistered(k, s.turns);
      }
    } else {
      assert multiset(s.commands)[Register(k)] == 0;
      assert Register(k) in CommandsOf(s.turns);
      if !Live(k, s.turns) {
        var i := RegisteredThenEnded(k, s.turns);
      } else if EndedBy(k, s.turns) {
        var i :| 0 <= i < |s.turns| && EndsKey(k, s.turns[i]) && Live(k, s.turns[..i]);
        EndedIsOver(k, s.turns, i);
      }
    }
  }

  /**
   * Polled in one piece, the router discards exactly what comes after the end: no notification outruns its
   * registration.
   */
  lemma NothingOutrunsItsRegistration(cfg: Deployment, s: System, k: Key)
    requires Reachable(cfg, s) && cfg.atomicPoll && Telling(s, k)
    ensures Discards(s, k) <==> EndedBy(k, s.turns)
  {
    hide Reachable, Discards, EndedBy, Wired, Logged, Refines, AllServed, Forwarded;
    ReachableIsSane(cfg, s);
    DiscardsExactly(cfg, s, k);
  }

  /* Streams. */

  /**
   * Every subscription's stream has been given a prefix of what it is owed, all of it unless its receiver is gone or
   * a stop was ordered, and at most one terminal event, as its last.
   */
  lemma StreamsGetWhatTheyAreOwed(cfg: Deployment, s: System, k: Key)
    requires Reachable(cfg, s)
    ensures k in s.streams ==>
              var o := s.streams[k];
              && Out(o) <= Owed(k, s.turns)
              && (Out(o) == Owed(k, s.turns) || o.holder == Gone || s.stop)
              && EndsOnce(Out(o), false)
  {
    hide Reachable, Owed, Live, CommandsOf, Wired, Refines, Forwarded, Sourced, Out;
    ReachableIsSane(cfg, s);
    assert StreamServed(s, k);
    assert LoggedFor(s, k);
    assert multiset(s.pushed) == multiset(CommandsOf(s.turns)) + multiset(s.commands);
    OwedEndsOnce(k, s.turns);
  }

  /**
   * The session's stream has been given a prefix of the session's news, all of it unless it was dropped or a stop
   * came.
   */
  lemma SessionGetsWhatItIsOwed(cfg: Deployment, s: System)
    requires Reachable(cfg, s)
    ensures && Out(s.session) <= OwedSession(s.turns)
            && (Out(s.session) == OwedSession(s.turns) || s.session.holder == Gone || s.stop)
  {
    hide Reachable, OwedSession, StreamServed, Out;
    ReachableIsSane(cfg, s);
  }

  /**
   * Between events, the router is where its turns lead: the state its own loop computes from them. It has ended exactly
   * when its last turn is a stop, the end of the events, or the session's close, and no turn before that is one.
   */
  lemma RouterFollowsItsTurns(cfg: Deployment, s: System)
    requires Reachable(cfg, s)
    ensures !s.phase.Sending? ==> s.router == AfterTurns(INITIAL, s.turns)
    ensures s.phase == Finished <==> s.turns != [] && Last(s.turns[|s.turns| - 1])
    ensures forall i :: 0 <= i < |s.turns| - 1 ==> !Last(s.turns[i])
  {
    hide Reachable, AfterTurns, Ends, Last, Wired, Logged, AllServed, Forwarded, Sourced, HandedOut;
    ReachableIsSane(cfg, s);
    forall i | 0 <= i < |s.turns| ensures Ends(s.turns[i]) <==> Last(s.turns[i]) {
      EndsExactly(s.turns[i]);
    }
    if s.phase == Finished {
      var before := s.turns[..|s.turns| - 1];
      assert forall i :: 0 <= i < |before| ==> before[i] == s.turns[i];
    }
  }

  /* Readiness. */

  /** The turns taken and the event whose send is awaited. */
  function Heard(s: System): seq<Turn> {
    s.turns + if s.phase.Sending? then [Happened(s.phase.event, Stopped)] else []
  }

  /** Readiness has fired with the first bind or close heard, or else, once, with the router's end. */
  lemma ReadinessFiresOnce(cfg: Deployment, s: System)
    requires Reachable(cfg, s)
    ensures s.router.effects.signals ==
              match FirstNews(Heard(s))
              case Some(readiness) => [readiness]
              case None => if s.phase == Finished then [Err(NeverBound)] else []
  {
    hide Reachable, Wired, Logged, AllServed, Forwarded, Sourced, AfterTurns, OnEvent, FirstNews, Ends, AfterTurn;
    ReachableIsSane(cfg, s);
    match s.phase
    case Sending(e, send) =>
      SignalsFirstNews(s.turns);
      EventSignals(AfterTurns(INITIAL, s.turns).core, e);
      FirstNewsSnoc(s.turns, Happened(e, Stopped));
      FirstNewsOfOne(Happened(e, Stopped));
    case Finished =>
      var before, t := s.turns[..|s.turns| - 1], s.turns[|s.turns| - 1];
      assert s.turns == before + [t] && Heard(s) == s.turns;
      SignalsFirstNews(before);
      AfterTurnsSnoc(INITIAL, before, t);
      TurnSignals(AfterTurns(INITIAL, before), t);
      FirstNewsSnoc(before, t);
      FirstNewsOfOne(t);
    case _ =>
      assert Heard(s) == s.turns;
      SignalsFirstNews(s.turns);
  }

  /* Unsubscriptions. */

  lemma RouterAskedForDrops(s: System)
    requires Refines(s)
    ensures s.router.effects.unsubscribed == Drops(CommandsOf(s.turns))
  {
    hide AfterTurns, OnEvent, Ends, AfterTurn, CommandsOf, Drops;
    match s.phase
    case Finished =>
      var before, t := s.turns[..|s.turns| - 1], s.turns[|s.turns| - 1];
      assert s.turns == before + [t];
      UnsubscribesDrops(before);
      AfterTurnsSnoc(INITIAL, before, t);
      TurnUnsubscribes(AfterTurns(INITIAL, before), t);
      CommandsOfSnoc(before, t);
      DropsConcat(CommandsOf(before), if t.Commanded? then [t.command] else []);
    case _ =>
      UnsubscribesDrops(s.turns);
  }

  lemma {:induction false} DropsCount(k: Key, commands: seq<Command>)
    ensures multiset(Drops(commands))[k] == DropReports(k, commands)
  {
    hide Drops;
    if commands == [] {
      NoTurns(k);
    } else {
      var c, rest := commands[0], commands[1..];
      assert commands == [c] + rest;
      DropsCount(k, rest);
      DropsStep(c, rest);
    }
  }

  /**
   * The unsubscriptions issued, the one in hand, those queued and those still among the router's commands are
   * together the streams the caller dropped, in order. So what is issued is a prefix of the drops, whatever failed
   * first.
   */
  lemma DroppedStreamsAreUnsubscribedInOrder(cfg: Deployment, s: System)
    requires Reachable(cfg, s)
    ensures s.issued + InHand(s.unsubscriber) + s.keys + Drops(s.commands) == Drops(s.pushed)
  {
    hide Reachable, Wired, AllServed, Sourced, Refines, Drops, CommandsOf, DropReports;
    ReachableIsSane(cfg, s);
    RouterAskedForDrops(s);
    DropsConcat(CommandsOf(s.turns), s.commands);
  }

  /** No stream is dropped, and so none unsubscribed, twice. */
  lemma NoneIsUnsubscribedTwice(cfg: Deployment, s: System, k: Key)
    requires Reachable(cfg, s)
    ensures multiset(Drops(s.pushed))[k] <= 1 && multiset(s.issued)[k] <= 1
  {
    hide Reachable, Wired, AllServed, Sourced, Refines, Drops, CommandsOf, DropReports, Exec;
    ReachableIsSane(cfg, s);
    DroppedStreamsAreUnsubscribedInOrder(cfg, s);
    assert LoggedFor(s, k);
    DropsCount(k, s.pushed);
    var rest := InHand(s.unsubscriber) + s.keys + Drops(s.commands);
    assert s.issued + rest == Drops(s.pushed);
  }

  /* Several threads. */

  /** One of everything, and other tasks running while the router polls. */
  const THREADED := Deployment(1, 1, 1, 1, false)

  /** The session binds, and `connect` returns. */
  const BINDING := [
    OfDriver(Produce(WireBound("session"))),
    OfDriver(PushEvent),
    OfRouter(PassCommands),
    OfRouter(PassStop),
    OfRouter(TakeEvent),
    OfRouter(Deliver)]

  const UPDATE := WireSubscription(7, Ok(WireUpdate("price")))

  /** Then a subscription is registered, requested and reported on, all between two branches of one poll. */
  const RACE := BINDING + [
    OfRouter(PassCommands),
    OfCaller(BeginSubscribe(7)),
    OfCaller(QueueRequest(7)),
    OfDriver(Consume),
    OfDriver(Produce(UPDATE)),
    OfDriver(PushEvent),
    OfRouter(PassStop)]

  /** What the bind leaves. */
  const BOUND := START.(
    session := Outlet([], [SessionEvent.Connected("session")], Held),
    router := State(Core({}, true, false),
                    Effects([(ToSession(SessionEvent.Connected("session")), Delivered)], [], [Ok("session")])),
    turns := [Happened(WireBound("session"), Delivered)],
    log := Log([WireBound("session")], [], []))

  /** The states of the bind. */
  function Binding(i: nat): System
    requires i <= 6
  {
    var sending := BOUND.(session := START.session, turns := [],
                          router := State(Core({}, true, false), Effects([], [], [Ok("session")])));
    var pushed := START.(events := [WireBound("session")], log := BOUND.log);
    if i == 0 then START
    else if i == 1 then START.(driver := Blocked(WireBound("session")))
    else if i == 2 then pushed
    else if i == 3 then pushed.(phase := PastCommands)
    else if i == 4 then pushed.(phase := PastStop)
    else if i == 5 then sending.(phase := Sending(WireBound("session"), ToSession(SessionEvent.Connected("session"))))
    else BOUND
  }

  /** The states of the race. */
  function Racing(i: nat): System
    requires i <= 7
  {
    var begun := BOUND.(phase := PastCommands, streams := map[7 := Outlet([], [], Requesting)],
                        commands := [Register(7)], pushed := [Register(7)]);
    var queued := begun.(streams := map[7 := Outlet([], [], Held)], requests := [Add(7)], requested := {7},
                         log := BOUND.log.(asked := [Add(7)]));
    var served := queued.(requests := [], log := queued.log.(served := [Add(7)]));
    var updated := served.(events := [UPDATE], log := served.log.(reported := [WireBound("session"), UPDATE]));
    if i == 0 then BOUND
    else if i == 1 then BOUND.(phase := PastCommands)
    else if i == 2 then begun
    else if i == 3 then queued
    else if i == 4 then served
    else if i == 5 then served.(driver := Blocked(UPDATE))
    else if i == 6 then updated
    else updated.(phase := PastStop)
  }

  lemma BindComes(i: nat)
    requires i < 4
    ensures Can(THREADED, Binding(i), RACE[i]) && Do(THREADED, Binding(i), RACE[i]) == Binding(i + 1)
  {
    hide OnEvent, OnSent, Complete, Take, Handle;
  }

  lemma BindIsTaken()
    ensures Can(THREADED, Binding(4), RACE[4]) && Do(THREADED, Binding(4), RACE[4]) == Binding(5)
  {
    hide OnSent, Complete, Handle, Conclude;
  }

  lemma BindIsDelivered()
    ensures Can(THREADED, Binding(5), RACE[5]) && Do(THREADED, Binding(5), RACE[5]) == Binding(6)
  {
    hide OnEvent, Take, Handle;
  }

  lemma {:induction false} BindStep(i: nat)
    requires i < 6
    ensures Can(THREADED, Binding(i), RACE[i]) && Do(THREADED, Binding(i), RACE[i]) == Binding(i + 1)
  {
    hide Can, Do, Binding, RACE;
    if i < 4 {
      BindComes(i);
    } else if i == 4 {
      BindIsTaken();
    } else {
      BindIsDelivered();
    }
  }

  lemma {:induction false} RaceRequests(i: nat)
    requires i < 3
    ensures Can(THREADED, Racing(i), RACE[6 + i]) && Do(THREADED, Racing(i), RACE[6 + i]) == Racing(i + 1)
  {
    hide OnEvent, OnSent, Complete, Take, Handle;
    if i == 1 {
      assert Racing(1).streams[7 := Outlet([], [], Requesting)] == map[7 := Outlet([], [], Requesting)];
    } else if i == 2 {
      assert Racing(2).streams[7 := Outlet([], [], Held)] == map[7 := Outlet([], [], Held)];
    }
  }

  lemma {:induction false} RaceReports(i: nat)
    requires 3 <= i < 7
    ensures Can(THREADED, Racing(i), RACE[6 + i]) && Do(THREADED, Racing(i), RACE[6 + i]) == Racing(i + 1)
  {
    hide OnEvent, OnSent, Complete, Take, Handle;
  }

  lemma {:induction false} RaceRuns(i: nat)
    requires i <= 13
    ensures Exec(THREADED, RACE[..i]) == Some(if i <= 6 then Binding(i) else Racing(i - 6))
  {
    hide Do, Can, Racing, Binding, RACE;
    RaceEnds();
    if i > 0 {
      RaceRuns(i - 1);
      assert RACE[..i][..i - 1] == RACE[..i - 1];
      if i <= 6 {
        BindStep(i - 1);
      } else {
        if i < 10 {
          RaceRequests(i - 7);
        } else {
          RaceReports(i - 7);
        }
      }
    }
  }

  lemma RaceEnds()
    ensures |RACE| == 13 && Binding(0) == START && Binding(6) == Racing(0) == BOUND
  {
  }

  /** Without that guarantee the comment at the loop is wrong: an update of a live subscription is discarded. */
  lemma SelectCanOutrunRegistration()
    ensures var run := Exec(THREADED, RACE);
            run.Some? && Discards(run.value, 7) && !EndedBy(7, run.value.turns) && HeldBy(run.value, 7, Held)
  {
    hide Exec;
    RaceRuns(13);
    assert RACE[..13] == RACE;
  }
}
