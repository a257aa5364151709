/**
 * The start of a client: `connect` drains the session's stream while it waits for readiness, stages what it drained
 * up to the caller's capacity, and hands over a stream that replays it first.
 */
module Startup {
  import opened Sequences
  import opened RouterCore
  import opened Router
  import opened History
  import opened Protocol
  import opened Invariants
  import opened Fanout
  import opened Runs
  import opened Progress

  /** What one turn of the startup loop finds: the answer first, an event, or the router's end. */
  datatype StartupTurn = Answered(readiness: Readiness) | AnswerDropped | Drained(event: SessionEvent) | RouterEnded

  datatype Connection = Connected(info: string) | Failed(error: ReadyError) | StillWaiting

  const DISCONNECTED := Failed(NeverBound)

  /** The events drained before the loop ends. */
  function DrainedBy(turns: seq<StartupTurn>): seq<SessionEvent> {
    if turns == [] || !turns[0].Drained? then [] else [turns[0].event] + DrainedBy(turns[1..])
  }

  /** What ends the loop: the first turn that is not an event. */
  function Verdict(turns: seq<StartupTurn>): Connection {
    if turns == [] then StillWaiting
    else match turns[0]
         case Drained(_) => Verdict(turns[1..])
         case Answered(Ok(info)) => Connection.Connected(info)
         case Answered(Err(error)) => Failed(error)
         case AnswerDropped => DISCONNECTED
         case RouterEnded => DISCONNECTED
  }

  function First<T>(limit: nat, events: seq<T>): seq<T> {
    if |events| <= limit then events else events[..limit]
  }

  /** Holds one more event, within the capacity. */
  method Stage(staged: seq<SessionEvent>, event: SessionEvent, limit: nat) returns (kept: seq<SessionEvent>)
    ensures |staged| < limit ==> kept == staged + [event]
    ensures |staged| >= limit ==> kept == staged
  {
    kept := staged;
    if |kept| < limit {
      kept := kept + [event];
    }
  }

  lemma DrainOne(turns: seq<StartupTurn>, i: nat)
    requires i < |turns|
    ensures turns[i].Drained? ==> DrainedBy(turns[i..]) == [turns[i].event] + DrainedBy(turns[i + 1..])
                                  && Verdict(turns[i..]) == Verdict(turns[i + 1..])
    ensures !turns[i].Drained? ==> DrainedBy(turns[i..]) == []
  {
    assert turns[i..][0] == turns[i] && turns[i..][1..] == turns[i + 1..];
  }

  /** The startup loop of `assemble`. */
  method Await(turns: seq<StartupTurn>, limit: Capacity) returns (staged: seq<SessionEvent>, outcome: Connection)
    ensures staged == First(limit, DrainedBy(turns))
    ensures outcome == Verdict(turns)
  {
    hide DrainedBy;
    staged := [];
    ghost var drained: seq<SessionEvent> := [];
    var i: nat := 0;
    assert turns[0..] == turns;
    while i < |turns|
      invariant i <= |turns|
      invariant staged == First(limit, drained)
      invariant drained + DrainedBy(turns[i..]) == DrainedBy(turns)
      invariant Verdict(turns[i..]) == Verdict(turns)
    {
      DrainOne(turns, i);
      match turns[i] {
        case Answered(readiness) =>
          outcome := match readiness case Ok(info) => Connection.Connected(info) case Err(error) => Failed(error);
          return;
        case AnswerDropped =>
          outcome := DISCONNECTED;
          return;
        case RouterEnded =>
          outcome := DISCONNECTED;
          return;
        case Drained(event) =>
          staged := Stage(staged, event, limit);
          drained := drained + [event];
      }
      i := i + 1;
    }
    NothingDrained(turns);
    outcome := StillWaiting;
  }

  lemma NothingDrained(turns: seq<StartupTurn>)
    ensures turns[|turns|..] == [] && DrainedBy([]) == []
  {
  }

  /** The stream `connect` returns. */
  class SessionEvents {
    var staged: seq<SessionEvent>
    var channel: seq<SessionEvent>
    ghost var delivered: seq<SessionEvent>

    /** Everything this stream has delivered and holds, in order. */
    ghost function Whole(): seq<SessionEvent>
      reads this
    {
      delivered + staged + channel
    }

    constructor WithStaged(staged: seq<SessionEvent>, channel: seq<SessionEvent>)
      ensures this.staged == staged && this.channel == channel && delivered == []
    {
      this.staged, this.channel := staged, channel;
      delivered := [];
    }

    /** The next event, if there is one: what was staged, then what the channel holds. */
    method PollNext() returns (event: Option<SessionEvent>)
      modifies this
      ensures Whole() == old(Whole())
      ensures event.None? <==> old(staged) == [] && old(channel) == []
      ensures delivered == old(delivered) + match event case None => [] case Some(e) => [e]
    {
      if staged != [] {
        event := Some(staged[0]);
        delivered := delivered + [staged[0]];
        staged := staged[1..];
      } else if channel != [] {
        event := Some(channel[0]);
        delivered := delivered + [channel[0]];
        channel := channel[1..];
      } else {
        event := None;
      }
    }

    /** The router's next event reaches the channel. */
    method Arrive(event: SessionEvent)
      modifies this`channel
      ensures channel == old(channel) + [event]
      ensures Whole() == old(Whole()) + [event]
    {
      channel := channel + [event];
    }
  }

  datatype Use = Poll | Arrival(event: SessionEvent)

  function Arrivals(uses: seq<Use>): seq<SessionEvent> {
    if uses == [] then []
    else Arrivals(uses[..|uses| - 1]) + match uses[|uses| - 1] case Poll => [] case Arrival(event) => [event]
  }

  lemma {:induction false} ArrivalsUpTo(uses: seq<Use>, i: nat)
    requires i < |uses|
    ensures Arrivals(uses[..i + 1])
         == Arrivals(uses[..i]) + match uses[i] case Poll => [] case Arrival(event) => [event]
  {
    assert uses[..i + 1][..i] == uses[..i];
  }

  /**
   * The end of `assemble`: a stream exactly when the answer is a bind, else the error it brought, or `None` while
   * there is no answer. `channel` is what the session's channel holds then.
   */
  method Connect(turns: seq<StartupTurn>, limit: Capacity, channel: seq<SessionEvent>)
    returns (r: Option<Result<SessionEvents, ReadyError>>)
    ensures match Verdict(turns)
            case StillWaiting => r == None
            case Failed(error) => r == Some(Err(error))
            case Connected(_) =>
              && r.Some? && r.value.Ok? && fresh(r.value.value)
              && r.value.value.delivered == [] && r.value.value.staged == First(limit, DrainedBy(turns))
              && r.value.value.channel == channel
  {
    hide DrainedBy;
    var staged, outcome := Await(turns, limit);
    if outcome.StillWaiting? {
      return None;
    }
    if outcome.Failed? {
      return Some(Err(outcome.error));
    }
    var stream := new SessionEvents.WithStaged(staged, channel);
    return Some(Ok(stream));
  }

  /** However polls and arrivals interleave, the stream holds what it held, then all that arrived, in order. */
  method Consume(stream: SessionEvents, uses: seq<Use>)
    modifies stream
    ensures stream.Whole() == old(stream.Whole()) + Arrivals(uses)
  {
    var i := 0;
    while i < |uses|
      invariant i <= |uses|
      invariant stream.Whole() == old(stream.Whole()) + Arrivals(uses[..i])
    {
      ArrivalsUpTo(uses, i);
      match uses[i] {
        case Poll =>
          var _ := stream.PollNext();
        case Arrival(event) =>
          stream.Arrive(event);
      }
      i := i + 1;
    }
    assert uses[..i] == uses;
  }

  /** What the caller sees of a session's stream from which the startup loop drained some events. */
  function Seen<T>(limit: nat, out: seq<T>, drained: nat): seq<T>
    requires drained <= |out|
  {
    First(limit, out[..drained]) + out[drained..]
  }

  /** Nothing of what the session's stream is owed goes missing when no more than the capacity was drained. */
  lemma StartupLosesOnlyTheExcess(cfg: Deployment, s: System, drained: nat)
    requires Reachable(cfg, s) && drained <= |s.session.received|
    ensures var out, owed := Out(s.session), OwedSession(s.turns);
            && |out| <= |owed|
            && (drained <= cfg.session ==> Seen(cfg.session, out, drained) == owed[..|out|])
            && (drained > cfg.session ==> Seen(cfg.session, out, drained) == owed[..cfg.session] + owed[drained..|out|])
  {
    hide Reachable, OwedSession;
    SessionGetsWhatItIsOwed(cfg, s);
    var out := Out(s.session);
    assert out == OwedSession(s.turns)[..|out|];
    if drained <= cfg.session {
      assert Seen(cfg.session, out, drained) == out;
    }
  }

  /* The bind is reached. */

  /**
   * There is no subscription yet and the session's stream is held, which until `connect` returns means by the startup
   * loop.
   */
  predicate Starting(s: System) {
    s.streams == map[] && s.session.holder == Held
  }

  /** A task's next step or, when the router waits for room in the session's stream, the startup loop's. */
  function StartupStep(cfg: Deployment, s: System): Action {
    if CallerReady(cfg, s) then NextTask(cfg, s) else OfCaller(ReceiveSession)
  }

  /** A step that asks nothing of the caller but the startup loop, and nothing new of the server. */
  predicate Unaided(s: System, a: Action) {
    a == OfCaller(ReceiveSession) || (!a.OfCaller? && Productive(s, a))
  }

  /** While anything is pending, a task or the startup loop can go on. */
  lemma StartupGoesOn(cfg: Deployment, s: System)
    requires Starting(s) && Wired(s) && Pending(s)
    ensures var a := StartupStep(cfg, s);
            Can(cfg, s, a) && Unaided(s, a)
  {
    if CallerReady(cfg, s) {
      SomeTaskCanGoOn(cfg, s);
    } else {
      assert s.session.buffer != [];
    }
  }

  lemma ReceivingReducesWork(cfg: Deployment, s: System)
    requires CallerCan(cfg, s, ReceiveSession)
    ensures Work(CallerDo(cfg, s, ReceiveSession)) < Work(s)
  {
  }

  lemma UnaidedReducesWork(cfg: Deployment, s: System, a: Action)
    requires Can(cfg, s, a) && Unaided(s, a)
    ensures Work(Do(cfg, s, a)) < Work(s)
  {
    hide Work, CallerCan, CallerDo, RouterCan, RouterDo, UnsubscriberCan, UnsubscriberDo, DriverCan, DriverDo,
      Productive;
    if a == OfCaller(ReceiveSession) {
      ReceivingReducesWork(cfg, s);
    } else {
      StepReducesWork(cfg, s, a);
    }
  }

  lemma StillStarting(cfg: Deployment, s: System, a: Action)
    requires Starting(s) && Can(cfg, s, a) && (a == OfCaller(ReceiveSession) || !a.OfCaller?)
    ensures Starting(Do(cfg, s, a))
  {
    hide CallerCan, CallerDo, RouterDo, UnsubscriberDo, DriverDo;
    match a
    case OfCaller(_) => ReceivingKeeps(cfg, s);
    case OfRouter(HandleCommand) => HandlingKeeps(cfg, s);
    case OfRouter(router) =>
      RouterIsQuiet(cfg, s, router);
      assert RouterDo(cfg, s, router).streams.Keys == {};
    case _ => OthersKeep(cfg, s, a);
  }

  lemma ReceivingKeeps(cfg: Deployment, s: System)
    requires CallerCan(cfg, s, ReceiveSession)
    ensures CallerDo(cfg, s, ReceiveSession) == s.(session := Taken(s.session))
  {
  }

  lemma HandlingKeeps(cfg: Deployment, s: System)
    requires RouterCan(cfg, s, HandleCommand)
    ensures var t := RouterDo(cfg, s, HandleCommand);
            && t.streams == s.streams && t.session == s.session
            && t.events == s.events && t.driver == s.driver && t.stop == s.stop
            && t.router.core.awaitingReady == s.router.core.awaitingReady
  {
  }

  predicate Decisive(e: WireEvent) {
    e.WireBound? || e.WireClosed?
  }

  /** Readiness has fired, or a bind or a close is on its way to the router, or a stop is. */
  ghost predicate Answerable(s: System) {
    || !s.router.core.awaitingReady || s.stop
    || (exists i :: 0 <= i < |s.events| && Decisive(s.events[i]))
    || (s.driver.Blocked? && Decisive(s.driver.event))
  }

  lemma TakeKeepsAnswerable(s: System)
    requires Answerable(s) && s.events != []
    ensures Answerable(Take(s))
  {
    hide Conclude;
    var e := s.events[0];
    var d := OnEvent(s.router.core, e);
    var t := s.(events := s.events[1..], router := State(d.core, Told(s.router.effects, d.signal)));
    ConcludeKeepsAnswers(t, e);
    if !Decisive(e) && exists i :: 0 <= i < |s.events| && Decisive(s.events[i]) {
      var i :| 0 <= i < |s.events| && Decisive(s.events[i]);
      assert t.events[i - 1] == s.events[i];
    }
  }

  lemma ConcludeKeepsAnswers(s: System, e: WireEvent)
    ensures var t := Conclude(s, e, Delivered);
            && t.events == s.events && t.driver == s.driver && t.stop == s.stop
            && (!s.router.core.awaitingReady ==> !t.router.core.awaitingReady)
            && (t.router.core.awaitingReady == s.router.core.awaitingReady || !t.router.core.awaitingReady)
  {
  }

  lemma RouterKeepsAnswerable(cfg: Deployment, s: System, a: RouterAction)
    requires Answerable(s) && RouterCan(cfg, s, a)
    ensures Answerable(RouterDo(cfg, s, a))
  {
    hide Decisive, RouterDo;
    match a
    case HandleCommand => HandlingKeeps(cfg, s);
    case TakeEvent => TakeKeepsAnswerable(s); Takes(cfg, s);
    case _ => RouterAwaitsLess(cfg, s, a);
  }

  lemma Takes(cfg: Deployment, s: System)
    requires RouterCan(cfg, s, TakeEvent)
    ensures RouterDo(cfg, s, TakeEvent) == Take(s)
  {
  }

  lemma CompleteAwaitsLess(s: System, delivery: Delivery)
    requires s.phase.Sending?
    ensures var t := Complete(s, delivery);
            && t.events == s.events && t.driver == s.driver && t.stop == s.stop
            && (t.router.core.awaitingReady ==> s.router.core.awaitingReady)
  {
  }

  lemma RouterAwaitsLess(cfg: Deployment, s: System, a: RouterAction)
    requires RouterCan(cfg, s, a) && !a.HandleCommand? && !a.TakeEvent?
    ensures var t := RouterDo(cfg, s, a);
            && t.events == s.events && t.driver == s.driver && t.stop == s.stop
            && (t.router.core.awaitingReady ==> s.router.core.awaitingReady)
  {
    hide Complete, Put;
    match a
    case Deliver =>
      PutKeepsPhase(s, s.phase.send);
      CompleteAwaitsLess(Put(s, s.phase.send), Delivered);
    case FindGone => CompleteAwaitsLess(s, ReceiverGone);
    case AbandonSend => CompleteAwaitsLess(s, Stopped);
    case _ =>
  }

  lemma DriverKeepsAnswerable(cfg: Deployment, s: System, a: DriverAction)
    requires Answerable(s) && DriverCan(cfg, s, a) && Productive(s, OfDriver(a))
    requires s.phase == Finished ==> !s.router.core.awaitingReady
    ensures Answerable(DriverDo(cfg, s, a))
  {
    var t := DriverDo(cfg, s, a);
    if exists i :: 0 <= i < |s.events| && Decisive(s.events[i]) {
      var i :| 0 <= i < |s.events| && Decisive(s.events[i]);
      assert t.events[i] == s.events[i];
    }
    if a.PushEvent? {
      assert t.events[|s.events|] == s.driver.event;
    }
  }

  lemma StartupKeepsAnswerable(cfg: Deployment, s: System, a: Action)
    requires Answerable(s) && Can(cfg, s, a) && Unaided(s, a)
    requires s.phase == Finished ==> !s.router.core.awaitingReady
    ensures Answerable(Do(cfg, s, a))
  {
    hide CallerCan, CallerDo, RouterCan, RouterDo, UnsubscriberCan, UnsubscriberDo, DriverCan, DriverDo, Decisive;
    match a
    case OfCaller(_) => ReceivingKeeps(cfg, s);
    case OfRouter(router) => RouterKeepsAnswerable(cfg, s, router);
    case OfUnsubscriber(unsubscriber) => UnsubscriberKeepsEvents(cfg, s, unsubscriber);
    case OfDriver(driver) => DriverKeepsAnswerable(cfg, s, driver);
  }

  lemma UnsubscriberKeepsEvents(cfg: Deployment, s: System, a: UnsubscriberAction)
    requires UnsubscriberCan(cfg, s, a)
    ensures var t := UnsubscriberDo(cfg, s, a);
            t.events == s.events && t.driver == s.driver && t.stop == s.stop && t.router == s.router
  {
  }

  /** Readiness is still awaited exactly as long as it has not fired, and not at all once the router has ended. */
  lemma AnsweredExactly(s: System)
    requires Refines(s)
    ensures s.router.core.awaitingReady == (s.router.effects.signals == [])
    ensures s.phase == Finished ==> !s.router.core.awaitingReady
  {
    hide AfterTurns, OnEvent, Ends, AfterTurn, FirstNews;
    match s.phase
    case Sending(e, send) =>
      SignalsFirstNews(s.turns);
      EventSignals(AfterTurns(INITIAL, s.turns).core, e);
    case Finished =>
      var before, t := s.turns[..|s.turns| - 1], s.turns[|s.turns| - 1];
      assert s.turns == before + [t];
      SignalsFirstNews(before);
      AfterTurnsSnoc(INITIAL, before, t);
      TurnSignals(AfterTurns(INITIAL, before), t);
    case _ =>
      SignalsFirstNews(s.turns);
  }

  lemma SaneParts(cfg: Deployment, s: System)
    requires Sane(cfg, s)
    ensures Wired(s) && Refines(s) && HandedOut(s)
  {
  }

  lemma SettledIsAnswered(s: System)
    requires !Pending(s) && Answerable(s) && (s.phase == Finished ==> !s.router.core.awaitingReady)
    ensures !s.router.core.awaitingReady
  {
  }

  /** A run of the tasks and the startup loop, scheduled in any way. */
  ghost predicate StartupRun(cfg: Deployment, s: System, run: seq<Action>)
    decreases |run|
  {
    run != [] ==> Can(cfg, s, run[0]) && Unaided(s, run[0]) && StartupRun(cfg, Do(cfg, s, run[0]), run[1..])
  }

  /** Neither a task nor the startup loop can go on. */
  ghost predicate AtRest(cfg: Deployment, s: System) {
    forall a :: !(Can(cfg, s, a) && Unaided(s, a))
  }

  lemma AtRestIsAnswered(cfg: Deployment, s: System)
    requires Sane(cfg, s) && Starting(s) && Answerable(s) && AtRest(cfg, s)
    ensures s.router.effects.signals != []
  {
    hide Can, Unaided, Sane, Starting, Answerable, Pending, StartupStep;
    SaneParts(cfg, s);
    AnsweredExactly(s);
    if Pending(s) {
      StartupGoesOn(cfg, s);
      assert false;
    }
    SettledIsAnswered(s);
  }

  lemma {:induction false} StartupSettles(cfg: Deployment, s: System, run: seq<Action>)
    requires Sane(cfg, s) && Starting(s) && Answerable(s) && StartupRun(cfg, s, run)
    ensures var t := From(cfg, s, run);
            && t.Some? && |run| + Work(t.value) <= Work(s)
            && (AtRest(cfg, t.value) ==> t.value.router.effects.signals != [])
    decreases |run|
  {
    hide Can, Do, Unaided, Work, Sane, Starting, Answerable, AtRest;
    if run == [] {
      if AtRest(cfg, s) {
        AtRestIsAnswered(cfg, s);
      }
    } else {
      var a := run[0];
      UnaidedReducesWork(cfg, s, a);
      StillStarts(cfg, s, a);
      StepKeepsSane(cfg, s, a);
      SaneParts(cfg, s);
      AnsweredExactly(s);
      StartupKeepsAnswerable(cfg, s, a);
      StartupSettles(cfg, Do(cfg, s, a), run[1..]);
    }
  }

  lemma StillStarts(cfg: Deployment, s: System, a: Action)
    requires Starting(s) && Can(cfg, s, a) && Unaided(s, a)
    ensures Starting(Do(cfg, s, a))
  {
    hide Can, Do, Starting;
    StillStarting(cfg, s, a);
  }

  /**
   * Whatever the capacity, once a bind, a close or a stop is on its way, the startup loop and the tasks bring it to
   * `connect` without any help: however they are scheduled they come to rest, and at rest readiness has fired.
   */
  lemma ConnectIsAnswered(cfg: Deployment, s: System, run: seq<Action>)
    requires Reachable(cfg, s) && s.router.effects.signals == [] && s.session.holder == Held && Answerable(s)
    requires StartupRun(cfg, s, run)
    ensures var t := From(cfg, s, run);
            && t.Some? && |run| + Work(t.value) <= Work(s)
            && (AtRest(cfg, t.value) ==> t.value.router.effects.signals != [])
  {
    hide Reachable, From, Sane, StartupRun, AtRest, Work, Answerable;
    ReachableIsSane(cfg, s);
    SaneParts(cfg, s);
    StartupSettles(cfg, s, run);
  }
}
