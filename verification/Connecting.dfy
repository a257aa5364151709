/** The startup loop inside the running client: what `connect` returns is what fired, and nothing else is lost. */
module Connecting {
  import opened Sequences
  import opened RouterCore
  import opened Router
  import opened History
  import opened Protocol
  import opened Invariants
  import opened Fanout
  import opened Runs
  import opened Startup

  /** The client while `connect` runs: the loop's own poll, begun when `polled`, and the turns it took. */
  datatype Loop = Loop(system: System, polled: bool, turns: seq<StartupTurn>)

  /** The loop polls readiness and then the session's channel; in between and besides, the tasks go on. */
  datatype Move = Aside(action: Action) | PollReady | PollChannel

  predicate Over(l: Loop) {
    l.turns != [] && !l.turns[|l.turns| - 1].Drained?
  }

  /** What goes on besides the loop: the tasks, the server, and perhaps a stop. */
  predicate NotTheCaller(a: Action) {
    !a.OfCaller? || a == OfCaller(OrderStop)
  }

  predicate LoopCan(cfg: Deployment, l: Loop, m: Move) {
    && !Over(l)
    && match m
       case Aside(a) => NotTheCaller(a) && Can(cfg, l.system, a) && (cfg.atomicPoll ==> !l.polled)
       case PollReady => !l.polled && !(cfg.atomicPoll && Polling(l.system))
       case PollChannel => l.polled && !(cfg.atomicPoll && Polling(l.system))
  }

  function LoopDo(cfg: Deployment, l: Loop, m: Move): Loop
    requires LoopCan(cfg, l, m)
  {
    var s := l.system;
    match m
    case Aside(a) => l.(system := Do(cfg, s, a))
    case PollReady =>
      if s.router.effects.signals != [] then l.(turns := l.turns + [Answered(s.router.effects.signals[0])])
      else l.(polled := true)
    case PollChannel =>
      if s.session.buffer != [] then
        Loop(s.(session := Taken(s.session)), false, l.turns + [Drained(s.session.buffer[0])])
      else if s.phase == Finished then Loop(s, false, l.turns + [RouterEnded])
      else l.(polled := false)
  }

  function LoopRun(cfg: Deployment, moves: seq<Move>): Option<Loop> {
    if moves == [] then Some(Loop(START, false, []))
    else
      match LoopRun(cfg, moves[..|moves| - 1])
      case None => None
      case Some(l) =>
        var m := moves[|moves| - 1];
        if LoopCan(cfg, l, m) then Some(LoopDo(cfg, l, m)) else None
  }

  ghost predicate Happens(cfg: Deployment, l: Loop) {
    exists moves: seq<Move> :: LoopRun(cfg, moves) == Some(l)
  }

  /** What `connect` makes of the readiness that fired. */
  function AnswerOf(readiness: Readiness): Connection {
    match readiness
    case Ok(info) => Connection.Connected(info)
    case Err(error) => Failed(error)
  }

  // ---- turns -------------------------------------------------------------------------------------------------------

  predicate AllDrained(turns: seq<StartupTurn>) {
    forall i :: 0 <= i < |turns| ==> turns[i].Drained?
  }

  lemma {:induction false} TurnsSnoc(turns: seq<StartupTurn>, t: StartupTurn)
    requires AllDrained(turns)
    ensures DrainedBy(turns + [t]) == DrainedBy(turns) + (if t.Drained? then [t.event] else [])
    ensures Verdict(turns + [t]) == Verdict([t])
    ensures t.Drained? ==> Verdict([t]) == StillWaiting
  {
    assert [t][1..] == [];
    if turns == [] {
      assert turns + [t] == [t];
    } else {
      TurnsSnoc(turns[1..], t);
      assert (turns + [t])[1..] == turns[1..] + [t];
    }
  }

  // ---- what every move keeps ---------------------------------------------------------------------------------------

  /**
   * A bind or a close that fired during the loop's poll has an event in the session's channel, or about to enter it.
   */
  predicate Pledged(s: System) {
    var signals := s.router.effects.signals;
    signals != [] && signals[0] != Err(NeverBound) ==>
      s.session.buffer != [] || (s.phase.Sending? && s.phase.send.ToSession? && !s.refused)
  }

  /** Whatever goes on besides the loop takes nothing out of the session's channel. */
  predicate ChannelKept(s: System, t: System) {
    && t.session.received == s.session.received && t.session.holder == s.session.holder
    && s.session.buffer <= t.session.buffer
    && s.router.effects.signals <= t.router.effects.signals
  }

  lemma ConcludeKeepsPledge(s: System, e: WireEvent, delivery: Delivery)
    requires s.router.core.awaitingReady == (s.router.effects.signals == [])
    ensures var t := Conclude(s, e, delivery);
            ChannelKept(s, t) && (Pledged(s.(phase := Selecting)) ==> Pledged(t))
  {
  }

  /** While the session's stream is open, what fires readiness is also sent there. */
  lemma FiringIsSent(c: Core, e: WireEvent)
    requires c.sessionOpen
    ensures var d := OnEvent(c, e);
            && (d.signal.Some? ==> d.send.Some? && d.send.value.ToSession?)
            && d.core.awaitingReady == (c.awaitingReady && d.signal.None?)
            && (d.signal.Some? ==> c.awaitingReady)
  {
  }

  lemma TakeKeepsPledge(s: System)
    requires s.events != [] && s.phase == PastStop && s.router.core.sessionOpen
    requires s.router.core.awaitingReady == (s.router.effects.signals == [])
    ensures var t := Take(s); ChannelKept(s, t) && (Pledged(s) ==> Pledged(t))
  {
    hide Conclude, OnEvent;
    var d := OnEvent(s.router.core, s.events[0]);
    FiringIsSent(s.router.core, s.events[0]);
    if d.send.None? {
      ConcludeKeepsPledge(Taking(s), s.events[0], Delivered);
    }
  }

  lemma CompleteKeepsPledge(s: System, delivery: Delivery)
    requires s.phase.Sending?
    requires s.router.core.awaitingReady == (s.router.effects.signals == [])
    ensures var t := Complete(s, delivery);
            ChannelKept(s, t) && (Pledged(s.(phase := Selecting)) ==> Pledged(t))
  {
    hide Conclude;
    var send := s.phase.send;
    var core, effects := OnSent(s.router.core, send, delivery), Sent(s.router.effects, send, delivery);
    ConcludeKeepsPledge(s.(router := State(core, effects)), s.phase.event, delivery);
  }

  lemma PutPledges(s: System)
    requires s.phase.Sending? && (s.phase.send.ToStream? ==> s.phase.send.key in s.streams)
    ensures var t := Put(s, s.phase.send);
            && ChannelKept(s, t) && t.router == s.router
            && (Pledged(s) ==> Pledged(t.(phase := Selecting)))
  {
  }

  /** A send that fails leaves the pledge: its receiver is not the session's, or it has found the channel full. */
  lemma FailingKeepsPledge(cfg: Deployment, s: System, a: RouterAction)
    requires RouterCan(cfg, s, a) && (a.FindGone? || a.AbandonSend?) && Pledged(s) && s.session.holder == Held
    ensures Pledged(s.(phase := Selecting))
  {
  }

  /** Passing on between branches, or ending, changes nothing of this but what the end signals. */
  lemma MovingKeepsPledge(s: System, t: System)
    requires !s.phase.Sending? && t.session == s.session && t.router == s.router
    ensures ChannelKept(s, t) && (Pledged(s) ==> Pledged(t))
  {
  }

  lemma FinishKeepsPledge(s: System, t: Turn)
    requires !s.phase.Sending? && s.router.core.awaitingReady == (s.router.effects.signals == [])
    ensures ChannelKept(s, Finish(s, t)) && (Pledged(s) ==> Pledged(Finish(s, t)))
  {
  }

  lemma FullKeepsPledge(cfg: Deployment, s: System)
    requires RouterCan(cfg, s, FindFull)
    ensures ChannelKept(s, s.(refused := true)) && (Pledged(s) ==> Pledged(s.(refused := true)))
  {
  }

  lemma RouterKeepsPledge(cfg: Deployment, s: System, a: RouterAction)
    requires RouterCan(cfg, s, a) && s.session.holder == Held && s.router.core.sessionOpen
    requires s.router.core.awaitingReady == (s.router.effects.signals == [])
    ensures var t := RouterDo(cfg, s, a); ChannelKept(s, t) && (Pledged(s) ==> Pledged(t))
  {
    hide Take, Complete, Put, ReceiverLeft, AfterCommand, OnCommand, Finish, Pledged;
    match a
    case HandleCommand => HandleKeepsPledge(cfg, s);
    case TakeEvent => TakeKeepsPledge(s);
    case Deliver =>
      PutPledges(s);
      PutKeepsPhase(s, s.phase.send);
      CompleteKeepsPledge(Put(s, s.phase.send), Delivered);
    case FindGone =>
      CompleteKeepsPledge(s, ReceiverGone);
      if Pledged(s) {
        FailingKeepsPledge(cfg, s, a);
      }
    case FindFull => FullKeepsPledge(cfg, s);
    case AbandonSend =>
      CompleteKeepsPledge(s, Stopped);
      if Pledged(s) {
        FailingKeepsPledge(cfg, s, a);
      }
    case SeeStop => FinishKeepsPledge(s, StopSeen);
    case SeeEnd => FinishKeepsPledge(s, EventsClosed);
    case _ => MovingKeepsPledge(s, RouterDo(cfg, s, a));
  }

  lemma HandleKeepsPledge(cfg: Deployment, s: System)
    requires RouterCan(cfg, s, HandleCommand)
    ensures var t := RouterDo(cfg, s, HandleCommand); ChannelKept(s, t) && (Pledged(s) ==> Pledged(t))
  {
  }

  lemma OthersKeepPledge(cfg: Deployment, s: System, a: Action)
    requires Can(cfg, s, a) && !a.OfRouter? && NotTheCaller(a)
    ensures var t := Do(cfg, s, a); ChannelKept(s, t) && (Pledged(s) ==> Pledged(t))
  {
    hide CallerCan, CallerDo, RouterDo, UnsubscriberDo, DriverDo, UnsubscriberCan, DriverCan;
    if a.OfCaller? {
      StopKeeps(cfg, s);
    } else {
      OthersKeep(cfg, s, a);
    }
  }

  lemma StopKeeps(cfg: Deployment, s: System)
    ensures CallerCan(cfg, s, OrderStop) && CallerDo(cfg, s, OrderStop) == s.(stop := true)
  {
  }

  /** Readiness is awaited exactly until it fires, and while its receiver is held the session's stream is open. */
  lemma WhileHeld(cfg: Deployment, s: System)
    requires Sane(cfg, s) && s.session.holder == Held
    ensures s.router.core.sessionOpen && s.router.core.awaitingReady == (s.router.effects.signals == [])
    ensures s.phase == Finished ==> s.router.effects.signals != []
  {
    hide Wired, Logged, Refines, Forwarded, Sourced, HandedOut, StreamServed, Served;
    AnsweredExactly(s);
  }

  lemma AsideKeeps(cfg: Deployment, s: System, a: Action)
    requires Sane(cfg, s) && s.session.holder == Held && NotTheCaller(a) && Can(cfg, s, a)
    ensures var t := Do(cfg, s, a); ChannelKept(s, t) && (Pledged(s) ==> Pledged(t))
  {
    hide Sane, Pledged, CallerCan, CallerDo, RouterCan, RouterDo, UnsubscriberDo, DriverDo, UnsubscriberCan, DriverCan;
    hide NotTheCaller, ChannelKept;
    WhileHeld(cfg, s);
    if a.OfRouter? {
      RouterKeepsPledge(cfg, s, a.router);
    } else {
      OthersKeepPledge(cfg, s, a);
    }
  }

  /** What holds while the loop runs: it has what it drained, and its poll misses nothing that fires. */
  ghost predicate Looping(l: Loop) {
    && AllDrained(l.turns) && DrainedBy(l.turns) == l.system.session.received
    && (l.polled ==> Pledged(l.system))
  }

  /** And once it is over: it has what it drained, and its answer is the readiness that fired. */
  ghost predicate Concluded(l: Loop) {
    && DrainedBy(l.turns) == l.system.session.received
    && l.system.router.effects.signals != []
    && Verdict(l.turns) == AnswerOf(l.system.router.effects.signals[0])
  }

  ghost predicate LoopSane(cfg: Deployment, l: Loop) {
    Sane(cfg, l.system) && l.system.session.holder == Held && if Over(l) then Concluded(l) else Looping(l)
  }

  lemma AsideKeepsLoop(cfg: Deployment, l: Loop, a: Action)
    requires LoopSane(cfg, l) && LoopCan(cfg, l, Aside(a))
    ensures LoopSane(cfg, LoopDo(cfg, l, Aside(a)))
  {
    hide Sane, Can, Do, Pledged, NotTheCaller, DrainedBy;
    StepKeepsSane(cfg, l.system, a);
    AsideKeeps(cfg, l.system, a);
  }

  lemma PollReadyKeepsLoop(cfg: Deployment, l: Loop)
    requires LoopSane(cfg, l) && LoopCan(cfg, l, PollReady)
    ensures LoopSane(cfg, LoopDo(cfg, l, PollReady))
  {
    hide Sane, Can, DrainedBy, Verdict;
    var signals := l.system.router.effects.signals;
    if signals != [] {
      TurnsSnoc(l.turns, Answered(signals[0]));
      AnswerIs(Answered(signals[0]));
    }
  }

  lemma AnswerIs(t: StartupTurn)
    ensures t.Answered? ==> Verdict([t]) == AnswerOf(t.readiness)
    ensures t.RouterEnded? ==> Verdict([t]) == AnswerOf(Err(NeverBound))
  {
  }

  lemma ReceivingKeepsSane(cfg: Deployment, s: System)
    requires Sane(cfg, s) && s.session.holder == Held && s.session.buffer != [] && !(cfg.atomicPoll && Polling(s))
    ensures Sane(cfg, s.(session := Taken(s.session)))
  {
    hide Sane;
    ReceivingCan(cfg, s);
    StepKeepsSane(cfg, s, OfCaller(ReceiveSession));
  }

  lemma ReceivingCan(cfg: Deployment, s: System)
    requires s.session.holder == Held && s.session.buffer != [] && !(cfg.atomicPoll && Polling(s))
    ensures Can(cfg, s, OfCaller(ReceiveSession))
    ensures Do(cfg, s, OfCaller(ReceiveSession)) == s.(session := Taken(s.session))
  {
  }

  lemma PollChannelKeepsLoop(cfg: Deployment, l: Loop)
    requires LoopSane(cfg, l) && LoopCan(cfg, l, PollChannel)
    ensures LoopSane(cfg, LoopDo(cfg, l, PollChannel))
  {
    hide Sane, Can, DrainedBy, Verdict;
    var s := l.system;
    if s.session.buffer != [] {
      TurnsSnoc(l.turns, Drained(s.session.buffer[0]));
      ReceivingKeepsSane(cfg, s);
    } else if s.phase == Finished {
      TurnsSnoc(l.turns, RouterEnded);
      WhileHeld(cfg, s);
      AnswerIs(RouterEnded);
    }
  }

  lemma {:induction false} LoopStaysSane(cfg: Deployment, moves: seq<Move>)
    requires LoopRun(cfg, moves).Some?
    ensures LoopSane(cfg, LoopRun(cfg, moves).value)
    decreases |moves|
  {
    hide LoopSane, LoopCan, LoopDo;
    if moves == [] {
      LoopStarts(cfg);
    } else {
      var before := moves[..|moves| - 1];
      LoopStaysSane(cfg, before);
      var l := LoopRun(cfg, before).value;
      match moves[|moves| - 1]
      case Aside(a) => AsideKeepsLoop(cfg, l, a);
      case PollReady => PollReadyKeepsLoop(cfg, l);
      case PollChannel => PollChannelKeepsLoop(cfg, l);
    }
  }

  lemma LoopStarts(cfg: Deployment)
    ensures LoopSane(cfg, Loop(START, false, []))
  {
    hide Sane;
    StartIsSane(cfg);
  }

  lemma LoopIsSane(cfg: Deployment, l: Loop)
    requires Happens(cfg, l)
    ensures LoopSane(cfg, l)
  {
    hide LoopSane, LoopRun;
    var moves: seq<Move> :| LoopRun(cfg, moves) == Some(l);
    LoopStaysSane(cfg, moves);
  }

  /** The client inside the loop is one that a run of the protocol leads to. */
  lemma {:induction false} LoopReaches(cfg: Deployment, moves: seq<Move>) returns (actions: seq<Action>)
    requires LoopRun(cfg, moves).Some?
    ensures Exec(cfg, actions) == Some(LoopRun(cfg, moves).value.system)
    decreases |moves|
  {
    hide Can, Do, Sane;
    if moves == [] {
      actions := [];
    } else {
      var before := moves[..|moves| - 1];
      LoopStaysSane(cfg, before);
      var l := LoopRun(cfg, before).value;
      actions := LoopReaches(cfg, before);
      match moves[|moves| - 1]
      case Aside(a) =>
        assert (actions + [a])[..|actions|] == actions;
        actions := actions + [a];
      case PollChannel =>
        if l.system.session.buffer != [] {
          ReceivingCan(cfg, l.system);
          assert (actions + [OfCaller(ReceiveSession)])[..|actions|] == actions;
          actions := actions + [OfCaller(ReceiveSession)];
        }
      case PollReady =>
    }
  }

  lemma LoopIsReachable(cfg: Deployment, l: Loop)
    requires Happens(cfg, l)
    ensures Reachable(cfg, l.system)
  {
    hide LoopRun, Exec;
    var moves: seq<Move> :| LoopRun(cfg, moves) == Some(l);
    var actions := LoopReaches(cfg, moves);
  }

  // ---- what connect returns ----------------------------------------------------------------------------------------

  /**
   * However the tasks run besides the loop, and between its two polls, the loop ends with the readiness that fired,
   * even when what it finds is the end of the router.
   */
  lemma ConnectReturnsWhatFired(cfg: Deployment, l: Loop)
    requires Happens(cfg, l) && Over(l)
    ensures l.system.router.effects.signals != []
    ensures Verdict(l.turns) == AnswerOf(l.system.router.effects.signals[0])
  {
    hide Happens, Sane;
    LoopIsSane(cfg, l);
  }

  /**
   * What `connect` stages, and what the channel then holds, are the session's news so far without the events drained
   * beyond the capacity.
   */
  lemma ConnectHoldsWhatIsSeen(cfg: Deployment, l: Loop)
    requires Happens(cfg, l)
    ensures var s := l.system; var drained := |DrainedBy(l.turns)|;
            && drained <= |s.session.received|
            && First(cfg.session, DrainedBy(l.turns)) + s.session.buffer == Seen(cfg.session, Out(s.session), drained)
            && Out(s.session) <= OwedSession(s.turns)
  {
    hide Happens, DrainedBy, OwedSession, Sane, Reachable;
    LoopIsSane(cfg, l);
    LoopIsReachable(cfg, l);
    SessionGetsWhatItIsOwed(cfg, l.system);
    var s := l.system;
    assert Out(s.session)[..|s.session.received|] == s.session.received;
    assert Out(s.session)[|s.session.received|..] == s.session.buffer;
  }

  /**
   * So of all its news until then a caller of `connect` misses only what was drained beyond the channel's capacity:
   * whether while it waits, or once it has its stream.
   */
  lemma ConnectLosesOnlyTheExcess(cfg: Deployment, l: Loop)
    requires Happens(cfg, l)
    ensures var s, drained := l.system, |DrainedBy(l.turns)|;
            var held, owed := First(cfg.session, DrainedBy(l.turns)) + s.session.buffer, OwedSession(s.turns);
            var out := |Out(s.session)|;
            && drained <= out <= |owed|
            && held == if drained <= cfg.session then owed[..out] else owed[..cfg.session] + owed[drained..out]
  {
    hide Happens, DrainedBy, OwedSession, Reachable, Out, First, Seen;
    ConnectHoldsWhatIsSeen(cfg, l);
    LoopIsReachable(cfg, l);
    OutIsLonger(l.system);
    StartupLosesOnlyTheExcess(cfg, l.system, |DrainedBy(l.turns)|);
  }

  lemma OutIsLonger(s: System)
    ensures |Out(s.session)| >= |s.session.received|
  {
  }
}
