/** What every step of the protocol keeps. */
module Invariants {
  import opened Sequences
  import opened RouterCore
  import opened Router
  import opened History
  import opened Protocol

  /* Wiring: what the queues and tables name exists. */

  ghost predicate Known(s: System, c: Command) {
    c.Register? ==> c.key in s.streams
  }

  ghost predicate NoneHeld(s: System) {
    forall k <- s.streams :: s.streams[k].holder == Gone
  }

  ghost predicate Wired(s: System) {
    && s.router.core.subscriptions <= s.streams.Keys
    && s.requested <= s.streams.Keys
    && (s.phase.Sending? && s.phase.send.ToStream? ==> s.phase.send.key in s.streams)
    && (forall i :: 0 <= i < |s.commands| ==> Known(s, s.commands[i]))
    && (!s.taking ==> s.commands == [] && !s.client && NoneHeld(s))
  }

  lemma CallerKeepsWired(cfg: Deployment, s: System, a: CallerAction)
    requires Wired(s) && CallerCan(cfg, s, a)
    ensures Wired(CallerDo(cfg, s, a))
  {
    var t := CallerDo(cfg, s, a);
    assert s.streams.Keys <= t.streams.Keys;
    if !t.taking {
      assert t.commands == [];
      assert NoneHeld(t);
    }
  }

  /** An event registers nothing, and sends only to registered keys. */
  lemma OnEventSends(c: Core, e: WireEvent)
    ensures OnEvent(c, e).core.subscriptions <= c.subscriptions
    ensures OnEvent(c, e).core.sessionOpen == c.sessionOpen
    ensures var send := OnEvent(c, e).send; send.Some? && send.value.ToStream? ==> send.value.key in c.subscriptions
    ensures var send := OnEvent(c, e).send; send.Some? && send.value.ToSession? ==> c.sessionOpen
  {
  }

  lemma HandleKeepsWired(s: System)
    requires Wired(s) && s.taking && s.commands != []
    ensures Wired(Handle(s))
  {
    assert Known(s, s.commands[0]);
    var t := Handle(s);
    forall i | 0 <= i < |t.commands| ensures Known(t, t.commands[i]) {
      assert Known(s, s.commands[i + 1]);
    }
  }

  lemma ConcludeKeepsWired(s: System, e: WireEvent, delivery: Delivery)
    requires Wired(s.(phase := Selecting))
    ensures Wired(Conclude(s, e, delivery))
  {
    hide OnEvent;
    var t := Conclude(s, e, delivery);
    forall i | 0 <= i < |t.commands| ensures Known(t, t.commands[i]) {
      assert Known(s.(phase := Selecting), s.commands[i]);
    }
  }

  lemma TakeKeepsWired(s: System)
    requires Wired(s) && s.events != []
    ensures Wired(Take(s))
  {
    hide OnEvent, Conclude;
    var e := s.events[0];
    OnEventSends(s.router.core, e);
    var d := OnEvent(s.router.core, e);
    var t := s.(events := s.events[1..], router := State(d.core, Told(s.router.effects, d.signal)));
    forall i | 0 <= i < |t.commands| ensures Known(t, t.commands[i]) {
      assert Known(s, s.commands[i]);
    }
    if d.send.None? {
      ConcludeKeepsWired(t, e, Delivered);
    }
  }

  lemma CompleteKeepsWired(s: System, delivery: Delivery)
    requires Wired(s) && s.phase.Sending?
    ensures Wired(Complete(s, delivery))
  {
    hide Conclude;
    var send := s.phase.send;
    var t := s.(router := State(OnSent(s.router.core, send, delivery), Sent(s.router.effects, send, delivery)));
    assert Wired(t.(phase := Selecting)) by {
      forall i | 0 <= i < |t.commands| ensures Known(t, t.commands[i]) {
        assert Known(s, s.commands[i]);
      }
    }
    ConcludeKeepsWired(t, s.phase.event, delivery);
  }

  lemma PutKeepsWired(s: System, send: Send)
    requires Wired(s) && (send.ToStream? ==> send.key in s.streams)
    ensures Wired(Put(s, send))
  {
    var t := Put(s, send);
    assert s.streams.Keys == t.streams.Keys;
    forall i | 0 <= i < |t.commands| ensures Known(t, t.commands[i]) {
      assert Known(s, s.commands[i]);
    }
  }

  lemma RouterKeepsWired(cfg: Deployment, s: System, a: RouterAction)
    requires Wired(s) && RouterCan(cfg, s, a)
    ensures Wired(RouterDo(cfg, s, a))
  {
    hide Take, Complete, Put, Handle;
    match a
    case HandleCommand => HandleKeepsWired(s);
    case TakeEvent => TakeKeepsWired(s);
    case Deliver =>
      PutKeepsWired(s, s.phase.send);
      PutKeepsPhase(s, s.phase.send);
      CompleteKeepsWired(Put(s, s.phase.send), Delivered);
    case FindGone => CompleteKeepsWired(s, ReceiverGone);
    case AbandonSend => CompleteKeepsWired(s, Stopped);
    case _ =>
  }

  lemma PutKeepsPhase(s: System, send: Send)
    requires send.ToStream? ==> send.key in s.streams
    ensures Put(s, send) == s.(streams := Put(s, send).streams, session := Put(s, send).session)
  {
  }

  lemma OthersKeepWired(cfg: Deployment, s: System, a: Action)
    requires Wired(s) && Can(cfg, s, a) && (a.OfUnsubscriber? || a.OfDriver?)
    ensures Wired(Do(cfg, s, a))
  {
    hide OnEvent, CallerDo, RouterDo;
    var t := Do(cfg, s, a);
    OthersKeep(cfg, s, a);
    assert NoneHeld(s) == NoneHeld(t);
    forall i | 0 <= i < |t.commands| ensures Known(t, t.commands[i]) {
      assert Known(s, s.commands[i]);
    }
  }

  lemma UnsubscriberKeeps(cfg: Deployment, s: System, a: UnsubscriberAction)
    requires UnsubscriberCan(cfg, s, a)
    ensures var t := UnsubscriberDo(cfg, s, a);
            t == s.(requests := t.requests, keys := t.keys, unsubscriber := t.unsubscriber, issued := t.issued,
                    log := t.log)
  {
  }

  lemma DriverKeeps(cfg: Deployment, s: System, a: DriverAction)
    requires DriverCan(cfg, s, a)
    ensures var t := DriverDo(cfg, s, a);
            t == s.(events := t.events, requests := t.requests, driver := t.driver, log := t.log)
  {
  }

  /** What the unsubscription task and the driver leave alone. */
  lemma OthersKeep(cfg: Deployment, s: System, a: Action)
    requires Can(cfg, s, a) && (a.OfUnsubscriber? || a.OfDriver?)
    ensures var t := Do(cfg, s, a);
            t == s.(events := t.events, requests := t.requests, keys := t.keys, unsubscriber := t.unsubscriber,
                    driver := t.driver, issued := t.issued, log := t.log)
  {
    hide CallerDo, RouterDo, UnsubscriberDo, DriverDo, UnsubscriberCan, DriverCan;
    match a
    case OfUnsubscriber(unsubscriber) => UnsubscriberKeeps(cfg, s, unsubscriber);
    case OfDriver(driver) => DriverKeeps(cfg, s, driver);
  }

  lemma StepKeepsWired(cfg: Deployment, s: System, a: Action)
    requires Wired(s) && Can(cfg, s, a)
    ensures Wired(Do(cfg, s, a))
  {
    hide CallerCan, CallerDo, RouterCan, RouterDo, UnsubscriberCan, UnsubscriberDo, DriverCan, DriverDo;
    match a
    case OfCaller(caller) => CallerKeepsWired(cfg, s, caller);
    case OfRouter(router) => RouterKeepsWired(cfg, s, router);
    case OfUnsubscriber(unsubscriber) => OthersKeepWired(cfg, s, a);
    case OfDriver(driver) => OthersKeepWired(cfg, s, a);
  }

  /* The command log: what was pushed is what was handled and what still waits, one registration for each stream. */

  function DropReports(k: Key, commands: seq<Command>): nat {
    multiset(commands)[StreamDropped(k)]
  }

  ghost predicate Reported(s: System, k: Key) {
    k in s.streams && (s.streams[k].holder == Dropping || s.streams[k].holder == Gone)
  }

  ghost predicate LoggedFor(s: System, k: Key) {
    && Registrations(k, s.pushed) == (if k in s.streams then 1 else 0)
    && DropReports(k, s.pushed) <= (if Reported(s, k) then 1 else 0)
  }

  ghost predicate Logged(s: System) {
    && CommandsOf(s.turns) + s.commands == s.pushed
    && forall k :: LoggedFor(s, k)
  }

  lemma {:induction false} CountsSnoc(k: Key, commands: seq<Command>, c: Command)
    ensures Registrations(k, commands + [c]) == Registrations(k, commands) + if c == Register(k) then 1 else 0
    ensures DropReports(k, commands + [c]) == DropReports(k, commands) + if c == StreamDropped(k) then 1 else 0
  {
  }

  /** A command sent, or lost on a router that has ended. */
  lemma PushKeeps(s: System, c: Command)
    ensures var t := Push(s, c);
            && t == s.(commands := t.commands, pushed := t.pushed)
            && ((t.commands == s.commands && t.pushed == s.pushed)
                || (t.commands == s.commands + [c] && t.pushed == s.pushed + [c]))
            && (s.phase != Finished ==> t.pushed == s.pushed + [c])
  {
  }

  /** The actions of the caller that send a command. */
  predicate Pushing(a: CallerAction) {
    a.BeginSubscribe? || a.FailRequest? || a.BeginDrop?
  }

  function Pushed(a: CallerAction): Command
    requires Pushing(a)
  {
    match a
    case BeginSubscribe(k) => Register(k)
    case FailRequest(k) => Unregister(k)
    case BeginDrop(k) => StreamDropped(k)
  }

  /** What they do before that. */
  function Ahead(s: System, a: CallerAction): System
    requires Pushing(a) && (a.BeginSubscribe? || a.key in s.streams)
  {
    match a
    case BeginSubscribe(k) => s.(streams := s.streams[k := Outlet([], [], Requesting)])
    case FailRequest(k) => Given(s, k, Gone)
    case BeginDrop(k) => Given(s, k, Dropping)
  }

  lemma CallerPushes(cfg: Deployment, s: System, a: CallerAction)
    requires CallerCan(cfg, s, a) && Pushing(a)
    ensures a.BeginSubscribe? || a.key in s.streams
    ensures CallerDo(cfg, s, a) == Push(Ahead(s, a), Pushed(a))
  {
    hide Push, Given;
  }

  lemma AheadKeeps(s: System, a: CallerAction)
    requires Pushing(a) && (a.BeginSubscribe? || a.key in s.streams)
    ensures Ahead(s, a) == s.(streams := Ahead(s, a).streams)
  {
  }

  /** What the caller leaves alone, and what it may send. */
  lemma CallerKeeps(cfg: Deployment, s: System, a: CallerAction)
    requires CallerCan(cfg, s, a)
    ensures var t := CallerDo(cfg, s, a);
            t == s.(commands := t.commands, requests := t.requests, streams := t.streams, session := t.session,
                    client := t.client, stop := t.stop, pushed := t.pushed, requested := t.requested, log := t.log)
  {
    hide CallerCan, CallerDo, Push, Ahead;
    if Pushing(a) {
      CallerPushes(cfg, s, a);
      AheadKeeps(s, a);
      PushKeeps(Ahead(s, a), Pushed(a));
    } else {
      PushlessKeeps(cfg, s, a);
    }
  }

  lemma PushlessKeeps(cfg: Deployment, s: System, a: CallerAction)
    requires CallerCan(cfg, s, a) && !Pushing(a)
    ensures var t := CallerDo(cfg, s, a);
            t == s.(requests := t.requests, streams := t.streams, session := t.session, client := t.client,
                    stop := t.stop, requested := t.requested, log := t.log)
  {
    hide Taken, Given;
    if a.QueueRequest? || a.CancelSubscribe? || a.EndDrop? {
      GivenKeepsRest(s, a.key, if a.QueueRequest? then Held else Gone);
    }
  }

  lemma GivenKeepsRest(s: System, k: Key, holder: Holder)
    requires k in s.streams
    ensures Given(s, k, holder) == s.(streams := Given(s, k, holder).streams)
  {
  }

  lemma PushExtends(s: System, c: Command)
    requires CommandsOf(s.turns) + s.commands == s.pushed
    ensures CommandsOf(s.turns) + Push(s, c).commands == Push(s, c).pushed
  {
    hide CommandsOf;
    assert CommandsOf(s.turns) + (s.commands + [c]) == CommandsOf(s.turns) + s.commands + [c];
  }

  lemma PushLogs(s: System, c: Command, k: Key)
    ensures var t := Push(s, c);
            Registrations(k, t.pushed) <= Registrations(k, s.pushed) + (if c == Register(k) then 1 else 0)
            && DropReports(k, t.pushed) <= DropReports(k, s.pushed) + (if c == StreamDropped(k) then 1 else 0)
            && Registrations(k, s.pushed) <= Registrations(k, t.pushed)
            && (s.phase != Finished && c == Register(k) ==>
                  Registrations(k, t.pushed) == Registrations(k, s.pushed) + 1)
            && t.streams == s.streams
  {
    hide Registrations, DropReports;
    CountsSnoc(k, s.pushed, c);
  }

  lemma CallerKeepsLogged(cfg: Deployment, s: System, a: CallerAction)
    requires Logged(s) && CallerCan(cfg, s, a)
    ensures Logged(CallerDo(cfg, s, a))
  {
    hide CommandsOf, Push, Ahead, CallerCan, CallerDo, LoggedFor;
    if Pushing(a) {
      CallerPushes(cfg, s, a);
      AheadKeeps(s, a);
      PushKeeps(Ahead(s, a), Pushed(a));
      PushExtends(Ahead(s, a), Pushed(a));
    } else {
      PushlessKeeps(cfg, s, a);
    }
    forall j ensures LoggedFor(CallerDo(cfg, s, a), j) {
      if Pushing(a) {
        PushingKeepsLogged(cfg, s, a, j);
      } else {
        PushlessKeepsLogged(cfg, s, a, j);
      }
    }
  }

  lemma PushingKeepsLogged(cfg: Deployment, s: System, a: CallerAction, j: Key)
    requires LoggedFor(s, j) && CallerCan(cfg, s, a) && Pushing(a)
    ensures LoggedFor(CallerDo(cfg, s, a), j)
  {
    hide Registrations, DropReports, Push, CallerDo;
    CallerPushes(cfg, s, a);
    AheadKeeps(s, a);
    PushLogs(Ahead(s, a), Pushed(a), j);
  }

  lemma PushlessKeepsLogged(cfg: Deployment, s: System, a: CallerAction, j: Key)
    requires LoggedFor(s, j) && CallerCan(cfg, s, a) && !Pushing(a)
    ensures LoggedFor(CallerDo(cfg, s, a), j)
  {
    hide Registrations, DropReports, Taken;
  }

  /** A router step that handles no command: what it leaves alone. */
  ghost predicate Quiet(s: System, t: System) {
    && t == s.(events := t.events, streams := t.streams, session := t.session, phase := t.phase,
               refused := t.refused, taking := t.taking, router := t.router, turns := t.turns)
    && t.streams.Keys == s.streams.Keys
    && (forall k <- s.streams :: t.streams[k].holder == s.streams[k].holder)
    && t.session.holder == s.session.holder
    && t.router.effects.unsubscribed == s.router.effects.unsubscribed
    && s.router.effects.signals <= t.router.effects.signals
    && CommandsOf(t.turns) == CommandsOf(s.turns)
  }

  lemma ConcludeIsQuiet(s: System, e: WireEvent, delivery: Delivery)
    ensures Quiet(s, Conclude(s, e, delivery))
  {
    hide CommandsOf, IsLast;
    CommandsOfSnoc(s.turns, Happened(e, delivery));
  }

  /** An event taken: the state it is concluded in, if it awaits no send. */
  function Taking(s: System): System
    requires s.events != []
  {
    var d := OnEvent(s.router.core, s.events[0]);
    s.(events := s.events[1..], router := State(d.core, Told(s.router.effects, d.signal)))
  }

  lemma TakeIsQuiet(s: System)
    requires s.events != []
    ensures Quiet(s, Take(s))
  {
    hide CommandsOf, OnEvent, Conclude;
    ConcludeIsQuiet(Taking(s), s.events[0], Delivered);
  }

  lemma CompleteIsQuiet(s: System, delivery: Delivery)
    requires s.phase.Sending?
    ensures Quiet(s, Complete(s, delivery))
  {
    hide CommandsOf, OnSent, Conclude;
    var send := s.phase.send;
    ConcludeIsQuiet(s.(router := State(OnSent(s.router.core, send, delivery), Sent(s.router.effects, send, delivery))),
                    s.phase.event, delivery);
  }

  lemma PutIsQuiet(s: System, send: Send)
    requires send.ToStream? ==> send.key in s.streams
    ensures Quiet(s, Put(s, send))
  {
    hide CommandsOf;
  }

  lemma FinishIsQuiet(s: System, t: Turn)
    requires !t.Commanded?
    ensures Quiet(s, Finish(s, t))
  {
    hide CommandsOf;
    CommandsOfSnoc(s.turns, t);
  }

  lemma RouterIsQuiet(cfg: Deployment, s: System, a: RouterAction)
    requires RouterCan(cfg, s, a) && !a.HandleCommand?
    ensures Quiet(s, RouterDo(cfg, s, a))
  {
    hide CommandsOf, Take, Complete, Put, Finish;
    match a
    case NoticeClosed => CommandsOfSnoc(s.turns, CommandsClosed);
    case SeeStop => FinishIsQuiet(s, StopSeen);
    case TakeEvent => TakeIsQuiet(s);
    case SeeEnd => FinishIsQuiet(s, EventsClosed);
    case Deliver =>
      PutIsQuiet(s, s.phase.send);
      PutKeepsPhase(s, s.phase.send);
      CompleteIsQuiet(Put(s, s.phase.send), Delivered);
    case FindGone => CompleteIsQuiet(s, ReceiverGone);
    case AbandonSend => CompleteIsQuiet(s, Stopped);
    case _ =>
  }

  lemma QuietKeepsLogged(s: System, t: System)
    requires Logged(s) && Quiet(s, t)
    ensures Logged(t)
  {
    hide CommandsOf, Registrations, DropReports;
    forall k ensures LoggedFor(t, k) {
      assert LoggedFor(s, k);
    }
  }

  lemma HandleKeepsLogged(s: System)
    requires Logged(s) && s.commands != []
    ensures Logged(Handle(s))
  {
    hide CommandsOf, Registrations, DropReports, AfterCommand, OnCommand;
    CommandsOfSnoc(s.turns, Commanded(s.commands[0]));
    assert CommandsOf(s.turns) + s.commands == CommandsOf(s.turns) + [s.commands[0]] + s.commands[1..];
    forall k ensures LoggedFor(Handle(s), k) {
      assert LoggedFor(s, k);
    }
  }

  lemma RouterKeepsLogged(cfg: Deployment, s: System, a: RouterAction)
    requires Logged(s) && RouterCan(cfg, s, a)
    ensures Logged(RouterDo(cfg, s, a))
  {
    hide Logged, Quiet, Handle, Take, Complete, Put;
    if a.HandleCommand? {
      HandleKeepsLogged(s);
    } else {
      RouterIsQuiet(cfg, s, a);
      QuietKeepsLogged(s, RouterDo(cfg, s, a));
    }
  }

  lemma StepKeepsLogged(cfg: Deployment, s: System, a: Action)
    requires Logged(s) && Wired(s) && Can(cfg, s, a)
    ensures Logged(Do(cfg, s, a))
  {
    hide CallerCan, CallerDo, RouterCan, RouterDo, UnsubscriberCan, UnsubscriberDo, DriverCan, DriverDo, CommandsOf;
    match a
    case OfCaller(caller) => CallerKeepsLogged(cfg, s, caller);
    case OfRouter(router) => RouterKeepsLogged(cfg, s, router);
    case _ =>
      OthersKeep(cfg, s, a);
      forall k ensures LoggedFor(Do(cfg, s, a), k) {
        assert LoggedFor(s, k);
      }
  }

  /* Refinement: the router's memory and effects are those of its turns. */

  ghost predicate Refines(s: System) {
    var b := AfterTurns(INITIAL, s.turns);
    match s.phase
    case Sending(e, send) =>
      var d := OnEvent(b.core, e);
      Open(s.turns) && d.send == Some(send) && s.router == State(d.core, Told(b.effects, d.signal))
    case Finished =>
      |s.turns| > 0 && Open(s.turns[..|s.turns| - 1]) && Ends(s.turns[|s.turns| - 1]) && s.router == b
    case _ =>
      Open(s.turns) && s.router == b
  }

  /** The router, having done what a turn does, logs it and goes on or ends. */
  lemma TurnRefines(s: State, turns: seq<Turn>, t: Turn)
    requires Open(turns) && s == AfterTurn(AfterTurns(INITIAL, turns), t)
    ensures (if Ends(t) then AfterEnd(s) else s) == AfterTurns(INITIAL, turns + [t])
    ensures (turns + [t])[..|turns|] == turns
    ensures !Ends(t) ==> Open(turns + [t])
  {
    AfterTurnsSnoc(INITIAL, turns, t);
  }

  lemma ConcludeRefines(s: System, e: WireEvent, delivery: Delivery)
    requires Open(s.turns) && s.router == AfterEvent(AfterTurns(INITIAL, s.turns), e, delivery)
    ensures Refines(Conclude(s, e, delivery))
  {
    hide AfterEvent, AfterTurns;
    TurnRefines(s.router, s.turns, Happened(e, delivery));
  }

  lemma TakeRefines(s: System)
    requires Refines(s) && s.phase == PastStop && s.events != []
    ensures Refines(Take(s))
  {
    hide OnEvent, Conclude, AfterTurns;
    var e := s.events[0];
    var d := OnEvent(s.router.core, e);
    if d.send.None? {
      ConcludeRefines(Taking(s), e, Delivered);
    }
  }

  lemma CompleteRefines(s: System, delivery: Delivery)
    requires Refines(s) && s.phase.Sending?
    ensures Refines(Complete(s, delivery))
  {
    hide OnEvent, Conclude, AfterTurns;
    var send := s.phase.send;
    ConcludeRefines(s.(router := State(OnSent(s.router.core, send, delivery), Sent(s.router.effects, send, delivery))),
                    s.phase.event, delivery);
  }

  lemma RouterKeepsRefines(cfg: Deployment, s: System, a: RouterAction)
    requires Refines(s) && RouterCan(cfg, s, a)
    ensures Refines(RouterDo(cfg, s, a))
  {
    hide Take, Complete, AfterTurns, Put, Finish, Handle, Refines;
    match a
    case HandleCommand => HandleRefines(s);
    case NoticeClosed => NoticeRefines(s);
    case SeeStop => FinishRefines(s, StopSeen);
    case TakeEvent => TakeRefines(s);
    case SeeEnd => FinishRefines(s, EventsClosed);
    case Deliver =>
      PutKeepsPhase(s, s.phase.send);
      PhaseRefines(s, Put(s, s.phase.send));
      CompleteRefines(Put(s, s.phase.send), Delivered);
    case FindGone => CompleteRefines(s, ReceiverGone);
    case AbandonSend => CompleteRefines(s, Stopped);
    case _ => PhaseRefines(s, RouterDo(cfg, s, a));
  }

  lemma HandleRefines(s: System)
    requires Refines(s) && s.phase == Selecting && s.commands != []
    ensures Refines(Handle(s))
  {
    hide AfterTurns, AfterCommand;
    TurnRefines(AfterCommand(s.router, s.commands[0]), s.turns, Commanded(s.commands[0]));
  }

  lemma NoticeRefines(s: System)
    requires Refines(s) && s.phase == Selecting
    ensures Refines(s.(taking := false, turns := s.turns + [CommandsClosed]))
  {
    hide AfterTurns;
    TurnRefines(s.router, s.turns, CommandsClosed);
  }

  lemma FinishRefines(s: System, t: Turn)
    requires Refines(s) && (s.phase == PastCommands || s.phase == PastStop) && (t == StopSeen || t == EventsClosed)
    ensures Refines(Finish(s, t))
  {
    hide AfterTurns, AfterEnd;
    TurnRefines(s.router, s.turns, t);
  }

  /** Where no turn is taken, no event is in hand, and the router is not at its end, only turns and router matter. */
  lemma PhaseRefines(s: System, t: System)
    requires Refines(s) && t.turns == s.turns && t.router == s.router
    requires s.phase == t.phase
          || (!s.phase.Sending? && !t.phase.Sending? && s.phase != Finished && t.phase != Finished)
    ensures Refines(t)
  {
    hide AfterTurns, OnEvent;
  }

  lemma StepKeepsRefines(cfg: Deployment, s: System, a: Action)
    requires Refines(s) && Can(cfg, s, a)
    ensures Refines(Do(cfg, s, a))
  {
    hide CallerCan, CallerDo, RouterCan, RouterDo, UnsubscriberCan, UnsubscriberDo, DriverCan, DriverDo,
      AfterTurns, OnEvent;
    match a
    case OfCaller(caller) => CallerKeeps(cfg, s, caller);
    case OfRouter(router) => RouterKeepsRefines(cfg, s, router);
    case _ => OthersKeep(cfg, s, a);
  }

  /* Unsubscriptions: none is lost on the way, none is doubled. */

  ghost predicate Forwarded(s: System) {
    s.issued + InHand(s.unsubscriber) + s.keys == s.router.effects.unsubscribed
  }

  lemma StepKeepsForwarded(cfg: Deployment, s: System, a: Action)
    requires Forwarded(s) && Can(cfg, s, a)
    ensures Forwarded(Do(cfg, s, a))
  {
    hide CallerCan, CallerDo, RouterCan, RouterDo, UnsubscriberCan, UnsubscriberDo, DriverCan, DriverDo;
    match a
    case OfCaller(caller) => CallerKeeps(cfg, s, caller);
    case OfRouter(router) => RouterForwards(cfg, s, router);
    case OfUnsubscriber(unsubscriber) => UnsubscriberForwards(cfg, s, unsubscriber);
    case OfDriver(driver) => DriverKeeps(cfg, s, driver);
  }

  lemma RouterForwards(cfg: Deployment, s: System, a: RouterAction)
    requires Forwarded(s) && RouterCan(cfg, s, a)
    ensures Forwarded(RouterDo(cfg, s, a))
  {
    hide RouterCan, RouterDo, CommandsOf;
    if a.HandleCommand? {
      HandleForwards(cfg, s);
    } else {
      RouterIsQuiet(cfg, s, a);
    }
  }

  lemma UnsubscriberForwards(cfg: Deployment, s: System, a: UnsubscriberAction)
    requires Forwarded(s) && UnsubscriberCan(cfg, s, a)
    ensures Forwarded(UnsubscriberDo(cfg, s, a))
  {
    if a.TakeKey? {
      assert s.issued + [] + s.keys == s.issued + [s.keys[0]] + s.keys[1..];
    }
  }

  lemma HandleForwards(cfg: Deployment, s: System)
    requires Forwarded(s) && RouterCan(cfg, s, HandleCommand)
    ensures Forwarded(RouterDo(cfg, s, HandleCommand))
  {
    var asked := OnCommand(s.router.core, s.commands[0]).1;
    assert s.issued + InHand(s.unsubscriber) + (s.keys + OneOf(asked))
        == s.issued + InHand(s.unsubscriber) + s.keys + OneOf(asked);
  }
}
