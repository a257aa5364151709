/** In every run each stream has been given what it is owed, up to a dropped receiver or a stop. */
module Fanout {
  import opened Sequences
  import opened RouterCore
  import opened Router
  import opened History
  import opened Protocol
  import opened Invariants

  /** All that was ever put into a stream. */
  function Out<T>(o: Outlet<T>): seq<T> {
    o.received + o.buffer
  }

  /** The router saw no event after a stop cut a send short, and will see none. */
  predicate Cut(s: System) {
    s.stop && (s.phase == Selecting || s.phase == PastCommands || s.phase == Finished)
  }

  predicate Served<T(==)>(o: Outlet<T>, owed: seq<T>, cut: bool) {
    Out(o) <= owed && (Out(o) == owed || o.holder == Gone || cut)
  }

  ghost predicate StreamServed(s: System, k: Key) {
    k in s.streams ==> Served(s.streams[k], Owed(k, s.turns), Cut(s))
  }

  ghost predicate AllServed(s: System) {
    && (forall k :: StreamServed(s, k))
    && Served(s.session, OwedSession(s.turns), Cut(s))
    && (!s.router.core.sessionOpen ==> s.session.holder == Gone)
  }

  /* What one event adds to what is owed. */

  lemma EventOwesStream(turns: seq<Turn>, e: WireEvent, delivery: Delivery, k: Key)
    requires Open(turns)
    ensures Owed(k, turns + [Happened(e, delivery)])
         == Owed(k, turns) + ForStream(OnEvent(AfterTurns(INITIAL, turns).core, e).send, k)
  {
    hide Owed, Live, OnEvent, AfterTurns, NewsFor;
    var c := AfterTurns(INITIAL, turns).core;
    RegisteredExactlyLive(k, turns);
    SendsWhatIsOwed(c, e);
    OwedSnoc(k, turns, Happened(e, delivery));
    var send := OnEvent(c, e).send;
    if send.Some? && send.value.ToStream? {
      assert send == Some(ToStream(send.value.key, send.value.event));
    }
    if k in c.subscriptions && NewsFor(k, e).Some? {
      assert send == Some(ToStream(k, NewsFor(k, e).value));
    }
  }

  lemma EventOwesSession(turns: seq<Turn>, e: WireEvent, delivery: Delivery)
    requires Open(turns)
    ensures var c := AfterTurns(INITIAL, turns).core; var owed := OwedSession(turns + [Happened(e, delivery)]);
            && OwedSession(turns) <= owed
            && (c.sessionOpen ==> owed == OwedSession(turns) + ForSession(OnEvent(c, e).send))
  {
    hide OwedSession, Live, OnEvent, AfterTurns, SessionNews, Addressee;
    var c := AfterTurns(INITIAL, turns).core;
    if Addressee(e).Some? {
      RegisteredExactlyLive(Addressee(e).value, turns);
    }
    SendsWhatIsOwed(c, e);
    OwedSessionSnoc(turns, Happened(e, delivery));
    var send := OnEvent(c, e).send;
    var news := SessionNews(e, Orphan(e, turns));
    if send.Some? && send.value.ToSession? {
      assert send == Some(ToSession(send.value.message));
    }
    if c.sessionOpen && news.Some? {
      assert send == Some(ToSession(news.value));
    }
  }

  lemma OtherTurnsOweNothing(turns: seq<Turn>, t: Turn, k: Key)
    requires !t.Happened?
    ensures Owed(k, turns + [t]) == Owed(k, turns) && OwedSession(turns + [t]) == OwedSession(turns)
  {
    OwedSnoc(k, turns, t);
    OwedSessionSnoc(turns, t);
  }

  /* One event. */

  /** What the end of an event's handling leaves alone. */
  lemma ConcludeKeeps(s: System, e: WireEvent, delivery: Delivery)
    ensures var t := Conclude(s, e, delivery);
            && t.turns == s.turns + [Happened(e, delivery)] && t.streams == s.streams && t.session == s.session
            && t.stop == s.stop && t.router.core.sessionOpen == s.router.core.sessionOpen
            && (t.phase == Selecting || t.phase == Finished)
  {
    hide IsLast, AfterEnd;
    EndKeepsSession(s.router);
  }

  lemma EndKeepsSession(s: State)
    ensures AfterEnd(s).core.sessionOpen == s.core.sessionOpen
  {
  }

  /** An event that awaits no send. */
  lemma TakeServes(s: System)
    requires AllServed(s) && Refines(s) && s.phase == PastStop && s.events != []
    ensures AllServed(Take(s))
  {
    hide Owed, OwedSession, AfterTurns, OnEvent, StreamServed, Take, Refines, Served;
    TakeServesSession(s);
    forall k ensures StreamServed(Take(s), k) {
      TakeServesStream(s, k);
    }
  }

  lemma TakeServesSession(s: System)
    requires AllServed(s) && Refines(s) && s.phase == PastStop && s.events != []
    ensures var t := Take(s);
            Served(t.session, OwedSession(t.turns), Cut(t)) && (!t.router.core.sessionOpen ==> t.session.holder == Gone)
  {
    hide Owed, OwedSession, AfterTurns, OnEvent, StreamServed, Out, Conclude;
    OnEventSends(s.router.core, s.events[0]);
    EventOwesSession(s.turns, s.events[0], Delivered);
    ConcludeKeeps(Taking(s), s.events[0], Delivered);
  }

  lemma TakeServesStream(s: System, k: Key)
    requires StreamServed(s, k) && Refines(s) && s.phase == PastStop && s.events != []
    ensures StreamServed(Take(s), k)
  {
    hide Owed, OwedSession, AfterTurns, OnEvent, Out, Conclude;
    EventOwesStream(s.turns, s.events[0], Delivered, k);
    ConcludeKeeps(Taking(s), s.events[0], Delivered);
  }

  /** What ends a send: the event placed, the receiver gone, or a stop. */
  predicate Justified(s: System, delivery: Delivery)
    requires s.phase.Sending?
  {
    match delivery
    case Delivered => !ReceiverLeft(s, s.phase.send)
    case ReceiverGone => ReceiverLeft(s, s.phase.send)
    case Stopped => s.stop
  }

  ghost predicate SendsToAStream(s: System) {
    s.phase.Sending? && (s.phase.send.ToStream? ==> s.phase.send.key in s.streams)
  }

  function Placed(s: System, delivery: Delivery): System
    requires SendsToAStream(s)
  {
    if delivery == Delivered then Put(s, s.phase.send) else s
  }

  lemma PutExtends(s: System, k: Key)
    requires SendsToAStream(s)
    ensures var send := s.phase.send; var t := Put(s, send);
            && t == s.(streams := t.streams, session := t.session)
            && t.session.holder == s.session.holder && Out(t.session) == Out(s.session) + ForSession(Some(send))
            && (k in t.streams <==> k in s.streams)
            && (k in s.streams ==> t.streams[k].holder == s.streams[k].holder
                                   && Out(t.streams[k]) == Out(s.streams[k]) + ForStream(Some(send), k))
  {
  }

  lemma CompleteKeeps(s: System, delivery: Delivery)
    requires s.phase.Sending?
    ensures var t := Complete(s, delivery);
            && t.turns == s.turns + [Happened(s.phase.event, delivery)] && t.streams == s.streams
            && t.session == s.session && t.stop == s.stop && (t.phase == Selecting || t.phase == Finished)
  {
    hide Conclude, OnSent;
    var send := s.phase.send;
    var core, effects := OnSent(s.router.core, send, delivery), Sent(s.router.effects, send, delivery);
    ConcludeKeeps(s.(router := State(core, effects)), s.phase.event, delivery);
  }

  lemma CompleteServesStream(s: System, delivery: Delivery, k: Key)
    requires SendsToAStream(s) && StreamServed(s, k) && Refines(s) && Justified(s, delivery)
    ensures StreamServed(Complete(Placed(s, delivery), delivery), k)
  {
    hide Owed, OwedSession, AfterTurns, OnEvent, OnSent, Put, Out, Complete;
    PutExtends(s, k);
    CompleteKeeps(Placed(s, delivery), delivery);
    EventOwesStream(s.turns, s.phase.event, delivery, k);
  }

  lemma CompleteServesSession(s: System, delivery: Delivery)
    requires SendsToAStream(s) && AllServed(s) && Refines(s) && Justified(s, delivery)
    ensures var t := Complete(Placed(s, delivery), delivery);
            Served(t.session, OwedSession(t.turns), Cut(t))
  {
    hide Owed, OwedSession, AfterTurns, OnEvent, StreamServed, Put, Out, OnSent, Complete;
    var c := AfterTurns(INITIAL, s.turns).core;
    OnEventSends(c, s.phase.event);
    PutExtends(s, 0);
    CompleteKeeps(Placed(s, delivery), delivery);
    EventOwesSession(s.turns, s.phase.event, delivery);
  }

  /** The router forwards no more only when the receiver is gone. */
  lemma CompleteClosesSession(s: System, delivery: Delivery)
    requires SendsToAStream(s) && AllServed(s) && Justified(s, delivery)
    ensures var t := Complete(Placed(s, delivery), delivery);
            !t.router.core.sessionOpen ==> t.session.holder == Gone
  {
    hide Owed, OwedSession, AfterTurns, OnEvent, StreamServed, Put, Out;
    PutExtends(s, 0);
  }

  lemma CompleteServes(s: System, delivery: Delivery)
    requires SendsToAStream(s) && AllServed(s) && Refines(s) && Justified(s, delivery)
    ensures AllServed(Complete(Placed(s, delivery), delivery))
  {
    hide StreamServed, Served, Refines, Justified, Complete, Put;
    if delivery == Delivered {
      PutKeepsPhase(s, s.phase.send);
    }
    CompleteServesSession(s, delivery);
    CompleteClosesSession(s, delivery);
    forall k ensures StreamServed(Complete(Placed(s, delivery), delivery), k) {
      CompleteServesStream(s, delivery, k);
    }
  }

  /* Every step. */

  lemma OtherTurnServes(s: System, t: System, turn: Turn)
    requires AllServed(s) && !turn.Happened? && t.turns == s.turns + [turn] && t.streams == s.streams
    requires t.session == s.session && t.stop == s.stop && t.router.core.sessionOpen == s.router.core.sessionOpen
    requires t.phase == s.phase || t.phase == Finished
    ensures AllServed(t)
  {
    hide Owed, OwedSession, Out;
    forall k ensures StreamServed(t, k) {
      assert StreamServed(s, k);
      OtherTurnsOweNothing(s.turns, turn, k);
    }
    OtherTurnsOweNothing(s.turns, turn, 0);
  }

  lemma RouterServes(cfg: Deployment, s: System, a: RouterAction)
    requires AllServed(s) && Refines(s) && Wired(s) && RouterCan(cfg, s, a)
    ensures AllServed(RouterDo(cfg, s, a))
  {
    hide Owed, OwedSession, AfterTurns, OnEvent, Take, Put, Complete;
    match a
    case HandleCommand => OtherTurnServes(s, Handle(s), Commanded(s.commands[0]));
    case NoticeClosed => OtherTurnServes(s, RouterDo(cfg, s, a), CommandsClosed);
    case SeeStop => OtherTurnServes(s, RouterDo(cfg, s, a), StopSeen);
    case SeeEnd => OtherTurnServes(s, RouterDo(cfg, s, a), EventsClosed);
    case TakeEvent => TakeServes(s);
    case Deliver => CompleteServes(s, Delivered);
    case FindGone => CompleteServes(s, ReceiverGone);
    case AbandonSend => CompleteServes(s, Stopped);
    case _ =>
      forall k ensures StreamServed(RouterDo(cfg, s, a), k) {
        assert StreamServed(s, k);
      }
  }

  lemma PushKeepsStreams(s: System, c: Command)
    ensures Push(s, c).streams == s.streams
  {
  }

  lemma GivenKeepsOut(s: System, k: Key, holder: Holder, j: Key)
    requires k in s.streams && s.streams[k].holder != Gone
    ensures var t := Given(s, k, holder);
            && (j in s.streams <==> j in t.streams)
            && (j in s.streams ==> Out(t.streams[j]) == Out(s.streams[j])
                                   && (s.streams[j].holder == Gone ==> t.streams[j].holder == Gone))
  {
  }

  /** The caller moves events from buffered to received, and gives up receiving halves for good. */
  lemma CallerKeepsOut(cfg: Deployment, s: System, a: CallerAction, k: Key)
    requires CallerCan(cfg, s, a)
    ensures var t := CallerDo(cfg, s, a);
            && (k in s.streams ==> k in t.streams && Out(t.streams[k]) == Out(s.streams[k])
                                   && (s.streams[k].holder == Gone ==> t.streams[k].holder == Gone))
            && (k !in s.streams && k in t.streams ==> Out(t.streams[k]) == [])
  {
    if Pushing(a) {
      hide CallerDo, Push, Given;
      CallerPushes(cfg, s, a);
      PushKeepsStreams(Ahead(s, a), Pushed(a));
      if !a.BeginSubscribe? {
        GivenKeepsOut(s, a.key, if a.FailRequest? then Gone else Dropping, k);
      }
    } else {
      PushlessKeepsOut(cfg, s, a, k);
    }
  }

  lemma PushlessKeepsOut(cfg: Deployment, s: System, a: CallerAction, k: Key)
    requires CallerCan(cfg, s, a) && !Pushing(a)
    ensures var t := CallerDo(cfg, s, a);
            && (k in s.streams ==> k in t.streams && Out(t.streams[k]) == Out(s.streams[k])
                                   && (s.streams[k].holder == Gone ==> t.streams[k].holder == Gone))
            && (k !in s.streams ==> k !in t.streams)
  {
    hide Given;
    if a.QueueRequest? || a.CancelSubscribe? || a.EndDrop? {
      GivenKeepsOut(s, a.key, if a.QueueRequest? then Held else Gone, k);
    }
  }

  lemma CallerKeepsSession(cfg: Deployment, s: System, a: CallerAction)
    requires CallerCan(cfg, s, a)
    ensures var t := CallerDo(cfg, s, a);
            && Out(t.session) == Out(s.session) && (s.session.holder == Gone ==> t.session.holder == Gone)
            && (s.stop ==> t.stop)
  {
    if Pushing(a) {
      hide CallerDo, Push, Ahead;
      CallerPushes(cfg, s, a);
      AheadKeeps(s, a);
      PushKeeps(Ahead(s, a), Pushed(a));
    } else {
      PushlessKeepsSession(cfg, s, a);
    }
  }

  lemma PushlessKeepsSession(cfg: Deployment, s: System, a: CallerAction)
    requires CallerCan(cfg, s, a) && !Pushing(a)
    ensures var t := CallerDo(cfg, s, a);
            && Out(t.session) == Out(s.session) && (s.session.holder == Gone ==> t.session.holder == Gone)
            && (s.stop ==> t.stop)
  {
    hide Given;
    if a.QueueRequest? || a.CancelSubscribe? || a.EndDrop? {
      GivenKeepsRest(s, a.key, if a.QueueRequest? then Held else Gone);
    }
  }

  lemma CallerServes(cfg: Deployment, s: System, a: CallerAction)
    requires AllServed(s) && Logged(s) && CallerCan(cfg, s, a)
    ensures AllServed(CallerDo(cfg, s, a))
  {
    hide Owed, OwedSession, CommandsOf, CallerCan, CallerDo, Out, Logged;
    var t := CallerDo(cfg, s, a);
    CallerKeeps(cfg, s, a);
    CallerKeepsSession(cfg, s, a);
    forall k ensures StreamServed(t, k) {
      assert StreamServed(s, k);
      CallerKeepsOut(cfg, s, a, k);
      if k !in s.streams {
        UnregisteredIsOwedNothing(s, k);
      }
    }
  }

  lemma UnregisteredIsOwedNothing(s: System, k: Key)
    requires Logged(s) && k !in s.streams
    ensures Owed(k, s.turns) == []
  {
    assert LoggedFor(s, k);
    assert multiset(s.pushed) == multiset(CommandsOf(s.turns)) + multiset(s.commands);
    OwedEndsOnce(k, s.turns);
  }

  lemma StepServes(cfg: Deployment, s: System, a: Action)
    requires AllServed(s) && Refines(s) && Wired(s) && Logged(s) && Can(cfg, s, a)
    ensures AllServed(Do(cfg, s, a))
  {
    hide CallerCan, CallerDo, RouterCan, RouterDo, UnsubscriberCan, UnsubscriberDo, DriverCan, DriverDo;
    hide Owed, OwedSession, Refines, Wired, Logged;
    match a
    case OfCaller(caller) => CallerServes(cfg, s, caller);
    case OfRouter(router) => RouterServes(cfg, s, router);
    case _ =>
      OthersKeep(cfg, s, a);
      forall k ensures StreamServed(Do(cfg, s, a), k) {
        assert StreamServed(s, k);
      }
  }
}
