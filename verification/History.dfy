/**
 * What a run of the router should have done, read off its turns alone: which keys are live, and what each stream and
 * the session's stream are owed. No registration table and no readiness flag appears here.
 */
module History {
  import opened Sequences
  import opened RouterCore
  import opened Router

  /** What an event says to one subscription, if it speaks to it. */
  function NewsFor(k: Key, e: WireEvent): Option<SubscriptionEvent> {
    match e
    case WireSubscription(key, report) =>
      if key != k then None
      else
        (match report
         case Ok(WireActivated(items, fields, commandFields)) => Some(Activated(items, fields, commandFields))
         case Ok(WireUpdate(update)) => Some(Update(update))
         case Ok(WireEndOfSnapshot(item)) => Some(EndOfSnapshot(item))
         case Ok(WireSnapshotCleared(item)) => Some(SnapshotCleared(item))
         case Ok(WireOverflow(item, dropped)) => Some(Overflow(item, dropped))
         case Ok(WireReconfigured(frequency, filtering)) => Some(Reconfigured(frequency, filtering))
         case Ok(WireUnsubscribed) => Some(Unsubscribed)
         case Err(error) => Some(Undecodable(error)))
    case WireControlResponse(target, outcome) =>
      if target != OfSubscription(k, Subscribe) then None
      else (match outcome
            case Accepted => None
            case Refused(cause) => Some(Rejected(cause))
            case NotSent(reason) => Some(Deferred(reason)))
    case _ => None
  }

  /** The subscription whose own stream an event is for. */
  function Addressee(e: WireEvent): Option<Key> {
    match e
    case WireSubscription(key, _) => Some(key)
    case WireControlResponse(target, outcome) =>
      if target.OfSubscription? && target.operation == Subscribe && outcome != Accepted then Some(target.key) else None
    case _ => None
  }

  /** What an event says to the session's stream, when `orphan` tells that its addressee, if any, is not live. */
  function SessionNews(e: WireEvent, orphan: bool): Option<SessionEvent> {
    match e
    case WireBound(info) => Some(Connected(info))
    case WireRecovered(recovery) => Some(Recovered(recovery))
    case WireResubscribed(entries) => Some(Resubscribed(entries))
    case WireUnbound(reason, retryIn) => Some(Disconnected(reason, retryIn))
    case WireMessage(sequence, prog, result) => Some(MessageOutcome(sequence, prog, result))
    case WireSubscription(_, _) => None
    case WireControlResponse(_, Accepted) => None
    case WireControlResponse(_, Refused(cause)) =>
      if Addressee(e).None? || orphan then Some(RequestRejected(cause)) else None
    case WireControlResponse(_, NotSent(reason)) => if Addressee(e).None? then Some(RequestNotSent(reason)) else None
    case WireServerInfo(announcement) => Some(ServerInfo(announcement))
    case WireUnparsed(line, _) => Some(Unrecognized(line))
    case WireClosed(reason) => Some(SessionClosed(reason))
  }

  /** Whether a turn ends a subscription: its terminal event, its undone registration, its dropped stream. */
  predicate EndsKey(k: Key, t: Turn) {
    match t
    case Commanded(command) => command == Unregister(k) || command == StreamDropped(k)
    case Happened(WireSubscription(key, Ok(WireUnsubscribed)), _) => key == k
    case Happened(WireControlResponse(target, Refused(_)), _) => target == OfSubscription(k, Subscribe)
    case _ => false
  }

  /** The last news of a subscription. */
  predicate Terminal(e: SubscriptionEvent) {
    match e case Unsubscribed => true case Rejected(_) => true case _ => false
  }

  /** Whether a turn is the router's last: a stop, the end of the events, or the session's close. */
  predicate Last(t: Turn) {
    match t
    case StopSeen => true
    case EventsClosed => true
    case Happened(WireClosed(_), _) => true
    case _ => false
  }

  /** Whether a subscription is registered and not ended after some turns. */
  predicate Live(k: Key, turns: seq<Turn>) {
    if turns == [] then false
    else
      var t := turns[|turns| - 1];
      t == Commanded(Register(k)) || (Live(k, turns[..|turns| - 1]) && !EndsKey(k, t))
  }

  function OneOf<T>(o: Option<T>): seq<T> {
    match o case None => [] case Some(x) => [x]
  }

  predicate Orphan(e: WireEvent, turns: seq<Turn>) {
    match Addressee(e) case None => false case Some(k) => !Live(k, turns)
  }

  /** What a subscription's stream is owed: the news for its key, in order, while it is live. */
  function Owed(k: Key, turns: seq<Turn>): seq<SubscriptionEvent> {
    if turns == [] then []
    else
      var before := turns[..|turns| - 1];
      var t := turns[|turns| - 1];
      Owed(k, before) + if t.Happened? && Live(k, before) then OneOf(NewsFor(k, t.event)) else []
  }

  /** What the session's stream is owed. */
  function OwedSession(turns: seq<Turn>): seq<SessionEvent> {
    if turns == [] then []
    else
      var before := turns[..|turns| - 1];
      var t := turns[|turns| - 1];
      OwedSession(before) + if t.Happened? then OneOf(SessionNews(t.event, Orphan(t.event, before))) else []
  }

  /** What one turn says about readiness. */
  function News(t: Turn): Option<Readiness> {
    if !t.Happened? then None
    else match t.event
         case WireBound(info) => Some(Ok(info))
         case WireClosed(reason) => Some(Err(ClosedWith(reason)))
         case _ => None
  }

  /** What `connect` learns from the turns so far: the first bind or the first close. */
  function FirstNews(turns: seq<Turn>): Option<Readiness> {
    if turns == [] then None else if News(turns[0]).Some? then News(turns[0]) else FirstNews(turns[1..])
  }

  /** The commands among the turns. */
  function CommandsOf(turns: seq<Turn>): seq<Command> {
    if turns == [] then []
    else
      var t := turns[|turns| - 1];
      CommandsOf(turns[..|turns| - 1]) + if t.Commanded? then [t.command] else []
  }

  /** The keys whose streams a sequence of commands reports dropped. */
  function Drops(commands: seq<Command>): seq<Key> {
    if commands == [] then []
    else (if commands[0].StreamDropped? then [commands[0].key] else []) + Drops(commands[1..])
  }

  /** Whether none of the turns ends the router. */
  predicate Open(turns: seq<Turn>) {
    forall i :: 0 <= i < |turns| ==> !Ends(turns[i])
  }

  /* One more turn. */

  lemma {:induction false} LiveSnoc(k: Key, turns: seq<Turn>, t: Turn)
    ensures Live(k, turns + [t]) == (t == Commanded(Register(k)) || (Live(k, turns) && !EndsKey(k, t)))
  {
    assert (turns + [t])[..|turns|] == turns;
  }

  lemma {:induction false} OwedSnoc(k: Key, turns: seq<Turn>, t: Turn)
    ensures Owed(k, turns + [t])
         == Owed(k, turns) + if t.Happened? && Live(k, turns) then OneOf(NewsFor(k, t.event)) else []
  {
    assert (turns + [t])[..|turns|] == turns;
  }

  lemma {:induction false} OwedSessionSnoc(turns: seq<Turn>, t: Turn)
    ensures OwedSession(turns + [t])
         == OwedSession(turns) + if t.Happened? then OneOf(SessionNews(t.event, Orphan(t.event, turns))) else []
  {
    assert (turns + [t])[..|turns|] == turns;
  }

  lemma {:induction false} CommandsOfSnoc(turns: seq<Turn>, t: Turn)
    ensures CommandsOf(turns + [t]) == CommandsOf(turns) + if t.Commanded? then [t.command] else []
  {
    assert (turns + [t])[..|turns|] == turns;
  }

  lemma {:induction false} DropsStep(c: Command, rest: seq<Command>)
    ensures Drops([c] + rest) == OneOf(if c.StreamDropped? then Some(c.key) else None) + Drops(rest)
  {
    assert ([c] + rest)[1..] == rest;
  }

  lemma {:induction false} DropsConcat(a: seq<Command>, b: seq<Command>)
    ensures Drops(a + b) == Drops(a) + Drops(b)
  {
    hide Drops;
    if a == [] {
      NoTurns(0);
      assert a + b == b;
    } else {
      DropsConcat(a[1..], b);
      DropsStep(a[0], a[1..]);
      DropsStep(a[0], a[1..] + b);
      assert [a[0]] + a[1..] == a && [a[0]] + (a[1..] + b) == a + b;
    }
  }

  lemma {:induction false} FirstNewsSnoc(turns: seq<Turn>, t: Turn)
    ensures FirstNews(turns + [t]) == if FirstNews(turns).Some? then FirstNews(turns) else FirstNews([t])
    decreases |turns|
  {
    if turns == [] {
      assert turns + [t] == [t];
    } else {
      FirstNewsSnoc(turns[1..], t);
      assert (turns + [t])[1..] == turns[1..] + [t];
    }
  }

  lemma {:induction false} AfterTurnsSnoc(s: State, turns: seq<Turn>, t: Turn)
    requires Open(turns)
    ensures AfterTurns(s, turns + [t])
         == var u := AfterTurn(AfterTurns(s, turns), t); if Ends(t) then AfterEnd(u) else u
    decreases |turns|
  {
    hide AfterTurn, AfterEnd, Ends;
    if turns == [] {
      assert turns + [t] == [t];
      assert [t][1..] == [];
    } else {
      AfterTurnsSnoc(AfterTurn(s, turns[0]), turns[1..], t);
      assert (turns + [t])[1..] == turns[1..] + [t];
    }
  }

  /** The router ends after its last turn, and after no other. */
  lemma EndsExactly(t: Turn)
    ensures Ends(t) <==> Last(t)
  {
  }

  /** Turns of which none is the last leave the router as it goes on; behind the last one nothing counts. */
  lemma {:induction false} OnlyTheLastEnds(s: State, turns: seq<Turn>, more: seq<Turn>)
    requires forall i :: 0 <= i < |turns| ==> !Last(turns[i])
    ensures AfterTurns(s, turns + more) == AfterTurns(AfterTurns(s, turns), more)
    ensures more != [] && Last(more[0]) ==>
              AfterTurns(s, turns + more) == AfterEnd(AfterTurn(AfterTurns(s, turns), more[0]))
    decreases |turns|
  {
    hide AfterTurn, AfterEnd, Ends, Last;
    if turns == [] {
      assert turns + more == more;
      if more != [] {
        EndsExactly(more[0]);
      }
    } else {
      EndsExactly(turns[0]);
      OnlyTheLastEnds(AfterTurn(s, turns[0]), turns[1..], more);
      assert (turns + more)[1..] == turns[1..] + more;
    }
  }

  /* The router's memory agrees with the turns. */

  /** A turn that does not end the router. */
  lemma TurnKeepsLive(k: Key, s: State, t: Turn)
    ensures (k in AfterTurn(s, t).core.subscriptions)
         == (t == Commanded(Register(k)) || (k in s.core.subscriptions && !EndsKey(k, t)))
  {
  }

  lemma NoTurns(k: Key)
    ensures AfterTurns(INITIAL, []) == INITIAL && !Live(k, []) && CommandsOf([]) == [] && FirstNews([]) == None
    ensures Owed(k, []) == [] && OwedSession([]) == [] && Drops([]) == []
  {
  }

  /** The registration table is exactly the live subscriptions. */
  lemma {:induction false} RegisteredExactlyLive(k: Key, turns: seq<Turn>)
    requires Open(turns)
    ensures (k in AfterTurns(INITIAL, turns).core.subscriptions) == Live(k, turns)
  {
    hide AfterTurns, AfterTurn, Live, EndsKey, Ends;
    NoTurns(k);
    if turns != [] {
      var before, t := turns[..|turns| - 1], turns[|turns| - 1];
      assert turns == before + [t];
      RegisteredExactlyLive(k, before);
      AfterTurnsSnoc(INITIAL, before, t);
      TurnKeepsLive(k, AfterTurns(INITIAL, before), t);
      LiveSnoc(k, before, t);
    }
  }

  /**
   * The router sends exactly what is owed: to a registered subscription, and to the session's stream while it is
   * open.
   */
  lemma SendsWhatIsOwed(c: Core, e: WireEvent)
    ensures forall k, x :: OnEvent(c, e).send == Some(ToStream(k, x)) <==>
              k in c.subscriptions && NewsFor(k, e) == Some(x)
    ensures var orphan := Addressee(e).Some? && Addressee(e).value !in c.subscriptions;
            forall m :: OnEvent(c, e).send == Some(ToSession(m)) <==> c.sessionOpen && SessionNews(e, orphan) == Some(m)
  {
  }

  function Said(turns: seq<Turn>): seq<Readiness> {
    OneOf(FirstNews(turns))
  }

  lemma FirstNewsOfOne(t: Turn)
    ensures FirstNews([t]) == News(t)
  {
    assert [t][1..] == [];
  }

  lemma EventSignals(c: Core, e: WireEvent)
    ensures OnEvent(c, e).signal == if c.awaitingReady then News(Happened(e, Delivered)) else None
    ensures OnEvent(c, e).core.awaitingReady == (c.awaitingReady && News(Happened(e, Delivered)).None?)
  {
  }

  lemma TurnSignals(s: State, t: Turn)
    ensures AfterTurn(s, t).effects.signals == s.effects.signals + if s.core.awaitingReady then OneOf(News(t)) else []
    ensures AfterTurn(s, t).core.awaitingReady == (s.core.awaitingReady && News(t).None?)
  {
    match t
    case Happened(event, delivery) =>
      hide OnEvent;
      EventSignals(s.core, event);
    case _ =>
  }

  /** Until the router ends, readiness has fired exactly with the first bind, if there was one. */
  lemma {:induction false} SignalsFirstNews(turns: seq<Turn>)
    requires Open(turns)
    ensures AfterTurns(INITIAL, turns).effects.signals == Said(turns)
    ensures AfterTurns(INITIAL, turns).core.awaitingReady == (Said(turns) == [])
  {
    hide AfterTurns, AfterTurn, FirstNews, Ends;
    NoTurns(0);
    if turns != [] {
      var before, t := turns[..|turns| - 1], turns[|turns| - 1];
      assert turns == before + [t];
      SignalsFirstNews(before);
      AfterTurnsSnoc(INITIAL, before, t);
      TurnSignals(AfterTurns(INITIAL, before), t);
      FirstNewsSnoc(before, t);
      FirstNewsOfOne(t);
    }
  }

  /** What was sent to one subscription's stream, and what to the session's. */
  function SentTo(k: Key, sends: seq<(Send, Delivery)>): seq<SubscriptionEvent> {
    if sends == [] then []
    else
      var send := sends[|sends| - 1].0;
      SentTo(k, sends[..|sends| - 1]) + if send.ToStream? && send.key == k then [send.event] else []
  }

  function SentToSession(sends: seq<(Send, Delivery)>): seq<SessionEvent> {
    if sends == [] then []
    else
      var send := sends[|sends| - 1].0;
      SentToSession(sends[..|sends| - 1]) + if send.ToSession? then [send.message] else []
  }

  /** What a turn sends. */
  function SendOf(c: Core, t: Turn): Option<Send> {
    if t.Happened? then OnEvent(c, t.event).send else None
  }

  /** What of a send goes to one subscription's stream, and what to the session's. */
  function ForStream(send: Option<Send>, k: Key): seq<SubscriptionEvent> {
    if send.Some? && send.value.ToStream? && send.value.key == k then [send.value.event] else []
  }

  function ForSession(send: Option<Send>): seq<SessionEvent> {
    if send.Some? && send.value.ToSession? then [send.value.message] else []
  }

  /** It is the turn's news. */
  lemma SendIsNews(c: Core, t: Turn, k: Key)
    ensures ForStream(SendOf(c, t), k)
         == if t.Happened? && k in c.subscriptions then OneOf(NewsFor(k, t.event)) else []
    ensures ForSession(SendOf(c, t))
         == if t.Happened? && c.sessionOpen then OneOf(SessionNews(t.event, Unregistered(c, t.event))) else []
  {
  }

  predicate Unregistered(c: Core, e: WireEvent) {
    Addressee(e).Some? && Addressee(e).value !in c.subscriptions
  }

  lemma {:induction false} SentSnoc(k: Key, sends: seq<(Send, Delivery)>, send: Send, delivery: Delivery)
    ensures SentTo(k, sends + [(send, delivery)]) == SentTo(k, sends) + ForStream(Some(send), k)
    ensures SentToSession(sends + [(send, delivery)]) == SentToSession(sends) + ForSession(Some(send))
  {
    assert (sends + [(send, delivery)])[..|sends|] == sends;
  }

  lemma TurnAddsSend(s: State, t: Turn)
    ensures AfterTurn(s, t).effects.sends
         == if SendOf(s.core, t).Some? then s.effects.sends + [(SendOf(s.core, t).value, t.delivery)]
            else s.effects.sends
  {
    hide OnEvent, Handled;
  }

  lemma TurnSends(s: State, t: Turn, k: Key)
    ensures var sends := AfterTurn(s, t).effects.sends;
            && SentTo(k, sends) == SentTo(k, s.effects.sends) + ForStream(SendOf(s.core, t), k)
            && SentToSession(sends) == SentToSession(s.effects.sends) + ForSession(SendOf(s.core, t))
  {
    hide AfterTurn, SentTo, SentToSession;
    TurnAddsSend(s, t);
    if SendOf(s.core, t).Some? {
      SentSnoc(k, s.effects.sends, SendOf(s.core, t).value, t.delivery);
    }
  }

  /** The router has sent a subscription's stream exactly what it is owed, in order. */
  lemma {:induction false} SendsExactlyOwed(k: Key, turns: seq<Turn>)
    requires Open(turns)
    ensures SentTo(k, AfterTurns(INITIAL, turns).effects.sends) == Owed(k, turns)
  {
    hide AfterTurns, AfterTurn, Owed, NewsFor, SendOf, Ends, SentToSession, ForStream, ForSession;
    NoTurns(k);
    if turns != [] {
      var before, t := turns[..|turns| - 1], turns[|turns| - 1];
      assert turns == before + [t];
      var s := AfterTurns(INITIAL, before);
      SendsExactlyOwed(k, before);
      AfterTurnsSnoc(INITIAL, before, t);
      TurnSends(s, t, k);
      SendIsNews(s.core, t, k);
      RegisteredExactlyLive(k, before);
      OwedSnoc(k, before, t);
    }
  }

  /** And the session's stream all it is owed while it is open, and nothing more once it was found closed. */
  lemma {:induction false} SendsSessionItsNews(turns: seq<Turn>)
    requires Open(turns)
    ensures var s := AfterTurns(INITIAL, turns);
            && SentToSession(s.effects.sends) <= OwedSession(turns)
            && (s.core.sessionOpen ==> SentToSession(s.effects.sends) == OwedSession(turns))
  {
    hide AfterTurns, AfterTurn, OwedSession, SessionNews, SendOf, Ends, SentTo, ForStream, ForSession;
    NoTurns(0);
    if turns != [] {
      var before, t := turns[..|turns| - 1], turns[|turns| - 1];
      assert turns == before + [t];
      var s := AfterTurns(INITIAL, before);
      SendsSessionItsNews(before);
      AfterTurnsSnoc(INITIAL, before, t);
      TurnSends(s, t, 0);
      SendIsNews(s.core, t, 0);
      TurnKeepsClosed(s, t);
      if t.Happened? && Addressee(t.event).Some? {
        RegisteredExactlyLive(Addressee(t.event).value, before);
      }
      OwedSessionSnoc(before, t);
    }
  }

  lemma TurnKeepsClosed(s: State, t: Turn)
    ensures AfterTurn(s, t).core.sessionOpen ==> s.core.sessionOpen
  {
  }

  lemma TurnUnsubscribes(s: State, t: Turn)
    ensures AfterTurn(s, t).effects.unsubscribed
         == s.effects.unsubscribed + Drops(if t.Commanded? then [t.command] else [])
  {
    if t.Commanded? {
      assert [t.command][1..] == [];
    }
  }

  /** The unsubscriptions asked for are the dropped streams, in order, whatever else removed their registrations. */
  lemma {:induction false} UnsubscribesDrops(turns: seq<Turn>)
    requires Open(turns)
    ensures AfterTurns(INITIAL, turns).effects.unsubscribed == Drops(CommandsOf(turns))
  {
    hide AfterTurns, AfterTurn, CommandsOf, Drops, Ends;
    NoTurns(0);
    if turns != [] {
      var before, t := turns[..|turns| - 1], turns[|turns| - 1];
      assert turns == before + [t];
      UnsubscribesDrops(before);
      AfterTurnsSnoc(INITIAL, before, t);
      TurnUnsubscribes(AfterTurns(INITIAL, before), t);
      CommandsOfSnoc(before, t);
      DropsConcat(CommandsOf(before), if t.Commanded? then [t.command] else []);
    }
  }

  /** A subscription that was registered and is not live was ended by some turn while it was live. */
  lemma {:induction false} RegisteredThenEnded(k: Key, turns: seq<Turn>) returns (i: nat)
    requires Register(k) in CommandsOf(turns) && !Live(k, turns)
    ensures i < |turns| && EndsKey(k, turns[i]) && Live(k, turns[..i])
  {
    var before, t := turns[..|turns| - 1], turns[|turns| - 1];
    assert turns == before + [t];
    if Live(k, before) {
      i := |before|;
    } else {
      i := RegisteredThenEnded(k, before);
      assert turns[..i] == before[..i];
    }
  }

  /** How often a key was registered. */
  function Registrations(k: Key, commands: seq<Command>): nat {
    multiset(commands)[Register(k)]
  }

  /** Only its last event is terminal, and after that the subscription is over. */
  predicate EndsOnce(events: seq<SubscriptionEvent>, live: bool) {
    && (forall i :: 0 <= i < |events| - 1 ==> !Terminal(events[i]))
    && (live && events != [] ==> !Terminal(events[|events| - 1]))
  }

  lemma NewsEnds(k: Key, t: Turn)
    requires t.Happened?
    ensures EndsKey(k, t) == (NewsFor(k, t.event).Some? && Terminal(NewsFor(k, t.event).value))
  {
  }

  /** A key registered once is owed at most one terminal event, as its last; before registration it is owed nothing. */
  lemma {:induction false} OwedEndsOnce(k: Key, turns: seq<Turn>)
    requires Registrations(k, CommandsOf(turns)) <= 1
    ensures EndsOnce(Owed(k, turns), Live(k, turns))
    ensures Registrations(k, CommandsOf(turns)) == 0 ==> Owed(k, turns) == [] && !Live(k, turns)
  {
    hide Owed, Live, CommandsOf, NewsFor, EndsKey;
    NoTurns(k);
    if turns != [] {
      var before, t := turns[..|turns| - 1], turns[|turns| - 1];
      assert turns == before + [t];
      CommandsOfSnoc(before, t);
      OwedEndsOnce(k, before);
      OwedSnoc(k, before, t);
      LiveSnoc(k, before, t);
      if t.Happened? {
        NewsEnds(k, t);
      }
    }
  }
}
