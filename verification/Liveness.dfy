/** The keepalive and reverse-heartbeat clocks of a stream connection. Instants and durations are whole nanoseconds. */
module Liveness {
  import opened Sequences
  import opened Config

  /** The last instant the platform's clock can express: signed 64-bit seconds. */
  const INSTANT_MAX: nat := 0x7FFF_FFFF_FFFF_FFFF * SECOND + 999_999_999

  type Instant = t: int | 0 <= t <= INSTANT_MAX

  /** `deadline`: an instant that cannot be expressed falls due at once. */
  function Deadline(from: Instant, budget: Duration): Instant {
    if from + budget <= INSTANT_MAX then from + budget else from
  }

  datatype Action = Idle | SendHeartbeat | InboundStalled(budget: Duration)

  /** The state of the clocks; `slack` and `heartbeatEvery` never change. */
  datatype Clocks = Clocks(
    slack: Duration, heartbeatEvery: Option<Duration>, budget: Option<Duration>, lastInbound: Instant,
    lastOutbound: Instant)

  datatype Event =
    | Opened(openTimeout: Duration, at: Instant)
    | Bound(keepAlive: Duration, at: Instant)
    | Closed(at: Instant)
    | Inbound(at: Instant)
    | Outbound(at: Instant)

  /** The budget a bind negotiates. */
  function Negotiated(keepAlive: Duration, slack: Duration): Duration {
    if keepAlive + slack <= DURATION_MAX then keepAlive + slack else keepAlive
  }

  function After(c: Clocks, e: Event): Clocks {
    match e
    case Opened(openTimeout, at) => c.(budget := Some(openTimeout), lastInbound := at)
    case Bound(keepAlive, at) => c.(budget := Some(Negotiated(keepAlive, c.slack)), lastInbound := at)
    case Closed(at) => c.(budget := None)
    case Inbound(at) => c.(lastInbound := at)
    case Outbound(at) => c.(lastOutbound := at)
  }

  function Initial(slack: Duration, heartbeatEvery: Option<Duration>, now: Instant): Clocks {
    Clocks(slack, heartbeatEvery, None, now, now)
  }

  function NextDeadlineOf(c: Clocks): Option<Instant> {
    var inbound := if c.budget.Some? then Some(Deadline(c.lastInbound, c.budget.value)) else None;
    var outbound := if c.heartbeatEvery.Some? then Some(Deadline(c.lastOutbound, c.heartbeatEvery.value)) else None;
    match (inbound, outbound)
    case (Some(a), Some(b)) => Some(if a <= b then a else b)
    case (Some(a), None) => Some(a)
    case (None, Some(b)) => Some(b)
    case (None, None) => None
  }

  function DueOf(c: Clocks, now: Instant): Action {
    if c.budget.Some? && now >= Deadline(c.lastInbound, c.budget.value) then InboundStalled(c.budget.value)
    else if c.heartbeatEvery.Some? && now >= Deadline(c.lastOutbound, c.heartbeatEvery.value) then SendHeartbeat
    else Idle
  }

  /** `Liveness`. */
  class Liveness {
    const slack: Duration
    var inboundBudget: Option<Duration>
    var lastInbound: Instant
    const heartbeatEvery: Option<Duration>
    var lastOutbound: Instant

    function View(): Clocks
      reads this
    {
      Clocks(slack, heartbeatEvery, inboundBudget, lastInbound, lastOutbound)
    }

    constructor (slack: Duration, heartbeatEvery: Option<Duration>, now: Instant)
      ensures View() == Initial(slack, heartbeatEvery, now)
    {
      this.slack := slack;
      inboundBudget := None;
      lastInbound := now;
      this.heartbeatEvery := heartbeatEvery;
      lastOutbound := now;
    }

    method OnStreamOpened(openTimeout: Duration, now: Instant)
      modifies this
      ensures View() == After(old(View()), Opened(openTimeout, now))
    {
      inboundBudget := Some(openTimeout);
      lastInbound := now;
    }

    method OnBound(keepAlive: Duration, now: Instant)
      modifies this
      ensures View() == After(old(View()), Bound(keepAlive, now))
    {
      inboundBudget := Some(Negotiated(keepAlive, slack));
      lastInbound := now;
    }

    method OnStreamClosed(ghost now: Instant)
      modifies this
      ensures View() == After(old(View()), Closed(now))
    {
      inboundBudget := None;
    }

    method OnInbound(now: Instant)
      modifies this
      ensures View() == After(old(View()), Inbound(now))
    {
      lastInbound := now;
    }

    method OnOutbound(now: Instant)
      modifies this
      ensures View() == After(old(View()), Outbound(now))
    {
      lastOutbound := now;
    }

    function NextDeadline(): Option<Instant>
      reads this
    {
      NextDeadlineOf(View())
    }

    function Due(now: Instant): Action
      reads this
    {
      DueOf(View(), now)
    }
  }

  // ---- whole traces ------------------------------------------------------------------------------------------------

  function ClocksAfter(start: Clocks, trace: seq<Event>): Clocks {
    if trace == [] then start else After(ClocksAfter(start, trace[..|trace| - 1]), trace[|trace| - 1])
  }

  /** The index behind the last event of a kind, or 0. */
  function LastIndex(trace: seq<Event>, kind: Event -> bool): (k: nat)
    ensures k <= |trace|
    ensures k > 0 ==> kind(trace[k - 1])
    ensures forall i :: k <= i < |trace| ==> !kind(trace[i])
  {
    if trace == [] then 0
    else if kind(trace[|trace| - 1]) then |trace|
    else LastIndex(trace[..|trace| - 1], kind)
  }

  predicate ChangesStream(e: Event) {
    e.Opened? || e.Bound? || e.Closed?
  }

  predicate IsHeard(e: Event) {
    e.Opened? || e.Bound? || e.Inbound?
  }

  predicate IsSent(e: Event) {
    e.Outbound?
  }

  /**
   * How long the server may stay silent, as the events say: the open timeout until the bind, then keep-alive plus
   * slack, or the keep-alive alone when the two together are 2^64 seconds or more.
   */
  function Allowed(slack: Duration, trace: seq<Event>): Option<Duration> {
    var k := LastIndex(trace, ChangesStream);
    if k == 0 then None
    else
      match trace[k - 1]
      case Opened(openTimeout, _) => Some(openTimeout)
      case Bound(keepAlive, _) =>
        Some(if keepAlive + slack < 0x1_0000_0000_0000_0000 * 1_000_000_000 then keepAlive + slack else keepAlive)
      case _ => None
  }

  /** When the server was last heard of, or the stream last opened. */
  function LastHeard(start: Instant, trace: seq<Event>): Instant {
    var k := LastIndex(trace, IsHeard);
    if k == 0 then start else trace[k - 1].at
  }

  function LastSent(start: Instant, trace: seq<Event>): Instant {
    var k := LastIndex(trace, IsSent);
    if k == 0 then start else trace[k - 1].at
  }

  /** What the events say so far, in the form of clocks. */
  function Said(slack: Duration, every: Option<Duration>, start: Instant, trace: seq<Event>): Clocks {
    Clocks(slack, every, Allowed(slack, trace), LastHeard(start, trace), LastSent(start, trace))
  }

  /** One more event changes that as it changes the clocks. */
  lemma {:induction false} SaidSnoc(
    slack: Duration, every: Option<Duration>, start: Instant, trace: seq<Event>, e: Event)
    ensures Said(slack, every, start, trace + [e]) == After(Said(slack, every, start, trace), e)
  {
    hide LastIndex;
    LastSnoc(trace, e, ChangesStream);
    LastSnoc(trace, e, IsHeard);
    LastSnoc(trace, e, IsSent);
  }

  lemma {:induction false} LastSnoc(trace: seq<Event>, e: Event, kind: Event -> bool)
    ensures LastIndex(trace + [e], kind) == if kind(e) then |trace| + 1 else LastIndex(trace, kind)
  {
    assert (trace + [e])[..|trace|] == trace;
  }

  /** The clocks remember exactly what the events say. */
  lemma {:induction false} ClocksRemember(slack: Duration, every: Option<Duration>, start: Instant, trace: seq<Event>)
    ensures ClocksAfter(Initial(slack, every, start), trace) == Said(slack, every, start, trace)
  {
    hide Said, After;
    if trace == [] {
      SaidNothing(slack, every, start);
    } else {
      var init, e := trace[..|trace| - 1], trace[|trace| - 1];
      assert trace == init + [e];
      ClocksRemember(slack, every, start, init);
      SaidSnoc(slack, every, start, init, e);
    }
  }

  lemma SaidNothing(slack: Duration, every: Option<Duration>, start: Instant)
    ensures Said(slack, every, start, []) == Initial(slack, every, start)
  {
  }

  /** Whether an interval has passed; one that ends beyond the clock's 2^63 seconds counts as passed at once. */
  predicate Elapsed(since: Instant, interval: Duration, now: Instant) {
    since + interval >= 0x8000_0000_0000_0000 * 1_000_000_000 || now - since >= interval
  }

  /**
   * After any trace, at any later instant: a stall is reported exactly when the stream is open and the server has
   * been silent for the time now allowed it, never while the stream is closed; a heartbeat exactly when there is no
   * stall and nothing was sent for the interval; and something is due exactly when the next deadline has been
   * reached.
   */
  lemma DueExactly(slack: Duration, every: Option<Duration>, start: Instant, trace: seq<Event>, now: Instant)
    requires start <= now && forall i :: 0 <= i < |trace| ==> trace[i].at <= now
    ensures
      var c := ClocksAfter(Initial(slack, every, start), trace);
      var stalled := Allowed(slack, trace).Some? && Elapsed(LastHeard(start, trace), Allowed(slack, trace).value, now);
      var quiet := every.Some? && Elapsed(LastSent(start, trace), every.value, now);
      && (DueOf(c, now).InboundStalled? <==> stalled)
      && (stalled ==> DueOf(c, now).budget == Allowed(slack, trace).value)
      && (DueOf(c, now) == SendHeartbeat <==> !stalled && quiet)
      && (DueOf(c, now) != Idle <==> NextDeadlineOf(c).Some? && now >= NextDeadlineOf(c).value)
  {
    ClocksRemember(slack, every, start, trace);
  }

  /** Nothing behind place `i` of a trace is of a kind. */
  ghost predicate NoneSince(trace: seq<Event>, i: nat, kind: Event -> bool) {
    forall k :: i < k < |trace| ==> !kind(trace[k])
  }

  lemma LastIs(trace: seq<Event>, i: nat, kind: Event -> bool)
    requires i < |trace| && kind(trace[i]) && NoneSince(trace, i, kind)
    ensures LastIndex(trace, kind) == i + 1
  {
  }

  /**
   * Bound at an instant and nothing heard since, on a stream that has not changed since: a stall is reported exactly
   * when keep-alive and slack have passed, or the keep-alive alone when no duration holds both, and it names that time.
   */
  lemma StallAfterBind(slack: Duration, every: Option<Duration>, start: Instant, trace: seq<Event>, i: nat,
                       now: Instant)
    requires start <= now && forall k :: 0 <= k < |trace| ==> trace[k].at <= now
    requires i < |trace| && trace[i].Bound? && NoneSince(trace, i, ChangesStream) && NoneSince(trace, i, IsHeard)
    ensures
      var c := ClocksAfter(Initial(slack, every, start), trace);
      var (keepAlive, at) := (trace[i].keepAlive, trace[i].at);
      var budget := if keepAlive + slack <= DURATION_MAX then keepAlive + slack else keepAlive;
      && (DueOf(c, now).InboundStalled? <==> now - at >= budget || at + budget > INSTANT_MAX)
      && (DueOf(c, now).InboundStalled? ==> DueOf(c, now).budget == budget)
  {
    DueExactly(slack, every, start, trace, now);
    LastIs(trace, i, ChangesStream);
    LastIs(trace, i, IsHeard);
  }

  /** And before the bind, when the open timeout has passed. */
  lemma StallAfterOpening(slack: Duration, every: Option<Duration>, start: Instant, trace: seq<Event>, i: nat,
                          now: Instant)
    requires start <= now && forall k :: 0 <= k < |trace| ==> trace[k].at <= now
    requires i < |trace| && trace[i].Opened? && NoneSince(trace, i, ChangesStream) && NoneSince(trace, i, IsHeard)
    ensures
      var c := ClocksAfter(Initial(slack, every, start), trace);
      var (timeout, at) := (trace[i].openTimeout, trace[i].at);
      && (DueOf(c, now).InboundStalled? <==> now - at >= timeout || at + timeout > INSTANT_MAX)
      && (DueOf(c, now).InboundStalled? ==> DueOf(c, now).budget == timeout)
  {
    DueExactly(slack, every, start, trace, now);
    LastIs(trace, i, ChangesStream);
    LastIs(trace, i, IsHeard);
  }

  // ---- a driver that sleeps until each deadline --------------------------------------------------------------------

  /** What the driver makes of a wake-up: a heartbeat sent or a stalled stream closed, whichever is due. */
  function Reaction(due: Action, now: Instant): Option<Event> {
    match due
    case Idle => None
    case SendHeartbeat => Some(Outbound(now))
    case InboundStalled(_) => Some(Closed(now))
  }

  function Woken(c: Clocks, now: Instant): Clocks {
    match Reaction(DueOf(c, now), now)
    case None => c
    case Some(e) => After(c, e)
  }

  /** Whether a heartbeat sent at an instant puts the next one off to a later instant. */
  predicate PutsOff(every: Duration, now: Instant) {
    every > 0 && now + every <= INSTANT_MAX
  }

  /**
   * Two wake-ups at one instant leave nothing due and a strictly later deadline, if any, exactly when no heartbeat
   * was due or sending one puts the next one off.
   */
  lemma TwoWakesSettle(c: Clocks, now: Instant)
    ensures
      var d := Woken(Woken(c, now), now);
      var due := c.heartbeatEvery.Some? && now >= Deadline(c.lastOutbound, c.heartbeatEvery.value);
      && (DueOf(d, now) == Idle <==> !due || PutsOff(c.heartbeatEvery.value, now))
      && (DueOf(d, now) == Idle <==> NextDeadlineOf(d).None? || NextDeadlineOf(d).value > now)
  {
  }

  function WokenTimes(c: Clocks, now: Instant, n: nat): Clocks {
    if n == 0 then c else Woken(WokenTimes(c, now, n - 1), now)
  }

  /** Otherwise the driver spins: however often it wakes at that instant, a heartbeat is due again. */
  lemma {:induction false} HeartbeatSpins(c: Clocks, now: Instant, n: nat)
    requires DueOf(c, now) == SendHeartbeat && !PutsOff(c.heartbeatEvery.value, now)
    ensures DueOf(WokenTimes(c, now, n), now) == SendHeartbeat
    ensures WokenTimes(c, now, n).(lastOutbound := c.lastOutbound) == c
    ensures n > 0 ==> WokenTimes(c, now, n).lastOutbound == now
  {
    if n > 0 {
      HeartbeatSpins(c, now, n - 1);
    }
  }

  /** One driver's clocks: their settings, and when they were started. */
  datatype Setup = Setup(slack: Duration, every: Duration, start: Instant)

  function ClocksOf(u: Setup, trace: seq<Event>): Clocks {
    ClocksAfter(Initial(u.slack, Some(u.every), u.start), trace)
  }

  function Max(a: Instant, b: Instant): Instant {
    if a >= b then a else b
  }

  /**
   * How time passes for the driver: it rests in its `select!` until an instant, or is held at something it awaits,
   * such as a send into a full channel, and cannot wake; and at an instant something happens. `timer` says whether a
   * deadline at the very end of a rest comes first.
   */
  datatype Move = Rests(to: Instant, timer: bool) | Held(to: Instant) | Stamped(event: Event)

  function EndsAt(m: Move): Instant {
    if m.Stamped? then m.event.at else m.to
  }

  function EndOf(u: Setup, line: seq<Move>): Instant {
    if line == [] then u.start else EndsAt(line[|line| - 1])
  }

  /** The events of a timeline. */
  function Events(line: seq<Move>): seq<Event> {
    if line == [] then []
    else
      var last := line[|line| - 1];
      Events(line[..|line| - 1]) + if last.Stamped? then [last.event] else []
  }

  /** The instant at which a resting driver wakes: its deadline, or at once when that has passed already. */
  function WakesAt(c: Clocks, now: Instant): Instant
    requires NextDeadlineOf(c).Some?
  {
    Max(now, NextDeadlineOf(c).value)
  }

  /**
   * Whether it wakes during a rest: only while it pumps a stream, and when its deadline comes before the rest's end.
   */
  predicate Wakes(c: Clocks, now: Instant, to: Instant, timer: bool) {
    && c.budget.Some? && NextDeadlineOf(c).Some?
    && (WakesAt(c, now) < to || (timer && WakesAt(c, now) == to))
  }

  /** A timeline up to which every heartbeat sent by `to` puts the next one off. */
  predicate InRange(u: Setup, line: seq<Move>, to: Instant) {
    PutsOff(u.every, to) && EndOf(u, line) <= to && ClocksOf(u, Events(line)).lastOutbound <= EndOf(u, line)
  }

  lemma {:induction false} EventsSnoc(line: seq<Move>, m: Move)
    ensures Events(line + [m]) == Events(line) + if m.Stamped? then [m.event] else []
  {
    assert (line + [m])[..|line|] == line;
  }

  lemma {:induction false} ClocksSnoc(u: Setup, trace: seq<Event>, e: Event)
    ensures ClocksOf(u, trace + [e]) == After(ClocksOf(u, trace), e)
  {
    assert (trace + [e])[..|trace|] == trace;
  }

  lemma {:induction false} EveryStays(u: Setup, trace: seq<Event>)
    ensures ClocksOf(u, trace).heartbeatEvery == Some(u.every) && ClocksOf(u, trace).slack == u.slack
  {
    if trace != [] {
      EveryStays(u, trace[..|trace| - 1]);
    }
  }

  /** A timeline with one more wake-up of the resting driver: it asks what is due, and does it. */
  function Waking(u: Setup, line: seq<Move>): seq<Move>
    requires NextDeadlineOf(ClocksOf(u, Events(line))).Some?
  {
    var c := ClocksOf(u, Events(line));
    var at := WakesAt(c, EndOf(u, line));
    line + [Rests(at, true)] + match Reaction(DueOf(c, at), at) case None => [] case Some(e) => [Stamped(e)]
  }

  /** A wake-up closes the stream, or sends a request later than the last. */
  lemma WakingReacts(u: Setup, line: seq<Move>, to: Instant, timer: bool)
    requires InRange(u, line, to) && Wakes(ClocksOf(u, Events(line)), EndOf(u, line), to, timer)
    ensures
      var c := ClocksOf(u, Events(line));
      var at := WakesAt(c, EndOf(u, line));
      var r := Reaction(DueOf(c, at), at);
      && r.Some? && r.value.at == at <= to && Waking(u, line) == line + [Rests(at, true)] + [Stamped(r.value)]
      && Events(Waking(u, line)) == Events(line) + [r.value]
      && InRange(u, Waking(u, line), to) && EndOf(u, Waking(u, line)) == at
      && var d := ClocksOf(u, Events(Waking(u, line)));
         d.budget.None? || (d.budget == c.budget && d.lastOutbound > c.lastOutbound)
  {
    hide ClocksOf, Events;
    var c := ClocksOf(u, Events(line));
    var at := WakesAt(c, EndOf(u, line));
    EveryStays(u, Events(line));
    var r := Reaction(DueOf(c, at), at).value;
    EventsSnoc(line, Rests(at, true));
    EventsSnoc(line + [Rests(at, true)], Stamped(r));
    assert Events(line) + [] == Events(line);
    ClocksSnoc(u, Events(line), r);
  }

  /** The driver at rest until `to`, woken at each of its deadlines. */
  function Rested(u: Setup, line: seq<Move>, to: Instant, timer: bool): seq<Move>
    requires InRange(u, line, to)
    decreases if ClocksOf(u, Events(line)).budget.Some? then 1 else 0, to - ClocksOf(u, Events(line)).lastOutbound
  {
    if !Wakes(ClocksOf(u, Events(line)), EndOf(u, line), to, timer) then line + [Rests(to, timer)]
    else
      WakingReacts(u, line, to, timer);
      Rested(u, Waking(u, line), to, timer)
  }

  // ---- how long the driver is silent -------------------------------------------------------------------------------

  /** When the stream that is open was opened. */
  function OpenedAt(u: Setup, trace: seq<Event>): Instant {
    if trace == [] then u.start
    else
      var before := trace[..|trace| - 1];
      if Allowed(u.slack, before).None? && Allowed(u.slack, trace).Some? then trace[|trace| - 1].at
      else OpenedAt(u, before)
  }

  predicate IsOpen(u: Setup, line: seq<Move>) {
    Allowed(u.slack, Events(line)).Some?
  }

  /** Until when the driver may be silent: its interval from the last request, but not before the stream was opened. */
  function SilentUntil(u: Setup, line: seq<Move>): nat {
    var request := LastSent(u.start, Events(line)) + u.every;
    if request >= OpenedAt(u, Events(line)) then request else OpenedAt(u, Events(line))
  }

  /** At an instant behind a timeline the driver has not been silent too long, or there is no stream to be silent on. */
  predicate Kept(u: Setup, line: seq<Move>, at: Instant) {
    IsOpen(u, line) ==> at <= SilentUntil(u, line)
  }

  /** The same by the clocks. */
  lemma KeptByClocks(u: Setup, line: seq<Move>, at: Instant)
    ensures var c := ClocksOf(u, Events(line));
            && IsOpen(u, line) == c.budget.Some? && c.heartbeatEvery == Some(u.every)
            && (Kept(u, line, at) <==>
                c.budget.None? || at <= c.lastOutbound + u.every || at <= OpenedAt(u, Events(line)))
  {
    hide Events;
    ClocksRemember(u.slack, Some(u.every), u.start, Events(line));
  }

  lemma {:induction false} OpenedSnoc(u: Setup, trace: seq<Event>, e: Event)
    ensures OpenedAt(u, trace + [e])
         == if Allowed(u.slack, trace).None? && Allowed(u.slack, trace + [e]).Some? then e.at else OpenedAt(u, trace)
  {
    assert (trace + [e])[..|trace|] == trace;
  }

  /** A rest or a hold changes nothing but the time. */
  lemma PassingKeeps(u: Setup, line: seq<Move>, m: Move, at: Instant)
    requires !m.Stamped?
    ensures Events(line + [m]) == Events(line) && Kept(u, line + [m], at) == Kept(u, line, at)
  {
    hide Events, Allowed, LastSent, OpenedAt;
    EventsSnoc(line, m);
    assert Events(line) + [] == Events(line);
  }

  /** Nor does what happens at an instant make the driver silent too long at that instant. */
  lemma StampKeeps(u: Setup, line: seq<Move>, e: Event)
    requires Kept(u, line, e.at)
    ensures Kept(u, line + [Stamped(e)], e.at)
  {
    hide Events, ClocksOf, OpenedAt, Kept, Allowed;
    var m := Stamped(e);
    EventsSnoc(line, m);
    KeptByClocks(u, line, e.at);
    KeptByClocks(u, line + [m], e.at);
    ClocksSnoc(u, Events(line), e);
    OpenedSnoc(u, Events(line), e);
    ClocksRemember(u.slack, Some(u.every), u.start, Events(line));
    ClocksRemember(u.slack, Some(u.every), u.start, Events(line) + [e]);
  }

  // ---- a driven timeline -------------------------------------------------------------------------------------------

  /**
   * One move fits behind a timeline: time does not run back, and no time passes at rest with the driver silent too
   * long.
   */
  ghost predicate Paced(u: Setup, line: seq<Move>, m: Move) {
    && EndOf(u, line) <= EndsAt(m)
    && (m.Stamped? ==> m.event.at == EndOf(u, line))
    && (m.Rests? && m.to > EndOf(u, line) ==> Kept(u, line, m.to))
  }

  ghost predicate AllPaced(u: Setup, line: seq<Move>) {
    forall k :: 0 <= k < |line| ==> Paced(u, line[..k], line[k])
  }

  lemma {:induction false} PacedSnoc(u: Setup, line: seq<Move>, m: Move)
    requires AllPaced(u, line) && Paced(u, line, m)
    ensures AllPaced(u, line + [m])
  {
    hide Paced;
    var all := line + [m];
    forall k | 0 <= k < |all| ensures Paced(u, all[..k], all[k]) {
      if k < |line| {
        assert all[..k] == line[..k];
      } else {
        assert all[..k] == line;
      }
    }
  }

  lemma WakingIsPaced(u: Setup, line: seq<Move>, to: Instant, timer: bool)
    requires InRange(u, line, to) && AllPaced(u, line)
    requires Wakes(ClocksOf(u, Events(line)), EndOf(u, line), to, timer)
    ensures AllPaced(u, Waking(u, line))
  {
    hide Kept, ClocksOf, Events, OpenedAt, AllPaced, IsOpen, Waking;
    var c := ClocksOf(u, Events(line));
    var at := WakesAt(c, EndOf(u, line));
    WakingReacts(u, line, to, timer);
    KeptByClocks(u, line, at);
    PacedSnoc(u, line, Rests(at, true));
    PacedSnoc(u, line + [Rests(at, true)], Stamped(Reaction(DueOf(c, at), at).value));
  }

  lemma RestingIsPaced(u: Setup, line: seq<Move>, to: Instant, timer: bool)
    requires InRange(u, line, to) && AllPaced(u, line)
    requires !Wakes(ClocksOf(u, Events(line)), EndOf(u, line), to, timer)
    ensures var rested := line + [Rests(to, timer)];
            && AllPaced(u, rested) && InRange(u, rested, to) && EndOf(u, rested) == to
            && (timer || to > EndOf(u, line) ==> Kept(u, rested, to))
  {
    hide Kept, ClocksOf, Events, OpenedAt, AllPaced, IsOpen;
    KeptByClocks(u, line, to);
    PassingKeeps(u, line, Rests(to, timer), to);
    PacedSnoc(u, line, Rests(to, timer));
  }

  /** At rest the driver lets no time pass in which it would be silent too long, whatever it was held for before. */
  lemma {:induction false} RestedIsPaced(u: Setup, line: seq<Move>, to: Instant, timer: bool)
    requires InRange(u, line, to) && AllPaced(u, line)
    ensures var rested := Rested(u, line, to, timer);
            && AllPaced(u, rested) && InRange(u, rested, to) && EndOf(u, rested) == to && line <= rested
            && (timer || to > EndOf(u, line) ==> Kept(u, rested, to))
    decreases if ClocksOf(u, Events(line)).budget.Some? then 1 else 0, to - ClocksOf(u, Events(line)).lastOutbound
  {
    hide Kept, ClocksOf, Events, OpenedAt, AllPaced, IsOpen;
    if Wakes(ClocksOf(u, Events(line)), EndOf(u, line), to, timer) {
      WakingReacts(u, line, to, timer);
      WakingIsPaced(u, line, to, timer);
      RestedIsPaced(u, Waking(u, line), to, timer);
    } else {
      RestingIsPaced(u, line, to, timer);
    }
  }

  /** Time does not run back, things happen at the instant they happen, and a heartbeat puts the next one off. */
  predicate Timely(u: Setup, script: seq<Move>) {
    if script == [] then PutsOff(u.every, u.start)
    else
      var init, m := script[..|script| - 1], script[|script| - 1];
      && Timely(u, init) && EndOf(u, init) <= EndsAt(m) && PutsOff(u.every, EndsAt(m))
      && (m.Stamped? ==> m.event.at == EndOf(u, init))
  }

  /**
   * What comes of a script of the environment's: its holds and events, and in its rests the driver at each of its
   * deadlines.
   */
  function Driven(u: Setup, script: seq<Move>): (line: seq<Move>)
    requires Timely(u, script)
    ensures AllPaced(u, line) && EndOf(u, line) == EndOf(u, script) && InRange(u, line, EndOf(u, script))
  {
    if script == [] then []
    else
      var init, m := script[..|script| - 1], script[|script| - 1];
      var before := Driven(u, init);
      match m
      case Rests(to, timer) =>
        RestedIsPaced(u, before, to, timer);
        Rested(u, before, to, timer)
      case _ =>
        MoveIsPaced(u, before, m);
        before + [m]
  }

  lemma MoveIsPaced(u: Setup, line: seq<Move>, m: Move)
    requires !m.Rests? && AllPaced(u, line) && InRange(u, line, EndOf(u, line))
    requires EndOf(u, line) <= EndsAt(m) && PutsOff(u.every, EndsAt(m)) && (m.Stamped? ==> m.event.at == EndOf(u, line))
    ensures AllPaced(u, line + [m]) && InRange(u, line + [m], EndsAt(m)) && EndOf(u, line + [m]) == EndsAt(m)
  {
    hide Kept, ClocksOf, Events, AllPaced;
    PacedSnoc(u, line, m);
    EventsSnoc(line, m);
    assert Events(line) + [] == Events(line);
    if m.Stamped? {
      ClocksSnoc(u, Events(line), m.event);
    }
  }

  // ---- when the silence is too long --------------------------------------------------------------------------------

  /** By the end of a move the driver has been silent too long. */
  predicate Late(u: Setup, line: seq<Move>, k: nat)
    requires k < |line|
  {
    !Kept(u, line[..k], EndsAt(line[k]))
  }

  /** A hold that begins no later than the driver may be silent, and ends later. */
  predicate Spans(u: Setup, line: seq<Move>, k: nat)
    requires k < |line|
  {
    && line[k].Held? && IsOpen(u, line[..k])
    && EndOf(u, line[..k]) <= SilentUntil(u, line[..k]) < line[k].to
  }

  /** Too long by the end of a move is too long at some instant of it, and conversely. */
  lemma LateAtAnInstant(u: Setup, line: seq<Move>, k: nat)
    requires AllPaced(u, line) && k < |line|
    ensures Late(u, line, k)
       <==> exists t: Instant :: EndOf(u, line[..k]) <= t <= EndsAt(line[k]) && !Kept(u, line[..k], t)
  {
    hide SilentUntil, IsOpen;
    assert Paced(u, line[..k], line[k]);
    if Late(u, line, k) {
      var t: Instant := EndsAt(line[k]);
      assert !Kept(u, line[..k], t);
    }
  }

  /** As long as no hold spans its deadline, the driver is not late. */
  lemma {:induction false} UnspannedIsKept(u: Setup, line: seq<Move>, k: nat)
    requires AllPaced(u, line) && k <= |line|
    requires forall i :: 0 <= i < k ==> !Spans(u, line, i)
    ensures Kept(u, line[..k], EndOf(u, line[..k]))
    ensures k > 0 ==> !Late(u, line, k - 1)
  {
    hide SilentUntil, IsOpen, Events;
    if k == 0 {
      NothingIsKept(u);
    } else {
      UnspannedIsKept(u, line, k - 1);
      var before, m := line[..k - 1], line[k - 1];
      assert Paced(u, before, m) && !Spans(u, line, k - 1);
      assert line[..k] == before + [m];
      if m.Stamped? {
        StampKeeps(u, before, m.event);
      } else {
        PassingKeeps(u, before, m, m.to);
      }
    }
  }

  lemma NothingIsKept(u: Setup)
    ensures !IsOpen(u, [])
  {
  }

  /**
   * Whatever happens and whenever, and however long the driver is held, it is silent too long at some instant if and
   * only if some hold spans its deadline.
   */
  lemma LateExactlyWhenSpanned(u: Setup, script: seq<Move>)
    requires Timely(u, script)
    ensures var line := Driven(u, script);
            (exists k :: 0 <= k < |line| && Late(u, line, k)) <==> (exists k :: 0 <= k < |line| && Spans(u, line, k))
  {
    hide Timely, Driven, SilentUntil, IsOpen, AllPaced;
    var line := Driven(u, script);
    if k :| 0 <= k < |line| && Spans(u, line, k) {
      assert Late(u, line, k);
    } else {
      forall k | 0 <= k < |line| ensures !Late(u, line, k) {
        UnspannedIsKept(u, line, k + 1);
      }
    }
  }

  /** And a driver that rested at all, or was let wake, is not late when the rest ends, whatever held it before. */
  lemma RestEndsInTime(u: Setup, script: seq<Move>, to: Instant, timer: bool)
    requires Timely(u, script + [Rests(to, timer)]) && (timer || to > EndOf(u, script))
    ensures Kept(u, Driven(u, script + [Rests(to, timer)]), to)
  {
    hide Kept;
    var all := script + [Rests(to, timer)];
    assert all[..|script|] == script;
    RestedIsPaced(u, Driven(u, script), to, timer);
  }

  // ---- from one request to the next --------------------------------------------------------------------------------

  /** How long the driver is held between two places of a timeline. */
  function HeldTime(u: Setup, line: seq<Move>, i: nat, k: nat): nat
    requires i <= k <= |line| && AllPaced(u, line)
    decreases k
  {
    if k == i then 0
    else
      assert Paced(u, line[..k - 1], line[k - 1]);
      var held: nat := if line[k - 1].Held? then line[k - 1].to - EndOf(u, line[..k - 1]) else 0;
      HeldTime(u, line, i, k - 1) + held
  }

  predicate IsRequest(m: Move) {
    m.Stamped? && IsSent(m.event)
  }

  /** A stream is open behind the move at `i`, and stays open up to the place `k`. */
  ghost predicate OpenBetween(u: Setup, line: seq<Move>, i: nat, k: nat)
    requires i < k <= |line|
  {
    forall m :: i < m <= k ==> IsOpen(u, line[..m])
  }

  lemma {:induction false} OpenedBefore(u: Setup, line: seq<Move>)
    requires AllPaced(u, line)
    ensures OpenedAt(u, Events(line)) <= EndOf(u, line)
  {
    hide Kept, Allowed, Events, OpenedAt;
    OpenedInitially(u);
    if line != [] {
      var init, m := line[..|line| - 1], line[|line| - 1];
      assert forall k :: 0 <= k < |init| ==> init[..k] == line[..k];
      OpenedBefore(u, init);
      assert line == init + [m] && Paced(u, init, m);
      EventsSnoc(init, m);
      if m.Stamped? {
        OpenedSnoc(u, Events(init), m.event);
      } else {
        assert Events(init) + [] == Events(init);
      }
    }
  }

  lemma OpenedInitially(u: Setup)
    ensures OpenedAt(u, Events([])) == u.start
  {
  }

  /** What one more move does to the last request and to the opening, while the stream stays open. */
  lemma OneMove(u: Setup, line: seq<Move>, m: Move)
    requires IsOpen(u, line)
    ensures OpenedAt(u, Events(line + [m])) == OpenedAt(u, Events(line))
    ensures LastSent(u.start, Events(line + [m]))
         == if IsRequest(m) then m.event.at else LastSent(u.start, Events(line))
  {
    hide Events, Allowed, OpenedAt, LastIndex;
    EventsSnoc(line, m);
    if m.Stamped? {
      OpenedSnoc(u, Events(line), m.event);
      LastSnoc(Events(line), m.event, IsSent);
    } else {
      assert Events(line) + [] == Events(line);
    }
  }

  lemma RequestKeepsStream(u: Setup, line: seq<Move>, m: Move)
    requires IsRequest(m)
    ensures IsOpen(u, line + [m]) == IsOpen(u, line)
  {
    hide Events, LastIndex;
    EventsSnoc(line, m);
    LastSnoc(Events(line), m.event, ChangesStream);
  }

  /** Since a request, on a stream that stays open, no more time has passed than the interval and the holds. */
  lemma {:induction false} SinceRequest(u: Setup, line: seq<Move>, i: nat, k: nat)
    requires AllPaced(u, line) && i < k <= |line| && IsRequest(line[i])
    requires OpenBetween(u, line, i, k) && forall m :: i < m < k ==> !IsRequest(line[m])
    ensures LastSent(u.start, Events(line[..k])) == line[i].event.at
    ensures OpenedAt(u, Events(line[..k])) <= line[i].event.at
    ensures EndOf(u, line[..k]) <= line[i].event.at + u.every + HeldTime(u, line, i, k)
    decreases k
  {
    hide Events, Allowed, OpenedAt, LastSent, AllPaced, IsOpen;
    var before, m := line[..k - 1], line[k - 1];
    assert line[..k] == before + [m];
    PacedAt(u, line, k - 1);
    if k == i + 1 {
      RequestKeepsStream(u, before, m);
      OneMove(u, before, m);
      PacedPrefix(u, line, i);
      OpenedBefore(u, before);
    } else {
      assert IsOpen(u, line[..k - 1]);
      SinceRequest(u, line, i, k - 1);
      OneMove(u, before, m);
    }
  }

  lemma PacedAt(u: Setup, line: seq<Move>, k: nat)
    requires AllPaced(u, line) && k < |line|
    ensures Paced(u, line[..k], line[k])
  {
  }

  lemma {:induction false} PacedPrefix(u: Setup, line: seq<Move>, i: nat)
    requires AllPaced(u, line) && i <= |line|
    ensures AllPaced(u, line[..i])
  {
    hide Paced;
    assert forall k :: 0 <= k < i ==> line[..i][..k] == line[..k];
  }

  /** Two requests in a row on an open stream are no more than the interval and the holds between them apart. */
  lemma ConsecutiveRequests(u: Setup, script: seq<Move>, i: nat, j: nat)
    requires Timely(u, script) && i < j < |Driven(u, script)|
    requires var line := Driven(u, script);
             && IsRequest(line[i]) && IsRequest(line[j]) && OpenBetween(u, line, i, j)
             && forall m :: i < m < j ==> !IsRequest(line[m])
    ensures var line := Driven(u, script);
            line[j].event.at - line[i].event.at <= u.every + HeldTime(u, line, i, j)
  {
    hide Timely, Driven, AllPaced, OpenBetween, Events, HeldTime;
    var line := Driven(u, script);
    SinceRequest(u, line, i, j);
    PacedAt(u, line, j);
  }

  /** With the interval an accepted configuration leads to, that is half the commitment and the holds. */
  lemma GapWithinHalfCommitment(t: Timings, u: Setup, script: seq<Move>, i: nat, j: nat)
    requires Sound(t) && t.inactivity.Some? && u.every == HeartbeatInterval(t).value
    requires Timely(u, script) && i < j < |Driven(u, script)|
    requires var line := Driven(u, script);
             && IsRequest(line[i]) && IsRequest(line[j]) && OpenBetween(u, line, i, j)
             && forall m :: i < m < j ==> !IsRequest(line[m])
    ensures var line := Driven(u, script);
            2 * (line[j].event.at - line[i].event.at) <= t.inactivity.value + 2 * HeldTime(u, line, i, j)
  {
    hide Timely, Driven, AllPaced, OpenBetween, HeldTime, IsRequest;
    ConsecutiveRequests(u, script, i, j);
    HeartbeatWithinHalf(t);
  }

  /**
   * A hold can be of any length, so the commitment is not kept: on every accepted configuration that makes a positive
   * interval, a stream opened and then a hold longer than the commitment is a run with no request for that long.
   */
  lemma HoldBreaksCommitment(t: Timings, u: Setup, openTimeout: Duration, to: Instant)
    requires Sound(t) && t.inactivity.Some? && u.every == HeartbeatInterval(t).value
    requires PutsOff(u.every, to) && to - u.start > t.inactivity.value
    ensures var script := [Stamped(Opened(openTimeout, u.start)), Held(to)];
            && Timely(u, script) && Driven(u, script) == script
            && Late(u, script, 1) && Spans(u, script, 1)
            && forall k :: 0 <= k < |script| ==> !IsRequest(script[k])
  {
    hide Timely, Driven, Late, Spans, HeartbeatInterval;
    HeartbeatWithinHalf(t);
    HoldIsDriven(u, openTimeout, to);
    HoldSpans(u, openTimeout, to);
  }

  lemma HoldIsDriven(u: Setup, openTimeout: Duration, to: Instant)
    requires PutsOff(u.every, to) && to >= u.start
    ensures var script := [Stamped(Opened(openTimeout, u.start)), Held(to)];
            Timely(u, script) && Driven(u, script) == script
  {
    hide AllPaced, ClocksOf, Kept, Events;
    var opening := Stamped(Opened(openTimeout, u.start));
    var script := [opening, Held(to)];
    assert script[..1] == [opening] && [opening][..0] == [];
    assert Timely(u, []) && Timely(u, [opening]) && Timely(u, script);
    assert Driven(u, []) == [] && Driven(u, [opening]) == [opening];
  }

  lemma HoldSpans(u: Setup, openTimeout: Duration, to: Instant)
    requires to > u.start + u.every
    ensures var script := [Stamped(Opened(openTimeout, u.start)), Held(to)];
            Late(u, script, 1) && Spans(u, script, 1)
  {
    var opening := Stamped(Opened(openTimeout, u.start));
    var script := [opening, Held(to)];
    assert script[..1] == [opening] && [opening][..0] == [];
    assert Events([opening]) == [opening.event];
    assert [opening.event][..0] == [];
  }
}
