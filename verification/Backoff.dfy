/** The jittered reconnection schedule. */
module Backoff {
  import opened Sequences
  import opened Numbers
  import opened Config

  // ---- jitter ------------------------------------------------------------------------------------------------------

  /** The three steps of the xorshift recurrence. */
  function Step12(x: bv64): bv64 {
    x ^ (x >> 12)
  }

  function Step25(x: bv64): bv64 {
    x ^ (x << 25)
  }

  function Step27(x: bv64): bv64 {
    x ^ (x >> 27)
  }

  /** One round of it. */
  function XorShift(x: bv64): bv64 {
    Step27(Step25(Step12(x)))
  }

  /** The star in xorshift64*: the state scrambled by a wrapping product. */
  function Scramble(x: bv64): bv64 {
    x * 0x2545_F491_4F6C_DD1D
  }

  /** Zero only ever follows zero. */
  lemma XorShiftNonZero(x: bv64)
    requires x != 0
    ensures XorShift(x) != 0
  {
    hide Step12, Step25, Step27;
    StepsNonZero(x);
    StepsNonZero(Step12(x));
    StepsNonZero(Step25(Step12(x)));
  }

  lemma StepsNonZero(x: bv64)
    requires x != 0
    ensures Step12(x) != 0 && Step25(x) != 0 && Step27(x) != 0
  {
  }

  /** What a draw within `bound` yields from a state; a bound beyond the range of a draw is returned as it is. */
  function Draw(state: bv64, bound: Duration): (d: Duration)
    ensures d <= bound
  {
    if bound >= U64_MAX then bound
    else
      var value: nat := Scramble(XorShift(state)) as nat;
      value % (bound + 1)
  }

  /** What undoes each step. */
  function Undo12(x: bv64): bv64 {
    x ^ (x >> 12) ^ (x >> 24) ^ (x >> 36) ^ (x >> 48) ^ (x >> 60)
  }

  function Undo25(x: bv64): bv64 {
    x ^ (x << 25) ^ (x << 50)
  }

  function Undo27(x: bv64): bv64 {
    x ^ (x >> 27) ^ (x >> 54)
  }

  lemma StepsOf(x: bv64)
    ensures Step12(x ^ (x >> 12) ^ (x >> 24) ^ (x >> 36) ^ (x >> 48) ^ (x >> 60)) == x
    ensures Step25(x ^ (x << 25) ^ (x << 50)) == x
    ensures Step27(x ^ (x >> 27) ^ (x >> 54)) == x
  {
  }

  lemma StepsUndone(x: bv64)
    ensures Step12(Undo12(x)) == x && Step25(Undo25(x)) == x && Step27(Undo27(x)) == x
  {
    hide Step12, Step25, Step27;
    StepsOf(x);
  }

  /** The state one round before. */
  function XorUnshift(x: bv64): bv64 {
    Undo12(Undo25(Undo27(x)))
  }

  lemma XorShiftInverse(x: bv64)
    ensures XorShift(XorUnshift(x)) == x
  {
    hide Step12, Step25, Step27, Undo12, Undo25, Undo27;
    StepsUndone(x);
    StepsUndone(Undo27(x));
    StepsUndone(Undo25(Undo27(x)));
  }

  /** The inverse of the star's factor. */
  lemma ScrambleInverse(x: bv64)
    ensures Scramble(x * 0x5907_1D96_D81E_CD35) == x
  {
  }

  /** The state that yields a number. */
  function StateFor(v: bv64): (state: bv64) {
    XorUnshift(v * 0x5907_1D96_D81E_CD35)
  }

  lemma Yields(v: bv64)
    ensures Scramble(XorShift(StateFor(v))) == v
    ensures v != 0 ==> StateFor(v) != 0
  {
    hide XorShift, Scramble, XorUnshift;
    XorShiftInverse(v * 0x5907_1D96_D81E_CD35);
    ScrambleInverse(v);
    ZeroYieldsZero();
  }

  lemma ZeroYieldsZero()
    ensures Scramble(XorShift(0)) == 0
  {
  }

  lemma DrawIs(state: bv64, bound: Duration, n: nat)
    requires bound < 0xFFFF_FFFF_FFFF_FFFF && Scramble(XorShift(state)) as nat == n
    ensures Draw(state, bound) == n % (bound + 1)
  {
    hide XorShift, Scramble;
  }

  /**
   * Every 64-bit number but zero is what the generator yields next from some state, so that every delay within a
   * bound is drawn: `n` itself when it is within, and zero when it is one more than the bound.
   */
  lemma EveryDelayIsDrawn(bound: Duration, n: bv64) returns (state: bv64)
    requires n != 0 && bound < 0xFFFF_FFFF_FFFF_FFFF
    ensures state != 0
    ensures n as nat <= bound ==> Draw(state, bound) == n as nat
    ensures n as nat == bound + 1 ==> Draw(state, bound) == 0
  {
    hide XorShift, Scramble, StateFor, Draw;
    Yields(n);
    state := StateFor(n);
    DrawIs(state, bound, n as nat);
    Remainder(n as nat, bound);
  }

  lemma Remainder(n: nat, bound: nat)
    ensures n <= bound ==> n % (bound + 1) == n
    ensures n == bound + 1 ==> n % (bound + 1) == 0
  {
  }

  /** The state it leaves. */
  function StateAfter(state: bv64, bound: Duration): bv64 {
    if bound >= U64_MAX then state else XorShift(state)
  }

  /** `Jitter`: a generator that never reaches the state it could not leave. */
  class Jitter {
    var state: bv64

    constructor FromSeed(seed: bv64)
      ensures state != 0
      ensures state == if seed != 0 then seed else 0x9E37_79B9_7F4A_7C15
    {
      state := if seed == 0 then 0x9E37_79B9_7F4A_7C15 else seed;
    }

    method NextU64() returns (v: bv64)
      modifies this
      ensures state == XorShift(old(state)) && v == Scramble(state)
    {
      hide XorShift, Scramble;
      state := XorShift(state);
      v := Scramble(state);
    }

    method Below(bound: Duration) returns (d: Duration)
      requires state != 0
      modifies this
      ensures state != 0
      ensures d == Draw(old(state), bound) && state == StateAfter(old(state), bound)
    {
      hide XorShift, Scramble;
      var nanos: nat := if bound <= U64_MAX then bound else U64_MAX;
      if nanos == U64_MAX {
        return bound;
      }
      XorShiftNonZero(state);
      var draw := NextU64();
      var value: nat := draw as nat;
      d := value % (nanos + 1);
    }
  }

  // ---- the schedule ------------------------------------------------------------------------------------------------

  function Pow2(k: nat): nat {
    if k == 0 then 1 else 2 * Pow2(k - 1)
  }

  /** The base after `k` delays: doubled `k` times, up to the ceiling. */
  function BaseAfter(p: RetryPolicy, k: nat): (base: nat) {
    Min(p.initial * Pow2(k), p.max)
  }

  function Min(a: nat, b: nat): nat {
    if a <= b then a else b
  }

  /** How many delays a policy grants between resets: its cap, or what a 32-bit counter can count. */
  function Budget(p: RetryPolicy): (n: nat)
    ensures 0 < n <= U32_MAX
  {
    match p.maxAttempts
    case Some(n) => n
    case None => U32_MAX
  }

  lemma {:induction false} DoublingStep(p: RetryPolicy, k: nat)
    requires p.initial <= p.max
    ensures BaseAfter(p, k + 1) == Min(if 2 * BaseAfter(p, k) > DURATION_MAX then p.max else 2 * BaseAfter(p, k), p.max)
  {
    var a: nat := p.initial * Pow2(k);
    assert p.initial * Pow2(k + 1) == 2 * a by {
      assert p.initial * (2 * Pow2(k)) == 2 * (p.initial * Pow2(k));
    }
  }

  /** The abstract state of a schedule: how many delays were asked for since the last reset, and the jitter's state. */
  datatype Progress = Progress(attempts: nat, state: bv64)

  /** Asking for the next delay: granted while the budget lasts, drawn within the base of its turn. */
  function Ask(p: RetryPolicy, s: Progress): (Option<Duration>, Progress) {
    var asked := Min(s.attempts + 1, U32_MAX);
    if s.attempts >= Budget(p) then (None, s.(attempts := asked))
    else
      var base := BaseAfter(p, s.attempts);
      (Some(Draw(s.state, base)), Progress(asked, StateAfter(s.state, base)))
  }

  /** `Backoff`, on a policy whose ceiling is not below its first delay. */
  class Backoff {
    const policy: RetryPolicy
    var attempts: nat
    var base: Duration
    const jitter: Jitter

    /** The base is the one that the delays granted since the last reset lead to. */
    ghost predicate Valid()
      reads this, jitter
    {
      && policy.initial <= policy.max
      && attempts <= U32_MAX
      && base == BaseAfter(policy, Min(attempts, Budget(policy)))
      && jitter.state != 0
    }

    ghost function View(): Progress
      reads this, jitter
    {
      Progress(attempts, jitter.state)
    }

    constructor (policy: RetryPolicy, seed: bv64)
      requires policy.initial <= policy.max
      ensures Valid() && this.policy == policy && fresh(jitter)
      ensures attempts == 0 && (seed != 0 ==> jitter.state == seed)
    {
      this.policy := policy;
      attempts := 0;
      base := policy.initial;
      jitter := new Jitter.FromSeed(seed);
    }

    method NextDelay() returns (r: Option<Duration>)
      requires Valid()
      modifies this, jitter
      ensures Valid()
      ensures (r, View()) == Ask(policy, old(View()))
    {
      if attempts == U32_MAX {
        return None;
      }
      attempts := attempts + 1;
      if policy.maxAttempts.Some? && attempts > policy.maxAttempts.value {
        return None;
      }
      DoublingStep(policy, attempts - 1);
      var delay := jitter.Below(base);
      base := Min(if base * 2 > DURATION_MAX then policy.max else base * 2, policy.max);
      return Some(delay);
    }

    method Reset()
      requires Valid()
      modifies this
      ensures Valid() && View() == old(View()).(attempts := 0)
    {
      attempts := 0;
      base := policy.initial;
    }
  }

  // ---- whole outages -----------------------------------------------------------------------------------------------

  /** What `n` failures in a row are answered with. */
  function Answers(p: RetryPolicy, s: Progress, n: nat): (seq<Option<Duration>>, Progress) {
    if n == 0 then ([], s)
    else
      var (before, t) := Answers(p, s, n - 1);
      var (last, u) := Ask(p, t);
      (before + [last], u)
  }

  function Waited(answers: seq<Option<Duration>>): nat {
    if answers == [] then 0
    else
      var last := answers[|answers| - 1];
      Waited(answers[..|answers| - 1]) + (if last.Some? then last.value else 0)
  }

  /** The total of the first `k` bases. */
  function TotalBase(p: RetryPolicy, k: nat): nat {
    if k == 0 then 0 else TotalBase(p, k - 1) + BaseAfter(p, k - 1)
  }

  lemma AnswersNone(p: RetryPolicy, s: Progress)
    ensures Answers(p, s, 0) == ([], s) && Waited([]) == 0
  {
  }

  lemma {:induction false} AnswersStep(p: RetryPolicy, s: Progress, n: nat)
    ensures
      var (before, t) := Answers(p, s, n);
      var (last, u) := Ask(p, t);
      && Answers(p, s, n + 1) == (before + [last], u)
      && Waited(before + [last]) == Waited(before) + (if last.Some? then last.value else 0)
  {
    hide Ask;
    var (before, t) := Answers(p, s, n);
    var (last, u) := Ask(p, t);
    assert (before + [last])[..|before|] == before;
  }

  lemma {:induction false} TotalBaseStep(p: RetryPolicy, k: nat)
    ensures TotalBase(p, k + 1) == TotalBase(p, k) + BaseAfter(p, k)
  {
    hide BaseAfter;
  }

  /** What of a failure's answer bounds the waiting. */
  lemma AnswerIsBounded(p: RetryPolicy, n: nat, last: Option<Duration>)
    requires last.Some? ==> Min(n, Budget(p)) == n && last.value <= BaseAfter(p, n)
    requires Min(n + 1, Budget(p)) == Min(n, Budget(p)) + (if last.Some? then 1 else 0)
    ensures
      TotalBase(p, Min(n, Budget(p))) + (if last.Some? then last.value else 0) <= TotalBase(p, Min(n + 1, Budget(p)))
  {
    hide Budget, BaseAfter, TotalBase, Min;
    TotalBaseStep(p, n);
  }

  /**
   * From a reset, of any number of failures exactly the first `Budget` are answered with a delay, each at most the base
   * of its turn, min(initial * 2^k, max), and every later one with a refusal; the waiting is at most the sum of the
   * bases.
   */
  lemma {:induction false} OutageSchedule(p: RetryPolicy, state: bv64, n: nat)
    ensures
      var (answers, s) := Answers(p, Progress(0, state), n);
      && |answers| == n && s.attempts == Min(n, U32_MAX)
      && (forall k :: 0 <= k < n ==> Answered(p, k, answers[k]))
      && Waited(answers) <= TotalBase(p, Min(n, Budget(p)))
  {
    hide Ask, Budget, BaseAfter, Answered, Waited, TotalBase, Answers;
    if n == 0 {
      AnswersNone(p, Progress(0, state));
    } else {
      OutageSchedule(p, state, n - 1);
      var (before, t) := Answers(p, Progress(0, state), n - 1);
      var (last, u) := Ask(p, t);
      AskIsAnswered(p, t, n - 1);
      AnswersStep(p, Progress(0, state), n - 1);
      AnswerIsBounded(p, n - 1, last);
    }
  }

  /** The answer to failure number `k` after a reset. */
  predicate Answered(p: RetryPolicy, k: nat, answer: Option<Duration>) {
    && (answer.Some? <==> k < match p.maxAttempts case Some(n) => n case None => 0xFFFF_FFFF)
    && (answer.Some? ==> answer.value <= p.initial * Pow2(k) && answer.value <= p.max)
  }

  lemma BaseIsLesser(p: RetryPolicy, k: nat)
    ensures BaseAfter(p, k) <= p.initial * Pow2(k) && BaseAfter(p, k) <= p.max
  {
  }

  lemma AskIsAnswered(p: RetryPolicy, s: Progress, k: nat)
    requires s.attempts == Min(k, U32_MAX)
    ensures
      var (last, u) := Ask(p, s);
      && u.attempts == Min(k + 1, U32_MAX) && Answered(p, k, last)
      && Min(k + 1, Budget(p)) == Min(k, Budget(p)) + (if last.Some? then 1 else 0)
      && (last.Some? ==> Min(k, Budget(p)) == k && last.value <= BaseAfter(p, k))
  {
    BaseIsLesser(p, k);
    hide Pow2, XorShift, Scramble, BaseAfter;
  }

  /** No outage waits longer than its budget times the ceiling. */
  lemma {:induction false} TotalBaseBounded(p: RetryPolicy, k: nat)
    ensures TotalBase(p, k) <= k * p.max
  {
    if k > 0 {
      TotalBaseBounded(p, k - 1);
      assert (k - 1) * p.max + p.max == k * p.max;
    }
  }
}
