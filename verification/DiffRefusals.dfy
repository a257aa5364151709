/** When a diff is refused, and what is reported: the first section that is malformed, or first that does not fit. */
module DiffRefusals {
  import opened Sequences
  import opened Utf8
  import opened Diff
  import opened DiffTheorems

  /** The largest `usize`. */
  const LIMIT: nat := 0xFFFF_FFFF_FFFF_FFFF

  /** How many capitals a text starts with. */
  function Capitals(s: Characters): (k: nat)
    ensures k <= |s| && AllCapitals(s[..k]) && (k < |s| ==> !Uppercase(s[k]))
  {
    if s == [] || !Uppercase(s[0]) then 0
    else
      var k := Capitals(s[1..]);
      assert forall i :: 0 < i < k + 1 ==> s[i] == s[1..][..k][i - 1];
      k + 1
  }

  /** Why no integer can be read: its number does not fit, or its capitals are followed by nothing, or by no letter. */
  lemma IntegerRefusedExactly(s: Characters)
    ensures
      var k := Capitals(s);
      var v := CapitalsValue(s[..k]);
      var n := if k < |s| && 'a' as int <= s[k] <= 'z' as int then Some(v * 26 + (s[k] - 'a' as int)) else None;
      && (ReadInteger(s, 0) == Err(OutOfRange) <==> v > LIMIT || (n.Some? && n.value > LIMIT))
      && (ReadInteger(s, 0) == Err(TruncatedInteger) <==> v <= LIMIT && k == |s|)
      && (ReadInteger(s, 0) == Err(NotALetter) <==> v <= LIMIT && k < |s| && n.None?)
      && (ReadInteger(s, 0).Ok? <==> v <= LIMIT && n.Some? && n.value <= LIMIT)
  {
    var k := Capitals(s);
    ReadCapitals(s[..k], s[k..]);
    assert s == s[..k] + s[k..];
    assert k < |s| ==> s[k..][0] == s[k];
  }

  /** The section that a text starts with is malformed. */
  ghost predicate Malformed(s: Characters, section: nat, e: DiffError) {
    if ReadInteger(s, 0).Err? then e == ReadInteger(s, 0).error
    else
      var r := ReadInteger(s, 0).value;
      section == 1 && r.used <= |s| && r.value > |s| - r.used && e == AddTooLong
  }

  /** Well-formed sections, and then one that is not. */
  ghost predicate MalformedBehind(s: Characters, section: nat, done: seq<Instruction>, rest: Characters, e: DiffError)
    requires section < 3
  {
    && Cycled(done, section) && s == PrintDiff(done) + rest && rest != []
    && Malformed(rest, (section + |done|) % 3, e)
  }

  /** What is reported of a payload is its first malformed section, of which those before it are not. */
  lemma {:induction false} ParseRefused(s: Characters, section: nat) returns (done: seq<Instruction>, rest: Characters)
    requires section < 3 && ParseSections(s, section).Err?
    ensures MalformedBehind(s, section, done, rest, ParseSections(s, section).error)
    decreases |s|
  {
    hide ReadInteger, PrintDiff, Cycled, ParseSections, Spell, PrintInstruction, Malformed, Fits;
    ParseNothing(section);
    PrintNothing(section);
    ParseStep(s, section);
    if Malformed(s, section, ParseSections(s, section).error) {
      done, rest := [], s;
      assert [] + s == s;
    } else {
      var r := ReadInteger(s, 0).value;
      ReadTakes(s, 0);
      ReadExactlySpellings(s, r.value, r.used);
      var behind := s[r.used..];
      var after := if section == 1 then behind[r.value..] else behind;
      var more;
      more, rest := ParseRefused(after, (section + 1) % 3);
      var head := if section == 0 then Copy(r.value) else if section == 1 then Add(behind[..r.value]) else Del(r.value);
      done := [head] + more;
      SectionIs(s, section, r.value, behind, head, after);
      OneMoreSection(s, section, head, after, more, rest, ParseSections(s, section).error);
    }
  }

  lemma OneMoreSection(s: Characters, section: nat, head: Instruction, after: Characters, more: seq<Instruction>,
                       rest: Characters, e: DiffError)
    requires section < 3 && s == PrintInstruction(head) + after && Fits(head, section)
    requires MalformedBehind(after, (section + 1) % 3, more, rest, e)
    ensures MalformedBehind(s, section, [head] + more, rest, e)
  {
    hide Malformed, PrintDiff, Cycled, PrintInstruction, Fits;
    PrintCons(head, more, section);
    assert PrintInstruction(head) + PrintDiff(more) + rest == PrintInstruction(head) + (PrintDiff(more) + rest);
    assert ((section + 1) % 3 + |more|) % 3 == (section + |[head] + more|) % 3;
  }

  lemma SectionIs(s: Characters, section: nat, n: nat, behind: Characters, head: Instruction, after: Characters)
    requires section < 3 && s == Spell(n) + behind && n <= LIMIT && (section == 1 ==> n <= |behind|)
    requires head == if section == 0 then Copy(n) else if section == 1 then Add(behind[..n]) else Del(n)
    requires after == if section == 1 then behind[n..] else behind
    ensures s == PrintInstruction(head) + after && Fits(head, section)
  {
    hide Spell;
    if section == 1 {
      assert behind == behind[..n] + behind[n..];
      assert Spell(n) + (behind[..n] + behind[n..]) == Spell(n) + behind[..n] + behind[n..];
    }
  }

  /** A section is malformed, or what follows it decides. */
  lemma ParseStep(s: Characters, section: nat)
    requires section < 3 && ParseSections(s, section).Err?
    ensures
      var e := ParseSections(s, section).error;
      s != [] &&
      (Malformed(s, section, e) ||
       (ReadInteger(s, 0).Ok? &&
        var r := ReadInteger(s, 0).value;
        r.used <= |s| && (section == 1 ==> r.value <= |s| - r.used) &&
        var behind := s[r.used..];
        ParseSections(if section == 1 then behind[r.value..] else behind, (section + 1) % 3) == Err(e)))
  {
    hide ReadInteger;
    if ReadInteger(s, 0).Ok? {
      ReadTakes(s, 0);
    }
  }

  // ---- instructions that do not fit the base -----------------------------------------------------------------------

  /** How far the base position moves. */
  function Distance(instructions: seq<Instruction>): nat {
    if instructions == [] then 0
    else (if instructions[0].Add? then 0 else instructions[0].count) + Distance(instructions[1..])
  }

  /** An instruction copies beyond the base, or deletes beyond what a position can be. */
  predicate Trips(base: Characters, start: nat, instructions: seq<Instruction>, i: nat) {
    i < |instructions| &&
    var end := start + Distance(instructions[..i + 1]);
    (instructions[i].Copy? && end > |base|) || (instructions[i].Del? && end > LIMIT)
  }

  ghost predicate FirstTrip(base: Characters, start: nat, instructions: seq<Instruction>, i: nat) {
    && i < |instructions| && Trips(base, start, instructions, i)
    && forall j :: 0 <= j < i ==> !Trips(base, start, instructions, j)
  }

  lemma TripsNext(base: Characters, start: nat, instructions: seq<Instruction>, i: nat)
    requires instructions != []
    ensures
      var next := start + (if instructions[0].Add? then 0 else instructions[0].count);
      && (Trips(base, start, instructions, i + 1) <==> Trips(base, next, instructions[1..], i))
      && (Trips(base, start, instructions, 0) <==>
          (instructions[0].Copy? && next > |base|) || (instructions[0].Del? && next > LIMIT))
  {
    hide Distance;
    DistanceStep(instructions, 0);
    if i + 1 < |instructions| {
      DistanceStep(instructions, i + 1);
    }
  }

  lemma DistanceStep(instructions: seq<Instruction>, i: nat)
    requires i < |instructions|
    ensures
      var first := if instructions[0].Add? then 0 else instructions[0].count;
      Distance(instructions[..i + 1]) == first + if i == 0 then 0 else Distance(instructions[1..][..i])
  {
    assert instructions[..i + 1][1..] == instructions[1..][..i];
  }

  /** Instructions are refused exactly when one of them trips, and the first that does says how. */
  lemma {:induction false} PerformRefusedExactly(base: Characters, instructions: seq<Instruction>, start: nat)
    ensures Perform(base, instructions, start).Err? <==> exists i: nat :: Trips(base, start, instructions, i)
    ensures forall i: nat :: FirstTrip(base, start, instructions, i) ==>
              Perform(base, instructions, start) == Err(if instructions[i].Copy? then CopyPastEnd else DelOverflow)
  {
    hide Trips, Distance;
    if instructions == [] {
      NoneTrips(base, start);
    } else {
      var next := start + (if instructions[0].Add? then 0 else instructions[0].count);
      var rest := instructions[1..];
      TripsNext(base, start, instructions, 0);
      PerformRefusedExactly(base, rest, next);
      PerformStep(base, instructions, start);
      forall i: nat ensures Trips(base, start, instructions, i + 1) <==> Trips(base, next, rest, i) {
        TripsNext(base, start, instructions, i);
      }
      if Trips(base, start, instructions, 0) {
        assert forall i: nat :: FirstTrip(base, start, instructions, i) ==> i == 0;
      } else {
        LaterTrips(base, start, next, instructions);
        forall i: nat | FirstTrip(base, start, instructions, i)
          ensures Perform(base, instructions, start) == Err(if instructions[i].Copy? then CopyPastEnd else DelOverflow)
        {
          assert FirstTrip(base, next, rest, i - 1) && rest[i - 1] == instructions[i];
        }
      }
    }
  }

  lemma NoneTrips(base: Characters, start: nat)
    ensures forall i: nat :: !Trips(base, start, [], i)
  {
  }

  lemma PerformStep(base: Characters, instructions: seq<Instruction>, start: nat)
    requires instructions != []
    ensures
      var i := instructions[0];
      var next := start + (if i.Add? then 0 else i.count);
      if i.Copy? && next > |base| then Perform(base, instructions, start) == Err(CopyPastEnd)
      else if i.Del? && next > LIMIT then Perform(base, instructions, start) == Err(DelOverflow)
      else
        var rest := Perform(base, instructions[1..], next);
        Perform(base, instructions, start).Ok? == rest.Ok? &&
        (rest.Err? ==> Perform(base, instructions, start) == Err(rest.error))
  {
  }

  lemma LaterTrips(base: Characters, start: nat, next: nat, instructions: seq<Instruction>)
    requires instructions != [] && !Trips(base, start, instructions, 0)
    requires forall i: nat :: Trips(base, start, instructions, i + 1) <==> Trips(base, next, instructions[1..], i)
    ensures (exists i: nat :: Trips(base, start, instructions, i)) <==>
            exists i: nat :: Trips(base, next, instructions[1..], i)
    ensures forall i: nat :: FirstTrip(base, start, instructions, i) ==>
              i > 0 && FirstTrip(base, next, instructions[1..], i - 1)
  {
    hide Trips;
    if i: nat :| Trips(base, start, instructions, i) {
      assert i > 0 && Trips(base, next, instructions[1..], i - 1);
    }
    if i: nat :| Trips(base, next, instructions[1..], i) {
      assert Trips(base, start, instructions, i + 1);
    }
    forall i: nat | FirstTrip(base, start, instructions, i)
      ensures i > 0 && FirstTrip(base, next, instructions[1..], i - 1)
    {
      assert Trips(base, next, instructions[1..], i - 1);
      forall j: nat | j < i - 1 ensures !Trips(base, next, instructions[1..], j) {
        assert !Trips(base, start, instructions, j + 1);
      }
    }
  }

  // ---- the diff ----------------------------------------------------------------------------------------------------

  /** Some code point of a text takes two UTF-16 units. */
  predicate Beyond(text: Characters) {
    exists i :: 0 <= i < |text| && text[i] >= 0x10000
  }

  /** In this order: characters beyond the BMP, an empty payload, a malformed section, a section that does not fit. */
  lemma DiffRefusedExactly(base: Characters, payload: Characters)
    ensures ApplyTlcpDiff(base, payload) == Err(Astral) <==> Beyond(base) || Beyond(payload)
    ensures ApplyTlcpDiff(base, payload) == Err(EmptyPayload) <==> !Beyond(base) && payload == []
    ensures !Beyond(base) && !Beyond(payload) && payload != [] ==>
              var parsed := ParseSections(payload, 0);
              if parsed.Ok? then ApplyTlcpDiff(base, payload) == Perform(base, parsed.value, 0)
              else
                && ApplyTlcpDiff(base, payload) == Err(parsed.error)
                && exists done, rest :: MalformedBehind(payload, 0, done, rest, parsed.error)
  {
    hide ParseSections, Perform, MalformedBehind;
    BeyondIs(base);
    BeyondIs(payload);
    if payload != [] && ParseSections(payload, 0).Err? {
      var done, rest := ParseRefused(payload, 0);
      OtherError(payload, 0, done, rest, ParseSections(payload, 0).error);
    } else if payload != [] {
      var instructions := ParseSections(payload, 0).value;
      PerformError(base, instructions);
    }
  }

  lemma BeyondIs(text: Characters)
    ensures Beyond(text) <==> !Bmp(text)
  {
  }

  lemma OtherError(s: Characters, section: nat, done: seq<Instruction>, rest: Characters, e: DiffError)
    requires section < 3 && MalformedBehind(s, section, done, rest, e)
    ensures e !in {Astral, EmptyPayload}
  {
    hide ReadInteger, PrintDiff, Cycled;
    IntegerRefusedExactly(rest);
    IntegerError(rest, 0);
  }

  lemma {:induction false} IntegerError(s: Characters, accumulator: nat)
    ensures ReadInteger(s, accumulator).Err? ==>
              ReadInteger(s, accumulator).error in {OutOfRange, TruncatedInteger, NotALetter}
  {
    if s != [] && Uppercase(s[0]) {
      IntegerError(s[1..], accumulator * 26 + (s[0] - 65 + 1));
    }
  }

  lemma PerformError(base: Characters, instructions: seq<Instruction>)
    ensures Perform(base, instructions, 0).Err? ==>
              Perform(base, instructions, 0).error in {CopyPastEnd, DelOverflow}
  {
    PerformErrorFrom(base, instructions, 0);
  }

  lemma {:induction false} PerformErrorFrom(base: Characters, instructions: seq<Instruction>, start: nat)
    ensures Perform(base, instructions, start).Err? ==>
              Perform(base, instructions, start).error in {CopyPastEnd, DelOverflow}
  {
    if instructions != [] {
      var i := instructions[0];
      PerformStep(base, instructions, start);
      PerformErrorFrom(base, instructions[1..], start + (if i.Add? then 0 else i.count));
    }
  }
}
