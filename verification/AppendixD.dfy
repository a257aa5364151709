/**
 * TLCP-diff as the standard defines it, on UTF-16 code units and numbers of any size, what the client's character-based
 * decoder has to do with it, and that every change has a diff.
 */
module AppendixD {
  import opened Sequences
  import opened Utf8
  import opened Diff
  import opened DiffTheorems

  type Unit = u: int | 0 <= u < 0x10000

  /** The UTF-16 form of text: a surrogate pair for every character beyond the BMP. */
  function Utf16(text: Characters): seq<Unit> {
    if text == [] then [] else Units(text[0]) + Utf16(text[1..])
  }

  function Units(c: Scalar): seq<Unit> {
    if c < 0x10000 then [c] else [0xD800 + (c - 0x10000) / 0x400, 0xDC00 + (c - 0x10000) % 0x400]
  }

  datatype Counted = Counted(value: nat, used: nat)

  /** The number in front of `s`: letters that weigh progressively, all capital but the last. */
  function Number(s: seq<Unit>, accumulator: nat): Option<Counted> {
    if s == [] then None
    else if 65 <= s[0] <= 90 then
      match Number(s[1..], accumulator * 26 + (s[0] - 65 + 1))
      case Some(n) => Some(Counted(n.value, n.used + 1))
      case None => None
    else if 97 <= s[0] <= 122 then Some(Counted(accumulator * 26 + (s[0] - 97), 1))
    else None
  }

  lemma {:induction false} NumberTakes(s: seq<Unit>, accumulator: nat)
    requires Number(s, accumulator).Some?
    ensures 1 <= Number(s, accumulator).value.used <= |s|
  {
    if 65 <= s[0] <= 90 {
      NumberTakes(s[1..], accumulator * 26 + (s[0] - 65 + 1));
    }
  }

  function After(s: seq<Unit>, n: Counted): (rest: seq<Unit>)
    requires Number(s, 0) == Some(n)
    ensures |rest| < |s|
  {
    NumberTakes(s, 0);
    s[n.used..]
  }

  /**
   * The sections of a diff carried out one after the other, from base position `basePos`; none for an ill-formed one.
   */
  function Sections(base: seq<Unit>, basePos: nat, s: seq<Unit>, section: nat): Option<seq<Unit>>
    requires section < 3
    decreases |s|
  {
    if s == [] then Some([])
    else
      match Number(s, 0)
      case None => None
      case Some(n) =>
        var rest := After(s, n);
        if section == 0 then
          if basePos + n.value > |base| then None
          else Appended(base[basePos..basePos + n.value], Sections(base, basePos + n.value, rest, 1))
        else if section == 1 then
          if n.value > |rest| then None
          else Appended(rest[..n.value], Sections(base, basePos, rest[n.value..], 2))
        else Sections(base, basePos + n.value, rest, 0)
  }

  function Appended(done: seq<Unit>, r: Option<seq<Unit>>): Option<seq<Unit>> {
    match r
    case None => None
    case Some(rest) => Some(done + rest)
  }

  /** Appendix D: one or more sections, starting with a COPY at the front of the base. */
  function Apply(base: seq<Unit>, payload: seq<Unit>): Option<seq<Unit>> {
    if payload == [] then None else Sections(base, 0, payload, 0)
  }

  /** Whether no DEL moves the base position beyond what a `usize` holds. */
  predicate PositionFits(basePos: nat, s: seq<Unit>, section: nat)
    requires section < 3
    decreases |s|
  {
    s == [] || Number(s, 0).None? ||
    var n := Number(s, 0).value;
    var rest := After(s, n);
    if section == 0 then PositionFits(basePos + n.value, rest, 1)
    else if section == 1 then n.value > |rest| || PositionFits(basePos, rest[n.value..], 2)
    else basePos + n.value < 0x1_0000_0000_0000_0000 && PositionFits(basePos + n.value, rest, 0)
  }

  // ---- characters and code units -----------------------------------------------------------------------------------

  /** Text of the BMP is its own UTF-16 form. */
  lemma {:induction false} BmpIsUtf16(text: Characters)
    requires Bmp(text)
    ensures Utf16(text) == text
  {
    if text != [] {
      BmpIsUtf16(text[1..]);
      assert text == [text[0]] + text[1..];
    }
  }

  /** On the BMP the client reads the standard's number, or reports that it does not fit. */
  lemma {:induction false} ReadIsNumber(s: Characters, accumulator: nat)
    requires Bmp(s)
    ensures ReadInteger(s, accumulator).Ok? <==>
            Number(s, accumulator).Some? && Number(s, accumulator).value.value <= USIZE_MAX
    ensures ReadInteger(s, accumulator).Ok? ==>
              var r := ReadInteger(s, accumulator).value;
              Number(s, accumulator) == Some(Counted(r.value, r.used))
    ensures Number(s, accumulator).Some? ==> Number(s, accumulator).value.value >= accumulator * 26
  {
    if s != [] && Uppercase(s[0]) {
      ReadIsNumber(s[1..], accumulator * 26 + (s[0] - 65 + 1));
    }
  }

  /** What the client makes of the sections from some point on: parse all of them, then run them. */
  function Remaining(base: Characters, basePos: nat, s: Characters, section: nat): Result<Characters, DiffError>
    requires section < 3
  {
    var instructions :- ParseSections(s, section);
    Perform(base, instructions, basePos)
  }

  /** The client's first section, like the standard's: carried out, then the rest. */
  lemma {:induction false} RemainingStep(base: Characters, basePos: nat, s: Characters, section: nat)
    requires section < 3 && s != [] && ReadInteger(s, 0).Ok?
    ensures
      var r := ReadInteger(s, 0).value;
      var rest := Behind(s, r);
      var all := Remaining(base, basePos, s, section);
      if section == 0 then
        if basePos + r.value > |base| then all.Err?
        else
          var tail := Remaining(base, basePos + r.value, rest, 1);
          all.Ok? == tail.Ok? && (tail.Ok? ==> all.value == base[basePos..basePos + r.value] + tail.value)
      else if section == 1 then
        if r.value > |rest| then all.Err?
        else
          var tail := Remaining(base, basePos, rest[r.value..], 2);
          all.Ok? == tail.Ok? && (tail.Ok? ==> all.value == rest[..r.value] + tail.value)
      else if basePos + r.value > USIZE_MAX then all.Err?
      else
        all.Ok? == Remaining(base, basePos + r.value, rest, 0).Ok?
        && (all.Ok? ==> all == Remaining(base, basePos + r.value, rest, 0))
  {
    hide ReadInteger;
    var r := ReadInteger(s, 0).value;
    var rest := Behind(s, r);
    if section != 1 || r.value <= |rest| {
      var tail := if section == 1 then ParseSections(rest[r.value..], 2) else ParseSections(rest, (section + 1) % 3);
      var head := if section == 0 then Copy(r.value) else if section == 1 then Add(rest[..r.value]) else Del(r.value);
      if tail.Ok? {
        assert ([head] + tail.value)[1..] == tail.value;
        assert ParseSections(s, section) == Ok([head] + tail.value);
      }
    }
  }

  /** The standard's first section, and whether positions fit, by the number in front. */
  lemma {:induction false} StandardStep(base: seq<Unit>, basePos: nat, s: seq<Unit>, section: nat, n: Counted)
    requires section < 3 && s != [] && Number(s, 0) == Some(n)
    ensures
      var rest := After(s, n);
      var all, fits := Sections(base, basePos, s, section), PositionFits(basePos, s, section);
      if section == 0 then
        && (basePos + n.value > |base| ==> all.None?)
        && (basePos + n.value <= |base| ==>
              all == Appended(base[basePos..basePos + n.value], Sections(base, basePos + n.value, rest, 1)))
        && fits == PositionFits(basePos + n.value, rest, 1)
      else if section == 1 then
        && (n.value > |rest| ==> all.None?)
        && (n.value <= |rest| ==>
              && all == Appended(rest[..n.value], Sections(base, basePos, rest[n.value..], 2))
              && fits == PositionFits(basePos, rest[n.value..], 2))
      else
        && all == Sections(base, basePos + n.value, rest, 0)
        && fits == (basePos + n.value < 0x1_0000_0000_0000_0000 && PositionFits(basePos + n.value, rest, 0))
  {
    hide Number;
  }

  lemma NoNumber(base: seq<Unit>, basePos: nat, s: seq<Unit>, section: nat)
    requires section < 3 && s != []
    ensures Number(s, 0).None? ==> Sections(base, basePos, s, section).None?
    ensures Number(s, 0).Some? && Number(s, 0).value.value > USIZE_MAX && |base| <= USIZE_MAX && |s| <= USIZE_MAX ==>
              Sections(base, basePos, s, section).None? || !PositionFits(basePos, s, section)
  {
    hide Number;
  }

  lemma NothingLeft(base: Characters, basePos: nat, section: nat)
    requires section < 3 && Bmp(base)
    ensures Remaining(base, basePos, [], section) == Ok([])
    ensures Sections(base, basePos, [], section) == Some([]) && PositionFits(basePos, [], section)
  {
    ParseNothing(section);
  }

  /** From any point on, the client succeeds exactly when the standard does and every position fits, with its result. */
  lemma {:induction false} RemainingIsStandard(base: Characters, basePos: nat, s: Characters, section: nat)
    requires section < 3 && Bmp(base) && Bmp(s)
    requires |base| <= USIZE_MAX && |s| <= USIZE_MAX
    ensures
      var mine := Remaining(base, basePos, s, section);
      var standard := Sections(base, basePos, s, section);
      && (mine.Ok? <==> standard.Some? && PositionFits(basePos, s, section))
      && (mine.Ok? ==> standard == Some(mine.value) && Bmp(mine.value))
    decreases |s|
  {
    hide ReadInteger, Number, Sections, PositionFits, Remaining;
    if s == [] {
      NothingLeft(base, basePos, section);
    } else {
      ReadIsNumber(s, 0);
      if ReadInteger(s, 0).Err? {
        NoReadNoParse(base, basePos, s, section);
        NoNumber(base, basePos, s, section);
      } else {
        var r := ReadInteger(s, 0).value;
        var rest := Behind(s, r);
        RemainingStep(base, basePos, s, section);
        StandardStep(base, basePos, s, section, Counted(r.value, r.used));
        assert After(s, Counted(r.value, r.used)) == rest;
        if section == 1 {
          if r.value <= |rest| {
            RemainingIsStandard(base, basePos, rest[r.value..], 2);
          }
        } else {
          RemainingIsStandard(base, basePos + r.value, rest, (section + 1) % 3);
        }
      }
    }
  }

  lemma NoReadNoParse(base: Characters, basePos: nat, s: Characters, section: nat)
    requires section < 3 && s != [] && ReadInteger(s, 0).Err?
    ensures Remaining(base, basePos, s, section).Err?
  {
    hide ReadInteger;
  }

  /** No surrogate pairs, a result that the standard defines, and no DEL that overflows the base position. */
  predicate Acceptable(base: Characters, payload: Characters) {
    Bmp(base) && Bmp(payload) && Apply(Utf16(base), Utf16(payload)).Some? && PositionFits(0, Utf16(payload), 0)
  }

  /** The standard's result is the UTF-16 form of this text, which is free of surrogate pairs again. */
  predicate Yields(base: Characters, payload: Characters, result: Characters) {
    Apply(Utf16(base), Utf16(payload)) == Some(Utf16(result)) && Bmp(result)
  }

  /**
   * The client's decoder succeeds exactly when base and payload are free of surrogate pairs, the standard defines a
   * result on their UTF-16 forms, and no DEL overflows the base position; the result is then the standard's, and free
   * of surrogate pairs again, so that any chain of diffs keeps that precondition.
   */
  lemma DecoderIsAppendixD(base: Characters, payload: Characters)
    requires |base| <= USIZE_MAX && |payload| <= USIZE_MAX
    ensures ApplyTlcpDiff(base, payload).Ok? <==> Acceptable(base, payload)
    ensures ApplyTlcpDiff(base, payload).Ok? ==> Yields(base, payload, ApplyTlcpDiff(base, payload).value)
  {
    hide ParseSections, Perform, Sections, PositionFits;
    if Bmp(base) && Bmp(payload) {
      BmpIsUtf16(base);
      BmpIsUtf16(payload);
      if payload != [] {
        RemainingIsStandard(base, 0, payload, 0);
        assert ApplyTlcpDiff(base, payload) == Remaining(base, 0, payload, 0);
        if ApplyTlcpDiff(base, payload).Ok? {
          BmpIsUtf16(ApplyTlcpDiff(base, payload).value);
        }
      }
    }
  }

  lemma {:induction false} Utf16Concat(a: Characters, b: Characters)
    ensures Utf16(a + b) == Utf16(a) + Utf16(b)
  {
    hide Utf16;
    if a == [] {
      assert a + b == b;
      Utf16Nothing();
    } else {
      Utf16Concat(a[1..], b);
      assert (a + b)[1..] == a[1..] + b;
      Utf16Step(a);
      Utf16Step(a + b);
    }
  }

  lemma Utf16Nothing()
    ensures Utf16([]) == []
  {
  }

  lemma {:induction false} Utf16Step(text: Characters)
    requires text != []
    ensures Utf16(text) == Units(text[0]) + Utf16(text[1..])
  {
  }

  /** The UTF-16 form is as long as the text exactly on the BMP, and longer beyond it. */
  lemma {:induction false} Utf16Length(text: Characters)
    ensures |Utf16(text)| >= |text|
    ensures |Utf16(text)| == |text| <==> Bmp(text)
  {
    if text != [] {
      Utf16Length(text[1..]);
      assert Bmp(text) <==> text[0] < 0x10000 && Bmp(text[1..]);
    }
  }

  /** The standard's diff of one COPY takes that many code units. */
  lemma CopyIsStandard(base: seq<Unit>, n: nat)
    requires n <= |base| && n <= USIZE_MAX
    ensures Apply(base, Utf16(Spell(n))) == Some(base[..n])
  {
    hide Spell, Number, Utf16;
    var payload := Spell(n);
    SpellIsBmp(n);
    BmpIsUtf16(payload);
    ReadExactlySpellings(payload, n, |payload|);
    ReadIsNumber(payload, 0);
    assert payload[..|payload|] == payload;
    OnlySection(base, payload, n);
  }

  lemma OnlySection(base: seq<Unit>, s: seq<Unit>, n: nat)
    requires s != [] && Number(s, 0) == Some(Counted(n, |s|)) && n <= |base|
    ensures Apply(base, s) == Some(base[..n])
  {
    hide Number;
    assert After(s, Counted(n, |s|)) == [];
    assert Sections(base, n, [], 1) == Some([]);
    assert base[0..0 + n] + [] == base[..n];
  }

  /** The client's decoder without its guards: it parses one COPY, and takes that many characters. */
  lemma CopyIsTaken(base: Characters, n: nat)
    requires n <= |base| && n <= USIZE_MAX
    ensures Parse(Spell(n)) == Ok([Copy(n)])
    ensures Perform(base, [Copy(n)], 0) == Ok(base[..n])
  {
    hide Spell;
    assert [Copy(n)][1..] == [];
    assert PrintDiff([Copy(n)]) == Spell(n) + PrintDiff([]);
    assert PrintDiff([Copy(n)]) == Spell(n);
    ParseIsBijective(Spell(n), [Copy(n)]);
    assert base[0..0 + n] + [] == base[..n];
  }

  /**
   * What the guard on the base is for. Without it, copying `n` characters off any base is what the standard asks for
   * exactly when none of them lies beyond the BMP: counting characters is not counting code units.
   */
  lemma GuardIsNeeded(base: Characters, n: nat)
    requires n <= |base| <= USIZE_MAX
    ensures
      var payload := Spell(n);
      && Parse(payload) == Ok([Copy(n)]) && Perform(base, [Copy(n)], 0) == Ok(base[..n])
      && (Apply(Utf16(base), Utf16(payload)) == Some(Utf16(base[..n])) <==> Bmp(base[..n]))
  {
    hide Spell, Parse, Perform, Apply, Utf16, Bmp;
    Utf16Length(base);
    CopyIsTaken(base, n);
    CopyIsStandard(Utf16(base), n);
    Utf16Concat(base[..n], base[n..]);
    assert base == base[..n] + base[n..];
    Utf16Length(base[..n]);
  }

  // ---- every change has a diff -------------------------------------------------------------------------------------

  /** How many characters two texts share at their front. */
  function CommonPrefix(a: Characters, b: Characters): (n: nat)
    ensures n <= |a| && n <= |b| && a[..n] == b[..n]
  {
    if a == [] || b == [] || a[0] != b[0] then 0
    else
      var n := CommonPrefix(a[1..], b[1..]);
      assert a[..n + 1] == [a[0]] + a[1..][..n];
      assert b[..n + 1] == [b[0]] + b[1..][..n];
      n + 1
  }

  /** How many characters two texts share at their end. */
  function CommonSuffix(a: Characters, b: Characters): (n: nat)
    ensures n <= |a| && n <= |b| && a[|a| - n..] == b[|b| - n..]
  {
    if a == [] || b == [] || a[|a| - 1] != b[|b| - 1] then 0
    else
      var n := CommonSuffix(a[..|a| - 1], b[..|b| - 1]);
      assert a[|a| - 1 - n..] == a[..|a| - 1][|a| - 1 - n..] + [a[|a| - 1]];
      assert b[|b| - 1 - n..] == b[..|b| - 1][|b| - 1 - n..] + [b[|b| - 1]];
      n + 1
  }

  /** Keep the common ends, add what is new between them, delete what was there. */
  function Difference(base: Characters, target: Characters): seq<Instruction> {
    var p := CommonPrefix(base, target);
    var q := CommonSuffix(base[p..], target[p..]);
    [Copy(p), Add(target[p..|target| - q]), Del(|base| - q - p), Copy(q)]
  }

  /** A server's encoder. */
  function EncodeDiff(base: Characters, target: Characters): Characters {
    PrintDiff(Difference(base, target))
  }

  /** For every base and target of the BMP there is a payload that the decoder turns into the target. */
  lemma EveryChangeHasADiff(base: Characters, target: Characters)
    requires Bmp(base) && Bmp(target)
    requires |base| <= USIZE_MAX && |target| <= USIZE_MAX
    ensures ApplyTlcpDiff(base, EncodeDiff(base, target)) == Ok(target)
  {
    hide PrintDiff, Parse, Perform, CommonPrefix, CommonSuffix, Cycled;
    var p := CommonPrefix(base, target);
    var q := CommonSuffix(base[p..], target[p..]);
    var mid := target[p..|target| - q];
    var d := Difference(base, target);
    DifferenceIsCycled(d);
    PrintedIsBmp(d);
    ParseIsBijective(EncodeDiff(base, target), d);
    PerformFour(base, p, mid, |base| - q - p, q);
    Reassembled(base, target, p, q);
  }

  lemma Reassembled(base: Characters, target: Characters, p: nat, q: nat)
    requires p <= |base| && p <= |target| && base[..p] == target[..p]
    requires q <= |base| - p && q <= |target| - p
    requires base[p..][|base| - p - q..] == target[p..][|target| - p - q..]
    ensures target == base[..p] + target[p..|target| - q] + base[|base| - q..]
  {
    assert base[|base| - q..] == base[p..][|base| - p - q..];
    assert target[|target| - q..] == target[p..][|target| - p - q..];
  }

  lemma DifferenceIsCycled(d: seq<Instruction>)
    requires |d| == 4 && d[0].Copy? && d[1].Add? && d[2].Del? && d[3].Copy?
    requires d[0].count <= USIZE_MAX && |d[1].text| <= USIZE_MAX && d[2].count <= USIZE_MAX && d[3].count <= USIZE_MAX
    ensures Cycled(d, 0)
  {
    assert Cycled(d[1..][1..][1..][1..], 1);
    assert Cycled(d[1..][1..][1..], 0);
    assert Cycled(d[1..][1..], 2);
    assert Cycled(d[1..], 1);
  }

  /** A deletion and the copy of what is left. */
  lemma {:induction false} PerformRest(base: Characters, basePos: nat, deleted: nat, q: nat, done: Characters)
    requires basePos + deleted + q == |base| <= USIZE_MAX
    ensures Onto(done, Perform(base, [Del(deleted), Copy(q)], basePos)) == Ok(done + base[|base| - q..])
  {
    hide Perform, Onto;
    var d := [Del(deleted), Copy(q)];
    assert d[1..] == [Copy(q)] && [Copy(q)][1..] == [];
    NextInstruction(base, d, basePos, done);
    NextInstruction(base, [Copy(q)], basePos + deleted, done);
    OntoEnd(base, done + base[basePos + deleted..basePos + deleted + q], |base|);
    assert base[basePos + deleted..basePos + deleted + q] == base[|base| - q..];
  }

  lemma {:induction false} PerformFour(base: Characters, p: nat, mid: Characters, deleted: nat, q: nat)
    requires p + deleted + q == |base| <= USIZE_MAX
    ensures Perform(base, [Copy(p), Add(mid), Del(deleted), Copy(q)], 0) == Ok(base[..p] + mid + base[|base| - q..])
  {
    hide Perform, Onto;
    var d := [Copy(p), Add(mid), Del(deleted), Copy(q)];
    var rest := [Add(mid), Del(deleted), Copy(q)];
    assert d[1..] == rest && rest[1..] == [Del(deleted), Copy(q)];
    OntoEmpty([], Perform(base, d, 0));
    NextInstruction(base, d, 0, []);
    assert [] + base[0..0 + p] == base[..p];
    NextInstruction(base, rest, p, base[..p]);
    PerformRest(base, p, deleted, q, base[..p] + mid);
  }

  /** Spellings are ASCII, so a printed diff is as free of surrogate pairs as the texts it adds. */
  lemma {:induction false} PrintedIsBmp(d: seq<Instruction>)
    requires forall i :: 0 <= i < |d| ==> (d[i].Add? ==> Bmp(d[i].text))
    ensures Bmp(PrintDiff(d))
  {
    hide Spell;
    if d != [] {
      PrintedIsBmp(d[1..]);
      var n := match d[0] case Copy(n) => n case Add(text) => |text| case Del(n) => n;
      SpellIsBmp(n);
    }
  }

  lemma SpellIsBmp(n: nat)
    ensures Bmp(Spell(n))
  {
    var w := Spell(n);
    var capitals := w[..|w| - 1];
    assert forall i :: 0 <= i < |capitals| ==> w[i] == capitals[i] && Uppercase(capitals[i]);
  }
}
