/**
 * What the diff code's encoding is: its integers are a bijective numeration, and its parser is a bijection between
 * payloads and instruction lists.
 */
module DiffTheorems {
  import opened Sequences
  import opened Utf8
  import opened Diff

  // ---- the numeration ----------------------------------------------------------------------------------------------

  /** What some capitals add up to: base 26 with the digits 1 to 26. */
  function CapitalsValue(capitals: Characters): nat
    requires AllCapitals(capitals)
  {
    if capitals == [] then 0
    else CapitalsValue(capitals[..|capitals| - 1]) * 26 + (capitals[|capitals| - 1] - 65 + 1)
  }

  predicate AllCapitals(s: Characters) {
    forall i :: 0 <= i < |s| ==> Uppercase(s[i])
  }

  /** A well-formed spelling: capitals, then one small letter. */
  predicate Spelling(w: Characters) {
    w != [] && AllCapitals(w[..|w| - 1]) && Lowercase(w[|w| - 1])
  }

  /** The number a spelling stands for, whatever its size. */
  function TrueValue(w: Characters): nat
    requires Spelling(w)
  {
    CapitalsValue(w[..|w| - 1]) * 26 + (w[|w| - 1] - 97)
  }

  function SpellCapitals(m: nat): (w: Characters)
    ensures AllCapitals(w)
  {
    if m == 0 then [] else SpellCapitals((m - 1) / 26) + [65 + (m - 1) % 26]
  }

  /** The spelling of a number. */
  function Spell(n: nat): (w: Characters)
    ensures Spelling(w)
  {
    SpellCapitals(n / 26) + [97 + n % 26]
  }

  lemma {:induction false} CapitalsRoundTrip(m: nat)
    ensures CapitalsValue(SpellCapitals(m)) == m
  {
    if m > 0 {
      CapitalsRoundTrip((m - 1) / 26);
      assert SpellCapitals(m)[..|SpellCapitals(m)| - 1] == SpellCapitals((m - 1) / 26);
    }
  }

  lemma {:induction false} CapitalsUnique(w: Characters)
    requires AllCapitals(w)
    ensures SpellCapitals(CapitalsValue(w)) == w
  {
    if w != [] {
      var init, digit := w[..|w| - 1], w[|w| - 1] - 65;
      CapitalsUnique(init);
      var m := CapitalsValue(w);
      assert (m - 1) / 26 == CapitalsValue(init) && (m - 1) % 26 == digit;
      assert w == init + [65 + digit];
    }
  }

  /** Every number has exactly one spelling: spelling and value are inverse to each other. */
  lemma NumerationIsBijective(n: nat, w: Characters)
    requires Spelling(w)
    ensures TrueValue(w) == n <==> w == Spell(n)
  {
    hide CapitalsValue, SpellCapitals, AllCapitals;
    CapitalsRoundTrip(n / 26);
    assert Spell(n)[..|Spell(n)| - 1] == SpellCapitals(n / 26);
    CapitalsUnique(w[..|w| - 1]);
    if TrueValue(w) == n {
      assert n / 26 == CapitalsValue(w[..|w| - 1]) && n % 26 == w[|w| - 1] - 97;
      assert w == w[..|w| - 1] + [w[|w| - 1]];
    }
  }

  /** Capitals in front of a text are read into the accumulator, unless they alone exceed the range. */
  lemma {:induction false} ReadCapitals(capitals: Characters, rest: Characters)
    requires AllCapitals(capitals)
    ensures CapitalsValue(capitals) <= USIZE_MAX ==>
              ReadInteger(capitals + rest, 0) == Further(|capitals|, ReadInteger(rest, CapitalsValue(capitals)))
    ensures CapitalsValue(capitals) > USIZE_MAX ==> ReadInteger(capitals + rest, 0) == Err(OutOfRange)
  {
    if capitals == [] {
      assert capitals + rest == rest;
    } else {
      var init, last := capitals[..|capitals| - 1], capitals[|capitals| - 1];
      ReadCapitals(init, [last] + rest);
      assert init + ([last] + rest) == capitals + rest;
      assert ([last] + rest)[1..] == rest;
    }
  }

  /**
   * Reading a spelling yields its true value and stops right behind it, or reports it out of range exactly when that
   * value exceeds what a `usize` holds.
   */
  lemma ReadSpelling(w: Characters, rest: Characters)
    requires Spelling(w)
    ensures ReadInteger(w + rest, 0)
         == if TrueValue(w) <= USIZE_MAX then Ok(Reading(TrueValue(w), |w|)) else Err(OutOfRange)
  {
    var capitals, last := w[..|w| - 1], w[|w| - 1];
    ReadCapitals(capitals, [last] + rest);
    assert capitals + ([last] + rest) == w + rest;
    assert ([last] + rest)[0] == last;
  }

  /** Whatever is read is a spelling at the front of the text. */
  lemma {:induction false} ReadIsSpelling(s: Characters, accumulator: nat)
    requires ReadInteger(s, accumulator).Ok?
    ensures
      var r := ReadInteger(s, accumulator).value;
      1 <= r.used <= |s| && Spelling(s[..r.used])
  {
    if Uppercase(s[0]) {
      var next := accumulator * 26 + (s[0] - 65 + 1);
      ReadIsSpelling(s[1..], next);
      var used := ReadInteger(s[1..], next).value.used;
      var w := s[..used + 1];
      assert w[1..] == s[1..][..used];
      assert forall i :: 1 <= i < |w| ==> w[i] == w[1..][i - 1];
    }
  }

  /** An integer is read exactly when a spelling of a representable number is in front. */
  lemma ReadExactlySpellings(s: Characters, n: nat, used: nat)
    ensures ReadInteger(s, 0) == Ok(Reading(n, used)) <==>
            n <= USIZE_MAX && used == |Spell(n)| <= |s| && s[..used] == Spell(n)
  {
    hide ReadInteger, Spell, Spelling, TrueValue;
    if ReadInteger(s, 0).Ok? {
      var r := ReadInteger(s, 0).value;
      ReadIsSpelling(s, 0);
      ReadTakes(s, 0);
      var w := s[..r.used];
      assert s == w + s[r.used..];
      ReadSpelling(w, s[r.used..]);
      NumerationIsBijective(r.value, w);
    }
    if n <= USIZE_MAX && used == |Spell(n)| <= |s| && s[..used] == Spell(n) {
      assert s == Spell(n) + s[used..];
      ReadSpelling(Spell(n), s[used..]);
      NumerationIsBijective(n, Spell(n));
    }
  }

  // ---- parser and printer -------------------------------------------------------------------------------------------

  function PrintInstruction(i: Instruction): Characters {
    match i
    case Copy(count) => Spell(count)
    case Add(text) => Spell(|text|) + text
    case Del(count) => Spell(count)
  }

  function PrintDiff(instructions: seq<Instruction>): Characters {
    if instructions == [] then [] else PrintInstruction(instructions[0]) + PrintDiff(instructions[1..])
  }

  /** An instruction of the given section, with a count a `usize` holds. */
  predicate Fits(i: Instruction, section: nat) {
    match i
    case Copy(count) => section == 0 && count <= USIZE_MAX
    case Add(text) => section == 1 && |text| <= USIZE_MAX
    case Del(count) => section == 2 && count <= USIZE_MAX
  }

  /** Instructions in the fixed cycle, starting in the given section. */
  predicate Cycled(instructions: seq<Instruction>, section: nat)
    requires section < 3
  {
    instructions == [] || (Fits(instructions[0], section) && Cycled(instructions[1..], (section + 1) % 3))
  }

  /** The section that starts with the spelling of a number. */
  lemma {:induction false} SectionStep(s: Characters, section: nat, count: nat, behind: Characters)
    requires section < 3 && count <= USIZE_MAX && s == Spell(count) + behind
    ensures ReadInteger(s, 0) == Ok(Reading(count, |Spell(count)|))
    ensures section != 1 ==>
              ParseSections(s, section)
              == Prepend([if section == 0 then Copy(count) else Del(count)], ParseSections(behind, (section + 1) % 3))
    ensures section == 1 ==>
              ParseSections(s, section)
              == if count > |behind| then Err(AddTooLong)
                 else Prepend([Add(behind[..count])], ParseSections(behind[count..], 2))
  {
    hide Spell, ReadInteger;
    ReadExactlySpellings(s, count, |Spell(count)|);
    assert Behind(s, Reading(count, |Spell(count)|)) == behind;
  }

  /** Parsing a printed list yields the list. */
  lemma {:induction false} ParseOfPrint(instructions: seq<Instruction>, section: nat)
    requires section < 3 && Cycled(instructions, section)
    ensures ParseSections(PrintDiff(instructions), section) == Ok(instructions)
  {
    hide Spell, ReadInteger, ParseSections, PrintDiff, Cycled;
    if instructions == [] {
      ParseNothing(section);
      PrintNothing(section);
    } else {
      var head, tail := instructions[0], instructions[1..];
      var rest := PrintDiff(tail);
      assert instructions == [head] + tail;
      PrintCons(head, tail, section);
      ParseOfPrint(tail, (section + 1) % 3);
      match head
      case Copy(count) =>
        SectionStep(PrintDiff(instructions), section, count, rest);
      case Del(count) =>
        SectionStep(PrintDiff(instructions), section, count, rest);
      case Add(text) =>
        var behind := text + rest;
        assert PrintDiff(instructions) == Spell(|text|) + behind;
        assert behind[..|text|] == text && behind[|text|..] == rest;
        SectionStep(PrintDiff(instructions), section, |text|, behind);
    }
  }

  lemma ParseNothing(section: nat)
    requires section < 3
    ensures ParseSections([], section) == Ok([])
  {
  }

  /** What a section and what follows it were parsed into prints back as both. */
  lemma SectionPrints(s: Characters, section: nat, count: nat, behind: Characters, tail: seq<Instruction>)
    requires section < 3 && count <= USIZE_MAX && s == Spell(count) + behind && (section == 1 ==> count <= |behind|)
    requires PrintDiff(tail) == (if section == 1 then behind[count..] else behind) && Cycled(tail, (section + 1) % 3)
    ensures
      var head := if section == 0 then Copy(count) else if section == 1 then Add(behind[..count]) else Del(count);
      PrintDiff([head] + tail) == s && Cycled([head] + tail, section)
  {
    hide Spell, PrintDiff, Cycled;
    var head := if section == 0 then Copy(count) else if section == 1 then Add(behind[..count]) else Del(count);
    PrintCons(head, tail, section);
    if section == 1 {
      assert behind == behind[..count] + behind[count..];
      assert s == Spell(count) + behind[..count] + behind[count..];
    }
  }

  /** A parsed payload is the printed form of what it was parsed into, and that is cycled. */
  lemma {:induction false} PrintOfParse(s: Characters, section: nat)
    requires section < 3 && ParseSections(s, section).Ok?
    ensures Cycled(ParseSections(s, section).value, section)
    ensures PrintDiff(ParseSections(s, section).value) == s
    decreases |s|
  {
    hide Spell, ReadInteger, ParseSections, PrintDiff, Cycled, PrintInstruction;
    if s == [] {
      ParseNothing(section);
      PrintNothing(section);
    } else {
      ParseStartsWithInteger(s, section);
      var r := ReadInteger(s, 0).value;
      ReadTakes(s, 0);
      ReadExactlySpellings(s, r.value, r.used);
      var rest := s[r.used..];
      assert s == Spell(r.value) + rest;
      SectionStep(s, section, r.value, rest);
      var after := if section == 1 then rest[r.value..] else rest;
      PrintOfParse(after, (section + 1) % 3);
      SectionPrints(s, section, r.value, rest, ParseSections(after, (section + 1) % 3).value);
    }
  }

  lemma PrintNothing(section: nat)
    requires section < 3
    ensures PrintDiff([]) == [] && Cycled([], section)
  {
  }

  lemma ParseStartsWithInteger(s: Characters, section: nat)
    requires s != [] && section < 3 && ParseSections(s, section).Ok?
    ensures ReadInteger(s, 0).Ok?
  {
    hide ReadInteger;
  }

  lemma {:induction false} PrintCons(head: Instruction, tail: seq<Instruction>, section: nat)
    requires section < 3
    ensures PrintDiff([head] + tail) == PrintInstruction(head) + PrintDiff(tail)
    ensures Cycled([head] + tail, section) == (Fits(head, section) && Cycled(tail, (section + 1) % 3))
  {
    assert ([head] + tail)[1..] == tail;
  }

  /**
   * The parser is a bijection between the payloads it accepts and the non-empty, cycled instruction lists with
   * representable counts, and printing is its inverse on both sides.
   */
  lemma ParseIsBijective(payload: Characters, instructions: seq<Instruction>)
    ensures Parse(payload) == Ok(instructions) <==>
            instructions != [] && Cycled(instructions, 0) && payload == PrintDiff(instructions)
  {
    hide Spell;
    if Parse(payload) == Ok(instructions) {
      PrintOfParse(payload, 0);
    }
    if instructions != [] && Cycled(instructions, 0) && payload == PrintDiff(instructions) {
      ParseOfPrint(instructions, 0);
      assert |Spell(0)| > 0;
      assert payload != [];
    }
  }
}
