/**
 * TLCP-diff (TLCP 2.5.0, Appendix D): parsing a payload of encoded integers into COPY, ADD and DEL instructions, and
 * running them against a base value.
 */
module Diff {
  import opened Sequences
  import opened Utf8

  const USIZE_MAX: nat := 0xFFFF_FFFF_FFFF_FFFF

  type Characters = seq<Scalar>

  /** Why a diff is refused; the source reports each as a field-value error with its own text. */
  datatype DiffError =
    | Astral | EmptyPayload | TruncatedInteger | NotALetter | OutOfRange | AddTooLong | CopyPastEnd | DelOverflow

  datatype Instruction = Copy(count: nat) | Add(text: Characters) | Del(count: nat)

  predicate Uppercase(c: Scalar) {
    65 <= c <= 90
  }

  predicate Lowercase(c: Scalar) {
    97 <= c <= 122
  }

  /** The place of a letter in the alphabet that starts at `first`. */
  function AlphabetIndex(letter: Scalar, first: Scalar): Result<nat, DiffError> {
    if letter < first then Err(NotALetter) else Ok(letter - first)
  }

  // ---- encoded integers -------------------------------------------------------------------------------------------

  datatype Reading = Reading(value: nat, used: nat)

  /** The integer at the front of `s` on top of what its capitals so far add up to, and how many letters it takes. */
  function ReadInteger(s: Characters, accumulator: nat): Result<Reading, DiffError> {
    if s == [] then Err(TruncatedInteger)
    else if Uppercase(s[0]) then
      var next := accumulator * 26 + (s[0] - 65 + 1);
      if next > USIZE_MAX then Err(OutOfRange)
      else
        var r :- ReadInteger(s[1..], next);
        Ok(Reading(r.value, r.used + 1))
    else if Lowercase(s[0]) then
      var value := accumulator * 26 + (s[0] - 97);
      if value > USIZE_MAX then Err(OutOfRange) else Ok(Reading(value, 1))
    else Err(NotALetter)
  }

  /** A reading that starts `n` letters further on. */
  function Further(n: nat, r: Result<Reading, DiffError>): Result<Reading, DiffError> {
    match r
    case Ok(reading) => Ok(Reading(reading.value, n + reading.used))
    case Err(e) => Err(e)
  }

  /** `decode_encoded_integer`, with its `&mut` position as a result. */
  method DecodeEncodedInteger(chars: Characters, start: nat) returns (r: Result<nat, DiffError>, position: nat)
    requires start <= |chars|
    ensures r.Ok? <==> ReadInteger(chars[start..], 0).Ok?
    ensures r.Ok? ==> r.value == ReadInteger(chars[start..], 0).value.value
    ensures r.Ok? ==> position == start + ReadInteger(chars[start..], 0).value.used <= |chars|
    ensures r.Err? ==> r.error == ReadInteger(chars[start..], 0).error
  {
    var accumulator: nat := 0;
    position := start;
    while true
      invariant start <= position <= |chars|
      invariant ReadInteger(chars[start..], 0) == Further(position - start, ReadInteger(chars[position..], accumulator))
      decreases |chars| - position
    {
      if position >= |chars| {
        return Err(TruncatedInteger), position;
      }
      var letter := chars[position];
      assert chars[position..][0] == letter && chars[position..][1..] == chars[position + 1..];
      position := position + 1;
      if Uppercase(letter) {
        var value := AlphabetIndex(letter, 65).value;
        if accumulator * 26 > USIZE_MAX || accumulator * 26 + (value + 1) > USIZE_MAX {
          return Err(OutOfRange), position;
        }
        accumulator := accumulator * 26 + (value + 1);
        continue;
      }
      if Lowercase(letter) {
        var value := AlphabetIndex(letter, 97).value;
        if accumulator * 26 > USIZE_MAX || accumulator * 26 + value > USIZE_MAX {
          return Err(OutOfRange), position;
        }
        return Ok(accumulator * 26 + value), position;
      }
      return Err(NotALetter), position;
    }
  }

  // ---- sections ---------------------------------------------------------------------------------------------------

  /** The instructions of a run of sections that starts in the given section of the COPY, ADD, DEL cycle. */
  function ParseSections(s: Characters, section: nat): Result<seq<Instruction>, DiffError>
    requires section < 3
    decreases |s|
  {
    if s == [] then Ok([]) else
    var r :- ReadInteger(s, 0);
    var rest := Behind(s, r);
    if section == 1 then
      if r.value > |rest| then Err(AddTooLong)
      else
        var tail :- ParseSections(rest[r.value..], 2);
        Ok([Add(rest[..r.value])] + tail)
    else
      var tail :- ParseSections(rest, (section + 1) % 3);
      Ok([if section == 0 then Copy(r.value) else Del(r.value)] + tail)
  }

  /** What follows an integer. */
  function Behind(s: Characters, r: Reading): (rest: Characters)
    requires ReadInteger(s, 0) == Ok(r)
    ensures |rest| < |s|
  {
    ReadTakes(s, 0);
    s[r.used..]
  }

  lemma {:induction false} ReadTakes(s: Characters, accumulator: nat)
    requires ReadInteger(s, accumulator).Ok?
    ensures 1 <= ReadInteger(s, accumulator).value.used <= |s|
    ensures ReadInteger(s, accumulator).value.value <= USIZE_MAX
  {
    if Uppercase(s[0]) {
      ReadTakes(s[1..], accumulator * 26 + (s[0] - 65 + 1));
    }
  }

  function Parse(payload: Characters): Result<seq<Instruction>, DiffError> {
    if payload == [] then Err(EmptyPayload) else ParseSections(payload, 0)
  }

  function Prepend(done: seq<Instruction>, r: Result<seq<Instruction>, DiffError>)
    : Result<seq<Instruction>, DiffError>
  {
    match r
    case Ok(rest) => Ok(done + rest)
    case Err(e) => Err(e)
  }

  /** `parse_tlcp_diff`: one pass over the payload, with a cursor and the section in the fixed cycle. */
  method ParseTlcpDiff(payload: Characters) returns (r: Result<seq<Instruction>, DiffError>)
    ensures r == Parse(payload)
  {
    hide ReadInteger, Prepend;
    if payload == [] {
      return Err(EmptyPayload);
    }
    var instructions: seq<Instruction> := [];
    var position, section := 0, 0;
    assert payload[0..] == payload;
    PrependNothing(ParseSections(payload, 0));
    while position < |payload|
      invariant position <= |payload| && section < 3
      invariant ParseSections(payload, 0) == Prepend(instructions, ParseSections(payload[position..], section))
      decreases |payload| - position
    {
      ghost var s := payload[position..];
      NextSection(s, section, instructions);
      var count, after := DecodeEncodedInteger(payload, position);
      if count.Err? {
        return Err(count.error);
      }
      ReadTakes(s, 0);
      assert s[after - position..] == payload[after..];
      position := after;
      var instruction: Instruction;
      if section == 0 {
        instruction := Copy(count.value);
      } else if section == 1 {
        var end := position + count.value;
        if end > |payload| {
          return Err(AddTooLong);
        }
        instruction := Add(payload[position..end]);
        assert payload[position..][..count.value] == payload[position..end];
        assert payload[position..][count.value..] == payload[end..];
        position := end;
      } else {
        instruction := Del(count.value);
      }
      instructions := instructions + [instruction];
      section := if section >= 2 then 0 else section + 1;
    }
    assert payload[position..] == [];
    PrependToNothing(instructions);
    return Ok(instructions);
  }

  lemma PrependNothing(r: Result<seq<Instruction>, DiffError>)
    ensures Prepend([], r) == r
  {
    if r.Ok? {
      assert [] + r.value == r.value;
    }
  }

  lemma PrependToNothing(done: seq<Instruction>)
    ensures Prepend(done, ParseSections([], 0)) == Ok(done)
    ensures forall section :: 0 <= section < 3 ==> Prepend(done, ParseSections([], section)) == Ok(done)
  {
    assert done + [] == done;
  }

  /** What the next section of a payload adds to the instructions read before it. */
  lemma NextSection(s: Characters, section: nat, done: seq<Instruction>)
    requires s != [] && section < 3
    ensures
      var all := Prepend(done, ParseSections(s, section));
      match ReadInteger(s, 0)
      case Err(e) => all == Err(e)
      case Ok(r) =>
        var rest := Behind(s, r);
        if section == 1 then
          if r.value > |rest| then all == Err(AddTooLong)
          else all == Prepend(done + [Add(rest[..r.value])], ParseSections(rest[r.value..], 2))
        else
          all == Prepend(done + [if section == 0 then Copy(r.value) else Del(r.value)],
                         ParseSections(rest, (section + 1) % 3))
  {
    hide ReadInteger;
    forall x: seq<Instruction>, i: Instruction
      ensures done + ([i] + x) == done + [i] + x
    {
    }
  }

  // ---- running instructions -----------------------------------------------------------------------------------------

  /** The text a list of instructions builds from a base value, with the base cursor at `basePos`. */
  function Perform(base: Characters, instructions: seq<Instruction>, basePos: nat): Result<Characters, DiffError> {
    if instructions == [] then Ok([])
    else
      match instructions[0]
      case Copy(count) =>
        if basePos + count > |base| then Err(CopyPastEnd)
        else
          var rest :- Perform(base, instructions[1..], basePos + count);
          Ok(base[basePos..basePos + count] + rest)
      case Add(text) =>
        var rest :- Perform(base, instructions[1..], basePos);
        Ok(text + rest)
      case Del(count) =>
        if basePos + count > USIZE_MAX then Err(DelOverflow)
        else Perform(base, instructions[1..], basePos + count)
  }

  function Onto(done: Characters, r: Result<Characters, DiffError>): Result<Characters, DiffError> {
    match r
    case Ok(rest) => Ok(done + rest)
    case Err(e) => Err(e)
  }

  /** `apply_tlcp_instructions`. A base longer than `usize::MAX` characters cannot exist. */
  method ApplyInstructions(base: Characters, instructions: seq<Instruction>)
    returns (r: Result<Characters, DiffError>)
    requires |base| <= USIZE_MAX
    ensures r == Perform(base, instructions, 0)
  {
    hide Onto;
    var result: Characters := [];
    var basePos := 0;
    OntoEmpty(result, Perform(base, instructions, 0));
    assert instructions[0..] == instructions;
    for i := 0 to |instructions|
      invariant Perform(base, instructions, 0) == Onto(result, Perform(base, instructions[i..], basePos))
    {
      NextInstruction(base, instructions[i..], basePos, result);
      assert instructions[i..][1..] == instructions[i + 1..];
      match instructions[i] {
        case Copy(count) =>
          var end := basePos + count;
          if end > |base| {
            return Err(CopyPastEnd);
          }
          result := result + base[basePos..end];
          basePos := end;
        case Add(text) =>
          result := result + text;
        case Del(count) =>
          if basePos + count > USIZE_MAX {
            return Err(DelOverflow);
          }
          basePos := basePos + count;
      }
    }
    assert instructions[|instructions|..] == [];
    OntoEnd(base, result, basePos);
    return Ok(result);
  }

  lemma OntoEmpty(done: Characters, r: Result<Characters, DiffError>)
    requires done == []
    ensures Onto(done, r) == r
  {
    if r.Ok? {
      assert done + r.value == r.value;
    }
  }

  lemma OntoEnd(base: Characters, done: Characters, basePos: nat)
    ensures Onto(done, Perform(base, [], basePos)) == Ok(done)
  {
    assert done + [] == done;
  }

  lemma NextInstruction(base: Characters, instructions: seq<Instruction>, basePos: nat, done: Characters)
    requires instructions != []
    ensures
      var all := Onto(done, Perform(base, instructions, basePos));
      var rest := instructions[1..];
      match instructions[0]
      case Copy(count) =>
        if basePos + count > |base| then all == Err(CopyPastEnd)
        else all == Onto(done + base[basePos..basePos + count], Perform(base, rest, basePos + count))
      case Add(text) => all == Onto(done + text, Perform(base, rest, basePos))
      case Del(count) =>
        if basePos + count > USIZE_MAX then all == Err(DelOverflow)
        else all == Onto(done, Perform(base, rest, basePos + count))
  {
    forall x: Characters, y: Characters
      ensures done + (x + y) == done + x + y
    {
    }
  }

  // ---- the diff -----------------------------------------------------------------------------------------------------

  /** No character takes two UTF-16 code units. */
  predicate Bmp(text: Characters) {
    forall i :: 0 <= i < |text| ==> text[i] < 0x10000
  }

  /** `apply_tlcp_diff`. */
  function ApplyTlcpDiff(base: Characters, payload: Characters): Result<Characters, DiffError> {
    if !Bmp(base) || !Bmp(payload) then Err(Astral)
    else
      var instructions :- Parse(payload);
      Perform(base, instructions, 0)
  }
}
