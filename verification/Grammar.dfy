/** Which lines the parser accepts and how it refuses the others, said by the pieces between a line's commas alone. */
module Grammar {
  import opened Sequences
  import opened Numbers
  import opened Response
  import Escaping
  import Printer
  import Utf8

  /** What an argument must be: a number of some width, percent-encoded text, or anything. */
  datatype Kind = Unsigned32 | Unsigned64 | Signed64 | Encoded | Raw

  function Kinds(t: Tag): seq<Kind> {
    match t
    case U => [Unsigned32, Unsigned32, Raw]
    case SUBOK => [Unsigned32, Unsigned32, Unsigned32]
    case SUBCMD => [Unsigned32, Unsigned32, Unsigned32, Unsigned32, Unsigned32]
    case UNSUB => [Unsigned32]
    case EOS => [Unsigned32, Unsigned32]
    case CS => [Unsigned32, Unsigned32]
    case OV => [Unsigned32, Unsigned32, Unsigned64]
    case CONF => [Unsigned32, Encoded, Encoded]
    case MSGDONE => [Encoded, Unsigned64, Encoded]
    case MSGFAIL => [Encoded, Unsigned64, Signed64, Encoded]
    case CONOK => [Encoded, Unsigned64, Unsigned64, Encoded]
    case REQERR => [Encoded, Signed64, Encoded]
    case END => [Signed64, Encoded]
    case CONERR => [Signed64, Encoded]
    case ERROR => [Signed64, Encoded]
    case SYNC => [Unsigned64]
    case PROG => [Unsigned64]
    case LOOP => [Unsigned64]
    case CONS => [Encoded]
    case CLIENTIP => [Encoded]
    case SERVNAME => [Encoded]
    case NOOP => [Encoded]
    case REQOK => [Encoded]
    case PROBE => []
    case WSOK => []
  }

  predicate Fits(k: Kind, argument: Text) {
    match k
    case Unsigned32 => ParseUnsigned(argument, U32_MAX).Some?
    case Unsigned64 => ParseUnsigned(argument, U64_MAX).Some?
    case Signed64 => ParseI64(argument).Some?
    case Encoded => Escaping.PercentDecode(argument).Ok?
    case Raw => true
  }

  /** A spelling of a number, with any leading zeros and perhaps a plus. */
  ghost predicate Reads(argument: Text, n: nat) {
    Spells(argument, [], n) || Spells(argument, Ascii("+"), n)
  }

  /** An argument fits exactly when it spells a number of the kind's range, or is a way to write some text. */
  lemma FitsExactly(k: Kind, argument: Text)
    ensures k == Unsigned32 ==> (Fits(k, argument) <==> exists n: nat :: n < 0x1_0000_0000 && Reads(argument, n))
    ensures k == Unsigned64 ==>
              (Fits(k, argument) <==> exists n: nat :: n < 0x1_0000_0000_0000_0000 && Reads(argument, n))
    ensures k == Signed64 ==>
              (Fits(k, argument) <==>
               || (exists n: nat :: n < 0x8000_0000_0000_0000 && Reads(argument, n))
               || (exists n: nat :: n <= 0x8000_0000_0000_0000 && Spells(argument, Ascii("-"), n)))
    ensures k == Encoded ==>
              (Fits(k, argument) <==> exists s :: Utf8.IsText(s) && Escaping.Writes(argument, s))
  {
    hide ParseUnsigned, ParseI64, Spells, Escaping.PercentDecode, Utf8.IsText, Escaping.Writes;
    match k
    case Unsigned32 => ReadsExactly(argument, U32_MAX);
    case Unsigned64 => ReadsExactly(argument, U64_MAX);
    case Signed64 =>
      if ParseI64(argument).Some? {
        var n: int := ParseI64(argument).value;
        SignedExactly(argument, n);
        var k: nat := if n < 0 then -n else n;
        assert Reads(argument, k) || Spells(argument, Ascii("-"), k);
      }
      if n: nat :| n < 0x8000_0000_0000_0000 && Reads(argument, n) {
        SignedExactly(argument, n);
      }
      if n: nat :| n <= 0x8000_0000_0000_0000 && Spells(argument, Ascii("-"), n) {
        var m: int := n;
        SignedExactly(argument, -m);
      }
    case Encoded =>
      forall s ensures Escaping.PercentDecode(argument) == Ok(s) <==> Utf8.IsText(s) && Escaping.Writes(argument, s) {
        Escaping.DecodesExactly(argument, s);
      }
    case Raw =>
  }

  lemma ReadsExactly(argument: Text, max: nat)
    ensures ParseUnsigned(argument, max).Some? <==> exists n: nat :: n <= max && Reads(argument, n)
  {
    hide ParseUnsigned, Spells;
    forall n: nat ensures ParseUnsigned(argument, max) == Some(n) <==> n <= max && Reads(argument, n) {
      UnsignedExactly(argument, max, n);
    }
  }

  predicate AllFit(kinds: seq<Kind>, arguments: seq<Text>)
    requires |kinds| == |arguments|
  {
    forall i :: 0 <= i < |kinds| ==> Fits(kinds[i], arguments[i])
  }

  /** The pieces of a line: its tag and what its commas separate. */
  function Pieces(line: Text): (pieces: seq<Text>)
    ensures |pieces| >= 1
  {
    SplitOn(StripTerminator(line), COMMA)
  }

  /**
   * The arguments of a line with at least `n > 0` pieces behind its tag: the last one absorbs what is left, with its
   * commas.
   */
  function Absorbed(pieces: seq<Text>, n: nat): (arguments: seq<Text>)
    requires n < |pieces|
    ensures |arguments| == n
  {
    if n == 0 then [] else pieces[1..n] + [Join(pieces[n..], [COMMA])]
  }

  /** The number of pieces behind the tag is one that the tag admits. */
  predicate Counted(t: Tag, found: nat) {
    if Arity(t) == 0 then found == 0 else Arity(t) <= found
  }

  /** A bare `REQOK`. */
  predicate Bare(line: Text) {
    Pieces(line) == [Printer.TagOctets(RequestOk(None))]
  }

  /** The lines of the grammar. */
  predicate Grammatical(line: Text) {
    var pieces := Pieces(line);
    var tag := TagOf(pieces[0]);
    Bare(line)
    || (tag.Some? && Counted(tag.value, |pieces| - 1)
        && |Kinds(tag.value)| == Arity(tag.value) < |pieces|
        && AllFit(Kinds(tag.value), Absorbed(pieces, Arity(tag.value))))
  }

  lemma KindsCounted(t: Tag)
    ensures |Kinds(t)| == Arity(t)
  {
  }

  // ---- the typed arguments -----------------------------------------------------------------------------------------

  /** What the client calls the numeric argument at `i`. */
  function NameOf(t: Tag, i: nat): string {
    match t
    case SUBOK => ["subscription-ID", "num-items", "num-fields"][if i < 3 then i else 0]
    case SUBCMD =>
      ["subscription-ID", "num-items", "num-fields", "key-field", "command-field"][if i < 5 then i else 0]
    case OV => ["subscription-ID", "item", "overflow-size"][if i < 3 then i else 0]
    case MSGDONE => "prog"
    case MSGFAIL => if i == 1 then "prog" else "error-code"
    case CONOK => if i == 1 then "request-limit" else "keep-alive"
    case SYNC => "seconds-since-initial-header"
    case PROG => "progressive"
    case LOOP => "expected-delay"
    case END => "cause-code"
    case _ => if t.CONERR? || t.REQERR? || t.ERROR? then "error-code" else if i == 0 then "subscription-ID" else "item"
  }

  /** Why one argument is refused. */
  ghost predicate Refuses(k: Kind, argument: Text, tag: Text, name: string, e: ProtocolError) {
    && !Fits(k, argument)
    && if k.Encoded? then
         var reason := Escaping.PercentDecode(argument).error;
         e == BadEscape(reason.position, reason.reason)
       else e == NotNumeric(tag, name, argument)
  }

  /** The place of an argument in the order in which the source reads them: `CONOK` reads its last one first. */
  function Rank(t: Tag, i: nat): nat {
    if t == CONOK then (i + 1) % 4 else i
  }

  /** The argument at `i` is refused, and those read before it fit. */
  ghost predicate FirstRefused(t: Tag, a: seq<Text>, i: nat, e: ProtocolError)
    requires i < |a| == |Kinds(t)|
  {
    && Refuses(Kinds(t)[i], a[i], Wire(t), NameOf(t, i), e)
    && forall j :: 0 <= j < |a| && Rank(t, j) < Rank(t, i) ==> Fits(Kinds(t)[j], a[j])
  }

  /** The first argument read that does not fit, if any does not. */
  function Culprit(t: Tag, a: seq<Text>): nat
    requires |a| == |Kinds(t)|
  {
    var bad := (i: nat) requires i < |a| => !Fits(Kinds(t)[i], a[i]);
    if t == CONOK && bad(3) then 3
    else if |a| > 0 && bad(0) then 0
    else if |a| > 1 && bad(1) then 1
    else if |a| > 2 && bad(2) then 2
    else if |a| > 3 && bad(3) then 3
    else 4
  }

  ghost predicate Explained(t: Tag, a: seq<Text>, r: Result<Notification, ProtocolError>)
    requires |a| == Arity(t) == |Kinds(t)|
  {
    && (r.Ok? <==> AllFit(Kinds(t), a))
    && (r.Err? ==> Culprit(t, a) < |a| && FirstRefused(t, a, Culprit(t, a), r.error))
  }

  predicate Counting(t: Tag) {
    t.U? || t.EOS? || t.CS? || t.OV?
  }

  predicate Reporting(t: Tag) {
    t.CONF? || t.MSGDONE? || t.REQERR?
  }

  lemma CountingExplained(t: Tag, a: seq<Text>)
    requires |a| == Arity(t) == |Kinds(t)| && Counting(t)
    ensures Explained(t, a, Interpret(t, a))
  {
    hide ParseUnsigned, ParseI64, Escaping.PercentDecode, Wire;
  }

  lemma SubscribedExplained(t: Tag, a: seq<Text>)
    requires |a| == Arity(t) == |Kinds(t)| && (t.SUBOK? || t.SUBCMD?)
    ensures Explained(t, a, Interpret(t, a))
  {
    hide ParseUnsigned, ParseI64, Escaping.PercentDecode, Wire;
  }

  lemma ReportingExplained(t: Tag, a: seq<Text>)
    requires |a| == Arity(t) == |Kinds(t)| && Reporting(t)
    ensures Explained(t, a, Interpret(t, a))
  {
    hide ParseUnsigned, ParseI64, Escaping.PercentDecode, Wire, ParseMaxFrequency, ParseFiltering, ParseSequence;
  }

  lemma FailureExplained(a: seq<Text>)
    requires |a| == Arity(MSGFAIL) == |Kinds(MSGFAIL)|
    ensures Explained(MSGFAIL, a, Interpret(MSGFAIL, a))
  {
    hide ParseUnsigned, ParseI64, Escaping.PercentDecode, Wire, ParseSequence;
  }

  lemma ConnectionExplained(a: seq<Text>)
    requires |a| == Arity(CONOK) == |Kinds(CONOK)|
    ensures Explained(CONOK, a, Interpret(CONOK, a))
  {
    hide ParseUnsigned, ParseI64, Escaping.PercentDecode, Wire;
  }

  predicate Grouped(t: Tag) {
    Counting(t) || Reporting(t) || t.SUBOK? || t.SUBCMD? || t.MSGFAIL? || t.CONOK?
  }

  lemma OthersExplained(t: Tag, a: seq<Text>)
    requires |a| == Arity(t) == |Kinds(t)| && !Grouped(t)
    ensures Explained(t, a, Interpret(t, a))
  {
    hide ParseUnsigned, ParseI64, Escaping.PercentDecode, Wire, ParseBandwidth;
  }

  // ---- the line ----------------------------------------------------------------------------------------------------

  /** What a split into at most `n` pieces makes of the pieces of a full split. */
  function Merged(p: seq<Text>, n: nat): seq<Text>
    requires n > 0
  {
    if |p| < n then p else p[..n - 1] + [Join(p[n - 1..], [COMMA])]
  }

  lemma {:induction false} MergedCons(head: Text, q: seq<Text>, n: nat)
    requires n > 1
    ensures Merged([head] + q, n) == [head] + Merged(q, n - 1)
  {
    var p := [head] + q;
    if |p| >= n {
      assert p[..n - 1] == [head] + q[..n - 2] && p[n - 1..] == q[n - 2..];
    }
  }

  lemma MergedOne(p: seq<Text>, s: Text, n: nat)
    requires n > 0 && Join(p, [COMMA]) == s && p != []
    ensures n == 1 ==> Merged(p, n) == [s]
    ensures p == [s] ==> Merged(p, n) == [s]
  {
    assert p[..0] == [] && p[0..] == p;
  }

  /** Splitting stops where the count is reached, and the last argument keeps what is left. */
  lemma {:induction false} SplitNAbsorbs(s: Text, n: nat)
    requires n > 0
    ensures SplitN(s, n) == Merged(SplitOn(s, COMMA), n)
    decreases n
  {
    hide SplitN, SplitOn, Join, Merged, IndexOf;
    SplitOnStep(s, COMMA);
    SplitNStep(s, n);
    var p := SplitOn(s, COMMA);
    if COMMA in s && n > 1 {
      var k := IndexOf(s, COMMA);
      SplitNAbsorbs(s[k + 1..], n - 1);
      MergedCons(s[..k], SplitOn(s[k + 1..], COMMA), n);
    } else {
      JoinSplit(s, COMMA);
      MergedOne(p, s, n);
    }
  }

  lemma TagIsFirstPiece(line: Text)
    ensures
      var (tag, rest) := SplitTag(line);
      SplitOn(line, COMMA) == [tag] + (if rest.None? then [] else SplitOn(rest.value, COMMA))
  {
    SplitOnStep(line, COMMA);
  }

  /** The arguments are there exactly when the count is right, and else the error says how many there were. */
  lemma ArgumentsCounted(tag: Text, rest: Option<Text>, t: Tag)
    ensures
      var pieces := [tag] + (if rest.None? then [] else SplitOn(rest.value, COMMA));
      Arguments(tag, rest, Arity(t))
      == if Counted(t, |pieces| - 1) then Ok(Absorbed(pieces, Arity(t)))
         else Err(ArgumentCount(tag, Arity(t), |pieces| - 1))
  {
    hide SplitOn, SplitN, Join;
    var n := Arity(t);
    if rest.Some? && n > 0 {
      SplitNAbsorbs(rest.value, n);
      var p := SplitOn(rest.value, COMMA);
      var pieces := [tag] + p;
      if n <= |p| {
        assert pieces[1..n] == p[..n - 1] && pieces[n..] == p[n - 1..];
      }
    }
  }

  /**
   * The parser accepts exactly the lines of the grammar. An unknown tag is reported with its whole line, a wrong
   * count with the number of pieces there were, and anything else with the first argument read that does not fit its
   * kind.
   */
  lemma AcceptedExactly(line: Text)
    ensures
      var pieces := Pieces(line);
      var tag := TagOf(pieces[0]);
      var r := ParseLine(line);
      && (r.Ok? <==> Grammatical(line))
      && (tag.None? ==> r == Err(UnknownTag(pieces[0], StripTerminator(line))))
      && (tag.Some? && !Bare(line) && !Counted(tag.value, |pieces| - 1) ==>
            r == Err(ArgumentCount(pieces[0], Arity(tag.value), |pieces| - 1)))
      && (r.Err? && tag.Some? && Counted(tag.value, |pieces| - 1) ==> Misfit(tag.value, pieces, r.error))
  {
    hide SplitOn, SplitN, Join, Interpret, TagOf, StripTerminator, SplitTag, Wire, Kinds, Arity, Explained, AllFit,
      Absorbed, Arguments;
    var inner := StripTerminator(line);
    var (tag, rest) := SplitTag(inner);
    TagIsFirstPiece(inner);
    var pieces := Pieces(line);
    if TagOf(tag).Some? {
      var t := TagOf(tag).value;
      KindsCounted(t);
      ArgumentsCounted(tag, rest, t);
      TagIsItself(tag);
      BareExactly(line, tag, rest);
      if Counted(t, |pieces| - 1) {
        CountIsEnough(t, |pieces| - 1);
        var a := Absorbed(pieces, Arity(t));
        Explain(t, a);
        FromExplained(t, a, Interpret(t, a));
      }
    } else {
      BareIsKnown(line);
    }
  }

  /** Some argument does not fit, and the error is about the first one read that does not. */
  ghost predicate Misfit(t: Tag, pieces: seq<Text>, e: ProtocolError) {
    && Arity(t) == |Kinds(t)| < |pieces|
    && var a := Absorbed(pieces, Arity(t));
       exists i :: 0 <= i < |a| && FirstRefused(t, a, i, e)
  }

  lemma Explain(t: Tag, a: seq<Text>)
    requires |a| == Arity(t) == |Kinds(t)|
    ensures Explained(t, a, Interpret(t, a))
  {
    hide Interpret, Explained;
    if Counting(t) {
      CountingExplained(t, a);
    } else if Reporting(t) {
      ReportingExplained(t, a);
    } else if t.SUBOK? || t.SUBCMD? {
      SubscribedExplained(t, a);
    } else if t.MSGFAIL? {
      FailureExplained(a);
    } else if t.CONOK? {
      ConnectionExplained(a);
    } else {
      OthersExplained(t, a);
    }
  }

  lemma FromExplained(t: Tag, a: seq<Text>, r: Result<Notification, ProtocolError>)
    requires |a| == Arity(t) == |Kinds(t)| && Explained(t, a, r)
    ensures r.Ok? <==> AllFit(Kinds(t), a)
    ensures r.Err? ==> exists i :: 0 <= i < |a| && FirstRefused(t, a, i, r.error)
  {
  }

  lemma CountIsEnough(t: Tag, found: nat)
    requires Counted(t, found)
    ensures Arity(t) <= found
  {
  }

  lemma TagIsItself(tag: Text)
    requires TagOf(tag).Some?
    ensures Wire(TagOf(tag).value) == tag
  {
  }

  /** A line is a bare `REQOK` exactly when that is its tag and there is no comma. */
  lemma BareExactly(line: Text, tag: Text, rest: Option<Text>)
    requires Pieces(line) == [tag] + (if rest.None? then [] else SplitOn(rest.value, COMMA)) && TagOf(tag).Some?
    ensures Bare(line) <==> TagOf(tag).value == REQOK && rest.None?
  {
    hide SplitOn, TagOf, Wire, Printer.TagOctets;
    TagIsItself(tag);
    Printer.TagRoundTrip(REQOK);
    Printer.TagTextIs(RequestOk(None));
    if Bare(line) {
      assert Pieces(line)[0] == tag && |Pieces(line)| == 1;
    } else if rest.None? {
      assert Pieces(line) == [tag];
    }
  }

  lemma BareIsKnown(line: Text)
    ensures Bare(line) ==> TagOf(Pieces(line)[0]) == Some(REQOK)
  {
    hide SplitOn, TagOf, Wire, Printer.TagOctets;
    Printer.TagRoundTrip(REQOK);
    Printer.TagTextIs(RequestOk(None));
  }
}
