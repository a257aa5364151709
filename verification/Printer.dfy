/**
 * A reference server: how notifications are put on the wire. The parser is proved to invert it, and so is the whole
 * inbound path from octet runs to notifications.
 */
module Printer {
  import opened Sequences
  import opened Numbers
  import opened Response
  import Escaping
  import Utf8

  /**
   * How the server writes its arguments, decided anew for each character: whether it leaves the character as it is, and
   * which case each digit has of the escapes it writes instead. Both are asked with the number of the argument and with
   * its text from the character, or the octet, on.
   */
  datatype Choice = Choice(literal: (nat, Text) -> bool, upper: (nat, Text, bool) -> bool)

  /** It must escape `%` and the line terminators; commas are left to it in a last argument. */
  ghost predicate Lawful(choice: Choice) {
    forall i, s :: choice.literal(i, s) ==> s != [] && s[0] as char !in {'%', '\r', '\n'}
  }

  /** The choices for one argument: `upper` is asked for the high and for the low digit of an octet. */
  datatype Hand = Hand(literal: Text -> bool, upper: (Text, bool) -> bool)

  /** In front of another argument it must escape commas too. */
  function ForArgument(choice: Choice, i: nat, last: bool): Hand {
    Hand((s: Text) => choice.literal(i, s) && s != [] && (last || s[0] as char != ','),
         (s: Text, high: bool) => choice.upper(i, s, high))
  }

  ghost predicate Never(hand: Hand, c: Byte) {
    forall s :: hand.literal(s) ==> s != [] && s[0] != c
  }

  ghost predicate Keeps(hand: Hand) {
    Never(hand, Escaping.PERCENT) && Never(hand, CR) && Never(hand, LF)
  }

  /** The first character of a run, or its first octet where there is none. */
  function FirstCharacter(s: Text): (c: Text)
    requires s != []
    ensures 1 <= |c| <= |s| && c == s[..|c|]
  {
    s[..if Utf8.CharLength(s) == 0 then 1 else Utf8.CharLength(s)]
  }

  /** The first octets of a run, each as an escape. */
  function EscapeOctets(s: Text, n: nat, hand: Hand): Text
    requires n <= |s|
  {
    if n == 0 then []
    else Escaping.Formed(s[0], Escaping.Escaped(hand.upper(s, true), hand.upper(s, false)))
         + EscapeOctets(s[1..], n - 1, hand)
  }

  /** A run's first character on the wire: as it is, or all its octets escaped. */
  function WireCharacter(s: Text, hand: Hand): Text
    requires s != []
  {
    if hand.literal(s) then FirstCharacter(s) else EscapeOctets(s, |FirstCharacter(s)|, hand)
  }

  function EscapeText(s: Text, hand: Hand): Text {
    if s == [] then [] else WireCharacter(s, hand) + EscapeText(s[|FirstCharacter(s)|..], hand)
  }

  datatype Argument = Number(value: int) | Escaped(text: Text) | Raw(values: Text)

  function FrequencyText(f: MaxFrequency): Text {
    match f
    case Unlimited => Ascii("unlimited")
    case Limited(rate) => rate
    case UnrecognizedFrequency(literal) => literal
  }

  function FilteringText(f: FilteringMode): Text {
    match f
    case Filtered => Ascii("filtered")
    case Unfiltered => Ascii("unfiltered")
    case UnrecognizedFiltering(literal) => literal
  }

  function BandwidthText(b: Bandwidth): Text {
    match b
    case UnlimitedBandwidth => Ascii("unlimited")
    case Unmanaged => Ascii("unmanaged")
    case LimitedBandwidth(kbps) => kbps
    case UnrecognizedBandwidth(literal) => literal
  }

  function SequenceText(s: MessageSequence): Text {
    match s
    case Unspecified => ['*' as Byte]
    case Named(name) => name
  }

  /** The tag that TLCP gives each notification. */
  function TagText(n: Notification): string {
    match n
    case Update(_, _, _) => "U" case SubscriptionOk(_, _, _) => "SUBOK"
    case SubscriptionCommandOk(_, _, _, _, _) => "SUBCMD" case Unsubscribed(_) => "UNSUB"
    case EndOfSnapshot(_, _) => "EOS" case ClearSnapshot(_, _) => "CS" case Overflow(_, _, _) => "OV"
    case Reconfigured(_, _, _) => "CONF" case MessageDone(_, _, _) => "MSGDONE"
    case MessageFailed(_, _, _, _) => "MSGFAIL" case ConstraintsChanged(_) => "CONS" case Sync(_) => "SYNC"
    case ClientIp(_) => "CLIENTIP" case ServerName(_) => "SERVNAME" case Progressive(_) => "PROG"
    case NoOp(_) => "NOOP" case Probe => "PROBE" case Loop(_) => "LOOP" case End(_, _) => "END"
    case ConnectionOk(_, _, _, _) => "CONOK" case ConnectionError(_, _) => "CONERR" case RequestOk(_) => "REQOK"
    case RequestError(_, _, _) => "REQERR" case Error(_, _) => "ERROR" case WsOk => "WSOK"
  }

  function TagOctets(n: Notification): Text {
    Ascii(TagText(n))
  }

  /** The client's name for it. */
  function TagFor(n: Notification): Tag {
    match n
    case Update(_, _, _) => Tag.U case SubscriptionOk(_, _, _) => SUBOK
    case SubscriptionCommandOk(_, _, _, _, _) => SUBCMD case Unsubscribed(_) => UNSUB
    case EndOfSnapshot(_, _) => EOS case ClearSnapshot(_, _) => CS case Overflow(_, _, _) => OV
    case Reconfigured(_, _, _) => CONF case MessageDone(_, _, _) => MSGDONE
    case MessageFailed(_, _, _, _) => MSGFAIL case ConstraintsChanged(_) => CONS case Sync(_) => SYNC
    case ClientIp(_) => CLIENTIP case ServerName(_) => SERVNAME case Progressive(_) => PROG case NoOp(_) => NOOP
    case Probe => PROBE case Loop(_) => LOOP case End(_, _) => END case ConnectionOk(_, _, _, _) => CONOK
    case ConnectionError(_, _) => CONERR case RequestOk(_) => REQOK case RequestError(_, _, _) => REQERR
    case Error(_, _) => ERROR case WsOk => WSOK
  }

  function ArgumentsOf(n: Notification): seq<Argument> {
    match n
    case Update(id, item, raw) => [Number(id), Number(item), Raw(raw)]
    case SubscriptionOk(id, items, fields) => [Number(id), Number(items), Number(fields)]
    case SubscriptionCommandOk(id, items, fields, key, command) =>
      [Number(id), Number(items), Number(fields), Number(key), Number(command)]
    case Unsubscribed(id) => [Number(id)]
    case EndOfSnapshot(id, item) => [Number(id), Number(item)]
    case ClearSnapshot(id, item) => [Number(id), Number(item)]
    case Overflow(id, item, size) => [Number(id), Number(item), Number(size)]
    case Reconfigured(id, f, m) => [Number(id), Escaped(FrequencyText(f)), Escaped(FilteringText(m))]
    case MessageDone(s, prog, response) => [Escaped(SequenceText(s)), Number(prog), Escaped(response)]
    case MessageFailed(s, prog, code, message) =>
      [Escaped(SequenceText(s)), Number(prog), Number(code), Escaped(message)]
    case ConstraintsChanged(b) => [Escaped(BandwidthText(b))]
    case Sync(seconds) => [Number(seconds)]
    case ClientIp(address) => [Escaped(address)]
    case ServerName(name) => [Escaped(name)]
    case Progressive(p) => [Number(p)]
    case NoOp(preamble) => [Escaped(preamble)]
    case Probe => []
    case Loop(delay) => [Number(delay)]
    case End(code, message) => [Number(code), Escaped(message)]
    case ConnectionOk(id, limit, keepAlive, link) =>
      [Escaped(id), Number(limit), Number(keepAlive), Escaped(if link.None? then ['*' as Byte] else link.value)]
    case ConnectionError(code, message) => [Number(code), Escaped(message)]
    case RequestOk(id) => if id.None? then [] else [Escaped(id.value)]
    case RequestError(id, code, message) => [Escaped(id), Number(code), Escaped(message)]
    case Error(code, message) => [Number(code), Escaped(message)]
    case WsOk => []
  }

  function PrintArgument(a: Argument, hand: Hand): Text {
    match a
    case Number(value) => PrintInt(value)
    case Escaped(text) => EscapeText(text, hand)
    case Raw(values) => values
  }

  /** The wire form of each argument; only in the last one may a comma stay literal. */
  function PrintArguments(a: seq<Argument>, choice: Choice): (p: seq<Text>)
    ensures |p| == |a|
  {
    seq(|a|, i requires 0 <= i < |a| =>
      PrintArgument(a[i], ForArgument(choice, i, i == |a| - 1)))
  }

  function Print(n: Notification, choice: Choice): Text {
    Join([TagOctets(n)] + PrintArguments(ArgumentsOf(n), choice), [',' as Byte])
  }

  // ---- what can be printed ----------------------------------------------------------------------------------------

  predicate FrequencyOk(f: MaxFrequency) {
    match f
    case Unlimited => true
    case Limited(rate) => IsDecimal(rate)
    case UnrecognizedFrequency(literal) => literal != Ascii("unlimited") && !IsDecimal(literal)
  }

  predicate FilteringOk(f: FilteringMode) {
    f.UnrecognizedFiltering? ==> f.literal != Ascii("filtered") && f.literal != Ascii("unfiltered")
  }

  predicate BandwidthOk(b: Bandwidth) {
    match b
    case UnlimitedBandwidth => true
    case Unmanaged => true
    case LimitedBandwidth(kbps) => IsDecimal(kbps)
    case UnrecognizedBandwidth(literal) =>
      literal != Ascii("unlimited") && literal != Ascii("unmanaged") && !IsDecimal(literal)
  }

  predicate SequenceOk(s: MessageSequence) {
    s.Named? ==> s.name != ['*' as Byte]
  }

  /** No two notifications of this kind would be printed alike. */
  predicate Unambiguous(n: Notification) {
    match n
    case Reconfigured(_, f, m) => FrequencyOk(f) && FilteringOk(m)
    case MessageDone(s, _, _) => SequenceOk(s)
    case MessageFailed(s, _, _, _) => SequenceOk(s)
    case ConstraintsChanged(b) => BandwidthOk(b)
    case ConnectionOk(_, _, _, link) => link != Some(['*' as Byte])
    case _ => true
  }

  /** Every argument is text. */
  predicate ArgumentIsText(a: Argument) {
    match a
    case Number(_) => true
    case Escaped(text) => Utf8.Valid(text)
    case Raw(values) => Utf8.Valid(values)
  }

  predicate AllText(n: Notification) {
    forall i :: 0 <= i < |ArgumentsOf(n)| ==> ArgumentIsText(ArgumentsOf(n)[i])
  }

  /** A raw value list is carried undecoded, so nothing can protect a terminator in it. */
  predicate RawOk(n: Notification) {
    n.Update? ==> '\n' as Byte !in n.rawValues && (n.rawValues == [] || n.rawValues[|n.rawValues| - 1] as char != '\r')
  }

  predicate Printable(n: Notification) {
    Unambiguous(n) && AllText(n) && RawOk(n)
  }

  // ---- arguments --------------------------------------------------------------------------------------------------

  predicate OnlyEscapes(e: Text) {
    forall i :: 0 <= i < |e| ==> e[i] == Escaping.PERCENT || 48 <= e[i] < 0x80
  }

  /** A literal first character is one, and otherwise its escapes hold nothing but `%` and hex digits. */
  lemma {:induction false} WireCharacterIs(s: Text, hand: Hand)
    requires s != []
    ensures hand.literal(s) ==> WireCharacter(s, hand) == FirstCharacter(s)
    ensures !hand.literal(s) ==> OnlyEscapes(WireCharacter(s, hand))
    ensures forall i :: 0 < i < |FirstCharacter(s)| ==> FirstCharacter(s)[i] >= 0x80
    ensures FirstCharacter(s)[0] == s[0]
  {
    hide Utf8.CharLength;
    Utf8.InsideIsContinuation(s);
    OctetsEscaped(s, |FirstCharacter(s)|, hand);
    assert forall i :: 0 < i < Utf8.CharLength(s) ==> Utf8.Continuation(s[i]);
  }

  /** Escaped octets are escapes only, and are read back as the octets. */
  lemma {:induction false} OctetsEscaped(s: Text, n: nat, hand: Hand)
    requires n <= |s|
    ensures OnlyEscapes(EscapeOctets(s, n, hand))
    ensures Escaping.Unescape(EscapeOctets(s, n, hand)) == Ok(s[..n])
  {
    hide Escaping.Unescape, Escaping.Formed, Escaping.TokenLength, Escaping.TokenValue;
    Escaping.UnescapeEmpty();
    if n > 0 {
      var form := Escaping.Escaped(hand.upper(s, true), hand.upper(s, false));
      var rest := EscapeOctets(s[1..], n - 1, hand);
      OctetsEscaped(s[1..], n - 1, hand);
      OctetEscaped(s[0], form);
      Escaping.FormIsToken(s[0], form, rest);
      Escaping.UnescapeStep(EscapeOctets(s, n, hand));
      assert s[..n] == [s[0]] + s[1..][..n - 1];
    }
  }

  lemma OctetEscaped(b: Byte, form: Escaping.Form)
    requires form.Escaped?
    ensures OnlyEscapes(Escaping.Formed(b, form))
  {
    hide Escaping.DigitOf;
    Escaping.DigitIsHex(b / 16, form.upperHigh);
    Escaping.DigitIsHex(b % 16, form.upperLow);
  }

  lemma {:induction false} EscapeTextStep(s: Text, hand: Hand)
    ensures s == [] ==> EscapeText(s, hand) == []
    ensures s != [] ==>
              EscapeText(s, hand) == WireCharacter(s, hand) + EscapeText(s[|FirstCharacter(s)|..], hand)
  {
    hide WireCharacter, FirstCharacter;
  }

  /** Escaped text holds an octet below 0x80 that is no hex digit and no `%` only if that octet was left literal. */
  lemma {:induction false} EscapedHolds(s: Text, hand: Hand, c: Byte)
    requires c < 48 && c != Escaping.PERCENT && Never(hand, c)
    ensures c !in EscapeText(s, hand)
    decreases |s|
  {
    hide EscapeText, WireCharacter, FirstCharacter;
    EscapeTextStep(s, hand);
    if s != [] {
      EscapedHolds(s[|FirstCharacter(s)|..], hand, c);
      WireCharacterIs(s, hand);
      assert c !in WireCharacter(s, hand);
    }
  }

  /** Escaping whole characters keeps text valid. */
  lemma {:induction false} EscapedIsValid(s: Text, hand: Hand)
    requires Utf8.Valid(s)
    ensures Utf8.Valid(EscapeText(s, hand))
    decreases |s|
  {
    hide Utf8.CharLength, EscapeText, WireCharacter;
    EscapeTextStep(s, hand);
    if s != [] {
      EscapedIsValid(s[|FirstCharacter(s)|..], hand);
      WireCharacterIsValid(s, hand);
      Utf8.ValidConcat(WireCharacter(s, hand), EscapeText(s[|FirstCharacter(s)|..], hand));
    }
  }

  lemma WireCharacterIsValid(s: Text, hand: Hand)
    requires Utf8.CharLength(s) > 0
    ensures Utf8.Valid(WireCharacter(s, hand))
  {
    hide WireCharacter, Utf8.CharLength;
    WireCharacterIs(s, hand);
    if hand.literal(s) {
      Utf8.CharLengthCut(s);
      WholeChar(FirstCharacter(s));
    } else {
      Utf8.AsciiIsValid(WireCharacter(s, hand));
    }
  }

  lemma WholeChar(c: Text)
    requires c != [] && Utf8.CharLength(c) == |c|
    ensures Utf8.Valid(c)
  {
    hide Utf8.CharLength;
    assert c[|c|..] == [];
    assert Utf8.ValidUpTo(c) == |c| + Utf8.ValidUpTo(c[|c|..]);
  }

  /** Text survives being escaped for the wire and decoded. */
  lemma DecodePrinted(text: Text, hand: Hand)
    requires Utf8.Valid(text) && Never(hand, Escaping.PERCENT)
    ensures Decode(EscapeText(text, hand)) == Ok(text)
  {
    hide Utf8.ValidUpTo, EscapeText, Escaping.Unescape;
    UnescapeText(text, hand);
  }

  lemma {:induction false} UnescapeText(s: Text, hand: Hand)
    requires Never(hand, Escaping.PERCENT)
    ensures Escaping.Unescape(EscapeText(s, hand)) == Ok(s)
    decreases |s|
  {
    hide Escaping.Unescape, EscapeText, WireCharacter;
    EscapeTextStep(s, hand);
    Escaping.UnescapeEmpty();
    if s != [] {
      var c := FirstCharacter(s);
      UnescapeText(s[|c|..], hand);
      UnescapeCharacter(s, hand);
      Escaping.UnescapeConcat(WireCharacter(s, hand), EscapeText(s[|c|..], hand));
      assert s == c + s[|c|..];
    }
  }

  lemma UnescapeCharacter(s: Text, hand: Hand)
    requires s != [] && Never(hand, Escaping.PERCENT)
    ensures Escaping.Unescape(WireCharacter(s, hand)) == Ok(FirstCharacter(s))
  {
    hide Escaping.Unescape, FirstCharacter;
    WireCharacterIs(s, hand);
    if hand.literal(s) {
      Escaping.LiteralRun(FirstCharacter(s));
    } else {
      OctetsEscaped(s, |FirstCharacter(s)|, hand);
    }
  }

  /** A number's digits hold neither separators nor terminators, and are text. */
  lemma DigitsArePlain(n: int)
    ensures
      var p := PrintInt(n);
      && p != []
      && (forall i :: 0 <= i < |p| ==> p[i] != COMMA && p[i] != CR && p[i] != LF)
      && Utf8.Valid(p)
  {
    Utf8.AsciiIsValid(PrintInt(n));
  }

  /** A printed argument is text without a line feed, does not end in CR, and holds no comma unless it is the last. */
  ghost predicate Clean(p: Text, last: bool) {
    && Utf8.Valid(p) && LF !in p
    && (p == [] || p[|p| - 1] != CR)
    && (!last ==> COMMA !in p)
  }

  lemma PrintedNumberIsClean(n: int, last: bool)
    ensures Clean(PrintInt(n), last)
  {
    hide Utf8.ValidUpTo;
    DigitsArePlain(n);
  }

  lemma PrintedTextIsClean(text: Text, hand: Hand, last: bool)
    requires Utf8.Valid(text) && Keeps(hand) && (!last ==> Never(hand, COMMA))
    ensures Clean(EscapeText(text, hand), last)
  {
    hide Utf8.ValidUpTo, EscapeText;
    EscapedIsValid(text, hand);
    EscapedHolds(text, hand, LF);
    EscapedHolds(text, hand, CR);
    if !last {
      EscapedHolds(text, hand, COMMA);
    }
  }

  lemma LawfulForArgument(choice: Choice, i: nat, last: bool)
    requires Lawful(choice)
    ensures Keeps(ForArgument(choice, i, last)) && (!last ==> Never(ForArgument(choice, i, last), COMMA))
  {
  }

  lemma RawIsLast(n: Notification)
    ensures forall i :: 0 <= i < |ArgumentsOf(n)| && ArgumentsOf(n)[i].Raw? ==>
              i == |ArgumentsOf(n)| - 1 && n.Update? && ArgumentsOf(n)[i].values == n.rawValues
  {
  }

  lemma PrintedArgumentIsClean(n: Notification, choice: Choice, i: nat)
    requires Printable(n) && Lawful(choice)
    requires i < |ArgumentsOf(n)|
    ensures Clean(PrintArguments(ArgumentsOf(n), choice)[i], i == |ArgumentsOf(n)| - 1)
  {
    hide Utf8.ValidUpTo, ArgumentsOf, PrintInt, EscapeText, ForArgument, Unambiguous, Lawful;
    RawIsLast(n);
    var a := ArgumentsOf(n)[i];
    var last := i == |ArgumentsOf(n)| - 1;
    match a
    case Number(value) =>
      PrintedNumberIsClean(value, last);
    case Escaped(text) =>
      LawfulForArgument(choice, i, last);
      PrintedTextIsClean(text, ForArgument(choice, i, last), last);
    case Raw(values) =>
  }

  // ---- the line ---------------------------------------------------------------------------------------------------

  /** Printed arguments: each clean, and all but the last without a comma. */
  ghost predicate AllClean(p: seq<Text>) {
    forall i :: 0 <= i < |p| ==> Clean(p[i], i == |p| - 1)
  }

  /** Joined with commas, clean arguments make one clean text, which splits back into exactly them. */
  lemma {:induction false} JoinedArguments(p: seq<Text>)
    requires p != [] && AllClean(p)
    ensures SplitN(Join(p, [COMMA]), |p|) == p
    ensures Clean(Join(p, [COMMA]), true)
  {
    hide Utf8.ValidUpTo, SplitTag, Join, SplitN;
    var head, rest := p[0], p[1..];
    if rest == [] {
      assert p == [head];
      JoinedOne(head);
    } else {
      assert forall i :: 0 <= i < |rest| ==> rest[i] == p[i + 1] && Clean(p[i + 1], i + 1 == |p| - 1);
      JoinedArguments(rest);
      assert Clean(p[0], false);
      assert p == [head] + rest;
      JoinCons(head, rest, [COMMA]);
      CleanCons(head, Join(rest, [COMMA]));
      SplitNCons(head, Join(rest, [COMMA]), |p|);
    }
  }

  lemma JoinedOne(p: Text)
    ensures Join([p], [COMMA]) == p && SplitN(p, 1) == [p]
  {
  }

  lemma {:induction false} CleanCons(head: Text, tail: Text)
    requires Clean(head, false) && Clean(tail, true)
    ensures Clean(head + [COMMA] + tail, true)
  {
    hide Utf8.ValidUpTo;
    Utf8.ValidAroundAscii(head, COMMA, tail);
  }

  lemma {:induction false} SplitNCons(head: Text, tail: Text, n: nat)
    requires COMMA !in head && n >= 2
    ensures SplitN(head + [COMMA] + tail, n) == [head] + SplitN(tail, n - 1)
  {
    FirstComma(head, tail);
  }

  /** The first comma of a comma-free head followed by a comma is that one. */
  lemma FirstComma(head: Text, tail: Text)
    requires COMMA !in head
    ensures
      var s := head + [COMMA] + tail;
      && IndexOf(s, COMMA) == |head| && s[..|head|] == head && s[|head| + 1..] == tail
      && SplitTag(s) == (head, Some(tail))
  {
    var s := head + [COMMA] + tail;
    assert s[|head|] == COMMA;
    assert forall i :: 0 <= i < |head| ==> s[i] == head[i];
  }

  lemma NoComma(s: Text)
    requires COMMA !in s
    ensures SplitTag(s) == (s, None)
  {
  }

  /** Each known tag is found under its own name, which is capital letters only. */
  lemma TagRoundTrip(t: Tag)
    ensures TagOf(Wire(t)) == Some(t)
    ensures Wire(t) != [] && Clean(Wire(t), false)
  {
    hide TAGS, TagName;
    TagIsKnown(t);
    TagIsCapitals(t);
    TagNamesDiffer(t, FindTag(Wire(t), TAGS));
    Utf8.AsciiIsValid(Wire(t));
  }

  /** The client's name is the standard's. */
  lemma TagTextIs(n: Notification)
    ensures TagName(TagFor(n)) == TagText(n) && Wire(TagFor(n)) == TagOctets(n)
  {
    TagNameIs(n);
    TagTextIsCapitals(n);
  }

  lemma TagNameIs(n: Notification)
    ensures TagName(TagFor(n)) == TagText(n)
  {
  }

  lemma TagTextIsCapitals(n: Notification)
    ensures TagText(n) != "" && forall i :: 0 <= i < |TagText(n)| ==> 'A' <= TagText(n)[i] <= 'Z'
  {
    hide TagFor;
    TagNameIs(n);
    TagIsCapitals(TagFor(n));
  }

  /** A notification of each kind. */
  function Example(t: Tag): (n: Notification)
    ensures TagFor(n) == t
  {
    match t
    case U => Update(1, 1, []) case SUBOK => SubscriptionOk(1, 1, 1) case SUBCMD => SubscriptionCommandOk(1, 1, 1, 1, 1)
    case UNSUB => Unsubscribed(1) case EOS => EndOfSnapshot(1, 1) case CS => ClearSnapshot(1, 1)
    case OV => Overflow(1, 1, 1) case CONF => Reconfigured(1, Unlimited, Filtered)
    case MSGDONE => MessageDone(Unspecified, 1, []) case MSGFAIL => MessageFailed(Unspecified, 1, 1, [])
    case CONS => ConstraintsChanged(Unmanaged) case SYNC => Sync(1) case CLIENTIP => ClientIp([])
    case SERVNAME => ServerName([]) case PROG => Progressive(1) case NOOP => NoOp([]) case PROBE => Probe
    case LOOP => Loop(1) case END => End(1, []) case CONOK => ConnectionOk([], 1, 1, None)
    case CONERR => ConnectionError(1, []) case REQOK => RequestOk(None) case REQERR => RequestError([], 1, [])
    case ERROR => Error(1, []) case WSOK => WsOk
  }

  /** A tag is known exactly when TLCP has it, and then as that of the notifications that have it. */
  lemma TagsExactly(b: Text)
    ensures forall n :: TagOf(b) == Some(TagFor(n)) <==> b == TagOctets(n)
    ensures TagOf(b).None? <==> forall n :: b != TagOctets(n)
  {
    hide TagOf, TagFor, TagOctets, Wire, Example;
    forall n ensures TagOf(b) == Some(TagFor(n)) <==> b == TagOctets(n) {
      TagTextIs(n);
      TagRoundTrip(TagFor(n));
      TagIsItsWire(b);
    }
    if TagOf(b).Some? {
      var n := Example(TagOf(b).value);
      assert b == TagOctets(n);
    }
  }

  lemma TagIsItsWire(b: Text)
    ensures TagOf(b).Some? ==> Wire(TagOf(b).value) == b
  {
  }

  lemma TagIsKnown(t: Tag)
    ensures t in TAGS
  {
    var k := match t
      case U => 0 case SUBOK => 1 case SUBCMD => 2 case UNSUB => 3 case EOS => 4 case CS => 5 case OV => 6
      case CONF => 7 case MSGDONE => 8 case MSGFAIL => 9 case CONS => 10 case SYNC => 11 case CLIENTIP => 12
      case SERVNAME => 13 case PROG => 14 case NOOP => 15 case PROBE => 16 case LOOP => 17 case END => 18
      case CONOK => 19 case CONERR => 20 case REQOK => 21 case REQERR => 22 case ERROR => 23 case WSOK => 24;
    assert TAGS[k] == t;
  }

  lemma TagIsCapitals(t: Tag)
    ensures TagName(t) != "" && forall i :: 0 <= i < |TagName(t)| ==> 'A' <= TagName(t)[i] <= 'Z'
  {
    hide TAGS;
  }

  lemma TagNamesDiffer(t: Tag, u: Option<Tag>)
    requires u.Some? ==> Wire(u.value) == Wire(t)
    ensures u.Some? ==> u.value == t
  {
    if u.Some? {
      hide TagName;
      var a, b := TagName(t), TagName(u.value);
      assert |Wire(t)| == |Wire(u.value)|;
      forall i | 0 <= i < |a|
        ensures a[i] == b[i]
      {
        assert Wire(t)[i] == Wire(u.value)[i];
      }
      assert a == b;
      SameName(t, u.value);
    }
  }

  lemma SameName(t: Tag, u: Tag)
    requires TagName(t) == TagName(u)
    ensures t == u
  {
  }

  lemma ArgumentsAreClean(n: Notification, choice: Choice)
    requires Printable(n) && Lawful(choice)
    ensures AllClean(PrintArguments(ArgumentsOf(n), choice))
  {
    hide ArgumentsOf, PrintArgument, Printable, Clean, Lawful;
    var p := PrintArguments(ArgumentsOf(n), choice);
    forall i | 0 <= i < |p| ensures Clean(p[i], i == |p| - 1) {
      PrintedArgumentIsClean(n, choice, i);
    }
  }

  /** A tag and clean arguments make a clean line. */
  lemma JoinedIsClean(tag: Text, p: seq<Text>)
    requires tag != [] && Clean(tag, false) && AllClean(p)
    ensures Join([tag] + p, [COMMA]) != [] && Clean(Join([tag] + p, [COMMA]), true)
  {
    hide Clean, Join, AllClean;
    if p == [] {
      JoinedOne(tag);
      CleanLast(tag);
      assert [tag] + p == [tag];
    } else {
      JoinedArguments(p);
      JoinCons(tag, p, [COMMA]);
      CleanCons(tag, Join(p, [COMMA]));
    }
  }

  lemma PrintedIsClean(n: Notification, choice: Choice)
    requires Printable(n) && Lawful(choice)
    ensures AllClean(PrintArguments(ArgumentsOf(n), choice))
    ensures Print(n, choice) != [] && Clean(Print(n, choice), true)
  {
    hide Wire, ArgumentsOf, PrintArguments, Printable, Clean, Lawful, Join, AllClean;
    ArgumentsAreClean(n, choice);
    TagRoundTrip(TagFor(n));
    TagTextIs(n);
    JoinedIsClean(Wire(TagFor(n)), PrintArguments(ArgumentsOf(n), choice));
  }

  lemma CleanLast(p: Text)
    requires Clean(p, false)
    ensures Clean(p, true)
  {
  }

  lemma CleanStrips(line: Text)
    requires Clean(line, true)
    ensures StripTerminator(line) == line
  {
    hide Utf8.ValidUpTo;
    assert line != [] ==> line[|line| - 1] in line;
  }

  lemma JoinedSplits(tag: Text, p: seq<Text>)
    requires COMMA !in tag
    ensures SplitTag(Join([tag] + p, [COMMA])) == (tag, if p == [] then None else Some(Join(p, [COMMA])))
  {
    if p == [] {
      assert [tag] + p == [tag];
      JoinedOne(tag);
      NoComma(tag);
    } else {
      hide Join, SplitTag;
      JoinCons(tag, p, [COMMA]);
      FirstComma(tag, Join(p, [COMMA]));
    }
  }

  /** The line splits back into its tag and its arguments. */
  lemma PrintedSplits(n: Notification, choice: Choice)
    requires Printable(n) && Lawful(choice)
    ensures StripTerminator(Print(n, choice)) == Print(n, choice)
    ensures
      var p := PrintArguments(ArgumentsOf(n), choice);
      SplitTag(Print(n, choice))
      == (Wire(TagFor(n)), if p == [] then None else Some(Join(p, [COMMA])))
  {
    hide Utf8.ValidUpTo, Wire, ArgumentsOf, PrintArguments, Printable, Lawful, StripTerminator, SplitTag, Join,
      TagOctets;
    PrintedIsClean(n, choice);
    CleanStrips(Print(n, choice));
    TagTextIs(n);
    TagRoundTrip(TagFor(n));
    JoinedSplits(Wire(TagFor(n)), PrintArguments(ArgumentsOf(n), choice));
  }

  /** The literals of the classified arguments read back as what they stand for. */
  lemma FrequencyRoundTrip(f: MaxFrequency)
    requires FrequencyOk(f)
    ensures ParseMaxFrequency(FrequencyText(f)) == f
  {
    hide IsDecimal;
    if f.Limited? {
      DecimalIsPlain(f.updatesPerSecond);
    }
  }

  lemma BandwidthRoundTrip(b: Bandwidth)
    requires BandwidthOk(b)
    ensures ParseBandwidth(BandwidthText(b)) == b
  {
    hide IsDecimal;
    LiteralsDiffer();
    if b.LimitedBandwidth? {
      DecimalIsPlain(b.kbps);
    }
  }

  lemma FilteringRoundTrip(m: FilteringMode)
    requires FilteringOk(m)
    ensures ParseFiltering(FilteringText(m)) == m
  {
    LiteralsDiffer();
  }

  lemma LiteralsDiffer()
    ensures UNLIMITED != UNMANAGED && FILTERED != UNFILTERED
    ensures UNLIMITED[0] == UNMANAGED[0] == 117
  {
    assert UNLIMITED[2] != UNMANAGED[2];
  }

  /** Each wire form reads back as its argument. */
  ghost predicate Reads(a: seq<Argument>, p: seq<Text>) {
    |p| == |a|
    && forall i :: 0 <= i < |a| ==> ReadsAs(p[i], a[i])
  }

  ghost predicate ReadsAs(p: Text, a: Argument) {
    && (a.Escaped? ==> Decode(p) == Ok(a.text))
    && (a.Number? && 0 <= a.value <= U32_MAX ==> ParseUnsigned(p, U32_MAX) == Some(a.value))
    && (a.Number? && 0 <= a.value <= U64_MAX ==> ParseUnsigned(p, U64_MAX) == Some(a.value))
    && (a.Number? && -I64_MAX - 1 <= a.value <= I64_MAX ==> ParseI64(p) == Some(a.value))
    && (a.Raw? ==> p == a.values)
  }

  predicate AboutSubscription(n: Notification) {
    n.Update? || n.SubscriptionOk? || n.SubscriptionCommandOk? || n.Unsubscribed? || n.EndOfSnapshot?
    || n.ClearSnapshot? || n.Overflow? || n.Reconfigured?
  }

  predicate AboutMessage(n: Notification) {
    n.MessageDone? || n.MessageFailed? || n.RequestError? || n.RequestOk? || n.Error? || n.ConnectionError?
    || n.End? || n.ConnectionOk?
  }

  /** Each tag's arm reads its own arguments back. */
  lemma InterpretSubscription(n: Notification, p: seq<Text>)
    requires AboutSubscription(n) && Unambiguous(n)
    requires Reads(ArgumentsOf(n), p) && |p| == Arity(TagFor(n))
    ensures Interpret(TagFor(n), p) == Ok(n)
  {
    hide ParseUnsigned, ParseI64, Decode, Wire, FrequencyOk, FilteringOk, BandwidthOk,
      ParseMaxFrequency, ParseFiltering, ParseBandwidth, FrequencyText, FilteringText, BandwidthText;
    assert forall i :: 0 <= i < |p| ==> ReadsAs(p[i], ArgumentsOf(n)[i]);
    if n.Reconfigured? {
      FrequencyRoundTrip(n.maxFrequency);
      FilteringRoundTrip(n.filtering);
    }
  }

  lemma InterpretMessage(n: Notification, p: seq<Text>)
    requires AboutMessage(n) && Unambiguous(n)
    requires Reads(ArgumentsOf(n), p) && |p| == Arity(TagFor(n))
    ensures Interpret(TagFor(n), p) == Ok(n)
  {
    hide ParseUnsigned, ParseI64, Decode, Wire, FrequencyOk, FilteringOk, BandwidthOk,
      ParseMaxFrequency, ParseFiltering, ParseBandwidth, FrequencyText, FilteringText, BandwidthText;
    assert forall i :: 0 <= i < |p| ==> ReadsAs(p[i], ArgumentsOf(n)[i]);
  }

  lemma InterpretSession(n: Notification, p: seq<Text>)
    requires !AboutSubscription(n) && !AboutMessage(n) && Unambiguous(n)
    requires Reads(ArgumentsOf(n), p) && |p| == Arity(TagFor(n))
    ensures Interpret(TagFor(n), p) == Ok(n)
  {
    hide ParseUnsigned, ParseI64, Decode, Wire, FrequencyOk, FilteringOk, BandwidthOk,
      ParseMaxFrequency, ParseFiltering, ParseBandwidth, FrequencyText, FilteringText, BandwidthText;
    assert forall i :: 0 <= i < |p| ==> ReadsAs(p[i], ArgumentsOf(n)[i]);
    if n.ConstraintsChanged? {
      BandwidthRoundTrip(n.bandwidth);
    }
  }

  lemma InterpretPrinted(n: Notification, choice: Choice)
    requires Printable(n) && Lawful(choice)
    requires |ArgumentsOf(n)| == Arity(TagFor(n))
    ensures Interpret(TagFor(n), PrintArguments(ArgumentsOf(n), choice)) == Ok(n)
  {
    hide Interpret, ReadsAs, PrintArgument, Unambiguous;
    var a := ArgumentsOf(n);
    var p := PrintArguments(a, choice);
    forall i | 0 <= i < |a|
      ensures ReadsAs(p[i], a[i])
    {
      LawfulForArgument(choice, i, i == |a| - 1);
      ReadArgument(a[i], ForArgument(choice, i, i == |a| - 1));
    }
    if AboutSubscription(n) {
      InterpretSubscription(n, p);
    } else if AboutMessage(n) {
      InterpretMessage(n, p);
    } else {
      InterpretSession(n, p);
    }
  }

  lemma ReadArgument(a: Argument, hand: Hand)
    requires ArgumentIsText(a) && Never(hand, Escaping.PERCENT)
    ensures ReadsAs(PrintArgument(a, hand), a)
  {
    hide Utf8.ValidUpTo, EscapeText, PrintNat, ParseUnsigned, ParseI64;
    match a
    case Number(value) =>
      if 0 <= value <= U32_MAX {
        UnsignedRoundTrip(value, U32_MAX);
      }
      if 0 <= value <= U64_MAX {
        UnsignedRoundTrip(value, U64_MAX);
      }
      if -I64_MAX - 1 <= value <= I64_MAX {
        SignedRoundTrip(value);
      }
    case Escaped(text) =>
      DecodePrinted(text, hand);
    case Raw(_) =>
  }

  /** Whatever the server chooses to leave unescaped, a printed notification is parsed back as itself. */
  lemma ParsePrinted(n: Notification, choice: Choice)
    requires Printable(n) && Lawful(choice)
    ensures ParseLine(Print(n, choice)) == Ok(n)
  {
    hide Utf8.ValidUpTo, Wire, Interpret, Print, PrintArguments, TagOf, Join, SplitN, StripTerminator, SplitTag;
    var a := ArgumentsOf(n);
    var p := PrintArguments(a, choice);
    PrintedSplits(n, choice);
    PrintedIsClean(n, choice);
    TagRoundTrip(TagFor(n));
    if n == RequestOk(None) {
      assert p == [];
    } else {
      assert |a| == Arity(TagFor(n));
      if p != [] {
        JoinedArguments(p);
      }
      InterpretPrinted(n, choice);
      assert p == [] ==> [] == p;
    }
  }

  /** At most one terminator goes: CR-LF, or LF behind anything but CR, or CR, or none behind neither. */
  lemma TerminatorStripped(body: Text, terminator: Text)
    requires terminator == Ascii("\r\n") || terminator == Ascii("\n") || terminator == Ascii("\r") || terminator == []
    requires body != [] && terminator == [] ==> body[|body| - 1] as char !in {'\r', '\n'}
    requires body != [] && terminator == Ascii("\n") ==> body[|body| - 1] as char != '\r'
    ensures StripTerminator(body + terminator) == body
  {
    var line := body + terminator;
    assert line[..|body|] == body && line[|body|..] == terminator;
    if terminator == Ascii("\r\n") {
      assert line[|line| - 2..] == [CR, LF];
    } else if terminator == [] {
      assert line == body;
      EndsOtherwise(line);
    } else {
      assert line[|line| - 1] == terminator[0];
      assert |line| >= 2 ==> line[|line| - 2] == body[|body| - 1];
    }
  }

  lemma EndsOtherwise(line: Text)
    requires line != [] ==> line[|line| - 1] as char !in {'\r', '\n'}
    ensures StripTerminator(line) == line
  {
  }

  /** A terminator that the line kept, if any, is not part of what is parsed. */
  lemma ParseTerminated(n: Notification, choice: Choice, terminator: Text)
    requires Printable(n) && Lawful(choice)
    requires terminator == Ascii("\r\n") || terminator == Ascii("\n") || terminator == Ascii("\r") || terminator == []
    ensures ParseLine(Print(n, choice) + terminator) == Ok(n)
  {
    hide Utf8.ValidUpTo, Interpret, Print, TagOf, SplitTag, Arguments, StripTerminator, Printable, Lawful;
    var line := Print(n, choice);
    PrintedIsClean(n, choice);
    assert line[|line| - 1] in line;
    TerminatorStripped(line, terminator);
    TerminatorStripped(line, []);
    assert line + [] == line;
    ParsePrinted(n, choice);
  }

  // ---- what can be parsed -------------------------------------------------------------------------------------------

  /** Decoded arguments are text. */
  lemma DecodedIsText(p: Text)
    requires Decode(p).Ok?
    ensures Utf8.Valid(Decode(p).value)
  {
  }

  /** What the parser yields for a line of text is again text, and what it classified it classified exactly. */
  lemma ParsedIsUnambiguous(line: Text)
    requires Utf8.Valid(line)
    requires ParseLine(line).Ok?
    ensures Unambiguous(ParseLine(line).value) && AllText(ParseLine(line).value)
  {
    hide Utf8.ValidUpTo, TagOf, Interpret, Arguments, AllText, Unambiguous;
    var inner := StripTerminator(line);
    StrippedIsText(line);
    var (tag, rest) := SplitTag(inner);
    var t := TagOf(tag).value;
    if t == REQOK && rest.None? {
      ParsedRequestOk();
    } else {
      if rest.Some? {
        Utf8.ValidAroundAscii(tag, COMMA, rest.value);
        assert inner == tag + [COMMA] + rest.value;
      }
      ArgumentsAreText(tag, rest, Arity(t));
      InterpretedIsUnambiguous(t, Arguments(tag, rest, Arity(t)).value);
    }
  }

  lemma ParsedRequestOk()
    ensures Unambiguous(RequestOk(None)) && AllText(RequestOk(None))
  {
  }

  lemma StrippedIsText(line: Text)
    requires Utf8.Valid(line)
    ensures Utf8.Valid(StripTerminator(line))
  {
    hide Utf8.ValidUpTo;
    var s := StripTerminator(line);
    assert line == s + line[|s|..];
    Utf8.ValidCut(s, line[|s|..]);
  }

  lemma ArgumentsAreText(tag: Text, rest: Option<Text>, n: nat)
    requires rest.Some? ==> Utf8.Valid(rest.value)
    requires Arguments(tag, rest, n).Ok?
    ensures forall i :: 0 <= i < n ==> Utf8.Valid(Arguments(tag, rest, n).value[i])
  {
    hide Utf8.ValidUpTo;
    if rest.Some? && n > 0 {
      PiecesAreText(rest.value, n);
    }
  }

  lemma {:induction false} PiecesAreText(s: Text, n: nat)
    requires Utf8.Valid(s) && n > 0
    ensures forall i :: 0 <= i < |SplitN(s, n)| ==> Utf8.Valid(SplitN(s, n)[i])
    decreases n
  {
    hide Utf8.ValidUpTo;
    var k := IndexOf(s, COMMA);
    if n > 1 && k < |s| {
      assert s == s[..k] + [COMMA] + s[k + 1..];
      Utf8.ValidAroundAscii(s[..k], COMMA, s[k + 1..]);
      PiecesAreText(s[k + 1..], n - 1);
    }
  }

  ghost predicate DecodesToText(a: seq<Text>) {
    forall i :: 0 <= i < |a| ==> Utf8.Valid(a[i]) && (Decode(a[i]).Ok? ==> Utf8.Valid(Decode(a[i]).value))
  }

  predicate SubscriptionTag(t: Tag) {
    t.U? || t.SUBOK? || t.SUBCMD? || t.UNSUB? || t.EOS? || t.CS? || t.OV? || t.CONF?
  }

  predicate MessageTag(t: Tag) {
    t.MSGDONE? || t.MSGFAIL? || t.CONOK?
  }

  predicate ErrorTag(t: Tag) {
    t.REQERR? || t.REQOK? || t.ERROR? || t.CONERR? || t.END?
  }

  lemma SubscriptionIsUnambiguous(t: Tag, a: seq<Text>)
    requires |a| == Arity(t) && SubscriptionTag(t)
    requires DecodesToText(a)
    requires Interpret(t, a).Ok?
    ensures Unambiguous(Interpret(t, a).value) && AllText(Interpret(t, a).value)
  {
    hide Utf8.ValidUpTo, Decode, IsDecimal, ParseUnsigned, ParseI64, Wire, Ascii;
    LiteralsAreText();
  }

  lemma MessageIsUnambiguous(t: Tag, a: seq<Text>)
    requires |a| == Arity(t) && MessageTag(t)
    requires DecodesToText(a)
    requires Interpret(t, a).Ok?
    ensures Unambiguous(Interpret(t, a).value) && AllText(Interpret(t, a).value)
  {
    hide Utf8.ValidUpTo, Decode, IsDecimal, ParseUnsigned, ParseI64, Wire, Ascii;
    LiteralsAreText();
  }

  lemma ErrorIsUnambiguous(t: Tag, a: seq<Text>)
    requires |a| == Arity(t) && ErrorTag(t)
    requires DecodesToText(a)
    requires Interpret(t, a).Ok?
    ensures Unambiguous(Interpret(t, a).value) && AllText(Interpret(t, a).value)
  {
    hide Utf8.ValidUpTo, Decode, IsDecimal, ParseUnsigned, ParseI64, Wire, Ascii;
  }

  lemma SessionIsUnambiguous(t: Tag, a: seq<Text>)
    requires |a| == Arity(t) && !SubscriptionTag(t) && !MessageTag(t) && !ErrorTag(t)
    requires DecodesToText(a)
    requires Interpret(t, a).Ok?
    ensures Unambiguous(Interpret(t, a).value) && AllText(Interpret(t, a).value)
  {
    hide Utf8.ValidUpTo, Decode, IsDecimal, ParseUnsigned, ParseI64, Wire, Ascii;
    LiteralsAreText();
  }

  lemma InterpretedIsUnambiguous(t: Tag, a: seq<Text>)
    requires |a| == Arity(t) && forall i :: 0 <= i < |a| ==> Utf8.Valid(a[i])
    requires Interpret(t, a).Ok?
    ensures Unambiguous(Interpret(t, a).value) && AllText(Interpret(t, a).value)
  {
    hide Utf8.ValidUpTo, Decode, Interpret, Unambiguous, AllText;
    forall i | 0 <= i < |a|
      ensures Decode(a[i]).Ok? ==> Utf8.Valid(Decode(a[i]).value)
    {
      if Decode(a[i]).Ok? {
        DecodedIsText(a[i]);
      }
    }
    if SubscriptionTag(t) {
      SubscriptionIsUnambiguous(t, a);
    } else if MessageTag(t) {
      MessageIsUnambiguous(t, a);
    } else if ErrorTag(t) {
      ErrorIsUnambiguous(t, a);
    } else {
      SessionIsUnambiguous(t, a);
    }
  }

  lemma LiteralsAreText()
    ensures Utf8.Valid([STAR]) && Utf8.Valid(UNLIMITED) && Utf8.Valid(UNMANAGED)
    ensures Utf8.Valid(FILTERED) && Utf8.Valid(UNFILTERED)
  {
    hide Utf8.ValidUpTo;
    Utf8.AsciiIsValid([STAR]);
    Utf8.AsciiIsValid(UNLIMITED);
    Utf8.AsciiIsValid(UNMANAGED);
    Utf8.AsciiIsValid(FILTERED);
    Utf8.AsciiIsValid(UNFILTERED);
  }
}
