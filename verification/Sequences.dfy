/** Result values, octets, and the splitting and joining that every text format of the client is built on. */
module Sequences {

  datatype Option<+T> = None | Some(value: T)

  /** The source's `Result`, usable with `:-`. */
  datatype Result<+T, +E> = Ok(value: T) | Err(error: E) {
    predicate IsFailure() {
      Err?
    }

    function PropagateFailure<U>(): Result<U, E>
      requires Err?
    {
      Err(error)
    }

    function Extract(): T
      requires Ok?
    {
      value
    }
  }

  type Byte = b: int | 0 <= b < 256

  const LF: Byte := 10
  const CR: Byte := 13

  /** The octets of an ASCII literal. */
  function Ascii(s: string): (b: seq<Byte>)
    requires forall i :: 0 <= i < |s| ==> s[i] < 128 as char
    ensures |b| == |s|
    ensures forall i :: 0 <= i < |s| ==> b[i] == s[i] as int
  {
    seq(|s|, i requires 0 <= i < |s| => s[i] as int)
  }

  /** The first index at or after `from` that holds `x`, or `|s|` when there is none. */
  function IndexFrom<T(==)>(s: seq<T>, x: T, from: nat): (k: nat)
    requires from <= |s|
    ensures from <= k <= |s|
    ensures k < |s| ==> s[k] == x
    ensures forall i :: from <= i < k ==> s[i] != x
    decreases |s| - from
  {
    if from == |s| || s[from] == x then from else IndexFrom(s, x, from + 1)
  }

  function IndexOf<T(==)>(s: seq<T>, x: T): (k: nat)
    ensures k <= |s|
    ensures k < |s| ==> s[k] == x
    ensures forall i :: 0 <= i < k ==> s[i] != x
  {
    IndexFrom(s, x, 0)
  }

  /** The pieces between the occurrences of `sep`: always at least one. */
  function SplitOn<T(==)>(s: seq<T>, sep: T): (parts: seq<seq<T>>)
    ensures |parts| >= 1
    decreases |s|
  {
    var k := IndexOf(s, sep);
    if k == |s| then [s] else [s[..k]] + SplitOn(s[k + 1..], sep)
  }

  /** The pieces with `sep` between each two of them. */
  function Join<T>(parts: seq<seq<T>>, sep: seq<T>): seq<T> {
    if parts == [] then []
    else if |parts| == 1 then parts[0]
    else parts[0] + sep + Join(parts[1..], sep)
  }

  /** Splitting a piece that holds no separator, followed by a separator, peels off exactly that piece. */
  lemma {:induction false} SplitOnCons<T>(head: seq<T>, sep: T, tail: seq<T>)
    requires sep !in head
    ensures SplitOn(head + [sep] + tail, sep) == [head] + SplitOn(tail, sep)
  {
    var s := head + [sep] + tail;
    var k := IndexOf(s, sep);
    assert s[|head|] == sep;
    assert forall i :: 0 <= i < |head| ==> s[i] == head[i];
    assert s[..k] == head && s[k + 1..] == tail;
  }

  /** The first piece, and what is left of the text behind it. */
  lemma {:induction false} SplitOnStep<T>(s: seq<T>, sep: T)
    ensures sep in s ==>
      var k := IndexOf(s, sep);
      k < |s| && s == s[..k] + [sep] + s[k + 1..] && sep !in s[..k]
      && SplitOn(s, sep) == [s[..k]] + SplitOn(s[k + 1..], sep)
    ensures sep !in s ==> SplitOn(s, sep) == [s]
  {
    var k := IndexOf(s, sep);
    if k < |s| {
      assert s == s[..k] + [sep] + s[k + 1..];
    }
  }

  lemma {:induction false} PiecesHoldNoSeparator<T>(s: seq<T>, sep: T)
    ensures Separable(SplitOn(s, sep), sep)
    decreases |s|
  {
    SplitOnStep(s, sep);
    if sep in s {
      PiecesHoldNoSeparator(s[IndexOf(s, sep) + 1..], sep);
    }
  }

  lemma {:induction false} JoinCons<T>(head: seq<T>, rest: seq<seq<T>>, sep: seq<T>)
    requires rest != []
    ensures Join([head] + rest, sep) == head + sep + Join(rest, sep)
  {
    assert ([head] + rest)[1..] == rest;
  }

  /** No piece holds the separator. */
  predicate Separable<T(==)>(parts: seq<seq<T>>, sep: T) {
    forall i :: 0 <= i < |parts| ==> sep !in parts[i]
  }

  /** Joining is undone by splitting, as long as no piece holds the separator. */
  lemma {:induction false} SplitJoin<T>(parts: seq<seq<T>>, sep: T)
    requires |parts| >= 1
    requires Separable(parts, sep)
    ensures SplitOn(Join(parts, [sep]), sep) == parts
  {
    var head, rest := parts[0], parts[1..];
    if rest == [] {
      SplitOnStep(head, sep);
      assert parts == [head];
    } else {
      SplitJoin(rest, sep);
      SplitOnCons(head, sep, Join(rest, [sep]));
      assert parts == [head] + rest;
    }
  }

  /** Splitting is undone by joining. */
  lemma {:induction false} JoinSplit<T>(s: seq<T>, sep: T)
    ensures Join(SplitOn(s, sep), [sep]) == s
    decreases |s|
  {
    SplitOnStep(s, sep);
    if sep in s {
      var k := IndexOf(s, sep);
      JoinSplit(s[k + 1..], sep);
      JoinCons(s[..k], SplitOn(s[k + 1..], sep), [sep]);
    }
  }

  /** Appending to a text only extends its last piece: what lets a stream be split chunk by chunk. */
  lemma {:induction false} SplitConcat<T>(a: seq<T>, b: seq<T>, sep: T)
    ensures
      var p := SplitOn(a, sep);
      SplitOn(a + b, sep) == p[..|p| - 1] + SplitOn(p[|p| - 1] + b, sep)
    decreases |a|
  {
    hide SplitOn, IndexOf;
    SplitOnStep(a, sep);
    var p := SplitOn(a, sep);
    if sep in a {
      var k := IndexOf(a, sep);
      var head, tail := a[..k], a[k + 1..];
      var rest := SplitOn(tail, sep);
      SplitConcat(tail, b, sep);
      SplitOnCons(head, sep, tail + b);
      Reassociate(head + [sep], tail, b);
      PrependPiece(head, rest, SplitOn(rest[|rest| - 1] + b, sep));
    } else {
      assert p[..0] + SplitOn(a + b, sep) == SplitOn(a + b, sep);
    }
  }

  lemma Reassociate<T>(a: seq<T>, b: seq<T>, c: seq<T>)
    ensures a + b + c == a + (b + c)
  {
  }

  lemma PrependPiece<T>(head: seq<T>, rest: seq<seq<T>>, last: seq<seq<T>>)
    requires rest != []
    ensures
      var p := [head] + rest;
      p[|p| - 1] == rest[|rest| - 1]
      && p[..|p| - 1] + last == [head] + (rest[..|rest| - 1] + last)
  {
  }
}
