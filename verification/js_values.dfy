/**
  The few JavaScript value semantics the dashboard relies on: values that may be
  `null`/`undefined`, string truthiness, the `x || 0` coalescing of numbers, and
  `Array.prototype.join` together with the split that undoes it.
 */
module Js {

  /** A value that may be absent (`null` or `undefined` in the source). */
  datatype Option<+T> = None | Some(value: T)

  /** JavaScript truthiness of a string-or-null value: `null` and `""` are falsy. */
  predicate Truthy(s: Option<string>) {
    s.Some? && s.value != ""
  }

  /** `x || 0` on a nullable number: `null`, `undefined` and `0` all give 0. */
  function OrZero(x: Option<real>): (r: real)
    ensures x.None? ==> r == 0.0
    ensures x.Some? ==> r == x.value
  {
    match x
    case None => 0.0
    case Some(v) => if v == 0.0 then 0.0 else v
  }

  /** The number of characters in all the parts together. */
  function TotalLength(parts: seq<string>): nat
    decreases |parts|
  {
    if |parts| == 0 then 0 else |parts[0]| + TotalLength(parts[1..])
  }

  /**
    `parts.join(sep)` for a one-character separator: the first part comes first,
    and the result holds every part's characters plus one separator between
    each neighbouring pair.
   */
  function Join(parts: seq<string>, sep: char): (joined: string)
    ensures |parts| == 0 ==> joined == ""
    ensures |parts| > 0 ==> parts[0] <= joined
    ensures |parts| > 0 ==> |joined| == TotalLength(parts) + |parts| - 1
    decreases |parts|
  {
    if |parts| == 0 then ""
    else if |parts| == 1 then parts[0]
    else parts[0] + [sep] + Join(parts[1..], sep)
  }

  /** `s.split(sep)` for a one-character separator: always at least one piece. */
  function Split(s: string, sep: char): (pieces: seq<string>)
    ensures |pieces| >= 1
    decreases |s|
  {
    if |s| == 0 then [""]
    else
      var rest := Split(s[1..], sep);
      if s[0] == sep then [""] + rest
      else [[s[0]] + rest[0]] + rest[1..]
  }

  /** No piece contains the separator. */
  predicate FreeOf(parts: seq<string>, sep: char) {
    forall i :: 0 <= i < |parts| ==> sep !in parts[i]
  }

  /** A string without the separator splits into itself. */
  lemma {:induction false} SplitWithoutSeparator(a: string, sep: char)
    requires sep !in a
    ensures Split(a, sep) == [a]
    decreases |a|
  {
    if |a| > 0 {
      SplitWithoutSeparator(a[1..], sep);
      assert [a[0]] + a[1..] == a;
    }
  }

  /** Splitting stops at the first separator. */
  lemma {:induction false} SplitAtFirstSeparator(a: string, b: string, sep: char)
    requires sep !in a
    ensures Split(a + [sep] + b, sep) == [a] + Split(b, sep)
    decreases |a|
  {
    var s := a + [sep] + b;
    if |a| == 0 {
      assert s[1..] == b;
    } else {
      assert s[1..] == a[1..] + [sep] + b;
      SplitAtFirstSeparator(a[1..], b, sep);
      assert [a[0]] + a[1..] == a;
    }
  }

  /** Splitting a join recovers the parts, provided none of them contains the separator. */
  lemma {:induction false} SplitJoin(parts: seq<string>, sep: char)
    requires |parts| >= 1
    requires FreeOf(parts, sep)
    ensures Split(Join(parts, sep), sep) == parts
    decreases |parts|
  {
    assert sep !in parts[0];
    if |parts| == 1 {
      SplitWithoutSeparator(parts[0], sep);
    } else {
      SplitJoin(parts[1..], sep);
      SplitAtFirstSeparator(parts[0], Join(parts[1..], sep), sep);
      assert [parts[0]] + parts[1..] == parts;
    }
  }
}
