/** The handful of Java string operations the plugin relies on. */
module Strings {

  /** `String.endsWith`: `suffix` is a suffix of `s`. */
  predicate EndsWith(s: string, suffix: string) {
    |suffix| <= |s| && s[|s| - |suffix|..] == suffix
  }

  /** The summed lengths of the elements. */
  function TotalLength(xs: seq<string>): nat
    decreases |xs|
  {
    if |xs| == 0 then 0 else |xs[0]| + TotalLength(xs[1..])
  }

  /** `Collectors.joining(sep)`: the elements in order, `sep` between
      neighbours. The result starts with the first element, ends with the
      last, and adds one separator per gap and nothing else. */
  function Join(xs: seq<string>, sep: string): (r: string)
    ensures |xs| > 0 ==> xs[0] <= r && EndsWith(r, xs[|xs| - 1])
    ensures |r| == TotalLength(xs) + (if |xs| == 0 then 0 else (|xs| - 1) * |sep|)
    decreases |xs|
  {
    if |xs| == 0 then ""
    else if |xs| == 1 then xs[0]
    else
      var tail := Join(xs[1..], sep);
      assert xs[1..][|xs[1..]| - 1] == xs[|xs| - 1];
      assert (xs[0] + sep + tail)[|xs[0] + sep + tail| - |tail|..] == tail;
      xs[0] + sep + tail
  }

  /** Splitting at every occurrence of `c`, keeping empty pieces. It is the
      reading a consumer of a comma-joined configuration value applies. */
  function Split(s: string, c: char): (pieces: seq<string>)
    ensures |pieces| > 0
    decreases |s|
  {
    if |s| == 0 then [""]
    else
      var rest := Split(s[1..], c);
      if s[0] == c then [""] + rest
      else [[s[0]] + rest[0]] + rest[1..]
  }

  /** A string free of the separator splits into itself. */
  lemma {:induction false} SplitWithoutSeparator(x: string, c: char)
    requires c !in x
    ensures Split(x, c) == [x]
  {
    if |x| > 0 {
      SplitWithoutSeparator(x[1..], c);
      assert [x[0]] + x[1..] == x;
    }
  }

  /** A separator-free segment followed by the separator splits off as one piece. */
  lemma {:induction false} SplitAfterSegment(x: string, c: char, rest: string)
    requires c !in x
    ensures Split(x + [c] + rest, c) == [x] + Split(rest, c)
  {
    var s := x + [c] + rest;
    if |x| == 0 {
      assert s == [c] + rest;
      assert s[1..] == rest;
    } else {
      assert s[0] == x[0];
      assert s[1..] == x[1..] + [c] + rest;
      SplitAfterSegment(x[1..], c, rest);
      assert [x[0]] + x[1..] == x;
    }
  }

  /** Joining with a one-character separator is undone by splitting at it,
      provided no element contains the separator. */
  lemma {:induction false} SplitJoin(xs: seq<string>, c: char)
    requires |xs| > 0
    requires forall i :: 0 <= i < |xs| ==> c !in xs[i]
    ensures Split(Join(xs, [c]), c) == xs
  {
    if |xs| == 1 {
      SplitWithoutSeparator(xs[0], c);
    } else {
      SplitJoin(xs[1..], c);
      SplitAfterSegment(xs[0], c, Join(xs[1..], [c]));
      assert [xs[0]] + xs[1..] == xs;
    }
  }

  /** Without that proviso the join loses information: two different lists
      yield the same joined string. */
  lemma JoinConflatesSeparatorInElement()
    ensures Join(["a,b"], ",") == Join(["a", "b"], ",")
  {
    assert Join(["a", "b"], ",") == "a" + "," + Join(["b"], ",");
  }
}
