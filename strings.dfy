/** String operations of Python's `str` that the core relies on. */
module Strings {
  import opened PyValues

  /** `str.upper()` restricted to ASCII letters, which is all the field names use. */
  function UpperChar(ch: char): char {
    if 'a' <= ch <= 'z' then (ch as int - 32) as char else ch
  }

  function Upper(s: string): (r: string)
    ensures |r| == |s|
  {
    seq(|s|, i requires 0 <= i < |s| => UpperChar(s[i]))
  }

  /** The position of the first occurrence of `c` in `s`, as `str.find` gives it. */
  function IndexOf(s: string, c: char): (r: Option<nat>)
    ensures r.Some? ==> r.value < |s| && s[r.value] == c && c !in s[..r.value]
    ensures r.None? <==> c !in s
  {
    if s == [] then None
    else if s[0] == c then Some(0)
    else match IndexOf(s[1..], c)
      case None => None
      case Some(i) =>
        assert s[..i + 1] == [s[0]] + s[1..][..i];
        Some(i + 1)
  }

  /** `s.split(c, maxsplit=1)`: the text before the first `c` and the text after it. */
  function SplitFirst(s: string, c: char): (r: Option<(string, string)>)
    ensures r.None? <==> c !in s
    ensures r.Some? ==> s == r.value.0 + [c] + r.value.1 && c !in r.value.0
  {
    match IndexOf(s, c)
    case None => None
    case Some(i) =>
      assert s == s[..i] + [c] + s[i + 1..];
      Some((s[..i], s[i + 1..]))
  }

  /** Splitting at the first `c` undoes gluing two parts with `c` whenever the first part has no `c`. */
  lemma {:induction false} SplitFirstOfJoined(a: string, b: string, c: char)
    requires c !in a
    ensures SplitFirst(a + [c] + b, c) == Some((a, b))
  {
    var s := a + [c] + b;
    assert s[|a|] == c;
    var i := IndexOf(s, c).value;
    assert i == |a|;
    assert s[..i] == a;
    assert s[i + 1..] == b;
  }

  /** `sep.join(xs)`. */
  function Join(xs: seq<string>, sep: string): string {
    if xs == [] then ""
    else if |xs| == 1 then xs[0]
    else xs[0] + sep + Join(xs[1..], sep)
  }

  /** `s.split(c)` for a one-character separator. */
  function SplitOn(s: string, c: char): (r: seq<string>)
    ensures |r| > 0
    decreases |s|
  {
    match SplitFirst(s, c)
    case None => [s]
    case Some((a, b)) => [a] + SplitOn(b, c)
  }

  /** Splitting a joined list on its one-character separator gives the list back. */
  lemma {:induction false} SplitOnJoin(xs: seq<string>, c: char)
    requires |xs| > 0
    requires forall k :: 0 <= k < |xs| ==> c !in xs[k]
    ensures SplitOn(Join(xs, [c]), c) == xs
  {
    if |xs| == 1 {
      assert SplitFirst(xs[0], c).None?;
    } else {
      SplitFirstOfJoined(xs[0], Join(xs[1..], [c]), c);
      SplitOnJoin(xs[1..], c);
      assert [xs[0]] + xs[1..] == xs;
    }
  }
}
