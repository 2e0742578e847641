/** Python's string operations that the enrichers apply to URLs and labels:
    `sep.join`, `s.split(c)`, `s.rsplit(c, maxsplit)` and the substring test
    behind `k in s`. */
module Text {

  /** `k in s` for two strings: `k` occurs somewhere in `s`. */
  predicate IsSubstring(k: string, s: string)
    decreases |s|
  {
    k <= s || (s != [] && IsSubstring(k, s[1..]))
  }

  /** The position of the last `c` in `s`, or -1 when there is none
      (Python's `s.rfind(c)`). */
  function LastIndexOf(s: string, c: char): (r: int)
    ensures -1 <= r < |s|
    ensures r >= 0 ==> s[r] == c
    ensures forall j :: r < j < |s| ==> s[j] != c
  {
    if s == [] then -1
    else if s[|s| - 1] == c then |s| - 1
    else LastIndexOf(s[..|s| - 1], c)
  }

  /** The position of the last `c` is the one after which no `c` occurs. */
  lemma {:induction false} LastIndexOfAt(s: string, c: char, k: nat)
    requires k < |s| && s[k] == c
    requires forall j :: k < j < |s| ==> s[j] != c
    ensures LastIndexOf(s, c) == k
    decreases |s|
  {
    if k < |s| - 1 {
      LastIndexOfAt(s[..|s| - 1], c, k);
    }
  }

  /** `sep.join(pieces)`. */
  function Join(pieces: seq<string>, sep: string): string
  {
    if |pieces| == 0 then ""
    else if |pieces| == 1 then pieces[0]
    else Join(pieces[..|pieces| - 1], sep) + sep + pieces[|pieces| - 1]
  }

  /** `s.split(c)`: the pieces between the occurrences of `c`, so that joining
      them with `c` gives `s` back and no piece contains `c`. */
  function Split(s: string, c: char): (r: seq<string>)
    ensures |r| >= 1
    ensures forall i :: 0 <= i < |r| ==> c !in r[i]
    ensures Join(r, [c]) == s
    decreases |s|
  {
    var k := LastIndexOf(s, c);
    if k < 0 then [s]
    else
      var front := Split(s[..k], c);
      assert (front + [s[k + 1..]])[..|front|] == front;
      assert s == s[..k] + [c] + s[k + 1..];
      front + [s[k + 1..]]
  }

  /** `s.rsplit(c, maxsplit)`: at most `maxsplit` cuts, taken from the right.
      Every piece but the first is free of `c`; the first is free of `c` too
      unless all `maxsplit` cuts were used. */
  function RSplit(s: string, c: char, maxsplit: nat): (r: seq<string>)
    ensures 1 <= |r| <= maxsplit + 1
    ensures forall i :: 0 < i < |r| ==> c !in r[i]
    ensures |r| < maxsplit + 1 ==> c !in r[0]
    ensures Join(r, [c]) == s
    decreases maxsplit
  {
    var k := LastIndexOf(s, c);
    if maxsplit == 0 || k < 0 then [s]
    else
      var front := RSplit(s[..k], c, maxsplit - 1);
      assert (front + [s[k + 1..]])[..|front|] == front;
      assert s == s[..k] + [c] + s[k + 1..];
      front + [s[k + 1..]]
  }

  /** The last piece of `s.split(c)` is the text after the last `c`, and the
      text before it is either empty or ends in that `c`. */
  lemma SplitLastIsTail(s: string, c: char)
    ensures var r := Split(s, c);
            var k := LastIndexOf(s, c);
            r[|r| - 1] == s[k + 1..] && c !in s[k + 1..] &&
            s == s[..k + 1] + r[|r| - 1] && (k + 1 == 0 || s[k] == c)
  {
  }

  /** Joining three pieces puts the separator between each pair. */
  lemma JoinThree(a: string, b: string, d: string, sep: string)
    ensures Join([a, b, d], sep) == a + sep + b + sep + d
  {
    assert [a, b, d][..2] == [a, b];
    assert [a, b][..1] == [a];
    assert Join([a, b], sep) == a + sep + b;
    assert Join([a, b, d], sep) == Join([a, b], sep) + sep + d;
  }

  /** When `s.rsplit(c, 2)` makes three pieces, `s` is the first piece
      followed by the other two, each introduced by `c`. */
  lemma RSplitTwo(s: string, c: char)
    ensures var r := RSplit(s, c, 2);
            |r| == 3 ==> s == r[0] + [c] + r[1] + [c] + r[2]
  {
    var r := RSplit(s, c, 2);
    if |r| == 3 {
      assert r == [r[0], r[1], r[2]];
      JoinThree(r[0], r[1], r[2], [c]);
    }
  }

  /** The first piece starts the joined string. */
  lemma {:induction false} JoinFirst(pieces: seq<string>, sep: string)
    requires |pieces| >= 1
    ensures pieces[0] <= Join(pieces, sep)
    decreases |pieces|
  {
    if |pieces| > 1 {
      var front := pieces[..|pieces| - 1];
      JoinFirst(front, sep);
      assert front[0] == pieces[0];
    }
  }
}
