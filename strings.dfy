/** String helpers shared by the tree renderer and the SDK: Go's and Python's
    ordering of strings, `strings.Repeat`, `strings.Trim` and `%.8s`. */
module Strings {

  /** `a < b` on Go and Python strings: the first differing character decides,
      and a proper prefix sorts first. */
  predicate LexLess(a: string, b: string)
    decreases |a|
  {
    if a == [] then b != []
    else if b == [] then false
    else if a[0] != b[0] then a[0] < b[0]
    else LexLess(a[1..], b[1..])
  }

  /** `a <= b`. */
  predicate LexLe(a: string, b: string) {
    a == b || LexLess(a, b)
  }

  lemma {:induction false} LexLessIrreflexive(a: string)
    ensures !LexLess(a, a)
    decreases |a|
  {
    if a != [] {
      LexLessIrreflexive(a[1..]);
    }
  }

  lemma {:induction false} LexLessTransitive(a: string, b: string, c: string)
    requires LexLess(a, b) && LexLess(b, c)
    ensures LexLess(a, c)
    decreases |a|
  {
    if a != [] && a[0] == b[0] && b[0] == c[0] {
      LexLessTransitive(a[1..], b[1..], c[1..]);
    }
  }

  /** Any two different strings are ordered one way or the other. */
  lemma {:induction false} LexLessTotal(a: string, b: string)
    requires a != b
    ensures LexLess(a, b) || LexLess(b, a)
    decreases |a|
  {
    if a != [] && b != [] && a[0] == b[0] {
      assert a == [a[0]] + a[1..] && b == [b[0]] + b[1..];
      LexLessTotal(a[1..], b[1..]);
    }
  }

  lemma LexLessAsymmetric(a: string, b: string)
    requires LexLess(a, b)
    ensures !LexLess(b, a)
  {
    if LexLess(b, a) {
      LexLessTransitive(a, b, a);
      LexLessIrreflexive(a);
    }
  }

  /** `strings.Repeat(s, n)`. */
  function Repeat(s: string, n: nat): (r: string)
    ensures |r| == n * |s|
  {
    if n == 0 then "" else s + Repeat(s, n - 1)
  }

  /** The cut set `" -:"` that the tree renderer trims from every line. */
  predicate InCutset(c: char) {
    c == ' ' || c == '-' || c == ':'
  }

  /** `strings.TrimLeft(s, " -:")`. */
  function TrimLeft(s: string): (r: string)
    ensures |r| <= |s| && r == s[|s| - |r|..]
    ensures r == [] || !InCutset(r[0])
    ensures forall i :: 0 <= i < |s| - |r| ==> InCutset(s[i])
  {
    if s != [] && InCutset(s[0]) then TrimLeft(s[1..]) else s
  }

  /** `strings.TrimRight(s, " -:")`. */
  function TrimRight(s: string): (r: string)
    ensures |r| <= |s| && r == s[..|r|]
    ensures r == [] || !InCutset(r[|r| - 1])
    ensures forall i :: |r| <= i < |s| ==> InCutset(s[i])
  {
    if s != [] && InCutset(s[|s| - 1]) then TrimRight(s[..|s| - 1]) else s
  }

  /** `strings.Trim(s, " -:")`: drops leading cut-set characters, then
      trailing ones. */
  function Trim(s: string): string
    decreases |s|
  {
    if s != [] && InCutset(s[0]) then Trim(s[1..]) else TrimRight(s)
  }

  /** `Trim` is `TrimLeft` followed by `TrimRight`. */
  lemma {:induction false} TrimBothEnds(s: string)
    ensures Trim(s) == TrimRight(TrimLeft(s))
    decreases |s|
  {
    if s != [] && InCutset(s[0]) {
      TrimBothEnds(s[1..]);
    }
  }

  lemma TrimLeftFixed(s: string)
    requires s == [] || !InCutset(s[0])
    ensures TrimLeft(s) == s
  {
  }

  lemma TrimRightFixed(s: string)
    requires s == [] || !InCutset(s[|s| - 1])
    ensures TrimRight(s) == s
  {
  }

  /** Trimming twice changes nothing more than trimming once. */
  lemma TrimIdempotent(s: string)
    ensures Trim(Trim(s)) == Trim(s)
  {
    TrimBothEnds(s);
    TrimBothEnds(Trim(s));
    var l := TrimLeft(s);
    var r := TrimRight(l);
    if r != [] {
      assert r[0] == l[0];
    }
    TrimLeftFixed(r);
    TrimRightFixed(r);
  }

  /** Trimming keeps a head that already starts with a non-cut-set character,
      and strips a tail made only of cut-set characters. */
  lemma {:induction false} TrimDropsTail(head: string, tail: string)
    requires head != [] && !InCutset(head[0]) && !InCutset(head[|head| - 1])
    requires forall i :: 0 <= i < |tail| ==> InCutset(tail[i])
    ensures Trim(head + tail) == head
    decreases |tail|
  {
    TrimBothEnds(head + tail);
    TrimBothEnds(head);
    TrimLeftFixed(head + tail);
    if tail == [] {
      assert head + tail == head;
      TrimRightFixed(head);
    } else {
      var s := head + tail;
      assert s[..|s| - 1] == head + tail[..|tail| - 1];
      TrimDropsTail(head, tail[..|tail| - 1]);
    }
  }

  /** Trimming keeps a head that does not start with a cut-set character, up
      to and including a non-cut-set character right after it. */
  lemma TrimKeepsHead(head: string, c: char, tail: string)
    requires (head == [] || !InCutset(head[0])) && !InCutset(c)
    ensures head + [c] <= Trim(head + [c] + tail)
  {
    var s := head + [c] + tail;
    assert s[|head|] == c;
    assert s[0] == if head == [] then c else head[0];
    TrimBothEnds(s);
    TrimLeftFixed(s);
    var r := TrimRight(s);
    assert |r| > |head|;
    assert r[..|head| + 1] == s[..|head| + 1] == head + [c];
  }

  /** `strings.Repeat` of a non-empty string at least once starts with it. */
  lemma RepeatStarts(s: string, n: nat)
    requires n > 0
    ensures s <= Repeat(s, n)
  {
  }

  /** Go's `fmt` verb `%.8s`: at most the first eight characters. */
  function Take8(s: string): (r: string)
    ensures |r| == if |s| < 8 then |s| else 8
    ensures r <= s
  {
    if |s| <= 8 then s else s[..8]
  }
}
