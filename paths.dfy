/** Go's `filepath.Join` on slash-separated relative paths.

    `Join` splits every argument on '/', drops the empty segments (so doubled,
    leading and trailing slashes disappear) and glues what is left with a
    single '/'. An argument list with no segment at all joins to "". The
    `Clean` step that follows in Go is not modelled: `.` and `..` stay
    segments, and a leading '/' is dropped. */
module Paths {

  /** `s` contains no separator. */
  predicate NoSlash(s: string) {
    forall i :: 0 <= i < |s| ==> s[i] != '/'
  }

  /** A path segment: non-empty and free of separators. */
  predicate IsSegment(s: string) {
    s != "" && NoSlash(s)
  }

  predicate AllSegments(segs: seq<string>) {
    forall i :: 0 <= i < |segs| ==> IsSegment(segs[i])
  }

  /** The segment being accumulated, if any. */
  function Piece(cur: string): seq<string> {
    if cur == "" then [] else [cur]
  }

  /** Splits `s` on '/', `cur` being the part of the current segment already read. */
  function SplitFrom(s: string, cur: string): seq<string>
    decreases |s|
  {
    if s == "" then Piece(cur)
    else if s[0] == '/' then Piece(cur) + SplitFrom(s[1..], "")
    else SplitFrom(s[1..], cur + [s[0]])
  }

  /** The non-empty segments of `s`, in order. */
  function Segments(s: string): (r: seq<string>)
    ensures AllSegments(r)
  {
    SplitFromSegments(s, "");
    SplitFrom(s, "")
  }

  /** The segments of every argument, in order. */
  function SegmentsOf(parts: seq<string>): (r: seq<string>)
    ensures AllSegments(r)
  {
    if parts == [] then [] else Segments(parts[0]) + SegmentsOf(parts[1..])
  }

  /** Segments glued back together with single separators. */
  function Glue(segs: seq<string>): string
  {
    if segs == [] then ""
    else if |segs| == 1 then segs[0]
    else segs[0] + "/" + Glue(segs[1..])
  }

  /** `filepath.Join(parts...)`: its segments are exactly those of its arguments. */
  function Join(parts: seq<string>): (p: string)
    ensures Segments(p) == SegmentsOf(parts)
    ensures p == "" <==> SegmentsOf(parts) == []
  {
    var segs := SegmentsOf(parts);
    SplitGlue(segs);
    Glue(segs)
  }

  lemma {:induction false} SplitFromSegments(s: string, cur: string)
    requires NoSlash(cur)
    ensures AllSegments(SplitFrom(s, cur))
    decreases |s|
  {
    if s != "" {
      if s[0] == '/' {
        SplitFromSegments(s[1..], "");
      } else {
        SplitFromSegments(s[1..], cur + [s[0]]);
      }
    }
  }

  /** A separator splits the segment lists apart. */
  lemma {:induction false} SplitAtSlash(a: string, b: string, cur: string)
    ensures SplitFrom(a + "/" + b, cur) == SplitFrom(a, cur) + SplitFrom(b, "")
    decreases |a|
  {
    if a == "" {
      assert a + "/" + b == "/" + b;
      assert ("/" + b)[1..] == b;
    } else {
      assert (a + "/" + b)[0] == a[0];
      assert (a + "/" + b)[1..] == a[1..] + "/" + b;
      if a[0] == '/' {
        SplitAtSlash(a[1..], b, "");
      } else {
        SplitAtSlash(a[1..], b, cur + [a[0]]);
      }
    }
  }

  /** Text without a separator only extends the current segment. */
  lemma {:induction false} SplitNoSlash(a: string, cur: string)
    requires NoSlash(a)
    ensures SplitFrom(a, cur) == Piece(cur + a)
    decreases |a|
  {
    if a == "" {
      assert cur + a == cur;
    } else {
      assert cur + [a[0]] + a[1..] == cur + a;
      SplitNoSlash(a[1..], cur + [a[0]]);
    }
  }

  /** Splitting what `Glue` produced gives the segments back. */
  lemma {:induction false} SplitGlue(segs: seq<string>)
    requires AllSegments(segs)
    ensures Segments(Glue(segs)) == segs
    ensures Glue(segs) == "" <==> segs == []
  {
    if |segs| == 1 {
      SplitNoSlash(segs[0], "");
      assert "" + segs[0] == segs[0];
    } else if |segs| > 1 {
      SplitGlue(segs[1..]);
      SplitAtSlash(segs[0], Glue(segs[1..]), "");
      SplitNoSlash(segs[0], "");
      assert "" + segs[0] == segs[0];
      assert segs == [segs[0]] + segs[1..];
    }
  }

  lemma {:induction false} SegmentsOfAppend(a: seq<string>, b: seq<string>)
    ensures SegmentsOf(a + b) == SegmentsOf(a) + SegmentsOf(b)
  {
    if a == [] {
      assert a + b == b;
    } else {
      assert (a + b)[0] == a[0];
      assert (a + b)[1..] == a[1..] + b;
      SegmentsOfAppend(a[1..], b);
    }
  }

  /** The segments of two arguments are those of the first, then the second. */
  lemma SegmentsOfPair(a: string, b: string)
    ensures SegmentsOf([a, b]) == Segments(a) + Segments(b)
  {
    assert [a, b][1..] == [b];
    assert [b][1..] == [];
    assert SegmentsOf([b]) == Segments(b) + SegmentsOf([]);
    assert SegmentsOf([a, b]) == Segments(a) + SegmentsOf([b]);
  }

  /** A joined path passed back to Join as one argument stands for all of its
      parts: `Join(Join(a...), b...) == Join(a..., b...)`. */
  lemma JoinNested(a: seq<string>, b: seq<string>)
    ensures Join([Join(a)] + b) == Join(a + b)
  {
    assert ([Join(a)] + b)[1..] == b;
    SegmentsOfAppend(a, b);
  }

  /** Joining is idempotent: a joined path is already clean. */
  lemma JoinIdempotent(parts: seq<string>)
    ensures Join([Join(parts)]) == Join(parts)
  {
    JoinNested(parts, []);
    assert parts + [] == parts;
    assert [Join(parts)] + [] == [Join(parts)];
  }

  /** Two clean segments join with exactly one separator. */
  lemma JoinTwoSegments(a: string, b: string)
    requires IsSegment(a) && IsSegment(b)
    ensures Join([a, b]) == a + "/" + b
  {
    SplitNoSlash(a, "");
    SplitNoSlash(b, "");
    assert "" + a == a && "" + b == b;
    assert [a, b][1..] == [b];
    assert Segments(a) == [a] && Segments(b) == [b];
    assert SegmentsOf([b]) == Segments(b) + SegmentsOf([]);
    assert SegmentsOf([a, b]) == [a, b];
    assert Glue([a, b]) == a + "/" + Glue([b]);
  }

  /** A trailing separator on the first argument makes no difference. */
  lemma JoinTrailingSlash(a: string, b: string)
    ensures Join([a + "/", b]) == Join([a, b])
  {
    SplitAtSlash(a, "", "");
    assert a + "/" + "" == a + "/";
    assert Segments(a + "/") == Segments(a);
    assert [a + "/", b][1..] == [b] == [a, b][1..];
    assert SegmentsOf([a + "/", b]) == SegmentsOf([a, b]);
  }

  /** Clean segments are their own segments. */
  lemma {:induction false} SegmentsOfSegments(parts: seq<string>)
    requires AllSegments(parts)
    ensures SegmentsOf(parts) == parts
    decreases |parts|
  {
    if parts != [] {
      SplitNoSlash(parts[0], "");
      assert "" + parts[0] == parts[0];
      SegmentsOfSegments(parts[1..]);
      assert parts == [parts[0]] + parts[1..];
    }
  }

  /** Clean segments join with exactly one separator between neighbours. */
  lemma JoinAllSegments(parts: seq<string>)
    requires AllSegments(parts)
    ensures Join(parts) == Glue(parts)
  {
    SegmentsOfSegments(parts);
  }

  /** Three segments glued: two separators. */
  lemma GlueThree(a: string, b: string, name: string)
    ensures Glue([a, b, name]) == a + "/" + b + "/" + name
  {
    assert [a, b, name][1..] == [b, name] && [b, name][1..] == [name];
    assert Glue([b, name]) == b + "/" + name;
    assert Glue([a, b, name]) == a + "/" + (b + "/" + name);
  }

  /** A file name joined under a directory written `a/b/`. */
  lemma JoinUnderDirectory(a: string, b: string, name: string)
    requires IsSegment(a) && IsSegment(b) && IsSegment(name)
    ensures Join([a + "/" + b + "/", name]) == a + "/" + b + "/" + name
    ensures Segments(Join([a + "/" + b + "/", name])) == [a, b, name]
  {
    JoinTrailingSlash(a + "/" + b, name);
    JoinTwoSegments(a, b);
    JoinNested([a, b], [name]);
    assert [a, b] + [name] == [a, b, name];
    JoinAllSegments([a, b, name]);
    SegmentsOfSegments([a, b, name]);
    GlueThree(a, b, name);
    assert [a, b, name][1..] == [b, name] && [b, name][1..] == [name];
  }

  /** A file name joined under the join of two segments. */
  lemma JoinUnderJoin(a: string, b: string, name: string)
    requires IsSegment(a) && IsSegment(b) && IsSegment(name)
    ensures Join([Join([a, b]), name]) == a + "/" + b + "/" + name
    ensures Segments(Join([Join([a, b]), name])) == [a, b, name]
  {
    JoinNested([a, b], [name]);
    assert [a, b] + [name] == [a, b, name];
    JoinAllSegments([a, b, name]);
    SegmentsOfSegments([a, b, name]);
    GlueThree(a, b, name);
    assert [a, b, name][1..] == [b, name] && [b, name][1..] == [name];
  }

  /** Joining a directory written with its trailing separator to a name finds
      the same segments as writing the two side by side. */
  lemma JoinAfterSlash(dir: string, name: string)
    ensures Segments(Join([dir + "/", name])) == Segments(dir + "/" + name)
  {
    SegmentsOfPair(dir + "/", name);
    SplitAtSlash(dir, "", "");
    assert dir + "/" + "" == dir + "/";
    SplitAtSlash(dir, name, "");
  }

  /** A path that starts with a clean segment and a separator has that
      segment first. */
  lemma SegmentsAfterHead(head: string, rest: string)
    requires IsSegment(head)
    ensures Segments(head + "/" + rest) == [head] + Segments(rest)
  {
    SplitAtSlash(head, rest, "");
    SplitNoSlash(head, "");
    assert "" + head == head;
  }
}
