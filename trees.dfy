/** The history view (`cmd/trees`): commits are linked into a forest by their
    parent ids, then drawn git-log style, one line per commit, with `| `
    columns for pending siblings and `|\` lines where a commit branches. */
module Trees {
  import opened Common
  import opened Strings

  /** What `Treeable` exposes of a dataset or a model. */
  datatype Commit = Commit(id: string, name: string, version: string, description: string, parent: Option<string>)

  /** `treeNode`: a commit and the nodes of the commits that name it as parent. */
  datatype Node = Node(commit: Commit, children: seq<Node>)

  // ---------------------------------------------------------------------
  // Linking

  /** `nodeMap` after its loop: every id, with the last commit carrying it. */
  function Latest(commits: seq<Commit>): (m: map<string, Commit>)
    ensures m.Keys == set i | 0 <= i < |commits| :: commits[i].id
    ensures forall id :: id in m ==> m[id].id == id
    decreases |commits|
  {
    if commits == [] then map[]
    else
      var init := commits[..|commits| - 1];
      var m := Latest(init);
      assert (set i | 0 <= i < |commits| :: commits[i].id) == (set i | 0 <= i < |init| :: init[i].id) + {commits[|commits| - 1].id} by {
        forall i | 0 <= i < |init| ensures init[i] == commits[i] { }
      }
      m[commits[|commits| - 1].id := commits[|commits| - 1]]
  }

  /** A commit hangs under another one when its parent id names a commit of `m`. */
  predicate Linked(m: map<string, Commit>, c: Commit) {
    c.parent.Some? && c.parent.value in m
  }

  /** The commits whose parent is `id`. */
  function ChildIds(m: map<string, Commit>, id: string): set<string> {
    set k | k in m && m[k].parent == Some(id)
  }

  /** The commits with no parent, or with a parent id that names no commit. */
  function RootIds(m: map<string, Commit>): set<string> {
    set k | k in m && !Linked(m, m[k])
  }

  /** Strictly ascending under Go's string order. */
  predicate Increasing(s: seq<string>) {
    forall i, j :: 0 <= i < j < |s| ==> LexLess(s[i], s[j])
  }

  lemma LeastStep(rest: set<string>, y: string, z: string)
    requires z in rest && y !in rest
    requires forall w :: w in rest ==> LexLe(z, w)
    ensures forall w :: w in rest + {y} ==> LexLe(if LexLess(y, z) then y else z, w)
  {
    LexLessTotal(y, z);
    forall w | w in rest && LexLess(y, z) && w != z
      ensures LexLess(y, w)
    {
      LexLessTransitive(y, z, w);
    }
  }

  /** The smallest string of a non-empty set. */
  ghost function Least(s: set<string>): (x: string)
    requires s != {}
    ensures x in s && forall y :: y in s ==> LexLe(x, y)
  {
    var y :| y in s;
    if s == {y} then y
    else
      var z := Least(s - {y});
      LeastStep(s - {y}, y, z);
      assert s == (s - {y}) + {y};
      if LexLess(y, z) then y else z
  }

  /** Putting the least id of `s` in front of an ascending listing of the
      rest lists `s` in ascending order. */
  lemma AscendingCons(x: string, rest: seq<string>, s: set<string>)
    requires x in s && forall y :: y in s ==> LexLe(x, y)
    requires |rest| == |s - {x}| && (forall y :: y in rest <==> y in s - {x}) && Increasing(rest)
    ensures |[x] + rest| == |s| && (forall y :: y in [x] + rest <==> y in s) && Increasing([x] + rest)
  {
    assert |s - {x}| == |s| - 1;
    forall j | 0 <= j < |rest| ensures LexLess(x, rest[j]) {
      assert rest[j] in s - {x};
    }
  }

  /** The ids of `s` in ascending order: what sorting a slice of distinct
      ids by `<` yields. */
  ghost function Ascending(s: set<string>): (r: seq<string>)
    ensures |r| == |s| && (forall x :: x in r <==> x in s) && Increasing(r)
    ensures forall k :: 0 <= k < |r| ==> r[k] in s
    decreases |s|
  {
    if s == {} then []
    else
      var x := Least(s);
      var rest := Ascending(s - {x});
      AscendingCons(x, rest, s);
      [x] + rest
  }

  lemma AscendingUnfold(s: set<string>)
    requires s != {}
    ensures Ascending(s) == [Least(s)] + Ascending(s - {Least(s)})
  {
  }

  /** An ascending listing of `s` starts with the least id of `s`, and its
      tail lists the rest. */
  lemma AscendingHead(r: seq<string>, s: set<string>)
    requires r != [] && Increasing(r) && forall x :: x in r <==> x in s
    ensures s != {} && r[0] == Least(s)
    ensures Increasing(r[1..]) && forall y :: y in r[1..] <==> y in s - {r[0]}
  {
    assert r[0] in s;
    var x := Least(s);
    assert x in r;
    if r[0] != x {
      var i :| 0 <= i < |r| && r[i] == x;
      LexLessAsymmetric(r[0], x);
    }
    forall j | 0 < j < |r| ensures r[j] != r[0] {
      LexLessIrreflexive(r[0]);
    }
    assert r == [r[0]] + r[1..];
  }

  /** Sorting is unique: an ascending listing of `s` is `Ascending(s)`. */
  lemma {:induction false} AscendingUnique(r: seq<string>, s: set<string>)
    requires Increasing(r) && forall x :: x in r <==> x in s
    ensures r == Ascending(s)
    decreases |r|
  {
    if r == [] {
      assert forall x :: x !in s;
    } else {
      AscendingHead(r, s);
      AscendingUnique(r[1..], s - {r[0]});
      AscendingUnfold(s);
      assert r == [r[0]] + r[1..];
    }
  }

  /** The node of `id` with its descendants, children in ascending id order.
      `above` holds the ids already on the way down from a root; the
      subtraction only matters for commits that sit on a parent cycle, which
      no root reaches (`GrowFromRootKeepsAll`). */
  ghost function Grow(m: map<string, Commit>, id: string, above: set<string>): Node
    requires id in m && id !in above
    decreases m.Keys - above
  {
    var kids := Ascending(ChildIds(m, id) - above - {id});
    Node(m[id], seq(|kids|, k requires 0 <= k < |kids| =>
      var c := kids[k]; assert c in ChildIds(m, id) - above - {id}; Grow(m, c, above + {id})))
  }

  /** What `BuildTree` returns: one tree per root, roots in ascending id order. */
  ghost function Forest(m: map<string, Commit>): seq<Node> {
    var roots := Ascending(RootIds(m));
    seq(|roots|, k requires 0 <= k < |roots| => var r := roots[k]; assert r in RootIds(m); Grow(m, r, {}))
  }

  /** `n` is the commit of `m` with its id, and its children are exactly the
      commits naming it as parent, ascending by id, each linked in turn. */
  ghost predicate Hangs(m: map<string, Commit>, n: Node)
    decreases n
  {
    && n.commit.id in m && m[n.commit.id] == n.commit
    && |n.children| == |ChildIds(m, n.commit.id)|
    && (forall k :: 0 <= k < |n.children| ==> n.children[k].commit.id == Ascending(ChildIds(m, n.commit.id))[k])
    && (forall k :: 0 <= k < |n.children| ==> Hangs(m, n.children[k]))
  }

  /** The ids of `path`. */
  ghost function Elems(path: seq<string>): set<string> {
    set x | x in path
  }

  /** A way down from a root: each id names a commit whose parent is the id
      before it. */
  ghost predicate Descent(m: map<string, Commit>, path: seq<string>) {
    && |path| > 0 && Distinct(path)
    && (forall j :: 0 <= j < |path| ==> path[j] in m)
    && !Linked(m, m[path[0]])
    && (forall j :: 0 < j < |path| ==> m[path[j]].parent == Some(path[j - 1]))
  }

  /** A child of the last commit of a descent is not already on it. */
  lemma ChildLeavesDescent(m: map<string, Commit>, path: seq<string>, c: string)
    requires Descent(m, path) && c in ChildIds(m, path[|path| - 1])
    ensures c !in path && Descent(m, path + [c])
  {
    forall j | 0 <= j < |path| ensures path[j] != c {
      if j > 0 {
        assert path[j - 1] != path[|path| - 1];
      }
    }
  }

  /** `m` files every commit under its own id. */
  ghost predicate Keyed(m: map<string, Commit>) {
    forall id :: id in m ==> m[id].id == id
  }

  /** The last id of a descent is not above itself, and the subtraction in
      `Grow` removes none of its children. */
  lemma DescentLast(m: map<string, Commit>, path: seq<string>)
    requires Descent(m, path)
    ensures path[|path| - 1] !in Elems(path[..|path| - 1])
    ensures Elems(path) == Elems(path[..|path| - 1]) + {path[|path| - 1]}
    ensures ChildIds(m, path[|path| - 1]) - Elems(path[..|path| - 1]) - {path[|path| - 1]} == ChildIds(m, path[|path| - 1])
  {
    var id, above := path[|path| - 1], Elems(path[..|path| - 1]);
    forall j | 0 <= j < |path| - 1 ensures path[j] != id { }
    assert path == path[..|path| - 1] + [id];
    forall c | c in ChildIds(m, id) ensures c !in above + {id} {
      ChildLeavesDescent(m, path, c);
    }
  }

  /** The ids above the last one of a descent. */
  ghost function Above(path: seq<string>): set<string>
    requires |path| > 0
  {
    Elems(path[..|path| - 1])
  }

  /** A descent extends by any child of its last id, and the extension has
      fewer ids left below it. */
  lemma DescentNext(m: map<string, Commit>, path: seq<string>, c: string)
    requires Descent(m, path) && c in ChildIds(m, path[|path| - 1])
    ensures Descent(m, path + [c]) && (path + [c])[|path|] == c
    ensures Above(path + [c]) == Above(path) + {path[|path| - 1]}
    ensures m.Keys - Above(path + [c]) < m.Keys - Above(path)
  {
    ChildLeavesDescent(m, path, c);
    DescentLast(m, path);
    assert (path + [c])[..|path|] == path;
  }

  /** One level of `Grow`. */
  lemma GrowUnfold(m: map<string, Commit>, id: string, above: set<string>)
    requires id in m && id !in above
    ensures Grow(m, id, above).commit == m[id]
    ensures |Grow(m, id, above).children| == |ChildIds(m, id) - above - {id}|
    ensures forall k :: 0 <= k < |Grow(m, id, above).children| ==>
      Grow(m, id, above).children[k] == Grow(m, Ascending(ChildIds(m, id) - above - {id})[k], above + {id})
  {
  }

  /** The roots of `Forest`. */
  lemma ForestUnfold(m: map<string, Commit>)
    ensures |Forest(m)| == |RootIds(m)|
    ensures forall k :: 0 <= k < |Forest(m)| ==> Forest(m)[k] == Grow(m, Ascending(RootIds(m))[k], {})
  {
  }

  /** Below a root nothing is cut off: every node of the tree has all the
      commits that name it as parent for children. */
  lemma {:induction false} GrowFromRootKeepsAll(m: map<string, Commit>, path: seq<string>)
    requires Keyed(m) && Descent(m, path)
    ensures path[|path| - 1] !in Above(path)
    ensures Hangs(m, Grow(m, path[|path| - 1], Above(path)))
    decreases m.Keys - Above(path), 1
  {
    var id, above := path[|path| - 1], Above(path);
    GrowBelowDescent(m, path);
    var kids := Ascending(ChildIds(m, id));
    var n := Grow(m, id, above);
    forall k | 0 <= k < |kids| ensures n.children[k].commit.id == kids[k] && Hangs(m, n.children[k]) {
      ChildHangs(m, path, kids[k]);
    }
    HangsIntro(m, n);
  }

  /** One level of `Grow` at the end of a descent: every child is kept. */
  lemma GrowBelowDescent(m: map<string, Commit>, path: seq<string>)
    requires Keyed(m) && Descent(m, path)
    ensures path[|path| - 1] !in Above(path)
    ensures var id := path[|path| - 1]; var n := Grow(m, id, Above(path));
      && n.commit == m[id] && n.commit.id == id && |n.children| == |ChildIds(m, id)|
      && forall k :: 0 <= k < |n.children| ==> n.children[k] == Grow(m, Ascending(ChildIds(m, id))[k], Above(path) + {id})
  {
    DescentLast(m, path);
    GrowUnfold(m, path[|path| - 1], Above(path));
  }

  /** `Hangs`, one level at a time. */
  lemma HangsIntro(m: map<string, Commit>, n: Node)
    requires n.commit.id in m && m[n.commit.id] == n.commit
    requires |n.children| == |ChildIds(m, n.commit.id)|
    requires forall k :: 0 <= k < |n.children| ==> n.children[k].commit.id == Ascending(ChildIds(m, n.commit.id))[k]
    requires forall k :: 0 <= k < |n.children| ==> Hangs(m, n.children[k])
    ensures Hangs(m, n)
  {
  }

  /** The same one level down, for a child of the last id. */
  lemma {:induction false} ChildHangs(m: map<string, Commit>, path: seq<string>, c: string)
    requires Keyed(m) && Descent(m, path) && c in ChildIds(m, path[|path| - 1])
    ensures c in m && c !in Above(path) + {path[|path| - 1]}
    ensures Hangs(m, Grow(m, c, Above(path) + {path[|path| - 1]}))
    ensures Grow(m, c, Above(path) + {path[|path| - 1]}).commit.id == c
    decreases m.Keys - Above(path), 0
  {
    DescentNext(m, path, c);
    GrowFromRootKeepsAll(m, path + [c]);
    GrowUnfold(m, c, Above(path) + {path[|path| - 1]});
  }

  /** A root alone is a descent with nothing above it. */
  lemma RootDescent(m: map<string, Commit>, r: string)
    requires r in RootIds(m)
    ensures Descent(m, [r]) && Above([r]) == {}
  {
    assert [r][..0] == [];
  }

  /** `BuildTree` links every commit exactly as the parent ids say: the roots
      are the unlinked commits in ascending id order, and every node below
      has all its children, in ascending id order. */
  lemma ForestLinksAll(m: map<string, Commit>)
    requires Keyed(m)
    ensures |Forest(m)| == |RootIds(m)|
    ensures forall k :: 0 <= k < |Forest(m)| ==>
      Forest(m)[k].commit.id == Ascending(RootIds(m))[k] && Hangs(m, Forest(m)[k])
  {
    var roots := Ascending(RootIds(m));
    ForestUnfold(m);
    forall k | 0 <= k < |roots| ensures Forest(m)[k].commit.id == roots[k] && Hangs(m, Forest(m)[k]) {
      RootDescent(m, roots[k]);
      GrowFromRootKeepsAll(m, [roots[k]]);
      GrowUnfold(m, roots[k], {});
    }
  }

  /** When ids repeat, `nodeMap` keeps the last commit with that id. */
  lemma {:induction false} LatestKeepsLast(commits: seq<Commit>, i: nat)
    requires i < |commits|
    requires forall j :: i < j < |commits| ==> commits[j].id != commits[i].id
    ensures commits[i].id in Latest(commits) && Latest(commits)[commits[i].id] == commits[i]
    decreases |commits|
  {
    if i < |commits| - 1 {
      var init := commits[..|commits| - 1];
      assert init[i] == commits[i];
      LatestKeepsLast(init, i);
    }
  }

  // ---------------------------------------------------------------------
  // Building

  /** Inserts `x` into an ascending sequence that lacks it. */
  method Insert(sorted: seq<string>, x: string) returns (r: seq<string>)
    requires Increasing(sorted) && x !in sorted
    ensures Increasing(r) && forall y :: y in r <==> y in sorted || y == x
  {
    var k := 0;
    while k < |sorted| && LexLess(sorted[k], x)
      invariant 0 <= k <= |sorted|
      invariant forall j :: 0 <= j < k ==> LexLess(sorted[j], x)
    {
      k := k + 1;
    }
    if k < |sorted| {
      LexLessTotal(sorted[k], x);
      forall j | k < j < |sorted| ensures LexLess(x, sorted[j]) {
        LexLessTransitive(x, sorted[k], sorted[j]);
      }
    }
    r := sorted[..k] + [x] + sorted[k..];
  }

  /** `sort.SliceStable` on a slice of distinct ids. */
  method SortIds(ids: seq<string>) returns (sorted: seq<string>)
    requires Distinct(ids)
    ensures sorted == Ascending(Elems(ids))
  {
    sorted := [];
    for i := 0 to |ids|
      invariant Increasing(sorted) && forall y :: y in sorted <==> y in ids[..i]
    {
      assert ids[..i + 1] == ids[..i] + [ids[i]];
      sorted := Insert(sorted, ids[i]);
    }
    assert ids[..|ids|] == ids;
    AscendingUnique(sorted, Elems(ids));
  }

  /** `children[id]` lists, once each, the commits whose parent is `id`. */
  ghost predicate Lists(m: map<string, Commit>, children: map<string, seq<string>>) {
    && children.Keys == m.Keys
    && forall id :: id in children ==>
      Distinct(children[id]) && Elems(children[id]) == ChildIds(m, id)
  }

  /** `kids[j]` is the tree of `ids[j]` grown below `above`, for every `j`. */
  ghost predicate Grown(m: map<string, Commit>, kids: seq<Node>, ids: seq<string>, above: set<string>) {
    && |kids| == |ids|
    && forall j :: 0 <= j < |ids| ==> ids[j] in m && ids[j] !in above && kids[j] == Grow(m, ids[j], above)
  }

  lemma GrownNext(m: map<string, Commit>, kids: seq<Node>, ids: seq<string>, k: nat, above: set<string>, kid: Node)
    requires k < |ids| && Grown(m, kids, ids[..k], above)
    requires ids[k] in m && ids[k] !in above && kid == Grow(m, ids[k], above)
    ensures Grown(m, kids + [kid], ids[..k + 1], above)
  {
    assert ids[..k + 1] == ids[..k] + [ids[k]];
  }

  /** A node whose children are grown from its sorted child ids is `Grow`. */
  lemma GrowFrom(m: map<string, Commit>, id: string, above: set<string>, kids: seq<Node>)
    requires id in m && id !in above
    requires Grown(m, kids, Ascending(ChildIds(m, id) - above - {id}), above + {id})
    ensures Grow(m, id, above) == Node(m[id], kids)
  {
    GrowUnfold(m, id, above);
  }

  /** Trees grown from the sorted roots are the `Forest`. */
  lemma ForestFrom(m: map<string, Commit>, roots: seq<Node>)
    requires Grown(m, roots, Ascending(RootIds(m)), {})
    ensures Forest(m) == roots
  {
    ForestUnfold(m);
  }

  /** The child list of the last id of a descent, sorted, is the order
      `Grow` hangs the children in. */
  lemma ChildOrder(m: map<string, Commit>, children: map<string, seq<string>>, path: seq<string>)
    requires Lists(m, children) && Descent(m, path)
    ensures path[|path| - 1] in m && path[|path| - 1] in children && path[|path| - 1] !in Above(path)
    ensures Distinct(children[path[|path| - 1]])
    ensures Ascending(Elems(children[path[|path| - 1]]))
         == Ascending(ChildIds(m, path[|path| - 1]) - Above(path) - {path[|path| - 1]})
  {
    var id := path[|path| - 1];
    DescentLast(m, path);
  }

  /** The node of the last id of `path`, with its children sorted and
      assembled recursively (`sortChildren`). */
  method Assemble(m: map<string, Commit>, children: map<string, seq<string>>, id: string, ghost path: seq<string>)
    returns (n: Node)
    requires Lists(m, children) && Descent(m, path) && id == path[|path| - 1]
    ensures id !in Above(path) && n == Grow(m, id, Above(path))
    decreases m.Keys - Above(path)
  {
    ghost var above := Above(path);
    ChildOrder(m, children, path);
    var sorted := SortIds(children[id]);
    var kids: seq<Node> := [];
    for k := 0 to |sorted|
      invariant Grown(m, kids, sorted[..k], above + {id})
    {
      var c := sorted[k];
      DescentNext(m, path, c);
      var child := Assemble(m, children, c, path + [c]);
      GrownNext(m, kids, sorted, k, above + {id}, child);
      kids := kids + [child];
    }
    assert sorted[..|sorted|] == sorted;
    GrowFrom(m, id, above, kids);
    n := Node(m[id], kids);
  }

  /** The commits among `done` whose parent is `id`. */
  ghost function Hung(m: map<string, Commit>, done: set<string>, id: string): set<string> {
    set x | x in done && x in m && m[x].parent == Some(id)
  }

  /** The commits among `done` that hang under no commit of `m`. */
  ghost function Unhung(m: map<string, Commit>, done: set<string>): set<string> {
    set x | x in done && x in m && !Linked(m, m[x])
  }

  lemma ElemsSnoc(s: seq<string>, x: string)
    ensures Elems(s + [x]) == Elems(s) + {x}
  {
  }

  /** The commits of `done` are filed: each under its parent when that names
      a commit, among the roots otherwise, once each. */
  ghost predicate Placed(m: map<string, Commit>, children: map<string, seq<string>>, rootIds: seq<string>, done: set<string>) {
    && children.Keys == m.Keys && done <= m.Keys
    && (forall y :: y in children ==> Distinct(children[y]) && Elems(children[y]) == Hung(m, done, y))
    && Distinct(rootIds) && Elems(rootIds) == Unhung(m, done)
  }

  lemma PlaceUnder(m: map<string, Commit>, children: map<string, seq<string>>, rootIds: seq<string>, done: set<string>, x: string)
    requires Placed(m, children, rootIds, done) && x in m && x !in done && Linked(m, m[x])
    ensures Placed(m, children[m[x].parent.value := children[m[x].parent.value] + [x]], rootIds, done + {x})
  {
    var p := m[x].parent.value;
    var after := children[p := children[p] + [x]];
    ElemsSnoc(children[p], x);
    assert Hung(m, done + {x}, p) == Hung(m, done, p) + {x};
    forall y | y in after && y != p ensures Hung(m, done + {x}, y) == Hung(m, done, y) { }
    assert Unhung(m, done + {x}) == Unhung(m, done);
  }

  lemma PlaceRoot(m: map<string, Commit>, children: map<string, seq<string>>, rootIds: seq<string>, done: set<string>, x: string)
    requires Placed(m, children, rootIds, done) && x in m && x !in done && !Linked(m, m[x])
    ensures Placed(m, children, rootIds + [x], done + {x})
  {
    ElemsSnoc(rootIds, x);
    assert Unhung(m, done + {x}) == Unhung(m, done) + {x};
    forall y | y in children ensures Hung(m, done + {x}, y) == Hung(m, done, y) { }
  }

  lemma PlacedAll(m: map<string, Commit>, children: map<string, seq<string>>, rootIds: seq<string>)
    requires Placed(m, children, rootIds, m.Keys)
    ensures Lists(m, children) && Distinct(rootIds) && Elems(rootIds) == RootIds(m)
  {
    forall y | y in children ensures Elems(children[y]) == ChildIds(m, y) {
      assert Hung(m, m.Keys, y) == ChildIds(m, y);
    }
    assert Unhung(m, m.Keys) == RootIds(m);
  }

  lemma PlacedNone(m: map<string, Commit>)
    ensures Placed(m, map id | id in m :: [], [], m.Keys - m.Keys)
  {
    assert m.Keys - m.Keys == {};
  }

  /** Taking `x` out of `pending` adds it to what is done. */
  lemma TakeOne(keys: set<string>, pending: set<string>, x: string)
    requires pending <= keys && x in pending
    ensures keys - (pending - {x}) == (keys - pending) + {x}
  {
  }

  /** The first two loops of `BuildTree`: each commit of `nodeMap` goes to
      its parent's child list when the parent id names a commit, and to the
      roots otherwise. */
  method Partition(nodeMap: map<string, Commit>) returns (children: map<string, seq<string>>, rootIds: seq<string>)
    ensures Lists(nodeMap, children)
    ensures Distinct(rootIds) && Elems(rootIds) == RootIds(nodeMap)
  {
    children := map id | id in nodeMap :: [];
    rootIds := [];
    var pending := nodeMap.Keys;
    PlacedNone(nodeMap);
    while pending != {}
      invariant pending <= nodeMap.Keys
      invariant Placed(nodeMap, children, rootIds, nodeMap.Keys - pending)
      decreases |pending|
    {
      var id :| id in pending;
      ghost var done := nodeMap.Keys - pending;
      TakeOne(nodeMap.Keys, pending, id);
      pending := pending - {id};
      var node := nodeMap[id];
      if node.parent.Some? && node.parent.value in nodeMap {
        var parent := node.parent.value;
        PlaceUnder(nodeMap, children, rootIds, done, id);
        children := children[parent := children[parent] + [id]];
        continue;
      }
      PlaceRoot(nodeMap, children, rootIds, done, id);
      rootIds := rootIds + [id];
    }
    assert nodeMap.Keys - pending == nodeMap.Keys;
    PlacedAll(nodeMap, children, rootIds);
  }

  /** `BuildTree`: indexes the commits by id, hangs each under its parent or
      among the roots, then sorts children and roots by id. */
  method BuildTree(commits: seq<Commit>) returns (roots: seq<Node>)
    ensures roots == Forest(Latest(commits))
  {
    var nodeMap: map<string, Commit> := map[];
    for i := 0 to |commits|
      invariant nodeMap == Latest(commits[..i])
    {
      assert commits[..i + 1][..i] == commits[..i];
      nodeMap := nodeMap[commits[i].id := commits[i]];
    }
    assert commits[..|commits|] == commits;

    var children, rootIds := Partition(nodeMap);
    var sortedRoots := SortIds(rootIds);
    roots := [];
    for k := 0 to |sortedRoots|
      invariant Grown(nodeMap, roots, sortedRoots[..k], {})
    {
      var r := sortedRoots[k];
      RootDescent(nodeMap, r);
      var root := Assemble(nodeMap, children, r, [r]);
      GrownNext(nodeMap, roots, sortedRoots, k, {}, root);
      roots := roots + [root];
    }
    assert sortedRoots[..|sortedRoots|] == sortedRoots;
    ForestFrom(nodeMap, roots);
  }

  // ---------------------------------------------------------------------
  // Rendering

  /** The line `RenderTree` puts before a parentless commit that is not the
      first of its list. */
  const Separator := "\n---\n"

  /** Where the `|\` line of a commit with several children starts: `AsWritten`
      draws only the commit's own columns, as the source does; `Aligned`
      draws the full prefix first, like the commit's `*` line. */
  datatype Style = AsWritten | Aligned

  /** The columns left of the commit at `i` of `count` siblings: one `| ` per
      later sibling, none at all for a commit with a nil parent. */
  function Pre(count: nat, i: nat, c: Commit): string
    requires i < count
  {
    if c.parent.None? then "" else Repeat("| ", count - 1 - i)
  }

  /** `"%s%s* %.8s - %s %s: %s"` over prefix, pre, id, name, version and
      description. */
  function CommitLine(prefix: string, pre: string, c: Commit): string {
    prefix + pre + "* " + Take8(c.id) + " - " + c.name + " " + c.version + ": " + c.description
  }

  /** The line drawn above the children of a commit with `k > 1` of them. */
  function BranchLine(style: Style, prefix: string, pre: string, k: nat): string
    requires k > 1
  {
    (if style == Aligned then prefix + pre else pre) + "|" + Repeat("\\ ", k - 1)
  }

  /** Every line passed through `strings.Trim(line, " -:")`. */
  function TrimAll(lines: seq<string>): seq<string> {
    seq(|lines|, k requires 0 <= k < |lines| => Trim(lines[k]))
  }

  /** What `RenderTree(nodes, prefix, _)` returns. */
  function Render(style: Style, nodes: seq<Node>, prefix: string): seq<string>
    decreases nodes, 2
  {
    TrimAll(Raw(style, nodes, prefix, |nodes|))
  }

  /** The lines of the first `n` commits of `nodes`, before trimming. */
  function Raw(style: Style, nodes: seq<Node>, prefix: string, n: nat): seq<string>
    requires n <= |nodes|
    decreases nodes, 1, n
  {
    if n == 0 then [] else Raw(style, nodes, prefix, n - 1) + Entry(style, nodes, prefix, n - 1)
  }

  /** The lines of the commit at `i`: the separator when due, its own line,
      then, when it has children, the branch line if there are several and
      the children rendered under `prefix + pre`. */
  function Entry(style: Style, nodes: seq<Node>, prefix: string, i: nat): seq<string>
    requires i < |nodes|
    decreases nodes, 0
  {
    var c := nodes[i];
    var pre := Pre(|nodes|, i, c.commit);
    (if c.commit.parent.None? && i != 0 then [Separator] else [])
    + [CommitLine(prefix, pre, c.commit)]
    + (if |c.children| > 0 then
         (if |c.children| > 1 then [BranchLine(style, prefix, pre, |c.children|)] else [])
         + Render(style, c.children, prefix + pre)
       else [])
  }

  /** The lines of the commit at `i`, in three parts. */
  lemma EntryParts(style: Style, nodes: seq<Node>, prefix: string, i: nat)
    requires i < |nodes|
    ensures var c := nodes[i]; var pre := Pre(|nodes|, i, c.commit);
      Entry(style, nodes, prefix, i)
      == (if c.commit.parent.None? && i != 0 then [Separator] else [])
         + [CommitLine(prefix, pre, c.commit)]
         + (if |c.children| > 0 then
              (if |c.children| > 1 then [BranchLine(style, prefix, pre, |c.children|)] else [])
              + Render(style, c.children, prefix + pre)
            else [])
  {
  }

  lemma RawStep(style: Style, nodes: seq<Node>, prefix: string, n: nat)
    requires n < |nodes|
    ensures Raw(style, nodes, prefix, n + 1) == Raw(style, nodes, prefix, n) + Entry(style, nodes, prefix, n)
  {
  }

  /** `RenderTree`: appends each commit's lines, recursing into its children,
      then trims every line in place. As written, the branch line above
      several children is drawn from the commit's own columns alone, without
      the prefix its commit line starts with (see `AsWrittenDropsPrefix`);
      `suffix` is passed down and never drawn. */
  method RenderTree(nodes: seq<Node>, prefix: string, suffix: string) returns (tree: seq<string>)
    ensures tree == Render(AsWritten, nodes, prefix)
    decreases nodes
  {
    tree := [];
    for i := 0 to |nodes|
      invariant tree == Raw(AsWritten, nodes, prefix, i)
    {
      var c := nodes[i];
      var pre := Repeat("| ", |nodes| - 1 - i);
      var separator: seq<string> := [];
      if c.commit.parent.None? {
        pre := "";
        if i != 0 {
          separator := [Separator];
        }
      }
      var lines := separator + [CommitLine(prefix, pre, c.commit)];
      var below: seq<string> := [];
      if |c.children| > 0 {
        var branch: seq<string> := [];
        if |c.children| > 1 {
          branch := [BranchLine(AsWritten, prefix, pre, |c.children|)];
        }
        var sub := RenderTree(c.children, prefix + pre, suffix);
        below := branch + sub;
      }
      EntryParts(AsWritten, nodes, prefix, i);
      RawStep(AsWritten, nodes, prefix, i);
      tree := tree + (lines + below);
    }
    ghost var raw := tree;
    for i := 0 to |tree|
      invariant |tree| == |raw|
      invariant forall k :: 0 <= k < i ==> tree[k] == Trim(raw[k])
      invariant forall k :: i <= k < |tree| ==> tree[k] == raw[k]
    {
      tree := tree[i := Trim(tree[i])];
    }
    assert raw == Raw(AsWritten, nodes, prefix, |nodes|);
    assert |tree| == |TrimAll(raw)| && forall k :: 0 <= k < |tree| ==> tree[k] == TrimAll(raw)[k];
  }

  // ---------------------------------------------------------------------
  // What rendering guarantees

  /** Every line `RenderTree` returns is already trimmed. */
  lemma RenderTrimmed(style: Style, nodes: seq<Node>, prefix: string)
    ensures forall l :: l in Render(style, nodes, prefix) ==> Trim(l) == l
  {
    var raw := Raw(style, nodes, prefix, |nodes|);
    forall k | 0 <= k < |raw| ensures Trim(Trim(raw[k])) == Trim(raw[k]) {
      TrimIdempotent(raw[k]);
    }
  }

  /** The separator survives trimming: its ends are newlines. */
  lemma SeparatorTrimmed()
    ensures Trim(Separator) == Separator
  {
    TrimLeftFixed(Separator);
    TrimRightFixed(Separator);
  }

  /** `l` is a separator, or starts with `prefix` followed by a character
      that trimming stops at. */
  predicate Drawn(l: string, prefix: string) {
    l == Separator || (|prefix| < |l| && l[..|prefix|] == prefix && !InCutset(l[|prefix|]))
  }

  /** Every line of `lines` is `Drawn` under the prefix. */
  predicate AllDrawn(lines: seq<string>, prefix: string)
    decreases |lines|
  {
    lines == [] || (Drawn(lines[0], prefix) && AllDrawn(lines[1..], prefix))
  }

  lemma {:induction false} AllDrawnAt(lines: seq<string>, prefix: string, k: nat)
    requires AllDrawn(lines, prefix) && k < |lines|
    ensures Drawn(lines[k], prefix)
    decreases k
  {
    if k > 0 {
      AllDrawnAt(lines[1..], prefix, k - 1);
    }
  }

  lemma {:induction false} AllDrawnFrom(lines: seq<string>, prefix: string)
    requires forall k :: 0 <= k < |lines| ==> Drawn(lines[k], prefix)
    ensures AllDrawn(lines, prefix)
    decreases |lines|
  {
    if lines != [] {
      AllDrawnFrom(lines[1..], prefix);
    }
  }

  lemma {:induction false} AllDrawnJoin(a: seq<string>, b: seq<string>, prefix: string)
    requires AllDrawn(a, prefix) && AllDrawn(b, prefix)
    ensures AllDrawn(a + b, prefix)
    decreases |a|
  {
    if a != [] {
      AllDrawnJoin(a[1..], b, prefix);
      assert (a + b)[1..] == a[1..] + b;
    } else {
      assert a + b == b;
    }
  }

  /** Trimming keeps a drawn line drawn. */
  lemma TrimKeepsDrawn(l: string, prefix: string)
    requires Drawn(l, prefix) && (prefix == [] || !InCutset(prefix[0]))
    ensures Drawn(Trim(l), prefix)
  {
    if l == Separator {
      SeparatorTrimmed();
    } else {
      assert l == prefix + [l[|prefix|]] + l[|prefix| + 1..];
      TrimKeepsHead(prefix, l[|prefix|], l[|prefix| + 1..]);
    }
  }

  /** A line drawn under `prefix + pre`, where `pre` is a commit's columns,
      is drawn under `prefix`. */
  lemma {:induction false} AllDrawnWiden(lines: seq<string>, prefix: string, pre: string)
    requires AllDrawn(lines, prefix + pre) && (pre == [] || pre[0] == '|')
    ensures AllDrawn(lines, prefix)
    decreases |lines|
  {
    if lines != [] {
      AllDrawnWiden(lines[1..], prefix, pre);
      var l, head := lines[0], prefix + pre;
      if l != Separator && pre != [] {
        assert l[..|prefix|] == head[..|prefix|] == prefix;
        assert l[|prefix|] == head[|prefix|] == pre[0];
      }
    }
  }

  /** A commit line and a branch line start with the commit's columns and
      then `*` or `|`. */
  lemma {:induction false} ColumnsDrawn(l: string, prefix: string, pre: string, c: char, tail: string)
    requires l == prefix + pre + [c] + tail && !InCutset(c) && (pre == [] || pre[0] == '|')
    ensures Drawn(l, prefix)
  {
    assert l[..|prefix|] == prefix;
    if pre != [] {
      assert l[|prefix|] == pre[0];
    } else {
      assert l[|prefix|] == c;
    }
  }

  /** The columns of a commit are empty or start with `|`. */
  lemma PreStart(count: nat, i: nat, c: Commit)
    requires i < count
    ensures Pre(count, i, c) == [] || Pre(count, i, c)[0] == '|'
  {
    if Pre(count, i, c) != [] {
      RepeatStarts("| ", count - 1 - i);
    }
  }

  lemma {:induction false} RenderDrawn(nodes: seq<Node>, prefix: string)
    requires prefix == [] || !InCutset(prefix[0])
    ensures AllDrawn(Render(Aligned, nodes, prefix), prefix)
    decreases nodes, 2
  {
    var raw := Raw(Aligned, nodes, prefix, |nodes|);
    RawDrawn(nodes, prefix, |nodes|);
    var lines := Render(Aligned, nodes, prefix);
    forall k | 0 <= k < |lines| ensures Drawn(lines[k], prefix) {
      AllDrawnAt(raw, prefix, k);
      TrimKeepsDrawn(raw[k], prefix);
    }
    AllDrawnFrom(lines, prefix);
  }

  lemma {:induction false} RawDrawn(nodes: seq<Node>, prefix: string, n: nat)
    requires n <= |nodes| && (prefix == [] || !InCutset(prefix[0]))
    ensures AllDrawn(Raw(Aligned, nodes, prefix, n), prefix)
    decreases nodes, 1, n
  {
    if n > 0 {
      RawDrawn(nodes, prefix, n - 1);
      EntryDrawn(nodes, prefix, n - 1);
      AllDrawnJoin(Raw(Aligned, nodes, prefix, n - 1), Entry(Aligned, nodes, prefix, n - 1), prefix);
    } else {
      assert Raw(Aligned, nodes, prefix, n) == [];
    }
  }

  lemma {:induction false} EntryDrawn(nodes: seq<Node>, prefix: string, i: nat)
    requires i < |nodes| && (prefix == [] || !InCutset(prefix[0]))
    ensures AllDrawn(Entry(Aligned, nodes, prefix, i), prefix)
    decreases nodes, 0
  {
    var c := nodes[i];
    var pre := Pre(|nodes|, i, c.commit);
    PreStart(|nodes|, i, c.commit);
    var sep: seq<string> := if c.commit.parent.None? && i != 0 then [Separator] else [];
    LineDrawn(prefix, pre, c.commit, sep);
    ChildrenDrawn(prefix, pre, c.children);
    var rest := if |c.children| > 0 then
         (if |c.children| > 1 then [BranchLine(Aligned, prefix, pre, |c.children|)] else [])
         + Render(Aligned, c.children, prefix + pre)
       else [];
    AllDrawnJoin(sep + [CommitLine(prefix, pre, c.commit)], rest, prefix);
  }

  /** The separator, if any, and the commit's own line. */
  lemma LineDrawn(prefix: string, pre: string, c: Commit, sep: seq<string>)
    requires sep == [] || sep == [Separator]
    requires pre == [] || pre[0] == '|'
    ensures AllDrawn(sep + [CommitLine(prefix, pre, c)], prefix)
  {
    var line := CommitLine(prefix, pre, c);
    ColumnsDrawn(line, prefix, pre, '*', " " + Take8(c.id) + " - " + c.name + " " + c.version + ": " + c.description);
    assert AllDrawn([line], prefix);
    assert AllDrawn(sep, prefix);
    AllDrawnJoin(sep, [line], prefix);
  }

  /** The branch line, if any, and the children's lines. */
  lemma {:induction false} ChildrenDrawn(prefix: string, pre: string, kids: seq<Node>)
    requires prefix == [] || !InCutset(prefix[0])
    requires pre == [] || pre[0] == '|'
    ensures AllDrawn(if |kids| > 0 then
         (if |kids| > 1 then [BranchLine(Aligned, prefix, pre, |kids|)] else [])
         + Render(Aligned, kids, prefix + pre)
       else [], prefix)
    decreases kids, 3
  {
    if |kids| > 0 {
      var branch: seq<string> := [];
      if |kids| > 1 {
        var b := BranchLine(Aligned, prefix, pre, |kids|);
        ColumnsDrawn(b, prefix, pre, '|', Repeat("\\ ", |kids| - 1));
        branch := [b];
        assert AllDrawn(branch, prefix);
      } else {
        assert AllDrawn(branch, prefix);
      }
      var head := prefix + pre;
      assert head == [] || !InCutset(head[0]) by {
        if prefix == [] {
          assert head == pre;
        }
      }
      RenderDrawn(kids, head);
      AllDrawnWiden(Render(Aligned, kids, head), prefix, pre);
      AllDrawnJoin(branch, Render(Aligned, kids, head), prefix);
    } else {
      assert AllDrawn([], prefix);
    }
  }

  /** Under `Aligned`, every line drawn under a prefix that does not start
      with a cut-set character starts with that prefix, unless it is a
      separator. */
  lemma RenderKeepsPrefix(nodes: seq<Node>, prefix: string)
    requires prefix == [] || !InCutset(prefix[0])
    ensures forall l :: l in Render(Aligned, nodes, prefix) ==> l == Separator || prefix <= l
  {
    var lines := Render(Aligned, nodes, prefix);
    RenderDrawn(nodes, prefix);
    forall k | 0 <= k < |lines| ensures lines[k] == Separator || prefix <= lines[k] {
      AllDrawnAt(lines, prefix, k);
    }
  }

  /** As written, a commit with two children drawn under the prefix `| `
      (as `RenderTree` draws the only child of a commit that is itself the
      first of two siblings) gets the branch line `|\`, which has lost the
      prefix and is neither a separator nor a line under `| `. */
  lemma AsWrittenDropsPrefix(d: Commit, kids: seq<Node>)
    requires d.parent.Some? && |kids| == 2
    ensures |Render(AsWritten, [Node(d, kids)], "| ")| > 1
    ensures Render(AsWritten, [Node(d, kids)], "| ")[1] == "|\\"
    ensures var l := Render(AsWritten, [Node(d, kids)], "| ")[1]; l != Separator && !("| " <= l)
  {
    var nodes := [Node(d, kids)];
    assert Pre(1, 0, d) == "";
    assert BranchLine(AsWritten, "| ", "", 2) == "|\\" + " ";
    TrimDropsTail("|\\", " ");
    assert Raw(AsWritten, nodes, "| ", 1) == Entry(AsWritten, nodes, "| ", 0);
    assert ("|\\")[1] != ' ';
  }
}
