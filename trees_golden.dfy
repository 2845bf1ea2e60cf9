/** The history view's fixed examples: small commit lists, the forest
    `BuildTree` links from them and the lines `RenderTree` draws. */
module TreesGolden {
  import opened Common
  import opened Strings
  import opened Trees

  /** A commit with only an id and a parent, as the examples use. */
  function Bare(id: string, parent: Option<string>): Commit {
    Commit(id, "", "", "", parent)
  }

  // ---------------------------------------------------------------------
  // Building

  lemma LatestSnoc(commits: seq<Commit>, c: Commit)
    ensures Latest(commits + [c]) == Latest(commits)[c.id := c]
  {
    assert (commits + [c])[..|commits|] == commits;
  }

  /** A node with no children left to hang. */
  lemma GrowLeaf(m: map<string, Commit>, id: string, above: set<string>)
    requires id in m && id !in above && ChildIds(m, id) - above - {id} == {}
    ensures Grow(m, id, above) == Node(m[id], [])
  {
    GrowUnfold(m, id, above);
  }

  /** A node whose children, in ascending order, are `ids`. */
  lemma GrowKids(m: map<string, Commit>, id: string, above: set<string>, ids: seq<string>, kids: seq<Node>)
    requires id in m && id !in above
    requires Increasing(ids) && Elems(ids) == ChildIds(m, id) - above - {id}
    requires Grown(m, kids, ids, above + {id})
    ensures Grow(m, id, above) == Node(m[id], kids)
  {
    AscendingUnique(ids, ChildIds(m, id) - above - {id});
    GrowFrom(m, id, above, kids);
  }

  // ---------------------------------------------------------------------
  // Drawing

  lemma TrimAllJoin(a: seq<string>, b: seq<string>)
    ensures TrimAll(a + b) == TrimAll(a) + TrimAll(b)
  {
    var l, r := TrimAll(a + b), TrimAll(a) + TrimAll(b);
    forall k | 0 <= k < |l| ensures l[k] == r[k] {
      if k < |a| {
        assert (a + b)[k] == a[k];
      } else {
        assert (a + b)[k] == b[k - |a|];
      }
    }
  }

  /** Trimming the rendered lines again changes nothing. */
  lemma RenderFixed(style: Style, nodes: seq<Node>, prefix: string)
    ensures TrimAll(Render(style, nodes, prefix)) == Render(style, nodes, prefix)
  {
    var lines := Render(style, nodes, prefix);
    RenderTrimmed(style, nodes, prefix);
    forall k | 0 <= k < |lines| ensures Trim(lines[k]) == lines[k] {
      assert lines[k] in lines;
    }
  }

  lemma RenderEmpty(style: Style, nodes: seq<Node>, prefix: string)
    requires nodes == []
    ensures Render(style, nodes, prefix) == []
  {
    assert Raw(style, nodes, prefix, 0) == [];
  }

  lemma TrimAllOne(l: string)
    ensures TrimAll([l]) == [Trim(l)]
  {
  }

  lemma TrimAllShort(lines: seq<string>)
    requires |lines| <= 1
    ensures TrimAll(lines) == if lines == [] then [] else [Trim(lines[0])]
  {
    if lines != [] {
      assert lines == [lines[0]];
      TrimAllOne(lines[0]);
    }
  }

  /** The lines of the commit at `i`, in four parts. */
  lemma EntrySplit(style: Style, nodes: seq<Node>, prefix: string, i: nat)
    requires i < |nodes|
    ensures var c := nodes[i]; var pre := Pre(|nodes|, i, c.commit);
      Entry(style, nodes, prefix, i)
      == (if c.commit.parent.None? && i != 0 then [Separator] else [])
         + [CommitLine(prefix, pre, c.commit)]
         + ((if |c.children| > 1 then [BranchLine(style, prefix, pre, |c.children|)] else [])
            + Render(style, c.children, prefix + pre))
  {
    var c := nodes[i];
    if |c.children| == 0 {
      RenderEmpty(style, c.children, prefix + Pre(|nodes|, i, c.commit));
    }
  }

  /** Trimming the four parts of an entry, when the last is already trimmed. */
  lemma TrimAllParts(sep: seq<string>, line: string, branch: seq<string>, sub: seq<string>)
    requires TrimAll(sub) == sub
    ensures TrimAll(sep + [line] + (branch + sub)) == TrimAll(sep) + [Trim(line)] + TrimAll(branch) + sub
  {
    TrimAllJoin(sep + [line], branch + sub);
    TrimAllJoin(sep, [line]);
    TrimAllJoin(branch, sub);
    TrimAllOne(line);
  }

  /** The lines of the commit at `i`, trimmed. */
  lemma EntryTrimmed(style: Style, nodes: seq<Node>, prefix: string, i: nat)
    requires i < |nodes|
    ensures var c := nodes[i]; var pre := Pre(|nodes|, i, c.commit);
      TrimAll(Entry(style, nodes, prefix, i))
      == (if c.commit.parent.None? && i != 0 then [Separator] else [])
         + [Trim(CommitLine(prefix, pre, c.commit))]
         + (if |c.children| > 1 then [Trim(BranchLine(style, prefix, pre, |c.children|))] else [])
         + Render(style, c.children, prefix + pre)
  {
    var c := nodes[i];
    var pre := Pre(|nodes|, i, c.commit);
    var sep: seq<string> := if c.commit.parent.None? && i != 0 then [Separator] else [];
    var branch: seq<string> := if |c.children| > 1 then [BranchLine(style, prefix, pre, |c.children|)] else [];
    EntrySplit(style, nodes, prefix, i);
    RenderFixed(style, c.children, prefix + pre);
    TrimAllParts(sep, CommitLine(prefix, pre, c.commit), branch, Render(style, c.children, prefix + pre));
    SeparatorTrimmed();
    TrimAllShort(sep);
    TrimAllShort(branch);
  }

  /** One commit, trimmed to its id when the other fields are empty. */
  lemma BareLine(prefix: string, pre: string, id: string, parent: Option<string>)
    requires |id| == 1 && !InCutset(id[0]) && (prefix + pre == [] || !InCutset((prefix + pre)[0]))
    ensures Trim(CommitLine(prefix, pre, Bare(id, parent))) == prefix + pre + "* " + id
  {
    var head := prefix + pre + "* " + id;
    assert CommitLine(prefix, pre, Bare(id, parent)) == head + " -  : ";
    assert head[0] == (if prefix + pre == [] then '*' else (prefix + pre)[0]);
    TrimDropsTail(head, " -  : ");
  }

  /** The trimmed lines of a bare commit at `i`. */
  lemma EntryBare(style: Style, nodes: seq<Node>, prefix: string, i: nat, pre: string)
    requires i < |nodes| && pre == Pre(|nodes|, i, nodes[i].commit)
    requires var c := nodes[i].commit; c == Bare(c.id, c.parent) && |c.id| == 1 && !InCutset(c.id[0])
    requires prefix + pre == [] || !InCutset((prefix + pre)[0])
    ensures var c := nodes[i];
      TrimAll(Entry(style, nodes, prefix, i))
      == (if c.commit.parent.None? && i != 0 then [Separator] else [])
         + [prefix + pre + "* " + c.commit.id]
         + (if |c.children| > 1 then [Trim(BranchLine(style, prefix, pre, |c.children|))] else [])
         + Render(style, c.children, prefix + pre)
  {
    EntryTrimmed(style, nodes, prefix, i);
    BareLine(prefix, pre, nodes[i].commit.id, nodes[i].commit.parent);
  }

  lemma RenderOne(style: Style, n: Node, prefix: string)
    ensures Render(style, [n], prefix) == TrimAll(Entry(style, [n], prefix, 0))
  {
    RawStep(style, [n], prefix, 0);
  }

  lemma RenderTwo(style: Style, nodes: seq<Node>, prefix: string)
    requires |nodes| == 2
    ensures Render(style, nodes, prefix)
         == TrimAll(Entry(style, nodes, prefix, 0)) + TrimAll(Entry(style, nodes, prefix, 1))
  {
    RawTwo(style, nodes, prefix);
    TrimAllJoin(Entry(style, nodes, prefix, 0), Entry(style, nodes, prefix, 1));
  }

  lemma RawTwo(style: Style, nodes: seq<Node>, prefix: string)
    requires |nodes| == 2
    ensures Raw(style, nodes, prefix, 2) == Entry(style, nodes, prefix, 0) + Entry(style, nodes, prefix, 1)
  {
    var e0 := Entry(style, nodes, prefix, 0);
    RawStep(style, nodes, prefix, 0);
    assert Raw(style, nodes, prefix, 1) == e0 by {
      assert Raw(style, nodes, prefix, 0) == [];
      assert [] + e0 == e0;
    }
    RawStep(style, nodes, prefix, 1);
  }

  lemma RenderThree(style: Style, nodes: seq<Node>, prefix: string)
    requires |nodes| == 3
    ensures Render(style, nodes, prefix)
         == TrimAll(Entry(style, nodes, prefix, 0)) + TrimAll(Entry(style, nodes, prefix, 1))
            + TrimAll(Entry(style, nodes, prefix, 2))
  {
    var e0, e1, e2 := Entry(style, nodes, prefix, 0), Entry(style, nodes, prefix, 1), Entry(style, nodes, prefix, 2);
    assert Raw(style, nodes, prefix, 3) == e0 + e1 + e2 by {
      RawStep(style, nodes, prefix, 0);
      assert Raw(style, nodes, prefix, 1) == e0 by {
        assert Raw(style, nodes, prefix, 0) == [];
        assert [] + e0 == e0;
      }
      RawStep(style, nodes, prefix, 1);
      RawStep(style, nodes, prefix, 2);
    }
    TrimAllJoin(e0 + e1, e2);
    TrimAllJoin(e0, e1);
  }

  function Leaf(id: string, parent: string): Node {
    Node(Bare(id, Some(parent)), [])
  }

  lemma RenderLeaf(style: Style, id: string, parent: string, prefix: string)
    requires |id| == 1 && !InCutset(id[0]) && (prefix == [] || !InCutset(prefix[0]))
    ensures Render(style, [Leaf(id, parent)], prefix) == [prefix + "* " + id]
  {
    RenderOne(style, Leaf(id, parent), prefix);
    assert Pre(1, 0, Leaf(id, parent).commit) == "";
    EntryBare(style, [Leaf(id, parent)], prefix, 0, "");
    assert prefix + "" == prefix;
    RenderEmpty(style, [], prefix);
  }

  /** A branch line whose `\\ ` columns, less the last space, follow `head`. */
  lemma BranchTrimmed(style: Style, prefix: string, pre: string, head: string, k: nat)
    requires k > 1 && head == (if style == Aligned then prefix + pre else pre) + "|" + Repeat("\\ ", k - 2) + "\\"
    requires !InCutset(head[0])
    ensures Trim(BranchLine(style, prefix, pre, k)) == head
  {
    assert Repeat("\\ ", k - 1) == Repeat("\\ ", k - 2) + "\\ " by {
      RepeatSnoc("\\ ", k - 2);
    }
    assert BranchLine(style, prefix, pre, k) == head + " ";
    TrimDropsTail(head, " ");
  }

  lemma {:induction false} RepeatSnoc(s: string, n: nat)
    ensures Repeat(s, n + 1) == Repeat(s, n) + s
  {
    if n > 0 {
      RepeatSnoc(s, n - 1);
    }
  }

  lemma NoPad(id: string)
    ensures "" + "" == "" && "" + "" + "* " + id == "* " + id
  {
  }

  lemma PipePad()
    ensures "" + "| " == "| " && "" + "| " + "* " + "B" == "| * B"
  {
  }

  /** The trimmed lines of a bare commit alone at the left edge. */
  lemma EntryTop(style: Style, id: string, parent: Option<string>, kids: seq<Node>)
    requires |id| == 1 && !InCutset(id[0])
    ensures TrimAll(Entry(style, [Node(Bare(id, parent), kids)], "", 0))
         == ["* " + id] + (if |kids| > 1 then [Trim(BranchLine(style, "", "", |kids|))] else []) + Render(style, kids, "")
  {
    var a := Node(Bare(id, parent), kids);
    assert Pre(1, 0, a.commit) == "";
    EntryBare(style, [a], "", 0, "");
    NoPad(id);
  }

  /** A single commit at the left edge, over one child. */
  lemma RenderTopOne(style: Style, id: string, parent: Option<string>, kids: seq<Node>, below: seq<string>)
    requires |id| == 1 && !InCutset(id[0]) && |kids| == 1 && Render(style, kids, "") == below
    ensures Render(style, [Node(Bare(id, parent), kids)], "") == ["* " + id] + below
  {
    RenderOne(style, Node(Bare(id, parent), kids), "");
    EntryTop(style, id, parent, kids);
  }

  /** A single commit at the left edge, over two children. */
  lemma RenderTopTwo(style: Style, id: string, parent: Option<string>, kids: seq<Node>, below: seq<string>)
    requires |id| == 1 && !InCutset(id[0]) && |kids| == 2 && Render(style, kids, "") == below
    ensures Render(style, [Node(Bare(id, parent), kids)], "") == ["* " + id, "|\\"] + below
  {
    RenderOne(style, Node(Bare(id, parent), kids), "");
    EntryTop(style, id, parent, kids);
    BranchTrimmed(style, "", "", "|\\", 2);
  }

  /** A single commit at the left edge, over three children. */
  lemma RenderTopThree(style: Style, id: string, parent: Option<string>, kids: seq<Node>, below: seq<string>)
    requires |id| == 1 && !InCutset(id[0]) && |kids| == 3 && Render(style, kids, "") == below
    ensures Render(style, [Node(Bare(id, parent), kids)], "") == ["* " + id, "|\\ \\"] + below
  {
    RenderOne(style, Node(Bare(id, parent), kids), "");
    EntryTop(style, id, parent, kids);
    assert Repeat("\\ ", 1) == "\\ ";
    BranchTrimmed(style, "", "", "|\\ \\", 3);
  }

  /** `TestRenderTree1Branch`, drawn: `B` and `C` under `A`, `D` under `B`. */
  lemma Render1Branch(style: Style)
    ensures Render(style, [Node(Bare("A", Some("")), [Node(Bare("B", Some("A")), [Leaf("D", "B")]), Leaf("C", "A")])], "")
         == ["* A", "|\\", "| * B", "| * D", "* C"]
  {
    var b := Node(Bare("B", Some("A")), [Leaf("D", "B")]);
    var c := Leaf("C", "A");
    var below := ["| * B", "| * D", "* C"];
    assert "* " + "A" == "* A";
    assert ["* " + "A", "|\\"] + below == ["* A", "|\\", "| * B", "| * D", "* C"];
    Render1BranchKids(style);
    RenderTopTwo(style, "A", Some(""), [b, c], below);
  }

  lemma Render1BranchKids(style: Style)
    ensures Render(style, [Node(Bare("B", Some("A")), [Leaf("D", "B")]), Leaf("C", "A")], "") == ["| * B", "| * D", "* C"]
  {
    var b := Node(Bare("B", Some("A")), [Leaf("D", "B")]);
    var c := Leaf("C", "A");
    RenderTwo(style, [b, c], "");
    assert TrimAll(Entry(style, [b, c], "", 0)) == ["| * B", "| * D"] by {
      assert Pre(2, 0, b.commit) == "| ";
      EntryBare(style, [b, c], "", 0, "| ");
      assert "" + "| " == "| ";
      assert "" + "| " + "* " + "B" == "| * B";
      RenderLeaf(style, "D", "B", "| ");
      assert "| " + "* " + "D" == "| * D";
    }
    assert TrimAll(Entry(style, [b, c], "", 1)) == ["* C"] by {
      assert Pre(2, 1, c.commit) == "";
      EntryBare(style, [b, c], "", 1, "");
      assert "" + "" + "* " + "C" == "* C";
      RenderEmpty(style, [], "" + "");
    }
  }


  /** `TestRenderTree1Branch`, linked: the map is the four commits by id. */
  lemma Latest1Branch()
    ensures Latest([Bare("A", Some("")), Bare("B", Some("A")), Bare("C", Some("A")), Bare("D", Some("B"))])
         == map["A" := Bare("A", Some("")), "B" := Bare("B", Some("A")), "C" := Bare("C", Some("A")), "D" := Bare("D", Some("B"))]
  {
    var a, b, c, d := Bare("A", Some("")), Bare("B", Some("A")), Bare("C", Some("A")), Bare("D", Some("B"));
    LatestSnoc([], a);
    LatestSnoc([a], b);
    LatestSnoc([a, b], c);
    LatestSnoc([a, b, c], d);
    assert [] + [a] == [a] && [a] + [b] == [a, b] && [a, b] + [c] == [a, b, c] && [a, b, c] + [d] == [a, b, c, d];
  }

  lemma GrownOne(m: map<string, Commit>, id: string, above: set<string>, kid: Node)
    requires id in m && id !in above && Grow(m, id, above) == kid
    ensures Grown(m, [kid], [id], above)
  {
  }

  lemma GrownTwo(m: map<string, Commit>, ids: seq<string>, above: set<string>, kids: seq<Node>)
    requires |ids| == 2 == |kids|
    requires ids[0] in m && ids[0] !in above && Grow(m, ids[0], above) == kids[0]
    requires ids[1] in m && ids[1] !in above && Grow(m, ids[1], above) == kids[1]
    ensures Grown(m, kids, ids, above)
  {
    forall j | 0 <= j < |ids| ensures ids[j] in m && ids[j] !in above && kids[j] == Grow(m, ids[j], above) {
      if j != 0 {
        assert j == 1;
      }
    }
  }

  lemma GrownThree(m: map<string, Commit>, ids: seq<string>, above: set<string>, kids: seq<Node>)
    requires |ids| == 3 == |kids|
    requires ids[0] in m && ids[0] !in above && Grow(m, ids[0], above) == kids[0]
    requires ids[1] in m && ids[1] !in above && Grow(m, ids[1], above) == kids[1]
    requires ids[2] in m && ids[2] !in above && Grow(m, ids[2], above) == kids[2]
    ensures Grown(m, kids, ids, above)
  {
    forall j | 0 <= j < |ids| ensures ids[j] in m && ids[j] !in above && kids[j] == Grow(m, ids[j], above) {
      if j != 0 && j != 1 {
        assert j == 2;
      }
    }
  }

  /** A map with the single root `r` grows into the one tree of `r`. */
  lemma ForestOne(m: map<string, Commit>, r: string, tree: Node)
    requires RootIds(m) == {r} && r in m && Grow(m, r, {}) == tree
    ensures Forest(m) == [tree]
  {
    AscendingUnique([r], RootIds(m));
    GrownOne(m, r, {}, tree);
    ForestFrom(m, [tree]);
  }

  lemma RootLeavesTwo(s: set<string>, r: string, x: string, y: string)
    requires s == {x, y} && r != x && r != y
    ensures s - {} - {r} == {x, y} && {} + {r} == {r}
  {
  }

  lemma RootLeavesThree(s: set<string>, r: string, x: string, y: string, z: string)
    requires s == {x, y, z} && r != x && r != y && r != z
    ensures s - {} - {r} == {x, y, z} && {} + {r} == {r}
  {
  }

  /** The ways down used by the golden trees, one id at a time. */
  lemma LiteralSets()
    ensures {} + {"A"} == {"A"} && {"A"} + {"B"} == {"A", "B"} && {"A", "B"} + {"D"} == {"A", "B", "D"}
  {
  }

  /** A single root `r` over two children, `ids` in ascending order. */
  lemma ForestOneTwoKids(m: map<string, Commit>, r: string, ids: seq<string>, kids: seq<Node>)
    requires r in m && RootIds(m) == {r} && |ids| == 2 && LexLess(ids[0], ids[1])
    requires ChildIds(m, r) == {ids[0], ids[1]} && r != ids[0] && r != ids[1]
    requires Grown(m, kids, ids, {r})
    ensures Forest(m) == [Node(m[r], kids)]
  {
    RootLeavesTwo(ChildIds(m, r), r, ids[0], ids[1]);
    GrowTwoKids(m, r, {}, ids, kids);
    ForestOne(m, r, Node(m[r], kids));
  }

  /** A single root `r` over three children, `ids` in ascending order. */
  lemma ForestOneThreeKids(m: map<string, Commit>, r: string, ids: seq<string>, kids: seq<Node>)
    requires r in m && RootIds(m) == {r} && |ids| == 3 && LexLess(ids[0], ids[1]) && LexLess(ids[1], ids[2])
    requires ChildIds(m, r) == {ids[0], ids[1], ids[2]} && r != ids[0] && r != ids[1] && r != ids[2]
    requires Grown(m, kids, ids, {r})
    ensures Forest(m) == [Node(m[r], kids)]
  {
    RootLeavesThree(ChildIds(m, r), r, ids[0], ids[1], ids[2]);
    GrowThreeKids(m, r, {}, ids, kids);
    ForestOne(m, r, Node(m[r], kids));
  }

  /** A node with one child left to hang. */
  lemma GrowOneKid(m: map<string, Commit>, id: string, above: set<string>, kidId: string, kid: Node)
    requires id in m && id !in above && ChildIds(m, id) - above - {id} == {kidId}
    requires kidId in m && kidId !in above + {id} && Grow(m, kidId, above + {id}) == kid
    ensures Grow(m, id, above) == Node(m[id], [kid])
  {
    ListedOne(kidId, ChildIds(m, id) - above - {id});
    GrownOne(m, kidId, above + {id}, kid);
    GrowKids(m, id, above, [kidId], [kid]);
  }

  lemma ListedOne(x: string, s: set<string>)
    requires s == {x}
    ensures Increasing([x]) && Elems([x]) == s
  {
    assert forall y :: y in [x] <==> y == x;
  }

  lemma ListedTwo(ids: seq<string>)
    requires |ids| == 2 && LexLess(ids[0], ids[1])
    ensures Increasing(ids) && Elems(ids) == {ids[0], ids[1]}
  {
    forall i, j | 0 <= i < j < |ids| ensures LexLess(ids[i], ids[j]) {
      assert i == 0 && j == 1;
    }
    assert forall x :: x in ids <==> x == ids[0] || x == ids[1];
  }

  lemma ListedThree(ids: seq<string>)
    requires |ids| == 3 && LexLess(ids[0], ids[1]) && LexLess(ids[1], ids[2])
    ensures Increasing(ids) && Elems(ids) == {ids[0], ids[1], ids[2]}
  {
    LexLessTransitive(ids[0], ids[1], ids[2]);
    forall i, j | 0 <= i < j < |ids| ensures LexLess(ids[i], ids[j]) {
      if i == 0 && j == 2 {
      } else if i == 0 {
        assert j == 1;
      } else {
        assert i == 1 && j == 2;
      }
    }
    assert forall x :: x in ids <==> x == ids[0] || x == ids[1] || x == ids[2];
  }

  /** A node with two children left to hang, `ids` in ascending order. */
  lemma GrowTwoKids(m: map<string, Commit>, id: string, above: set<string>, ids: seq<string>, kids: seq<Node>)
    requires id in m && id !in above && |ids| == 2 && LexLess(ids[0], ids[1])
    requires ChildIds(m, id) - above - {id} == {ids[0], ids[1]}
    requires Grown(m, kids, ids, above + {id})
    ensures Grow(m, id, above) == Node(m[id], kids)
  {
    ListedTwo(ids);
    GrowKids(m, id, above, ids, kids);
  }

  /** A node with three children left to hang, `ids` in ascending order. */
  lemma GrowThreeKids(m: map<string, Commit>, id: string, above: set<string>, ids: seq<string>, kids: seq<Node>)
    requires id in m && id !in above && |ids| == 3 && LexLess(ids[0], ids[1]) && LexLess(ids[1], ids[2])
    requires ChildIds(m, id) - above - {id} == {ids[0], ids[1], ids[2]}
    requires Grown(m, kids, ids, above + {id})
    ensures Grow(m, id, above) == Node(m[id], kids)
  {
    ListedThree(ids);
    GrowKids(m, id, above, ids, kids);
  }

  lemma Grow1BranchB(m: map<string, Commit>)
    requires "A" in m && "B" in m && "D" in m
    requires ChildIds(m, "B") == {"D"} && ChildIds(m, "D") == {}
    ensures Grow(m, "B", {"A"}) == Node(m["B"], [Node(m["D"], [])])
  {
    GrowLeaf(m, "D", {"A", "B"});
    LiteralSets();
    GrowOneKid(m, "B", {"A"}, "D", Node(m["D"], []));
  }

  /** `A` over `B` and `C`, `B` over `D`, grown from any map linked that way. */
  lemma Grow1Branch(m: map<string, Commit>)
    requires "A" in m && "B" in m && "C" in m && "D" in m
    requires ChildIds(m, "A") == {"B", "C"} && ChildIds(m, "B") == {"D"}
    requires ChildIds(m, "C") == {} && ChildIds(m, "D") == {} && RootIds(m) == {"A"}
    ensures Forest(m) == [Node(m["A"], [Node(m["B"], [Node(m["D"], [])]), Node(m["C"], [])])]
  {
    Grown1BranchBC(m);
    ForestOneTwoKids(m, "A", ["B", "C"], [Node(m["B"], [Node(m["D"], [])]), Node(m["C"], [])]);
  }

  lemma Grown1BranchBC(m: map<string, Commit>)
    requires "A" in m && "B" in m && "C" in m && "D" in m
    requires ChildIds(m, "B") == {"D"} && ChildIds(m, "C") == {} && ChildIds(m, "D") == {}
    ensures Grown(m, [Node(m["B"], [Node(m["D"], [])]), Node(m["C"], [])], ["B", "C"], {"A"})
  {
    Grow1BranchB(m);
    GrowLeaf(m, "C", {"A"});
    GrownTwo(m, ["B", "C"], {"A"}, [Node(m["B"], [Node(m["D"], [])]), Node(m["C"], [])]);
  }

  lemma Links1Branch(m: map<string, Commit>)
    requires m == map["A" := Bare("A", Some("")), "B" := Bare("B", Some("A")), "C" := Bare("C", Some("A")), "D" := Bare("D", Some("B"))]
    ensures ChildIds(m, "A") == {"B", "C"} && ChildIds(m, "B") == {"D"} && ChildIds(m, "C") == {} && ChildIds(m, "D") == {}
  {
  }

  lemma Build1Branch()
    ensures Forest(Latest([Bare("A", Some("")), Bare("B", Some("A")), Bare("C", Some("A")), Bare("D", Some("B"))]))
         == [Node(Bare("A", Some("")), [Node(Bare("B", Some("A")), [Leaf("D", "B")]), Leaf("C", "A")])]
  {
    var a, b, c, d := Bare("A", Some("")), Bare("B", Some("A")), Bare("C", Some("A")), Bare("D", Some("B"));
    var m := map["A" := a, "B" := b, "C" := c, "D" := d];
    Latest1Branch();
    Links1Branch(m);
    assert RootIds(m) == {"A"};
    Grow1Branch(m);
  }

  /** `TestRenderTree1Branch`, end to end. */
  lemma Golden1Branch(style: Style)
    ensures Render(style, Forest(Latest([Bare("A", Some("")), Bare("B", Some("A")), Bare("C", Some("A")), Bare("D", Some("B"))])), "")
         == ["* A", "|\\", "| * B", "| * D", "* C"]
  {
    Build1Branch();
    Render1Branch(style);
  }

  // ---------------------------------------------------------------------
  // Two and three commits in a line

  lemma Render2Commits(style: Style)
    ensures Render(style, [Node(Bare("A", Some("")), [Leaf("B", "A")])], "") == ["* A", "* B"]
  {
    RenderLeaf(style, "B", "A", "");
    assert "" + "* " + "B" == "* B" && "* " + "A" == "* A";
    assert ["* " + "A"] + ["* B"] == ["* A", "* B"];
    RenderTopOne(style, "A", Some(""), [Leaf("B", "A")], ["* B"]);
  }


  lemma Build2Commits()
    ensures Forest(Latest([Bare("A", Some("")), Bare("B", Some("A"))])) == [Node(Bare("A", Some("")), [Leaf("B", "A")])]
  {
    var a, b := Bare("A", Some("")), Bare("B", Some("A"));
    var m := map["A" := a, "B" := b];
    LatestSnoc([], a);
    LatestSnoc([a], b);
    assert [] + [a] == [a] && [a] + [b] == [a, b];
    Links2Commits(m);
    Grow2Commits(m);
  }

  lemma Links2Commits(m: map<string, Commit>)
    requires m == map["A" := Bare("A", Some("")), "B" := Bare("B", Some("A"))]
    ensures ChildIds(m, "A") == {"B"} && ChildIds(m, "B") == {} && RootIds(m) == {"A"}
  {
  }

  lemma Grow2Commits(m: map<string, Commit>)
    requires "A" in m && "B" in m
    requires ChildIds(m, "A") == {"B"} && ChildIds(m, "B") == {} && RootIds(m) == {"A"}
    ensures Forest(m) == [Node(m["A"], [Node(m["B"], [])])]
  {
    GrowLeaf(m, "B", {"A"});
    LiteralSets();
    GrowOneKid(m, "A", {}, "B", Node(m["B"], []));
    ForestOne(m, "A", Node(m["A"], [Node(m["B"], [])]));
  }

  /** `TestRenderTree2Commits`, end to end. */
  lemma Golden2Commits(style: Style)
    ensures Render(style, Forest(Latest([Bare("A", Some("")), Bare("B", Some("A"))])), "") == ["* A", "* B"]
  {
    Build2Commits();
    Render2Commits(style);
  }

  lemma Render3Commits(style: Style)
    ensures Render(style, [Node(Bare("A", Some("")), [Node(Bare("B", Some("A")), [Leaf("C", "B")])])], "") == ["* A", "* B", "* C"]
  {
    var b := Node(Bare("B", Some("A")), [Leaf("C", "B")]);
    RenderLeaf(style, "C", "B", "");
    assert "" + "* " + "C" == "* C" && "* " + "B" == "* B";
    assert ["* " + "B"] + ["* C"] == ["* B", "* C"];
    RenderTopOne(style, "B", Some("A"), [Leaf("C", "B")], ["* C"]);
    assert "* " + "A" == "* A";
    assert ["* " + "A"] + ["* B", "* C"] == ["* A", "* B", "* C"];
    RenderTopOne(style, "A", Some(""), [b], ["* B", "* C"]);
  }


  lemma Build3Commits()
    ensures Forest(Latest([Bare("A", Some("")), Bare("B", Some("A")), Bare("C", Some("B"))]))
         == [Node(Bare("A", Some("")), [Node(Bare("B", Some("A")), [Leaf("C", "B")])])]
  {
    var a, b, c := Bare("A", Some("")), Bare("B", Some("A")), Bare("C", Some("B"));
    var m := map["A" := a, "B" := b, "C" := c];
    LatestSnoc([], a);
    LatestSnoc([a], b);
    LatestSnoc([a, b], c);
    assert [] + [a] == [a] && [a] + [b] == [a, b] && [a, b] + [c] == [a, b, c];
    Links3Commits(m);
    Grow3Commits(m);
  }

  lemma Links3Commits(m: map<string, Commit>)
    requires m == map["A" := Bare("A", Some("")), "B" := Bare("B", Some("A")), "C" := Bare("C", Some("B"))]
    ensures ChildIds(m, "A") == {"B"} && ChildIds(m, "B") == {"C"} && ChildIds(m, "C") == {} && RootIds(m) == {"A"}
  {
  }

  lemma Grow3Commits(m: map<string, Commit>)
    requires "A" in m && "B" in m && "C" in m
    requires ChildIds(m, "A") == {"B"} && ChildIds(m, "B") == {"C"} && ChildIds(m, "C") == {} && RootIds(m) == {"A"}
    ensures Forest(m) == [Node(m["A"], [Node(m["B"], [Node(m["C"], [])])])]
  {
    GrowLeaf(m, "C", {"A", "B"});
    LiteralSets();
    GrowOneKid(m, "B", {"A"}, "C", Node(m["C"], []));
    GrowOneKid(m, "A", {}, "B", Node(m["B"], [Node(m["C"], [])]));
    ForestOne(m, "A", Node(m["A"], [Node(m["B"], [Node(m["C"], [])])]));
  }

  /** `TestRenderTree3Commits`, end to end. */
  lemma Golden3Commits(style: Style)
    ensures Render(style, Forest(Latest([Bare("A", Some("")), Bare("B", Some("A")), Bare("C", Some("B"))])), "")
         == ["* A", "* B", "* C"]
  {
    Build3Commits();
    Render3Commits(style);
  }

  // ---------------------------------------------------------------------
  // Two roots

  lemma Render2Roots(style: Style)
    ensures Render(style, [Node(Bare("A", None), []), Node(Bare("B", None), [])], "") == ["* A", Separator, "* B"]
  {
    var a, b := Node(Bare("A", None), []), Node(Bare("B", None), []);
    RenderTwo(style, [a, b], "");
    assert Pre(2, 0, a.commit) == "" && Pre(2, 1, b.commit) == "";
    assert "" + "" == "" && "" + "" + "* " + "A" == "* A" && "" + "" + "* " + "B" == "* B";
    RenderEmpty(style, [], "");
    EntryBare(style, [a, b], "", 0, "");
    EntryBare(style, [a, b], "", 1, "");
  }

  lemma Build2Roots()
    ensures Forest(Latest([Bare("A", None), Bare("B", None)])) == [Node(Bare("A", None), []), Node(Bare("B", None), [])]
  {
    var a, b := Bare("A", None), Bare("B", None);
    var m := map["A" := a, "B" := b];
    LatestSnoc([], a);
    LatestSnoc([a], b);
    assert [] + [a] == [a] && [a] + [b] == [a, b];
    assert ChildIds(m, "A") == {} && ChildIds(m, "B") == {};
    assert RootIds(m) == {"A", "B"};
    var roots := [Node(a, []), Node(b, [])];
    GrowLeaf(m, "A", {});
    GrowLeaf(m, "B", {});
    GrownTwo(m, ["A", "B"], {}, roots);
    ListedTwo(["A", "B"]);
    AscendingUnique(["A", "B"], RootIds(m));
    ForestFrom(m, roots);
  }

  /** `TestRenderTree2Roots`, end to end. */
  lemma Golden2Roots(style: Style)
    ensures Render(style, Forest(Latest([Bare("A", None), Bare("B", None)])), "") == ["* A", Separator, "* B"]
  {
    Build2Roots();
    Render2Roots(style);
  }

  // ---------------------------------------------------------------------
  // Nested branches

  /** `D` over `F`, under `B`. */
  function TreeD(): Node {
    Node(Bare("D", Some("B")), [Leaf("F", "D")])
  }

  /** `B` over `D` and `E`, under `A`. */
  function TreeB(): Node {
    Node(Bare("B", Some("A")), [TreeD(), Leaf("E", "B")])
  }

  lemma Entry2BranchD(style: Style)
    ensures TrimAll(Entry(style, [TreeD(), Leaf("E", "B")], "| ", 0)) == ["| | * D", "| | * F"]
  {
    var d := TreeD();
    assert Pre(2, 0, d.commit) == "| ";
    EntryBare(style, [d, Leaf("E", "B")], "| ", 0, "| ");
    RenderLeaf(style, "F", "D", "| " + "| ");
    assert "| " + "| " + "* " + "D" == "| | * D" && "| " + "| " + "* " + "F" == "| | * F";
  }

  lemma Entry2BranchE(style: Style)
    ensures TrimAll(Entry(style, [TreeD(), Leaf("E", "B")], "| ", 1)) == ["| * E"]
  {
    var e := Leaf("E", "B");
    assert Pre(2, 1, e.commit) == "";
    EntryBare(style, [TreeD(), e], "| ", 1, "");
    assert "| " + "" == "| " && "| " + "" + "* " + "E" == "| * E";
    RenderEmpty(style, [], "| ");
  }

  lemma Render2BranchDE(style: Style)
    ensures Render(style, [TreeD(), Leaf("E", "B")], "| ") == ["| | * D", "| | * F", "| * E"]
  {
    RenderTwo(style, [TreeD(), Leaf("E", "B")], "| ");
    Entry2BranchD(style);
    Entry2BranchE(style);
  }

  lemma Entry2BranchB(style: Style)
    ensures TrimAll(Entry(style, [TreeB(), Leaf("C", "A")], "", 0)) == ["| * B", "| |\\", "| | * D", "| | * F", "| * E"]
  {
    Entry2BranchBParts(style);
    assert Repeat("\\ ", 0) == "";
    BranchTrimmed(style, "", "| ", "| |\\", 2);
    Render2BranchDE(style);
  }

  lemma Entry2BranchBParts(style: Style)
    ensures TrimAll(Entry(style, [TreeB(), Leaf("C", "A")], "", 0))
         == ["| * B", Trim(BranchLine(style, "", "| ", 2))] + Render(style, [TreeD(), Leaf("E", "B")], "| ")
  {
    var b := TreeB();
    assert Pre(2, 0, b.commit) == "| ";
    EntryBare(style, [b, Leaf("C", "A")], "", 0, "| ");
    PipePad();
  }

  lemma Entry2BranchC(style: Style)
    ensures TrimAll(Entry(style, [TreeB(), Leaf("C", "A")], "", 1)) == ["* C"]
  {
    var c := Leaf("C", "A");
    assert Pre(2, 1, c.commit) == "";
    EntryBare(style, [TreeB(), c], "", 1, "");
    assert "" + "" == "" && "" + "" + "* " + "C" == "* C";
    RenderEmpty(style, [], "");
  }

  lemma Render2BranchBC(style: Style)
    ensures Render(style, [TreeB(), Leaf("C", "A")], "") == ["| * B", "| |\\", "| | * D", "| | * F", "| * E", "* C"]
  {
    RenderTwo(style, [TreeB(), Leaf("C", "A")], "");
    Entry2BranchB(style);
    Entry2BranchC(style);
  }

  lemma Render2Branch(style: Style)
    ensures Render(style, [Node(Bare("A", None), [TreeB(), Leaf("C", "A")])], "")
         == ["* A", "|\\", "| * B", "| |\\", "| | * D", "| | * F", "| * E", "* C"]
  {
    var below := ["| * B", "| |\\", "| | * D", "| | * F", "| * E", "* C"];
    assert "* " + "A" == "* A";
    assert ["* " + "A", "|\\"] + below == ["* A", "|\\", "| * B", "| |\\", "| | * D", "| | * F", "| * E", "* C"];
    Render2BranchBC(style);
    RenderTopTwo(style, "A", None, [TreeB(), Leaf("C", "A")], below);
  }


  /** The commits of `TestRenderTree2Branch`, by id. */
  function Map2Branch(): map<string, Commit> {
    map["A" := Bare("A", None), "B" := Bare("B", Some("A")), "C" := Bare("C", Some("A")),
        "D" := Bare("D", Some("B")), "E" := Bare("E", Some("B")), "F" := Bare("F", Some("D"))]
  }

  lemma Links2Branch(m: map<string, Commit>)
    requires m == Map2Branch()
    ensures ChildIds(m, "A") == {"B", "C"} && ChildIds(m, "B") == {"D", "E"} && ChildIds(m, "D") == {"F"}
    ensures ChildIds(m, "C") == {} && ChildIds(m, "E") == {} && ChildIds(m, "F") == {}
  {
  }

  lemma Lookups2Branch(m: map<string, Commit>)
    requires m == Map2Branch()
    ensures "A" in m && "B" in m && "C" in m && "D" in m && "E" in m && "F" in m
    ensures m["A"] == Bare("A", None) && m["B"] == Bare("B", Some("A")) && m["C"] == Bare("C", Some("A"))
    ensures m["D"] == Bare("D", Some("B")) && m["E"] == Bare("E", Some("B")) && m["F"] == Bare("F", Some("D"))
  {
  }

  lemma Roots2Branch(m: map<string, Commit>)
    requires m == Map2Branch()
    ensures RootIds(m) == {"A"}
  {
  }

  lemma Grow2BranchD(m: map<string, Commit>)
    requires "A" in m && "B" in m && "D" in m && "F" in m
    requires ChildIds(m, "D") == {"F"} && ChildIds(m, "F") == {}
    ensures Grow(m, "D", {"A", "B"}) == Node(m["D"], [Node(m["F"], [])])
  {
    LiteralSets();
    GrowLeaf(m, "F", {"A", "B", "D"});
    GrowOneKid(m, "D", {"A", "B"}, "F", Node(m["F"], []));
  }

  lemma Grown2BranchDE(m: map<string, Commit>)
    requires "A" in m && "B" in m && "D" in m && "E" in m && "F" in m
    requires ChildIds(m, "D") == {"F"} && ChildIds(m, "E") == {} && ChildIds(m, "F") == {}
    ensures Grown(m, [Node(m["D"], [Node(m["F"], [])]), Node(m["E"], [])], ["D", "E"], {"A", "B"})
  {
    Grow2BranchD(m);
    GrowLeaf(m, "E", {"A", "B"});
    GrownTwo(m, ["D", "E"], {"A", "B"}, [Node(m["D"], [Node(m["F"], [])]), Node(m["E"], [])]);
  }

  lemma Grow2BranchB(m: map<string, Commit>)
    requires "A" in m && "B" in m && "D" in m && "E" in m && "F" in m
    requires ChildIds(m, "B") == {"D", "E"} && ChildIds(m, "D") == {"F"} && ChildIds(m, "E") == {} && ChildIds(m, "F") == {}
    ensures Grow(m, "B", {"A"}) == Node(m["B"], [Node(m["D"], [Node(m["F"], [])]), Node(m["E"], [])])
  {
    LiteralSets();
    assert ChildIds(m, "B") - {"A"} - {"B"} == {"D", "E"};
    assert LexLess("D", "E");
    Grown2BranchDE(m);
    GrowTwoKids(m, "B", {"A"}, ["D", "E"], [Node(m["D"], [Node(m["F"], [])]), Node(m["E"], [])]);
  }

  lemma Grown2BranchBC(m: map<string, Commit>)
    requires "A" in m && "B" in m && "C" in m && "D" in m && "E" in m && "F" in m
    requires ChildIds(m, "B") == {"D", "E"} && ChildIds(m, "D") == {"F"}
    requires ChildIds(m, "C") == {} && ChildIds(m, "E") == {} && ChildIds(m, "F") == {}
    ensures Grown(m, [Node(m["B"], [Node(m["D"], [Node(m["F"], [])]), Node(m["E"], [])]), Node(m["C"], [])], ["B", "C"], {"A"})
  {
    Grow2BranchB(m);
    GrowLeaf(m, "C", {"A"});
    GrownTwo(m, ["B", "C"], {"A"}, [Node(m["B"], [Node(m["D"], [Node(m["F"], [])]), Node(m["E"], [])]), Node(m["C"], [])]);
  }

  lemma Grow2Branch(m: map<string, Commit>)
    requires "A" in m && "B" in m && "C" in m && "D" in m && "E" in m && "F" in m
    requires ChildIds(m, "A") == {"B", "C"} && ChildIds(m, "B") == {"D", "E"} && ChildIds(m, "D") == {"F"}
    requires ChildIds(m, "C") == {} && ChildIds(m, "E") == {} && ChildIds(m, "F") == {} && RootIds(m) == {"A"}
    ensures Forest(m) == [Node(m["A"], [Node(m["B"], [Node(m["D"], [Node(m["F"], [])]), Node(m["E"], [])]), Node(m["C"], [])])]
  {
    Grown2BranchBC(m);
    ForestOneTwoKids(m, "A", ["B", "C"], [Node(m["B"], [Node(m["D"], [Node(m["F"], [])]), Node(m["E"], [])]), Node(m["C"], [])]);
  }

  lemma Latest2Branch()
    ensures Latest([Bare("A", None), Bare("B", Some("A")), Bare("C", Some("A")), Bare("D", Some("B")), Bare("E", Some("B")), Bare("F", Some("D"))])
         == Map2Branch()
  {
    var a, b, c := Bare("A", None), Bare("B", Some("A")), Bare("C", Some("A"));
    var d, e, f := Bare("D", Some("B")), Bare("E", Some("B")), Bare("F", Some("D"));
    LatestSnoc([], a);
    LatestSnoc([a], b);
    LatestSnoc([a, b], c);
    LatestSnoc([a, b, c], d);
    LatestSnoc([a, b, c, d], e);
    LatestSnoc([a, b, c, d, e], f);
    assert [] + [a] == [a] && [a] + [b] == [a, b] && [a, b] + [c] == [a, b, c] && [a, b, c] + [d] == [a, b, c, d];
    assert [a, b, c, d] + [e] == [a, b, c, d, e] && [a, b, c, d, e] + [f] == [a, b, c, d, e, f];
  }

  lemma Build2Branch()
    ensures Forest(Latest([Bare("A", None), Bare("B", Some("A")), Bare("C", Some("A")),
                           Bare("D", Some("B")), Bare("E", Some("B")), Bare("F", Some("D"))]))
         == [Node(Bare("A", None), [TreeB(), Leaf("C", "A")])]
  {
    var m := Map2Branch();
    Latest2Branch();
    Links2Branch(m);
    Roots2Branch(m);
    Lookups2Branch(m);
    Grow2Branch(m);
  }

  /** `TestRenderTree2Branch`, end to end. */
  lemma Golden2Branch(style: Style)
    ensures Render(style, Forest(Latest([Bare("A", None), Bare("B", Some("A")), Bare("C", Some("A")),
                                         Bare("D", Some("B")), Bare("E", Some("B")), Bare("F", Some("D"))])), "")
         == ["* A", "|\\", "| * B", "| |\\", "| | * D", "| | * F", "| * E", "* C"]
  {
    Build2Branch();
    Render2Branch(style);
  }

  // ---------------------------------------------------------------------
  // Three children of one parent

  lemma Render2Branch1ParentKids(style: Style)
    ensures Render(style, [Leaf("B", "A"), Leaf("C", "A"), Leaf("D", "A")], "") == ["| | * B", "| * C", "* D"]
  {
    var b, c, d := Leaf("B", "A"), Leaf("C", "A"), Leaf("D", "A");
    RenderThree(style, [b, c, d], "");
    assert TrimAll(Entry(style, [b, c, d], "", 0)) == ["| | * B"] by {
      assert Pre(3, 0, b.commit) == "| | ";
      EntryBare(style, [b, c, d], "", 0, "| | ");
      RenderEmpty(style, [], "" + "| | ");
      assert "" + "| | " + "* " + "B" == "| | * B";
    }
    assert TrimAll(Entry(style, [b, c, d], "", 1)) == ["| * C"] by {
      assert Pre(3, 1, c.commit) == "| ";
      EntryBare(style, [b, c, d], "", 1, "| ");
      RenderEmpty(style, [], "" + "| ");
      assert "" + "| " + "* " + "C" == "| * C";
    }
    assert TrimAll(Entry(style, [b, c, d], "", 2)) == ["* D"] by {
      assert Pre(3, 2, d.commit) == "";
      EntryBare(style, [b, c, d], "", 2, "");
      RenderEmpty(style, [], "" + "");
      assert "" + "" + "* " + "D" == "* D";
    }
  }

  lemma Render2Branch1Parent(style: Style)
    ensures Render(style, [Node(Bare("A", None), [Leaf("B", "A"), Leaf("C", "A"), Leaf("D", "A")])], "")
         == ["* A", "|\\ \\", "| | * B", "| * C", "* D"]
  {
    var below := ["| | * B", "| * C", "* D"];
    assert "* " + "A" == "* A";
    assert ["* " + "A", "|\\ \\"] + below == ["* A", "|\\ \\", "| | * B", "| * C", "* D"];
    Render2Branch1ParentKids(style);
    RenderTopThree(style, "A", None, [Leaf("B", "A"), Leaf("C", "A"), Leaf("D", "A")], below);
  }


  /** The commits of `TestRenderTree2Branch1Parent`, by id. */
  function Map2Branch1Parent(): map<string, Commit> {
    map["A" := Bare("A", None), "B" := Bare("B", Some("A")), "C" := Bare("C", Some("A")), "D" := Bare("D", Some("A"))]
  }

  lemma Latest2Branch1Parent()
    ensures Latest([Bare("A", None), Bare("B", Some("A")), Bare("C", Some("A")), Bare("D", Some("A"))]) == Map2Branch1Parent()
  {
    var a, b, c, d := Bare("A", None), Bare("B", Some("A")), Bare("C", Some("A")), Bare("D", Some("A"));
    LatestSnoc([], a);
    LatestSnoc([a], b);
    LatestSnoc([a, b], c);
    LatestSnoc([a, b, c], d);
    assert [] + [a] == [a] && [a] + [b] == [a, b] && [a, b] + [c] == [a, b, c] && [a, b, c] + [d] == [a, b, c, d];
  }

  lemma Links2Branch1Parent(m: map<string, Commit>)
    requires m == Map2Branch1Parent()
    ensures ChildIds(m, "A") == {"B", "C", "D"} && ChildIds(m, "B") == {} && ChildIds(m, "C") == {} && ChildIds(m, "D") == {}
    ensures RootIds(m) == {"A"}
  {
  }

  lemma Grow2Branch1Parent(m: map<string, Commit>)
    requires "A" in m && "B" in m && "C" in m && "D" in m
    requires ChildIds(m, "A") == {"B", "C", "D"} && ChildIds(m, "B") == {} && ChildIds(m, "C") == {} && ChildIds(m, "D") == {}
    requires RootIds(m) == {"A"}
    ensures Forest(m) == [Node(m["A"], [Node(m["B"], []), Node(m["C"], []), Node(m["D"], [])])]
  {
    Grown2Branch1ParentKids(m);
    ForestOneThreeKids(m, "A", ["B", "C", "D"], [Node(m["B"], []), Node(m["C"], []), Node(m["D"], [])]);
  }

  lemma Grown2Branch1ParentKids(m: map<string, Commit>)
    requires "A" in m && "B" in m && "C" in m && "D" in m
    requires ChildIds(m, "B") == {} && ChildIds(m, "C") == {} && ChildIds(m, "D") == {}
    ensures Grown(m, [Node(m["B"], []), Node(m["C"], []), Node(m["D"], [])], ["B", "C", "D"], {"A"})
  {
    GrowLeaf(m, "B", {"A"});
    GrowLeaf(m, "C", {"A"});
    GrowLeaf(m, "D", {"A"});
    GrownThree(m, ["B", "C", "D"], {"A"}, [Node(m["B"], []), Node(m["C"], []), Node(m["D"], [])]);
  }

  lemma Build2Branch1Parent()
    ensures Forest(Latest([Bare("A", None), Bare("B", Some("A")), Bare("C", Some("A")), Bare("D", Some("A"))]))
         == [Node(Bare("A", None), [Leaf("B", "A"), Leaf("C", "A"), Leaf("D", "A")])]
  {
    var m := Map2Branch1Parent();
    Latest2Branch1Parent();
    Links2Branch1Parent(m);
    Grow2Branch1Parent(m);
  }

  /** `TestRenderTree2Branch1Parent`, end to end. */
  lemma Golden2Branch1Parent(style: Style)
    ensures Render(style, Forest(Latest([Bare("A", None), Bare("B", Some("A")), Bare("C", Some("A")), Bare("D", Some("A"))])), "")
         == ["* A", "|\\ \\", "| | * B", "| * C", "* D"]
  {
    Build2Branch1Parent();
    Render2Branch1Parent(style);
  }
}
