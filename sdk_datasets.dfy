/** The Python SDK's dataset helpers (`traintrack.datasets`): deriving a
    child dataset, the immutability guard in front of `save`, and the
    lookups over a listed collection. Everything here works on values:
    no helper changes the objects it is given. */
module SdkDatasets {
  import opened Common
  import opened Strings

  /** A `Dataset` object; `id` stays None until the service has stored it. */
  datatype Dataset = Dataset(id: Option<string>, name: string, version: string, description: string, parent: Option<string>)

  /** The JSON body `save` posts to `/datasets`. */
  datatype Payload = Payload(name: string, version: string, description: string, parent: Option<string>)

  /** The message of the exception `save` raises for a stored dataset. */
  const ImmutableMessage := "datasets should be immutable but you're trying to modify an existing dataset"

  /** `Dataset.transform`: a new, unsaved dataset derived from `self`. The
      transformation function is accepted and never called. */
  function Transform(self: Dataset, name: string, description: string, version: string): (r: Dataset)
    ensures r.id.None? && r.parent == self.id
    ensures r.name == name && r.version == version && r.description == description
  {
    Dataset(None, name, version, description, self.id)
  }

  /** The guard and request body of `Dataset.save`: a stored dataset is
      refused unless `force` is set, before anything is sent. */
  function Save(self: Dataset, force: bool): (r: Result<Payload, string>)
    ensures r.Failure? <==> self.id.Some? && !force
    ensures r.Failure? ==> r.error == ImmutableMessage
    ensures r.Success? ==> r.value == Payload(self.name, self.version, self.description, self.parent)
  {
    if self.id.Some? && !force then Failure(ImmutableMessage)
    else Success(Payload(self.name, self.version, self.description, self.parent))
  }

  /** A derived dataset can always be saved without `force`, and the request
      names the dataset it came from as its parent. */
  lemma TransformedSaves(self: Dataset, name: string, description: string, version: string)
    ensures Save(Transform(self, name, description, version), false).Success?
    ensures Save(Transform(self, name, description, version), false).value.parent == self.id
  {
  }

  /** Saving the result of a save a second time is refused: a stored
      dataset cannot be modified without `force`. */
  lemma StoredRefused(self: Dataset, id: string)
    ensures Save(self.(id := Some(id)), false) == Failure(ImmutableMessage)
    ensures Save(self.(id := Some(id)), true).Success?
  {
  }

  /** The items named `name`, in their original order (the list
      comprehension of `filter_by_name`). */
  function Matching(items: seq<Dataset>, name: string): (r: seq<Dataset>)
    ensures |r| <= |items|
    ensures forall d :: d in r <==> d in items && d.name == name
    decreases |items|
  {
    if items == [] then []
    else (if items[0].name == name then [items[0]] else []) + Matching(items[1..], name)
  }

  /** Filtering a concatenation filters each part and keeps them in order:
      the filter never reorders items. */
  lemma {:induction false} MatchingAppend(a: seq<Dataset>, b: seq<Dataset>, name: string)
    ensures Matching(a + b, name) == Matching(a, name) + Matching(b, name)
    decreases |a|
  {
    if a == [] {
      assert a + b == b;
    } else {
      assert (a + b)[0] == a[0];
      assert (a + b)[1..] == a[1..] + b;
      MatchingAppend(a[1..], b, name);
    }
  }

  /** The filter keeps every matching item as often as it occurs and drops
      every other one. */
  lemma {:induction false} MatchingCounts(items: seq<Dataset>, name: string, d: Dataset)
    ensures multiset(Matching(items, name))[d] == if d.name == name then multiset(items)[d] else 0
    decreases |items|
  {
    if items != [] {
      MatchingCounts(items[1..], name, d);
      assert items == [items[0]] + items[1..];
    }
  }

  /** Filtering twice by the same name changes nothing more. */
  lemma {:induction false} MatchingIdempotent(items: seq<Dataset>, name: string)
    ensures Matching(Matching(items, name), name) == Matching(items, name)
    decreases |items|
  {
    if items != [] {
      var head: seq<Dataset> := if items[0].name == name then [items[0]] else [];
      MatchingAppend(head, Matching(items[1..], name), name);
      MatchingIdempotent(items[1..], name);
    }
  }

  /** Where a stable sort by version, descending, puts its first element:
      a greatest version, with every earlier item strictly older. */
  function NewestIndex(vs: seq<Dataset>): (k: nat)
    requires vs != []
    ensures k < |vs|
    ensures forall j :: 0 <= j < |vs| ==> LexLe(vs[j].version, vs[k].version)
    ensures forall j :: 0 <= j < k ==> LexLess(vs[j].version, vs[k].version)
    decreases |vs|
  {
    if |vs| == 1 then 0
    else
      var k := NewestIndex(vs[1..]) + 1;
      if LexLess(vs[0].version, vs[k].version) then k
      else
        assert forall j :: 0 <= j < |vs| ==> LexLe(vs[j].version, vs[0].version) by {
          forall j | 0 < j < |vs| ensures LexLe(vs[j].version, vs[0].version) {
            assert vs[j] == vs[1..][j - 1];
            if vs[k].version != vs[0].version {
              LexLessTotal(vs[0].version, vs[k].version);
              if vs[j].version != vs[k].version {
                LexLessTransitive(vs[j].version, vs[k].version, vs[0].version);
              }
            }
          }
        }
        0
  }

  /** Only one position has both properties, so any stable descending sort
      puts the same item first. */
  lemma NewestUnique(vs: seq<Dataset>, k: nat)
    requires k < |vs|
    requires forall j :: 0 <= j < |vs| ==> LexLe(vs[j].version, vs[k].version)
    requires forall j :: 0 <= j < k ==> LexLess(vs[j].version, vs[k].version)
    ensures k == NewestIndex(vs)
  {
    var n := NewestIndex(vs);
    if k < n {
      assert LexLess(vs[k].version, vs[n].version);
      assert LexLe(vs[n].version, vs[k].version);
      LexLessIrreflexive(vs[k].version);
      LexLessAsymmetric(vs[k].version, vs[n].version);
    } else if n < k {
      assert LexLess(vs[n].version, vs[k].version);
      assert LexLe(vs[k].version, vs[n].version);
      LexLessIrreflexive(vs[n].version);
      LexLessAsymmetric(vs[n].version, vs[k].version);
    }
  }

  /** A `Datasets` collection over the listed items. */
  datatype Datasets = Datasets(items: seq<Dataset>)
  {
    /** `len(datasets)`. */
    function Len(): (n: nat)
      ensures n == |items|
    {
      |items|
    }

    /** `datasets[i]`, with Python's negative indices counting from the end;
        an index outside the list raises `IndexError`, here `None`. */
    function Get(i: int): (r: Option<Dataset>)
      ensures r.Some? <==> -(Len() as int) <= i < Len()
      ensures 0 <= i < Len() ==> r == Some(items[i])
      ensures -(Len() as int) <= i < 0 ==> r == Some(items[Len() + i])
    {
      if 0 <= i < |items| then Some(items[i])
      else if -|items| <= i < 0 then Some(items[|items| + i])
      else None
    }

    /** `filter_by_name`: exactly the items named `name`. */
    function FilterByName(name: string): (r: seq<Dataset>)
      ensures |r| <= Len()
      ensures forall d :: d in r <==> d in items && d.name == name
    {
      Matching(items, name)
    }

    /** `latest_version`: None when no item has the name; otherwise the
        first of the named items whose version is greatest in plain string
        order. */
    function LatestVersion(name: string): (r: Option<Dataset>)
      ensures r.None? <==> forall d :: d in items ==> d.name != name
      ensures r.Some? ==> r.value in items && r.value.name == name
      ensures r.Some? ==> forall d :: d in items && d.name == name ==> LexLe(d.version, r.value.version)
      ensures r.Some? ==> exists k :: (0 <= k < |FilterByName(name)| && FilterByName(name)[k] == r.value
        && forall j :: 0 <= j < k ==> LexLess(FilterByName(name)[j].version, r.value.version))
    {
      var versions := FilterByName(name);
      if versions == [] then None
      else
        var k := NewestIndex(versions);
        assert versions[k] in versions;
        assert forall d :: d in items && d.name == name ==> LexLe(d.version, versions[k].version) by {
          forall d | d in items && d.name == name ensures LexLe(d.version, versions[k].version) {
            var j :| 0 <= j < |versions| && versions[j] == d;
          }
        }
        Some(versions[k])
    }
  }

  /** Every in-range negative index reaches the same item as its
      non-negative counterpart. */
  lemma NegativeIndexWraps(ds: Datasets, i: int)
    requires 0 <= i < ds.Len()
    ensures ds.Get(i - ds.Len()) == ds.Get(i)
    ensures ds.Get(i).Some? && ds.Get(i + ds.Len()).None? && ds.Get(i - 2 * ds.Len()).None?
  {
  }

  /** Versions compare as plain strings, not as version numbers: `"1.9"`
      is newer than `"1.10"`. */
  lemma LatestVersionIsLexical(a: Dataset, b: Dataset)
    requires a.name == b.name && a.version == "1.10" && b.version == "1.9"
    ensures Datasets([a, b]).LatestVersion(a.name) == Some(b)
    ensures Datasets([b, a]).LatestVersion(a.name) == Some(b)
  {
    assert LexLess("1.10", "1.9") by {
      assert "1.10"[1..] == ".10" && "1.9"[1..] == ".9";
      assert ".10"[1..] == "10" && ".9"[1..] == "9";
    }
    assert Matching([a, b], a.name) == [a, b] by {
      assert [a, b][1..] == [b];
      assert Matching([b], a.name) == [b] by { assert [b][1..] == []; }
    }
    assert Matching([b, a], a.name) == [b, a] by {
      assert [b, a][1..] == [a];
      assert Matching([a], a.name) == [a] by { assert [a][1..] == []; }
    }
    NewestUnique([a, b], 1);
    LexLessAsymmetric("1.10", "1.9");
    NewestUnique([b, a], 0);
  }

  /** Equal versions: the earlier item wins, since the sort is stable. */
  lemma LatestVersionKeepsFirstOfEqual(a: Dataset, b: Dataset)
    requires a.name == b.name && a.version == b.version
    ensures Datasets([a, b]).LatestVersion(a.name) == Some(a)
  {
    assert Matching([a, b], a.name) == [a, b] by {
      assert [a, b][1..] == [b];
      assert Matching([b], a.name) == [b] by { assert [b][1..] == []; }
    }
    NewestUnique([a, b], 0);
  }
}
