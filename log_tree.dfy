/** The `log` command's own copy of the history tree: the same builder and
    renderer as `cmd/trees`, written directly over catalogue datasets. A
    dataset takes part through its id, parent, name, version and
    description; its artefact map is never read. */
module LogTree {
  import opened Common
  import opened Strings
  import opened Trees
  import DatasetStore

  /** The fields of a dataset that the history draws. */
  function AsCommit(d: DatasetStore.Dataset): Commit {
    Commit(d.id, d.name, d.version, d.description, d.parent)
  }

  /** Every dataset of the listing as a commit, in listing order. */
  function Commits(datasets: seq<DatasetStore.Dataset>): (cs: seq<Commit>)
    ensures |cs| == |datasets|
    ensures forall i :: 0 <= i < |datasets| ==> cs[i] == AsCommit(datasets[i])
  {
    seq(|datasets|, i requires 0 <= i < |datasets| => AsCommit(datasets[i]))
  }

  /** A dataset whose id no later dataset repeats is the commit filed under
      that id, so its node is the one the history shows. */
  lemma ListedDatasetShown(datasets: seq<DatasetStore.Dataset>, i: nat)
    requires i < |datasets|
    requires forall j :: i < j < |datasets| ==> datasets[j].id != datasets[i].id
    ensures datasets[i].id in Latest(Commits(datasets))
    ensures Latest(Commits(datasets))[datasets[i].id] == AsCommit(datasets[i])
  {
    LatestKeepsLast(Commits(datasets), i);
  }

  /** `BuildTree` over datasets: indexes them by id, hangs each under its
      parent when the parent is listed and among the roots otherwise, then
      sorts children and roots by id. */
  method BuildTree(commits: seq<DatasetStore.Dataset>) returns (roots: seq<Node>)
    ensures roots == Forest(Latest(Commits(commits)))
    ensures |roots| == |RootIds(Latest(Commits(commits)))|
    ensures forall k :: 0 <= k < |roots| ==>
      roots[k].commit.id == Ascending(RootIds(Latest(Commits(commits))))[k] && Hangs(Latest(Commits(commits)), roots[k])
  {
    roots := Trees.BuildTree(Commits(commits));
    ForestLinksAll(Latest(Commits(commits)));
  }

  /** `RenderTree` over dataset nodes: the same lines as the generic
      renderer as written, every one of them already trimmed. */
  method RenderTree(commits: seq<Node>, prefix: string, suffix: string) returns (tree: seq<string>)
    ensures tree == Render(AsWritten, commits, prefix)
    ensures forall l :: l in tree ==> Trim(l) == l
  {
    tree := Trees.RenderTree(commits, prefix, suffix);
    RenderTrimmed(AsWritten, commits, prefix);
  }

  /** What `RunLog` hands to the pager: the listing built into a forest and
      rendered from the left margin. */
  method History(datasets: seq<DatasetStore.Dataset>) returns (lines: seq<string>)
    ensures lines == Render(AsWritten, Forest(Latest(Commits(datasets))), "")
  {
    var tree := BuildTree(datasets);
    lines := RenderTree(tree, "", "");
  }
}
