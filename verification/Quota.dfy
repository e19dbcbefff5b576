/** The quota: a user's usage is the total size of the user's file nodes, and no successful COPY or Close
    leaves a limited user above the limit. */
module Quota {
  import opened Base
  import opened Paths
  import opened Tables
  import opened Tree

  ghost function Sizes(nodes: Nodes, u: UserId): map<NodeId, int> {
    map n | n in nodes && nodes[n].user == u && !nodes[n].isDir :: nodes[n].size
  }

  /** SumSizeByUser. */
  ghost function Usage(nodes: Nodes, u: UserId): int {
    Total(Sizes(nodes, u))
  }

  // ---- whose rows count ----------------------------------------------------------------------------

  /** The two tables hold the same files of user u. */
  predicate SameFiles(a: Nodes, b: Nodes, u: UserId) {
    && (forall n :: n in a && a[n].user == u && !a[n].isDir ==> n in b && b[n] == a[n])
    && forall n :: n in b && b[n].user == u && !b[n].isDir ==> n in a && a[n] == b[n]
  }

  /** Only the user's own files count: tables that agree on them give the same usage. */
  lemma {:induction false} UsageOwn(a: Nodes, b: Nodes, u: UserId)
    requires SameFiles(a, b, u)
    ensures Usage(a, u) == Usage(b, u)
  {
    assert Sizes(a, u) == Sizes(b, u);
  }

  /** Nothing is used while the user has no file with bytes. */
  lemma {:induction false} UsageNone(nodes: Nodes, u: UserId)
    requires forall n :: n in nodes && nodes[n].user == u ==> nodes[n].isDir || nodes[n].size == 0
    ensures Usage(nodes, u) == 0
  {
    TotalZero(Sizes(nodes, u));
  }

  lemma {:induction false} UsageLaws(nodes: Nodes, u: UserId)
    ensures forall other: Nodes :: SameFiles(nodes, other, u) ==> Usage(other, u) == Usage(nodes, u)
    ensures (forall n :: n in nodes && nodes[n].user == u ==> nodes[n].isDir || nodes[n].size == 0) ==>
      Usage(nodes, u) == 0
  {
    forall other: Nodes | SameFiles(nodes, other, u) ensures Usage(other, u) == Usage(nodes, u) {
      UsageOwn(nodes, other, u);
    }
    if forall n :: n in nodes && nodes[n].user == u ==> nodes[n].isDir || nodes[n].size == 0 {
      UsageNone(nodes, u);
    }
  }

  /** Adding, changing or removing a row of another user, or a directory, leaves the usage alone. */
  lemma {:induction false} UsageForeign(nodes: Nodes, u: UserId, n: NodeId, nd: Node)
    requires nd.user != u || nd.isDir
    requires n in nodes ==> nodes[n].user != u || nodes[n].isDir
    ensures Usage(nodes[n := nd], u) == Usage(nodes, u) == Usage(nodes - {n}, u)
  {
    hide Usage;
    UsageOwn(nodes[n := nd], nodes, u);
    UsageOwn(nodes - {n}, nodes, u);
  }

  /** A row of the user's own counts with its size: taken out, the usage falls by exactly that. */
  lemma {:induction false} UsageTaken(nodes: Nodes, u: UserId, n: NodeId)
    requires n in nodes && nodes[n].user == u && !nodes[n].isDir
    ensures Usage(nodes, u) == Usage(nodes - {n}, u) + nodes[n].size
  {
    TotalRemove(Sizes(nodes, u), n);
    assert Sizes(nodes, u) - {n} == Sizes(nodes - {n}, u);
  }

  ghost function SubtreeSizes(nodes: Nodes, u: UserId, p: string): map<NodeId, int> {
    map n | n in nodes && InSubtree(nodes[n], u, p) && !nodes[n].isDir :: nodes[n].size
  }

  /** subtreeSize. */
  ghost function SubtreeUsage(nodes: Nodes, u: UserId, p: string): int {
    Total(SubtreeSizes(nodes, u, p))
  }

  lemma {:induction false} SubtreeOwn(a: Nodes, b: Nodes, u: UserId, p: string)
    requires SameFiles(a, b, u)
    ensures SubtreeUsage(a, u, p) == SubtreeUsage(b, u, p)
  {
    assert SubtreeSizes(a, u, p) == SubtreeSizes(b, u, p);
  }

  lemma {:induction false} TotalRename<K, L>(a: map<K, int>, f: map<K, L>, b: map<L, int>)
    requires a.Keys <= f.Keys && forall x, y :: x in a && y in a && f[x] == f[y] ==> x == y
    requires b.Keys == set k | k in a :: f[k]
    requires forall k :: k in a ==> b[f[k]] == a[k]
    ensures Total(a) == Total(b)
    decreases |a|
  {
    if k :| k in a {
      assert f[k] in b;
      TotalRemove(a, k);
      TotalRemove(b, f[k]);
      TotalRename(a - {k}, f, b - {f[k]});
    } else {
      assert a == map[] && b == map[];
    }
  }

  lemma {:induction false} TotalSubset<K>(small: map<K, int>, big: map<K, int>)
    requires small.Keys <= big.Keys && forall k :: k in small ==> small[k] == big[k]
    requires forall k :: k in big ==> big[k] >= 0
    ensures Total(small) <= Total(big)
  {
    TotalSplit(big, small.Keys);
    assert big - (big.Keys - small.Keys) == small;
    TotalBounds(big - small.Keys);
  }

  /** Deleting a subtree frees exactly its size. */
  lemma {:induction false} UsageRemove(nodes: Nodes, u: UserId, p: string)
    ensures Usage(RemoveTree(nodes, u, p), u) == Usage(nodes, u) - SubtreeUsage(nodes, u, p)
  {
    var all, gone := Sizes(nodes, u), SubtreeSizes(nodes, u, p);
    TotalSplit(all, gone.Keys);
    assert all - gone.Keys == Sizes(RemoveTree(nodes, u, p), u);
    assert all - (all.Keys - gone.Keys) == gone;
  }

  lemma {:induction false} UsageApart(nodes: Nodes, u: UserId, s: string, d: string)
    requires !AtOrUnder(d, s) && !AtOrUnder(s, d)
    ensures SubtreeUsage(RemoveTree(nodes, u, d), u, s) == SubtreeUsage(nodes, u, s)
  {
    forall n | n in nodes && InSubtree(nodes[n], u, s) ensures n in RemoveTree(nodes, u, d) {
      Apart(nodes[n].path, s, d);
    }
    assert SubtreeSizes(RemoveTree(nodes, u, d), u, s) == SubtreeSizes(nodes, u, s);
  }

  ghost function CopiedSizes(nodes: Nodes, m: map<NodeId, NodeId>): map<NodeId, int>
    requires m.Keys <= nodes.Keys
  {
    map x | x in m && !nodes[x].isDir :: nodes[x].size
  }

  /** A copy costs at most the size of the source subtree, and exactly that when it is recursive. */
  lemma {:induction false} UsageCopy(nodes: Nodes, nodes': Nodes, u: UserId, s: string, d: string, top: NodeId,
          parent: NodeId, recursive: bool, m: map<NodeId, NodeId>)
    requires CopiedTree(nodes, nodes', u, s, d, top, parent, recursive, m)
    ensures Usage(nodes', u) <= Usage(nodes, u) + SubtreeUsage(nodes, u, s)
    ensures recursive ==> Usage(nodes', u) == Usage(nodes, u) + SubtreeUsage(nodes, u, s)
  {
    OldUsage(nodes, nodes', u, s, d, top, parent, recursive, m);
    CopiedUsage(nodes, nodes', u, s, d, top, parent, recursive, m);
    var part := CopiedSizes(nodes, m);
    TotalSubset(part, SubtreeSizes(nodes, u, s));
    if recursive {
      assert part == SubtreeSizes(nodes, u, s);
    }
  }

  lemma {:induction false} OldUsage(nodes: Nodes, nodes': Nodes, u: UserId, s: string, d: string, top: NodeId,
          parent: NodeId, recursive: bool, m: map<NodeId, NodeId>)
    requires CopiedTree(nodes, nodes', u, s, d, top, parent, recursive, m)
    ensures Usage(nodes', u) == Usage(nodes, u) + Total(Sizes(nodes', u) - Sizes(nodes, u).Keys)
  {
    var old', all := Sizes(nodes, u), Sizes(nodes', u);
    TotalSplit(all, old'.Keys);
    assert all - (all.Keys - old'.Keys) == old';
  }

  lemma {:induction false} CopiedUsage(nodes: Nodes, nodes': Nodes, u: UserId, s: string, d: string, top: NodeId,
          parent: NodeId, recursive: bool, m: map<NodeId, NodeId>)
    requires CopiedTree(nodes, nodes', u, s, d, top, parent, recursive, m)
    ensures Total(Sizes(nodes', u) - Sizes(nodes, u).Keys) == Total(CopiedSizes(nodes, m))
  {
    hide Rebase, BaseName;
    var fresh' := Sizes(nodes', u) - Sizes(nodes, u).Keys;
    var part := CopiedSizes(nodes, m);
    forall x | x in m ensures m[x] !in nodes && nodes'[m[x]].user == u && nodes'[m[x]].isDir == nodes[x].isDir
      ensures nodes'[m[x]].size == nodes[x].size
    {
      assert m[x] in m.Values;
    }
    forall y | y in fresh' ensures y in set k | k in part :: m[k] {
      assert y in m.Values;
      var x :| x in m && m[x] == y;
      assert x in part;
    }
    assert fresh'.Keys == set k | k in part :: m[k];
    TotalRename(part, m, fresh');
  }

  /** The check COPY makes before it touches anything bounds the usage it leaves behind. */
  lemma {:induction false} CopyWithinQuota(nodes: Nodes, after: Nodes, u: UserId, s: string, d: string, top: NodeId,
          parent: NodeId, recursive: bool, m: map<NodeId, NodeId>, quota: int)
    requires !AtOrUnder(d, s) && !AtOrUnder(s, d)
    requires CopiedTree(RemoveTree(nodes, u, d), after, u, s, d, top, parent, recursive, m)
    requires Usage(nodes, u) + SubtreeUsage(nodes, u, s) - SubtreeUsage(nodes, u, d) <= quota
    ensures Usage(after, u) <= quota
  {
    hide CopiedTree, Usage, SubtreeUsage, RemoveTree;
    UsageRemove(nodes, u, d);
    UsageApart(nodes, u, s, d);
    UsageCopy(RemoveTree(nodes, u, d), after, u, s, d, top, parent, recursive, m);
  }

  /** One copied row on top of a cleared destination keeps within the bound too, when it is the only row copied. */
  lemma {:induction false} OneRowWithinQuota(nodes: Nodes, u: UserId, s: string, d: string, top: NodeId, id: NodeId,
          nd: Node, quota: int)
    requires top in nodes && KeyOf(nodes[top]) == Key(u, s) && id !in nodes
    requires nd.user == u && nd.isDir == nodes[top].isDir && nd.size == nodes[top].size
    requires Usage(nodes, u) + SubtreeUsage(nodes, u, s) - SubtreeUsage(nodes, u, d) <= quota
    ensures Usage(RemoveTree(nodes, u, d)[id := nd], u) <= quota
  {
    var mid := RemoveTree(nodes, u, d);
    UsageRemove(nodes, u, d);
    TotalBounds(SubtreeSizes(nodes, u, s));
    if nd.isDir {
      assert Sizes(mid[id := nd], u) == Sizes(mid, u);
    } else {
      assert InSubtree(nodes[top], u, s);
      assert top in SubtreeSizes(nodes, u, s);
      UsageNew(mid, u, id, nd);
    }
  }

  /** The size a PUT over p frees: that of the file there, if there is one. */
  ghost function Freed(nodes: Nodes, u: UserId, p: string): int {
    if Key(u, p) in Keys(nodes) && !nodes[IdAt(nodes, Key(u, p))].isDir then nodes[IdAt(nodes, Key(u, p))].size else 0
  }

  lemma {:induction false} UsageRewrite(nodes: Nodes, u: UserId, n: NodeId, nd: Node)
    requires n in nodes && nodes[n].user == u && !nodes[n].isDir && nd.user == u && !nd.isDir
    ensures Usage(nodes[n := nd], u) == Usage(nodes, u) - nodes[n].size + nd.size
  {
    TotalUpdate(Sizes(nodes, u), n, nd.size);
    assert Sizes(nodes[n := nd], u) == Sizes(nodes, u)[n := nd.size];
  }

  lemma {:induction false} UsageNew(nodes: Nodes, u: UserId, n: NodeId, nd: Node)
    requires n !in nodes && nd.user == u && !nd.isDir
    ensures Usage(nodes[n := nd], u) == Usage(nodes, u) + nd.size
  {
    TotalInsert(Sizes(nodes, u), n, nd.size);
    assert Sizes(nodes[n := nd], u) == Sizes(nodes, u)[n := nd.size];
  }
}
