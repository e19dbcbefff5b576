/** What lies below a node, and how copying a directory child by child adds up to copying its subtree. */
module Subtrees {
  import opened Base
  import opened Paths
  import opened Wal
  import opened Extents
  import opened Tables
  import opened Tree

  // ---- what lies below a node -------------------------------------------------------------------

  /** Whatever lies strictly below x lies at or below a child of x; so files have nothing below them. */
  lemma {:induction false} ChildAbove(nodes: Nodes, x: NodeId, y: NodeId) returns (c: NodeId)
    requires TreeOk(nodes) && x in nodes && y in nodes && y != x && nodes[x].path != "/"
    requires InSubtree(nodes[y], nodes[x].user, nodes[x].path)
    ensures c in nodes && nodes[c].parent == Some(x) && nodes[x].isDir && nodes[c].user == nodes[x].user
    ensures InSubtree(nodes[y], nodes[c].user, nodes[c].path)
    decreases |nodes[y].path|
  {
    var p := nodes[y].parent.value;
    ParentInSubtree(nodes, y, nodes[x].user, nodes[x].path);
    ChildIsPath(nodes[p].path, nodes[y].name);
    if p == x {
      c := y;
    } else {
      c := ChildAbove(nodes, x, p);
      assert nodes[c].path != "/" by { ChildIsPath(nodes[x].path, nodes[c].name); }
      ParentInSubtree(nodes, y, nodes[c].user, nodes[c].path);
    }
  }

  lemma {:induction false} FileIsLeaf(nodes: Nodes, x: NodeId)
    requires TreeOk(nodes) && x in nodes && !nodes[x].isDir
    ensures SubtreeIds(nodes, nodes[x].user, nodes[x].path) == {x}
  {
    if nodes[x].parent.Some? {
      ChildIsPath(nodes[nodes[x].parent.value].path, nodes[x].name);
    }
    forall y | y in SubtreeIds(nodes, nodes[x].user, nodes[x].path) ensures y == x {
      if y != x {
        var c := ChildAbove(nodes, x, y);
      }
    }
  }

  lemma {:induction false} AncestorsExist(nodes: Nodes, x: NodeId, p: string)
    requires TreeOk(nodes) && x in nodes && IsPath(p) && AtOrUnder(nodes[x].path, p) && p != "/"
    ensures Key(nodes[x].user, p) in Keys(nodes)
    decreases |nodes[x].path|
  {
    if nodes[x].path == p {
      assert KeyOf(nodes[x]) in Keys(nodes);
    } else {
      ParentInSubtree(nodes, x, nodes[x].user, p);
      ChildIsPath(nodes[nodes[x].parent.value].path, nodes[x].name);
      AncestorsExist(nodes, nodes[x].parent.value, p);
    }
  }

  // ---- a subtree copied piece by piece ----------------------------------------------------------

  /** nodes' is nodes plus one copy of each node in keys. */
  ghost predicate CopiedKeys(nodes: Nodes, nodes': Nodes, u: UserId, s: string, d: string, x: NodeId, parent: NodeId,
          m: map<NodeId, NodeId>, keys: set<NodeId>)
  {
    && IsPath(d)
    && m.Keys == keys <= SubtreeIds(nodes, u, s)
    && Injective(m) && m.Values !! nodes.Keys
    && nodes'.Keys == nodes.Keys + m.Values
    && (forall n :: n in nodes ==> nodes'[n] == nodes[n])
    && forall y :: y in m ==>
         (m[y] in m.Values &&
          nodes'[m[y]] == CopiedNode(nodes[y], y == x, s, d, CopyParent(nodes, m, y, x, parent)))
  }

  lemma {:induction false} CopiedKeysIsTree(nodes: Nodes, nodes': Nodes, u: UserId, s: string, d: string, x: NodeId,
          parent: NodeId, recursive: bool, m: map<NodeId, NodeId>, keys: set<NodeId>)
    requires CopiedKeys(nodes, nodes', u, s, d, x, parent, m, keys)
    requires keys == if recursive then SubtreeIds(nodes, u, s) else {x}
    ensures CopiedTree(nodes, nodes', u, s, d, x, parent, recursive, m)
  {
  }

  lemma {:induction false} CopiedTop(nodes: Nodes, u: UserId, s: string, d: string, x: NodeId, parent: NodeId,
          id: NodeId)
    requires x in nodes && KeyOf(nodes[x]) == Key(u, s) && IsPath(d) && id !in nodes
    ensures CopiedKeys(nodes, nodes[id := CopiedNode(nodes[x], true, s, d, parent)], u, s, d, x, parent, map[x := id],
        {x})
  {
    hide BaseName;
    var m := map[x := id];
    assert m[x] == id;
    assert m.Values == {id};
  }

  /** Each child's subtree is disjoint from its siblings' and does not contain their parent. */
  lemma {:induction false} SiblingsApart(nodes: Nodes, u: UserId, x: NodeId, a: NodeId, b: NodeId, y: NodeId)
    requires TreeOk(nodes) && x in nodes && a in nodes && b in nodes && y in nodes && nodes[x].path != "/"
    requires nodes[a].parent == Some(x) && nodes[b].parent == Some(x) && nodes[x].user == u
    requires InSubtree(nodes[y], u, nodes[a].path) && InSubtree(nodes[y], u, nodes[b].path)
    ensures a == b
  {
    var dir := nodes[x].path;
    ChildIsPath(dir, nodes[a].name);
    ChildIsPath(dir, nodes[b].name);
    UnderComparable(nodes[y].path, nodes[a].path, nodes[b].path);
    ChildUnder(dir, nodes[a].name, nodes[b].path);
    ChildUnder(dir, nodes[b].name, nodes[a].path);
    assert KeyOf(nodes[a]) == KeyOf(nodes[b]);
  }

  lemma {:induction false} ChildStrictlyBelow(nodes: Nodes, x: NodeId, c: NodeId)
    requires TreeOk(nodes) && x in nodes && c in nodes && nodes[c].parent == Some(x) && nodes[x].path != "/"
    ensures nodes[c].user == nodes[x].user && IsPath(nodes[c].path) && nodes[c].path != "/"
    ensures AtOrUnder(nodes[c].path, nodes[x].path) && !AtOrUnder(nodes[x].path, nodes[c].path)
  {
    ChildIsPath(nodes[x].path, nodes[c].name);
    ChildUnder(nodes[x].path, nodes[c].name, nodes[x].path);
  }

  /** Recursion on a child is recursion on fewer nodes. */
  lemma {:induction false} FewerBelow(nodes: Nodes, u: UserId, x: NodeId, c: NodeId)
    requires TreeOk(nodes) && x in nodes && c in nodes && nodes[c].parent == Some(x) && nodes[x].path != "/"
    requires nodes[x].user == u
    ensures SubtreeIds(nodes, u, nodes[c].path) < SubtreeIds(nodes, u, nodes[x].path)
    ensures |SubtreeIds(nodes, u, nodes[c].path)| < |SubtreeIds(nodes, u, nodes[x].path)|
  {
    ChildStrictlyBelow(nodes, x, c);
    var small, big := SubtreeIds(nodes, u, nodes[c].path), SubtreeIds(nodes, u, nodes[x].path);
    forall y | y in small ensures y in big {
      UnderTrans(nodes[y].path, nodes[c].path, nodes[x].path);
    }
    assert x in big && x !in small;
    Smaller(small, big, x);
  }

  lemma {:induction false} Smaller(small: set<NodeId>, big: set<NodeId>, x: NodeId)
    requires small <= big && x in big && x !in small
    ensures |small| < |big|
  {
    assert small <= big - {x};
    var rest := big - {x} - small;
    assert big - {x} == small + rest;
  }

  lemma {:induction false} RebaseVia(q: string, c: string, s: string, d: string)
    requires AtOrUnder(q, c) && AtOrUnder(c, s)
    ensures AtOrUnder(q, s) && Rebase(q, c, Rebase(c, s, d)) == Rebase(q, s, d)
  {
    UnderTrans(q, c, s);
    assert q == c + q[|c|..];
    assert q[|s|..] == c[|s|..] + q[|c|..];
  }

  lemma {:induction false} RebaseUnder(a: string, b: string, s: string, d: string)
    requires AtOrUnder(a, s) && AtOrUnder(b, s) && AtOrUnder(Rebase(a, s, d), Rebase(b, s, d))
    ensures AtOrUnder(a, b)
  {
    var a', b' := Rebase(a, s, d), Rebase(b, s, d);
    assert a == s + a[|s|..] && b == s + b[|s|..];
    assert a'[|d|..] == a[|s|..] && b'[|d|..] == b[|s|..];
    if a' == b' {
      assert a == b;
    } else {
      assert |a| - |a'| == |b| - |b'|;
      assert b' == a'[..|b'|];
      assert b[|s|..] == a'[..|b'|][|d|..] == a'[|d|..|b'|] == a[|s|..|b|];
      assert a[..|b|] == a[..|s|] + a[|s|..|b|] == b;
      assert a[|b|] == a[|s|..][|b| - |s|] == a'[|d|..][|b| - |s|] == a'[|b'|];
    }
  }

  /** New nodes lie under d, so the source subtree looks the same throughout. */
  lemma {:induction false} SourceUnchanged(nodes: Nodes, nodes': Nodes, u: UserId, s: string, d: string, x: NodeId,
          parent: NodeId, m: map<NodeId, NodeId>, keys: set<NodeId>, p: string)
    requires TreeOk(nodes) && CopiedKeys(nodes, nodes', u, s, d, x, parent, m, keys)
    requires IsPath(s) && s != "/" && d != "/" && !AtOrUnder(d, s) && !AtOrUnder(s, d) && AtOrUnder(p, s)
    ensures SubtreeIds(nodes', u, p) == SubtreeIds(nodes, u, p)
  {
    forall n | n in nodes' && InSubtree(nodes'[n], u, p) ensures n in nodes {
      if n !in nodes {
        var y :| y in m && m[y] == n;
        RebaseOk(nodes[y].path, s, d);
        UnderTrans(nodes'[n].path, p, s);
        Apart(nodes'[n].path, s, d);
      }
    }
  }

  /** Before a child is copied its destination is free and it can be copied there. */
  lemma {:induction false} ChildReady(nodes: Nodes, nodes': Nodes, u: UserId, s: string, d: string, x: NodeId,
          parent: NodeId, m: map<NodeId, NodeId>, keys: set<NodeId>, c: NodeId)
    requires TreeOk(nodes) && CopiedKeys(nodes, nodes', u, s, d, x, parent, m, keys)
    requires Relocatable(nodes, u, s, d, x, parent) && Free(nodes, u, d) && nodes[x].isDir
    requires c in nodes && nodes[c].parent == Some(x) && x in keys && keys !! SubtreeIds(nodes, u, nodes[c].path)
    ensures Rebase(nodes[c].path, s, d) == Child(d, nodes[c].name) == d + "/" + nodes[c].name
    ensures Relocatable(nodes', u, nodes[c].path, Child(d, nodes[c].name), c, m[x])
    ensures Free(nodes', u, Child(d, nodes[c].name))
    ensures Midway(nodes, nodes', u, s, d, x, parent, m, keys, c)
  {
    hide BaseName, Paths.Dir, LastSlash;
    var p := nodes[c].path;
    var d' := Child(d, nodes[c].name);
    ChildStrictlyBelow(nodes, x, c);
    RebaseChild(s, nodes[c].name, s, d);
    assert Rebase(s, s, d) == d;
    RebaseOk(p, s, d);
    ChildIsPath(d, nodes[c].name);
    ChildApart(p, d', s, d);
    forall n | n in nodes' ensures !InSubtree(nodes'[n], u, d') {
      if n in nodes {
        if AtOrUnder(nodes[n].path, d') {
          UnderTrans(nodes[n].path, d', d);
        }
      } else {
        var y :| y in m && m[y] == n;
        if AtOrUnder(nodes'[n].path, d') {
          RebaseUnder(nodes[y].path, p, s, d);
        }
      }
    }
  }

  lemma {:induction false} ChildApart(p: string, d': string, s: string, d: string)
    requires AtOrUnder(p, s) && AtOrUnder(d', d) && !AtOrUnder(d, s) && !AtOrUnder(s, d)
    ensures !AtOrUnder(d', p) && !AtOrUnder(p, d')
  {
    if AtOrUnder(d', p) {
      UnderTrans(d', p, s);
      Apart(d', s, d);
    }
    if AtOrUnder(p, d') {
      UnderTrans(p, d', d);
      Apart(p, s, d);
    }
  }

  /** A directory's copy is under way and child c is next. */
  ghost predicate Midway(nodes: Nodes, mid: Nodes, u: UserId, s: string, d: string, x: NodeId, parent: NodeId,
          m: map<NodeId, NodeId>, keys: set<NodeId>, c: NodeId)
  {
    && TreeOk(nodes) && Relocatable(nodes, u, s, d, x, parent) && CopiedKeys(nodes, mid, u, s, d, x, parent, m, keys)
    && c in nodes && nodes[c].parent == Some(x) && x in keys && keys !! SubtreeIds(nodes, u, nodes[c].path)
    && Rebase(s, s, d) == d && AtOrUnder(nodes[c].path, s)
    && Rebase(nodes[c].path, s, d) == Child(d, nodes[c].name) && IsPath(Child(d, nodes[c].name))
  }

  lemma {:induction false} MidwaySame(nodes: Nodes, mid: Nodes, u: UserId, s: string, d: string, x: NodeId,
          parent: NodeId, m: map<NodeId, NodeId>, keys: set<NodeId>, c: NodeId)
    requires Midway(nodes, mid, u, s, d, x, parent, m, keys, c)
    ensures SubtreeIds(mid, u, nodes[c].path) == SubtreeIds(nodes, u, nodes[c].path)
    ensures SubtreeIds(nodes, u, nodes[c].path) <= SubtreeIds(nodes, u, s)
  {
    hide CopiedKeys, Paths.Dir, LastSlash, TreeOk, IsPath, Rebase, Child;
    SourceUnchanged(nodes, mid, u, s, d, x, parent, m, keys, nodes[c].path);
    forall y | y in SubtreeIds(nodes, u, nodes[c].path) ensures y in SubtreeIds(nodes, u, s) {
      UnderTrans(nodes[y].path, nodes[c].path, s);
    }
  }

  lemma {:induction false} CopiedRow(nodes: Nodes, nodes': Nodes, u: UserId, s: string, d: string, top: NodeId,
          parent: NodeId, recursive: bool, m: map<NodeId, NodeId>, y: NodeId)
    requires CopiedTree(nodes, nodes', u, s, d, top, parent, recursive, m) && y in m
    ensures y in nodes && m[y] in nodes' && AtOrUnder(nodes[y].path, s) && IsPath(d)
    ensures nodes'[m[y]] == CopiedNode(nodes[y], y == top, s, d, CopyParent(nodes, m, y, top, parent))
  {
    hide CopiedNode, CopyParent, BaseName, AtOrUnder, IsPath;
    assert m[y] in m.Values;
  }

  lemma {:induction false} MidwayRow(nodes: Nodes, mid: Nodes, u: UserId, s: string, d: string, x: NodeId,
          parent: NodeId, m: map<NodeId, NodeId>, keys: set<NodeId>, c: NodeId, y: NodeId)
    requires Midway(nodes, mid, u, s, d, x, parent, m, keys, c)
    ensures x in nodes && KeyOf(nodes[x]) == Key(u, s) && s != "/" && x in m && IsPath(d)
    ensures y in SubtreeIds(nodes, u, nodes[c].path) ==> y in mid && mid[y] == nodes[y]
    ensures x !in SubtreeIds(nodes, u, nodes[c].path)
  {
    hide CopiedNode, CopyParent, BaseName, AtOrUnder, IsPath, Paths.Dir, Rebase, Child, TreeOk;
  }

  /** The rows the child's copy added, seen from the top. */
  lemma {:induction false} CopyChildRows(nodes: Nodes, mid: Nodes, nodes': Nodes, u: UserId, s: string, d: string,
          x: NodeId, parent: NodeId, m: map<NodeId, NodeId>, keys: set<NodeId>, c: NodeId, mc: map<NodeId, NodeId>,
          y: NodeId)
    requires Midway(nodes, mid, u, s, d, x, parent, m, keys, c)
    requires CopiedTree(mid, nodes', u, nodes[c].path, Child(d, nodes[c].name), c, m[x], true, mc)
    requires mc.Keys == SubtreeIds(nodes, u, nodes[c].path) && y in mc && AtOrUnder(nodes[y].path, s)
    ensures mc[y] in nodes'
    ensures nodes'[mc[y]] == CopiedNode(nodes[y], y == x, s, d, CopyParent(nodes, m + mc, y, x, parent))
  {
    hide TreeOk, BaseName, Paths.Dir, Rebase, IsPath, Child, AtOrUnder, CopiedNode, CopyParent, CopiedTree, CopiedKeys;
    MidwayRow(nodes, mid, u, s, d, x, parent, m, keys, c, y);
    CopiedRow(mid, nodes', u, nodes[c].path, Child(d, nodes[c].name), c, m[x], true, mc, y);
    CopyChildNode(nodes, mid, u, s, d, x, parent, m, c, mc, y);
  }

  lemma {:induction false} CopyChildAny(nodes: Nodes, mid: Nodes, nodes': Nodes, u: UserId, s: string, d: string,
          x: NodeId, parent: NodeId, m: map<NodeId, NodeId>, keys: set<NodeId>, c: NodeId, mc: map<NodeId, NodeId>,
          y: NodeId)
    requires Midway(nodes, mid, u, s, d, x, parent, m, keys, c) && y in m + mc
    requires CopiedTree(mid, nodes', u, nodes[c].path, Child(d, nodes[c].name), c, m[x], true, mc)
    requires mc.Keys == SubtreeIds(nodes, u, nodes[c].path) && y in SubtreeIds(nodes, u, s)
    requires forall n :: n in mid ==> n in nodes' && nodes'[n] == mid[n]
    ensures (m + mc)[y] in nodes' && AtOrUnder(nodes[y].path, s)
    ensures nodes'[(m + mc)[y]] == CopiedNode(nodes[y], y == x, s, d, CopyParent(nodes, m + mc, y, x, parent))
  {
    hide CopiedTree, TreeOk, Midway, AtOrUnder, CopiedNode, CopyParent;
    if y in mc {
      CopyChildRows(nodes, mid, nodes', u, s, d, x, parent, m, keys, c, mc, y);
    } else {
      CopyKeptRows(nodes, mid, nodes', u, s, d, x, parent, m, keys, c, mc, y);
    }
  }

  lemma {:induction false} MidwayKeys(nodes: Nodes, mid: Nodes, u: UserId, s: string, d: string, x: NodeId,
          parent: NodeId, m: map<NodeId, NodeId>, keys: set<NodeId>, c: NodeId)
    requires Midway(nodes, mid, u, s, d, x, parent, m, keys, c)
    ensures c in nodes && x in m && keys <= SubtreeIds(nodes, u, s) && m.Keys == keys && IsPath(d)
    ensures forall n :: n in nodes ==> n in mid && mid[n] == nodes[n]
  {
    hide CopiedNode, CopyParent, BaseName, AtOrUnder, IsPath, Paths.Dir, Rebase, Child, TreeOk;
  }

  lemma {:induction false} CopyChildAll(nodes: Nodes, mid: Nodes, nodes': Nodes, u: UserId, s: string, d: string,
          x: NodeId, parent: NodeId, m: map<NodeId, NodeId>, keys: set<NodeId>, c: NodeId, mc: map<NodeId, NodeId>)
    requires Midway(nodes, mid, u, s, d, x, parent, m, keys, c) && (m + mc).Keys <= SubtreeIds(nodes, u, s) && IsPath(d)
    requires CopiedTree(mid, nodes', u, nodes[c].path, Child(d, nodes[c].name), c, m[x], true, mc)
    requires mc.Keys == SubtreeIds(nodes, u, nodes[c].path)
    requires forall n :: n in mid ==> n in nodes' && nodes'[n] == mid[n]
    ensures forall y :: y in m + mc ==>
      ((m + mc)[y] in (m + mc).Values && y in nodes && AtOrUnder(nodes[y].path, s) && (m + mc)[y] in nodes' &&
       nodes'[(m + mc)[y]] == CopiedNode(nodes[y], y == x, s, d, CopyParent(nodes, m + mc, y, x, parent)))
  {
    hide CopiedTree, TreeOk, Midway, AtOrUnder, CopiedNode, CopyParent, IsPath, SubtreeIds, Rebase;
    var all := m + mc;
    forall y | y in all
      ensures all[y] in all.Values && y in nodes && AtOrUnder(nodes[y].path, s) && all[y] in nodes'
      ensures nodes'[all[y]] == CopiedNode(nodes[y], y == x, s, d, CopyParent(nodes, all, y, x, parent))
    {
      assert y in SubtreeIds(nodes, u, s);
      InIds(nodes, u, s, y);
      CopyChildAny(nodes, mid, nodes', u, s, d, x, parent, m, keys, c, mc, y);
    }
  }

  lemma {:induction false} TreeKeys(nodes: Nodes, nodes': Nodes, u: UserId, s: string, d: string, top: NodeId,
          parent: NodeId, m: map<NodeId, NodeId>)
    requires CopiedTree(nodes, nodes', u, s, d, top, parent, true, m)
    ensures m.Keys == SubtreeIds(nodes, u, s)
  {
  }

  lemma {:induction false} CopiedKeysIs(nodes: Nodes, nodes': Nodes, u: UserId, s: string, d: string, x: NodeId,
          parent: NodeId, m: map<NodeId, NodeId>)
    requires m.Keys <= SubtreeIds(nodes, u, s) && IsPath(d)
    requires Injective(m) && m.Values !! nodes.Keys && nodes'.Keys == nodes.Keys + m.Values
    requires forall n :: n in nodes ==> nodes'[n] == nodes[n]
    requires forall y :: y in m ==>
      (m[y] in m.Values && y in nodes && AtOrUnder(nodes[y].path, s) && m[y] in nodes' &&
       nodes'[m[y]] == CopiedNode(nodes[y], y == x, s, d, CopyParent(nodes, m, y, x, parent)))
    ensures CopiedKeys(nodes, nodes', u, s, d, x, parent, m, m.Keys)
  {
    hide CopiedNode, CopyParent, IsPath, AtOrUnder, SubtreeIds;
  }

  /** Copying one more child extends the copy by that child's subtree. */
  lemma {:induction false} CopyChild(nodes: Nodes, mid: Nodes, nodes': Nodes, u: UserId, s: string, d: string,
          x: NodeId, parent: NodeId, m: map<NodeId, NodeId>, keys: set<NodeId>, c: NodeId, mc: map<NodeId, NodeId>)
    requires Midway(nodes, mid, u, s, d, x, parent, m, keys, c)
    requires CopiedTree(mid, nodes', u, nodes[c].path, Child(d, nodes[c].name), c, m[x], true, mc)
    ensures CopiedKeys(nodes, nodes', u, s, d, x, parent, m + mc, keys + SubtreeIds(nodes, u, nodes[c].path))
  {
    hide *;
    MidwayKeys(nodes, mid, u, s, d, x, parent, m, keys, c);
    MidwaySame(nodes, mid, u, s, d, x, parent, m, keys, c);
    TreeKeys(mid, nodes', u, nodes[c].path, Child(d, nodes[c].name), c, m[x], mc);
    CopyChildShape(nodes, mid, nodes', u, s, d, x, parent, m, keys, c, mc);
    CopyChildAll(nodes, mid, nodes', u, s, d, x, parent, m, keys, c, mc);
    CopiedKeysIs(nodes, nodes', u, s, d, x, parent, m + mc);
    assert (m + mc).Keys == keys + SubtreeIds(nodes, u, nodes[c].path);
  }

  lemma {:induction false} InIds(nodes: Nodes, u: UserId, s: string, y: NodeId)
    requires y in SubtreeIds(nodes, u, s)
    ensures y in nodes && AtOrUnder(nodes[y].path, s)
  {
  }

  lemma {:induction false} CopyChildShape(nodes: Nodes, mid: Nodes, nodes': Nodes, u: UserId, s: string, d: string,
          x: NodeId, parent: NodeId, m: map<NodeId, NodeId>, keys: set<NodeId>, c: NodeId, mc: map<NodeId, NodeId>)
    requires Midway(nodes, mid, u, s, d, x, parent, m, keys, c)
    requires CopiedTree(mid, nodes', u, nodes[c].path, Child(d, nodes[c].name), c, m[x], true, mc)
    requires mc.Keys == SubtreeIds(nodes, u, nodes[c].path)
    ensures Injective(m + mc) && (m + mc).Values !! nodes.Keys && nodes'.Keys == nodes.Keys + (m + mc).Values
    ensures forall n :: n in mid ==> n in nodes' && nodes'[n] == mid[n]
  {
    hide Relocatable, TreeOk, Rebase, BaseName, Paths.Dir, IsPath, CopyParent, CopiedNode, SubtreeIds, InSubtree, Child;
    MergeMaps(m, mc);
  }

  lemma {:induction false} CopyKeptRows(nodes: Nodes, mid: Nodes, nodes': Nodes, u: UserId, s: string, d: string,
          x: NodeId, parent: NodeId, m: map<NodeId, NodeId>, keys: set<NodeId>, c: NodeId, mc: map<NodeId, NodeId>,
          y: NodeId)
    requires Midway(nodes, mid, u, s, d, x, parent, m, keys, c) && mc.Keys == SubtreeIds(nodes, u, nodes[c].path)
    requires forall n :: n in mid ==> n in nodes' && nodes'[n] == mid[n]
    requires y in m && AtOrUnder(nodes[y].path, s)
    ensures m[y] in nodes'
    ensures nodes'[m[y]] == CopiedNode(nodes[y], y == x, s, d, CopyParent(nodes, m + mc, y, x, parent))
  {
    hide BaseName, Paths.Dir, Rebase, CopiedNode, Child, AtOrUnder;
    assert m[y] in mid;
    assert nodes[c].path != "/" by { ChildStrictlyBelow(nodes, x, c); }
    CopyKeptNode(nodes, u, s, x, parent, m, keys, c, mc, y);
  }

  lemma {:induction false} MergeMaps(m: map<NodeId, NodeId>, mc: map<NodeId, NodeId>)
    requires m.Keys !! mc.Keys && m.Values !! mc.Values && Injective(m) && Injective(mc)
    ensures Injective(m + mc) && (m + mc).Values == m.Values + mc.Values
  {
    var all := m + mc;
    forall v | v in m.Values + mc.Values ensures v in all.Values {
      if v in m.Values {
        var k :| k in m && m[k] == v;
        assert all[k] == v;
      } else {
        var k :| k in mc && mc[k] == v;
        assert all[k] == v;
      }
    }
    forall a, b | a in all && b in all && all[a] == all[b] ensures a == b {
      assert (a in mc ==> mc[a] in mc.Values) && (b in mc ==> mc[b] in mc.Values);
      assert (a !in mc ==> m[a] in m.Values) && (b !in mc ==> m[b] in m.Values);
    }
  }

  /** A node below child c is copied to the same row whether reached through c or counted from the top. */
  lemma {:induction false} CopyChildNode(nodes: Nodes, mid: Nodes, u: UserId, s: string, d: string, x: NodeId,
          parent: NodeId, m: map<NodeId, NodeId>, c: NodeId, mc: map<NodeId, NodeId>, y: NodeId)
    requires TreeOk(nodes) && x in nodes && KeyOf(nodes[x]) == Key(u, s) && s != "/" && x in m
    requires c in nodes && nodes[c].parent == Some(x) && IsPath(d)
    requires Rebase(s, s, d) == d && AtOrUnder(nodes[c].path, s)
    requires Rebase(nodes[c].path, s, d) == Child(d, nodes[c].name) && IsPath(Child(d, nodes[c].name))
    requires mc.Keys == SubtreeIds(nodes, u, nodes[c].path) && y in mc && x !in mc
    requires y in mid && mid[y] == nodes[y] && AtOrUnder(nodes[y].path, s)
    ensures CopiedNode(mid[y], y == c, nodes[c].path, Child(d, nodes[c].name), CopyParent(mid, mc, y, c, m[x]))
         == CopiedNode(nodes[y], y == x, s, d, CopyParent(nodes, m + mc, y, x, parent))
  {
    hide BaseName, Paths.Dir, LastSlash, Rebase;
    var p := nodes[c].path;
    ChildStrictlyBelow(nodes, x, c);
    ChildIsPath(d, nodes[c].name);
    RebaseVia(nodes[y].path, p, s, d);
    assert nodes[y].parent.Some?;
    ParentInSubtree(nodes, y, u, p);
    if y == c {
      assert CopyParent(nodes, m + mc, y, x, parent) == m[x] == CopyParent(mid, mc, y, c, m[x]);
    } else {
      assert KeyOf(nodes[y]) != KeyOf(nodes[c]);
      assert nodes[y].parent.value in mc;
    }
  }

  lemma {:induction false} CopyKeptNode(nodes: Nodes, u: UserId, s: string, x: NodeId, parent: NodeId,
          m: map<NodeId, NodeId>, keys: set<NodeId>, c: NodeId, mc: map<NodeId, NodeId>, y: NodeId)
    requires TreeOk(nodes) && m.Keys == keys && keys <= nodes.Keys && c in nodes && x in nodes
    requires keys !! SubtreeIds(nodes, u, nodes[c].path) && mc.Keys == SubtreeIds(nodes, u, nodes[c].path)
    requires y in m && nodes[y].user == u && IsPath(nodes[c].path) && nodes[c].path != "/"
    ensures CopyParent(nodes, m + mc, y, x, parent) == CopyParent(nodes, m, y, x, parent)
  {
    if nodes[y].parent.Some? {
      ParentInSubtree(nodes, y, u, nodes[c].path);
    }
  }

  // ---- the loop over a directory's children -------------------------------------------------------

  /** x and everything at or below the first children. */
  ghost function Reached(nodes: Nodes, u: UserId, x: NodeId, children: seq<NodeId>): set<NodeId>
    requires forall c :: c in children ==> c in nodes
    ensures x in Reached(nodes, u, x, children)
  {
    if children == [] then {x}
    else
      Reached(nodes, u, x, children[..|children| - 1]) + SubtreeIds(nodes, u, nodes[children[|children| - 1]].path)
  }

  lemma {:induction false} ReachedIs(nodes: Nodes, u: UserId, x: NodeId, children: seq<NodeId>, y: NodeId)
    requires forall c :: c in children ==> c in nodes
    ensures y in Reached(nodes, u, x, children) <==>
            y == x || exists c :: c in children && y in SubtreeIds(nodes, u, nodes[c].path)
  {
    if children != [] {
      var init, last := children[..|children| - 1], children[|children| - 1];
      ReachedIs(nodes, u, x, init, y);
      assert children == init + [last];
    }
  }

  ghost predicate ChildrenOf(nodes: Nodes, x: NodeId, children: seq<NodeId>) {
    && (forall c :: c in children <==> c in nodes && nodes[c].parent == Some(x))
    && Distinct(children)
  }

  lemma {:induction false} ReachedAll(nodes: Nodes, u: UserId, x: NodeId, children: seq<NodeId>)
    requires TreeOk(nodes) && x in nodes && nodes[x].user == u && nodes[x].path != "/" && ChildrenOf(nodes, x, children)
    ensures Reached(nodes, u, x, children) == SubtreeIds(nodes, u, nodes[x].path)
  {
    forall y ensures y in Reached(nodes, u, x, children) <==> y in SubtreeIds(nodes, u, nodes[x].path) {
      ReachedIs(nodes, u, x, children, y);
      if y in SubtreeIds(nodes, u, nodes[x].path) && y != x {
        var c := ChildAbove(nodes, x, y);
        assert c in children;
      }
      if c :| c in children && y in SubtreeIds(nodes, u, nodes[c].path) {
        ChildStrictlyBelow(nodes, x, c);
        UnderTrans(nodes[y].path, nodes[c].path, nodes[x].path);
      }
    }
  }

  lemma {:induction false} NotReached(nodes: Nodes, u: UserId, x: NodeId, children: seq<NodeId>, i: nat)
    requires TreeOk(nodes) && x in nodes && nodes[x].user == u && nodes[x].path != "/" && ChildrenOf(nodes, x, children)
    requires i < |children|
    ensures Reached(nodes, u, x, children[..i]) !! SubtreeIds(nodes, u, nodes[children[i]].path)
  {
    var c := children[i];
    ChildStrictlyBelow(nodes, x, c);
    forall y | y in SubtreeIds(nodes, u, nodes[c].path) ensures y !in Reached(nodes, u, x, children[..i]) {
      ReachedIs(nodes, u, x, children[..i], y);
      forall b | b in children[..i] ensures y !in SubtreeIds(nodes, u, nodes[b].path) {
        if y in SubtreeIds(nodes, u, nodes[b].path) {
          SiblingsApart(nodes, u, x, b, c, y);
        }
      }
    }
  }

  /** Everything the recursive call on child i needs, and that it is a call on a smaller subtree. */
  lemma {:induction false} LoopReady(nodes: Nodes, mid: Nodes, u: UserId, s: string, d: string, x: NodeId,
          parent: NodeId, m: map<NodeId, NodeId>, children: seq<NodeId>, i: nat)
    requires TreeOk(nodes) && Relocatable(nodes, u, s, d, x, parent) && Free(nodes, u, d) && nodes[x].isDir
    requires ChildrenOf(nodes, x, children) && i < |children|
    requires CopiedKeys(nodes, mid, u, s, d, x, parent, m, Reached(nodes, u, x, children[..i]))
    ensures x in m && var c := children[i];
      && c in nodes && c in mid && mid[c] == nodes[c] && nodes[c].user == u && m[x] in mid
      && Child(d, nodes[c].name) == d + "/" + nodes[c].name != "/" && IsPath(Child(d, nodes[c].name))
      && Relocatable(mid, u, nodes[c].path, Child(d, nodes[c].name), c, m[x])
      && Free(mid, u, Child(d, nodes[c].name))
      && Midway(nodes, mid, u, s, d, x, parent, m, Reached(nodes, u, x, children[..i]), c)
      && |SubtreeIds(mid, u, nodes[c].path)| < |SubtreeIds(nodes, u, s)|
  {
    hide Paths.Dir, IsPath, Child, Free, Midway, Reached;
    var c := children[i];
    assert x in m && m.Keys == Reached(nodes, u, x, children[..i]);
    NotReached(nodes, u, x, children, i);
    ChildStrictlyBelow(nodes, x, c);
    FewerBelow(nodes, u, x, c);
    hide CopiedKeys, Relocatable;
    ChildReady(nodes, mid, u, s, d, x, parent, m, Reached(nodes, u, x, children[..i]), c);
    MidwayKeys(nodes, mid, u, s, d, x, parent, m, Reached(nodes, u, x, children[..i]), c);
    MidwaySame(nodes, mid, u, s, d, x, parent, m, Reached(nodes, u, x, children[..i]), c);
  }

  lemma {:induction false} ReachedNext(nodes: Nodes, u: UserId, x: NodeId, children: seq<NodeId>, i: nat)
    requires i < |children| && forall c :: c in children ==> c in nodes
    ensures Reached(nodes, u, x, children[..i + 1])
         == Reached(nodes, u, x, children[..i]) + SubtreeIds(nodes, u, nodes[children[i]].path)
  {
    assert children[..i + 1][..i] == children[..i];
  }

  lemma {:induction false} LoopNext(nodes: Nodes, mid: Nodes, nodes': Nodes, u: UserId, s: string, d: string, x: NodeId,
          parent: NodeId, m: map<NodeId, NodeId>, children: seq<NodeId>, i: nat, mc: map<NodeId, NodeId>)
    requires i < |children| && forall c :: c in children ==> c in nodes
    requires Midway(nodes, mid, u, s, d, x, parent, m, Reached(nodes, u, x, children[..i]), children[i])
    requires CopiedTree(mid, nodes', u, nodes[children[i]].path, Child(d, nodes[children[i]].name), children[i], m[x],
        true, mc)
    ensures CopiedKeys(nodes, nodes', u, s, d, x, parent, m + mc, Reached(nodes, u, x, children[..i + 1]))
    ensures x !in mc
  {
    hide *;
    var keys := Reached(nodes, u, x, children[..i]);
    ReachedNext(nodes, u, x, children, i);
    MidwayRow(nodes, mid, u, s, d, x, parent, m, keys, children[i], x);
    CopyChild(nodes, mid, nodes', u, s, d, x, parent, m, keys, children[i], mc);
    MidwaySame(nodes, mid, u, s, d, x, parent, m, keys, children[i]);
    TreeKeys(mid, nodes', u, nodes[children[i]].path, Child(d, nodes[children[i]].name), children[i], m[x], mc);
  }
}
