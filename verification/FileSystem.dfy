/** The WebDAV filesystem: MKCOL, PUT's open and close, DELETE, MOVE, COPY and the quota check, as they update
    the nodes and blobs tables. Each method is one transaction; on error it leaves the tables as they were. */
module FileSystem {
  import opened Base
  import opened Paths
  import opened Wal
  import opened Extents
  import opened Tables
  import opened Tree
  import opened Quota
  import opened Subtrees
  import Safety

  datatype Status = Done | Permission | NotExist | Exist | Invalid | QuotaExceeded | Failed

  // ---- rows and references ----------------------------------------------------------------------

  function Shifted(blobs: Blobs, deltas: map<BlobId, int>): Blobs {
    map b | b in blobs :: Moved(blobs[b], if b in deltas then deltas[b] else 0)
  }

  /** deltas holds sign times the number of extents naming each blob, and no zero entries. */
  ghost predicate IsDeltas(deltas: map<BlobId, int>, ex: seq<Extent>, sign: int) {
    forall b :: if b in deltas then deltas[b] == sign * Count(ex, b) else Count(ex, b) == 0
  }

  function Released(blobs: Blobs, ex: seq<Extent>, sign: int): Blobs {
    map b | b in blobs :: Moved(blobs[b], sign * Count(ex, b))
  }

  /** The aggregation both releaseExtents and the copy of a stored file do before AddRefcounts. */
  method Deltas(ex: seq<Extent>, sign: int) returns (deltas: map<BlobId, int>)
    ensures IsDeltas(deltas, ex, sign)
  {
    deltas := map[];
    for i := 0 to |ex|
      invariant IsDeltas(deltas, ex[..i], sign)
    {
      var b := ex[i].blob;
      assert ex[..i + 1][..i] == ex[..i];
      assert forall c :: Count(ex[..i + 1], c) == Count(ex[..i], c) + if b == c then 1 else 0;
      deltas := deltas[b := (if b in deltas then deltas[b] else 0) + sign];
    }
    assert ex[..|ex|] == ex;
  }

  lemma {:induction false} ShiftedIsReleased(blobs: Blobs, deltas: map<BlobId, int>, ex: seq<Extent>, sign: int)
    requires IsDeltas(deltas, ex, sign)
    ensures Shifted(blobs, deltas) == Released(blobs, ex, sign)
  {
  }

  method Enumerate(s: set<NodeId>) returns (ids: seq<NodeId>)
    ensures forall n :: n in ids <==> n in s
    ensures Distinct(ids)
  {
    ids := [];
    var todo := s;
    while todo != {}
      invariant forall n :: n in ids <==> n in s && n !in todo
      invariant todo <= s
      invariant Distinct(ids)
      decreases |todo|
    {
      var n :| n in todo;
      ids := ids + [n];
      todo := todo - {n};
    }
  }

  predicate DirsBare(nodes: Nodes) {
    forall n :: n in nodes && nodes[n].isDir ==> nodes[n].extents == []
  }

  /** The rows of a set of nodes. */
  function Restrict(nodes: Nodes, s: set<NodeId>): Nodes {
    map n | n in nodes && n in s :: nodes[n]
  }

  /** Blobs after the references of the nodes in s are released. */
  ghost function ReleasedAll(blobs: Blobs, nodes: Nodes, s: set<NodeId>): Blobs {
    map b | b in blobs :: Moved(blobs[b], -Refs(Restrict(nodes, s), b))
  }

  lemma {:induction false} ReleaseNone(blobs: Blobs, nodes: Nodes)
    ensures ReleasedAll(blobs, nodes, {}) == blobs
  {
    assert Restrict(nodes, {}) == map[];
    forall b ensures Refs(map[], b) == 0 {
      RefsNamed(map[], b);
    }
  }

  lemma {:induction false} ReleaseOne(blobs: Blobs, nodes: Nodes, s: set<NodeId>, n: NodeId)
    requires n in nodes && n !in s
    ensures ReleasedAll(blobs, nodes, s + {n}) == Released(ReleasedAll(blobs, nodes, s), nodes[n].extents, -1)
  {
    hide Refs;
    var part := Restrict(nodes, s);
    assert Restrict(nodes, s + {n}) == part[n := nodes[n]];
    forall b ensures Refs(Restrict(nodes, s + {n}), b) == Refs(part, b) + Count(nodes[n].extents, b) {
      RefsInsert(part, n, nodes[n], b);
    }
  }

  lemma {:induction false} ReleaseBare(blobs: Blobs, nodes: Nodes, s: set<NodeId>, n: NodeId)
    requires n in nodes && n !in s && nodes[n].extents == []
    ensures ReleasedAll(blobs, nodes, s + {n}) == ReleasedAll(blobs, nodes, s)
  {
    hide Refs;
    ReleaseOne(blobs, nodes, s, n);
    var r := ReleasedAll(blobs, nodes, s);
    assert Released(r, [], -1) == r;
  }

  /** Releasing a subtree's references is what its deletion calls for. */
  lemma {:induction false} ReleaseSettles(blobs: Blobs, nodes: Nodes, u: UserId, p: string)
    ensures ReleasedAll(blobs, nodes, SubtreeIds(nodes, u, p)) == Settle(blobs, nodes, RemoveTree(nodes, u, p))
  {
    hide Refs;
    var nodes' := RemoveTree(nodes, u, p);
    assert Restrict(nodes, SubtreeIds(nodes, u, p)) == nodes - nodes'.Keys;
    forall b ensures Refs(nodes, b) - Refs(nodes', b) == Refs(nodes - nodes'.Keys, b) {
      RefsShrink(nodes, nodes', b);
    }
  }

  // ---- MOVE's row-by-row rewrite ----------------------------------------------------------------

  /** The nodes table after the rows in done have been rewritten. */
  function PartlyMoved(nodes: Nodes, done: set<NodeId>, u: UserId, s: string, d: string, top: NodeId,
          parent: NodeId): Nodes
    requires IsPath(d)
  {
    map n | n in nodes ::
      if n in done && InSubtree(nodes[n], u, s) then MovedNode(nodes[n], n == top, s, d, parent) else nodes[n]
  }

  lemma {:induction false} MovedAll(nodes: Nodes, u: UserId, s: string, d: string, top: NodeId, parent: NodeId)
    requires IsPath(d)
    ensures var mid := RemoveTree(nodes, u, d);
      PartlyMoved(mid, SubtreeIds(mid, u, s), u, s, d, top, parent) == RenameTree(nodes, u, s, d, top, parent)
  {
  }

  /** The unique index never rejects one of MOVE's updates. */
  lemma {:induction false} MoveFits(mid: Nodes, done: set<NodeId>, u: UserId, s: string, d: string, top: NodeId,
          parent: NodeId, n: NodeId, m: NodeId)
    requires TreeOk(mid) && Relocatable(mid, u, s, d, top, parent) && Free(mid, u, d)
    requires n in mid && n !in done && InSubtree(mid[n], u, s) && m in mid && m != n
    ensures KeyOf(PartlyMoved(mid, done, u, s, d, top, parent)[m]) != KeyOf(MovedNode(mid[n], n == top, s, d, parent))
  {
    hide Paths.Dir, BaseName, LastSlash;
    RebaseOk(mid[n].path, s, d);
    if m in done && InSubtree(mid[m], u, s) {
      if Rebase(mid[m].path, s, d) == Rebase(mid[n].path, s, d) {
        RebaseInjective(mid[m].path, mid[n].path, s, d);
      }
    }
  }

  lemma {:induction false} MovedMore(mid: Nodes, done: set<NodeId>, n: NodeId, u: UserId, s: string, d: string,
          top: NodeId, parent: NodeId)
    requires IsPath(d) && n in mid && InSubtree(mid[n], u, s)
    ensures PartlyMoved(mid, done + {n}, u, s, d, top, parent)
         == PartlyMoved(mid, done, u, s, d, top, parent)[n := MovedNode(mid[n], n == top, s, d, parent)]
  {
  }

  lemma {:induction false} MovedNone(mid: Nodes, u: UserId, s: string, d: string, top: NodeId, parent: NodeId)
    requires IsPath(d)
    ensures PartlyMoved(mid, {}, u, s, d, top, parent) == mid
  {
  }

  /** The table a user's first write leaves: the root directory exists. */
  ghost function Rooted(nodes: Nodes, u: UserId, id: NodeId): Nodes {
    if Key(u, "/") in Keys(nodes) then nodes else nodes[id := RootNode(u)]
  }

  predicate HasRoot(nodes: Nodes, u: UserId) {
    exists n :: n in nodes && nodes[n].user == u && nodes[n].path == "/" && nodes[n].isDir
  }

  /** The id counter after the root was made sure of. */
  ghost function NextId(nodes: Nodes, u: UserId, id: NodeId): NodeId {
    if Key(u, "/") in Keys(nodes) then id else id + 1
  }

  ghost predicate IsDirAt(nodes: Nodes, u: UserId, p: string) {
    Key(u, p) in Keys(nodes) && nodes[IdAt(nodes, Key(u, p))].isDir
  }

  lemma {:induction false} TheIdAt(nodes: Nodes, n: NodeId)
    requires UniquePaths(nodes) && n in nodes
    ensures KeyOf(nodes[n]) in Keys(nodes) && IdAt(nodes, KeyOf(nodes[n])) == n
  {
    assert KeyOf(nodes[n]) in Keys(nodes);
  }

  lemma {:induction false} DirsAreBare(nodes: Nodes, data: Data)
    requires NodesOk(nodes, data)
    ensures DirsBare(nodes)
  {
  }

  lemma {:induction false} NothingThere(nodes: Nodes, u: UserId, d: string)
    requires TreeOk(nodes) && IsPath(d) && d != "/" && Key(u, d) !in Keys(nodes)
    ensures Free(nodes, u, d) && RemoveTree(nodes, u, d) == nodes
  {
    forall n | n in nodes ensures !InSubtree(nodes[n], u, d) {
      if InSubtree(nodes[n], u, d) {
        AncestorsExist(nodes, n, d);
      }
    }
  }

  lemma {:induction false} SettleRename(blobs: Blobs, nodes: Nodes, mid: Nodes, after: Nodes)
    requires SameExtents(mid, after)
    ensures Settle(blobs, nodes, mid) == Settle(blobs, nodes, after)
  {
    hide Settle;
    SettleTrans(blobs, nodes, mid, after);
    SettleSame(Settle(blobs, nodes, mid), mid, after);
  }

  lemma {:induction false} MovedExtents(mid: Nodes, done: set<NodeId>, u: UserId, s: string, d: string, top: NodeId,
          parent: NodeId)
    requires IsPath(d)
    ensures SameExtents(mid, PartlyMoved(mid, done, u, s, d, top, parent))
  {
  }

  /** How MOVE answers. The last two cases differ only because the destination may contain the source: then a
      directory disappears without an error and a file's update fails. */
  ghost function RenameOutcome(nodes: Nodes, u: UserId, s: string, d: string): Status
    requires IsPath(d)
  {
    if s == "/" || d == "/" then Permission
    else if s == d then Done
    else if AtOrUnder(d, s) then Invalid
    else if Key(u, s) !in Keys(nodes) || !IsDirAt(nodes, u, Paths.Dir(d)) then NotExist
    else if AtOrUnder(s, d) && !IsDirAt(nodes, u, s) then Failed
    else Done
  }

  /** The table MOVE leaves when it succeeds. */
  ghost function RenameResult(nodes: Nodes, u: UserId, s: string, d: string): Nodes
    requires IsPath(d) && Key(u, s) in Keys(nodes) && IsDirAt(nodes, u, Paths.Dir(d))
  {
    if AtOrUnder(s, d) then RemoveTree(nodes, u, d)
    else RenameTree(nodes, u, s, d, IdAt(nodes, Key(u, s)), IdAt(nodes, Key(u, Paths.Dir(d))))
  }

  lemma {:induction false} SourceGone(nodes: Nodes, u: UserId, s: string, d: string)
    requires AtOrUnder(s, d)
    ensures SubtreeIds(RemoveTree(nodes, u, d), u, s) == {}
  {
    forall n | n in nodes && InSubtree(nodes[n], u, s) ensures InSubtree(nodes[n], u, d) {
      UnderTrans(nodes[n].path, s, d);
    }
  }

  /** MOVE keeps what it moves exactly when the destination does not contain the source. */
  lemma {:induction false} RenameKeepsSource(nodes: Nodes, u: UserId, s: string, d: string)
    requires TreeOk(nodes) && IsPath(s) && IsPath(d) && s != d && RenameOutcome(nodes, u, s, d).Done?
    ensures Key(u, d) in Keys(RenameResult(nodes, u, s, d)) <==> !AtOrUnder(s, d)
  {
    if !AtOrUnder(s, d) {
      var n := IdAt(nodes, Key(u, s));
      assert Rebase(s, s, d) == d;
      assert KeyOf(RenameResult(nodes, u, s, d)[n]) == Key(u, d);
    }
  }

  /** The row is at or under p, in terms of the path strings. */
  predicate IsBelow(nd: Node, u: UserId, p: string) {
    nd.user == u && (nd.path == p || p + "/" <= nd.path)
  }

  lemma {:induction false} BelowIs(nodes: Nodes, u: UserId, p: string)
    ensures forall n :: n in nodes ==> (IsBelow(nodes[n], u, p) <==> InSubtree(nodes[n], u, p))
  {
    forall n | n in nodes ensures IsBelow(nodes[n], u, p) <==> InSubtree(nodes[n], u, p) {
      UnderMeans(nodes[n].path, p);
    }
  }

  /** Deleting a subtree takes the rows at or under p and no other. */
  predicate WithoutBelow(before: Nodes, after: Nodes, u: UserId, p: string) {
    && (forall n :: n in after ==> n in before && after[n] == before[n])
    && forall n :: n in before ==> (n !in after <==> IsBelow(before[n], u, p))
  }

  lemma {:induction false} RemovedMeans(nodes: Nodes, u: UserId, p: string)
    ensures WithoutBelow(nodes, RemoveTree(nodes, u, p), u, p)
  {
    BelowIs(nodes, u, p);
    hide IsBelow, InSubtree;
  }

  lemma {:induction false} UnderMeans(q: string, p: string)
    ensures AtOrUnder(q, p) <==> q == p || p + "/" <= q
  {
    if p + "/" <= q {
      assert q[..|p|] == p && q[|p|] == '/';
    }
    if |q| > |p| && q[..|p|] == p && q[|p|] == '/' {
      assert q[..|p| + 1] == p + "/";
    }
  }

  /** MOVE in terms of path strings: every row at s + t is the same row at d + t, nothing is left at or under s, what
      was at or under d is gone, and every other row is as it was. */
  predicate MovedPaths(before: Nodes, after: Nodes, u: UserId, s: string, d: string) {
    && (forall n :: n in before && IsBelow(before[n], u, s) ==>
         n in after && |s| <= |before[n].path| && after[n] ==
           before[n].(path := d + before[n].path[|s|..], name := after[n].name, parent := after[n].parent))
    && (forall n :: n in before && !IsBelow(before[n], u, s) && IsBelow(before[n], u, d) ==> n !in after)
    && (forall n :: n in before && !IsBelow(before[n], u, s) && !IsBelow(before[n], u, d) ==>
         n in after && after[n] == before[n])
    && forall n :: n in after ==> n in before && !IsBelow(after[n], u, s)
  }

  lemma {:induction false} RenameDrops(nodes: Nodes, u: UserId, s: string, d: string, top: NodeId, parent: NodeId)
    requires IsPath(d)
    ensures forall n :: n in nodes && InSubtree(nodes[n], u, d) ==> n !in RenameTree(nodes, u, s, d, top, parent)
  {
  }

  lemma {:induction false} BelowLength(nodes: Nodes, u: UserId, p: string)
    ensures forall n :: n in nodes && IsBelow(nodes[n], u, p) ==> |p| <= |nodes[n].path|
  {
  }

  lemma {:induction false} RenameMeans(nodes: Nodes, u: UserId, s: string, d: string)
    requires TreeOk(nodes) && IsPath(s) && IsPath(d) && RenameOutcome(nodes, u, s, d).Done? && s != d && !(d + "/" <= s)
    ensures MovedPaths(nodes, RenameResult(nodes, u, s, d), u, s, d)
  {
    var top, parent := IdAt(nodes, Key(u, s)), IdAt(nodes, Key(u, Paths.Dir(d)));
    var after := RenameTree(nodes, u, s, d, top, parent);
    UnderMeans(d, s);
    UnderMeans(s, d);
    assert RenameResult(nodes, u, s, d) == after && Relocatable(nodes, u, s, d, top, parent);
    hide AtOrUnder, IsPath, Paths.Dir, TreeOk, MovedNode, Keys, IdAt, RenameTree, InSubtree, IsBelow, Relocatable,
      RenameResult, RenameOutcome;
    RenameKeepsRows(nodes, u, s, d, top, parent);
    RenameDrops(nodes, u, s, d, top, parent);
    BelowIs(nodes, u, s);
    BelowIs(nodes, u, d);
    BelowIs(after, u, s);
    BelowLength(nodes, u, s);
  }

  // ---- COPY's rows --------------------------------------------------------------------------------

  /** What is left to copy of a node whose rows were deleted with the destination that contained it. */
  function Orphan(nd: Node): Node {
    nd.(wal := [], extents := [])
  }

  /** The row of a copied file, or of the top of a copied directory. */
  function TopRow(nd: Node, d: string, parent: NodeId): Node
    requires IsPath(d)
  {
    assert AtOrUnder(nd.path, nd.path);
    CopiedNode(nd, true, nd.path, d, parent)
  }

  lemma {:induction false} SettleInsert(blobs: Blobs, nodes: Nodes, n: NodeId, nd: Node)
    requires n !in nodes
    ensures Settle(blobs, nodes, nodes[n := nd]) == Released(blobs, nd.extents, 1)
  {
    hide Refs;
    forall b ensures Refs(nodes[n := nd], b) == Refs(nodes, b) + Count(nd.extents, b) {
      RefsInsert(nodes, n, nd, b);
    }
  }

  lemma {:induction false} SettleBare(blobs: Blobs, nodes: Nodes, n: NodeId, nd: Node)
    requires n !in nodes && nd.extents == []
    ensures Settle(blobs, nodes, nodes[n := nd]) == blobs
  {
    hide Settle, Refs;
    SettleInsert(blobs, nodes, n, nd);
    ReleasedNone(blobs);
  }

  lemma {:induction false} ReleasedNone(blobs: Blobs)
    ensures Released(blobs, [], 1) == blobs
  {
  }

  /** What the copy of node x to d needs: a free destination elsewhere, or, when the row is gone, no children. */
  ghost predicate CopyTarget(nodes: Nodes, u: UserId, x: NodeId, nd: Node, d: string, parent: NodeId) {
    && nd.user == u && IsPath(d) && d != "/" && Free(nodes, u, d) && parent in nodes
    && if x in nodes then nodes[x] == nd && Relocatable(nodes, u, nd.path, d, x, parent)
       else nodes[parent].isDir && forall n :: n in nodes ==> nodes[n].parent != Some(x)
  }

  lemma {:induction false} CopyFree(nodes: Nodes, u: UserId, d: string)
    requires Free(nodes, u, d)
    ensures Key(u, d) !in Keys(nodes)
  {
  }

  /** What the recursive call on child i needs. */
  lemma {:induction false} ChildTarget(base: Nodes, mid: Nodes, u: UserId, x: NodeId, nd: Node, d: string,
          parent: NodeId, m: map<NodeId, NodeId>, children: seq<NodeId>, i: nat)
    requires TreeOk(base) && x in base && CopyTarget(base, u, x, nd, d, parent) && nd.isDir
    requires ChildrenOf(base, x, children) && i < |children|
    requires CopiedKeys(base, mid, u, nd.path, d, x, parent, m, Reached(base, u, x, children[..i]))
    ensures x in m && var c := children[i];
      && c in base && c in mid && mid[c] == base[c] && Child(d, base[c].name) == d + "/" + base[c].name
      && CopyTarget(mid, u, c, mid[c], d + "/" + base[c].name, m[x])
      && Midway(base, mid, u, nd.path, d, x, parent, m, Reached(base, u, x, children[..i]), c)
      && |SubtreeIds(mid, u, mid[c].path)| < |SubtreeIds(base, u, nd.path)|
  {
    hide Relocatable, IsPath, Free, CopiedKeys, Midway, Reached, TreeOk, SubtreeIds, Child;
    LoopReady(base, mid, u, nd.path, d, x, parent, m, children, i);
    assert KeyOf(base[x]).user == u;
  }

  /** A single copied row is a finished copy of a file, and of a directory that is copied alone. */
  lemma {:induction false} OneRowCopied(nodes: Nodes, u: UserId, x: NodeId, d: string, parent: NodeId, recursive: bool,
          id: NodeId)
    requires TreeOk(nodes) && x in nodes && nodes[x].user == u && IsPath(d) && id !in nodes
    requires !recursive || !nodes[x].isDir
    ensures CopiedTree(nodes, nodes[id := TopRow(nodes[x], d, parent)], u, nodes[x].path, d, x, parent, recursive,
                       map[x := id])
  {
    hide CopiedTree, CopiedKeys, TreeOk, CopiedNode;
    CopiedTop(nodes, u, nodes[x].path, d, x, parent, id);
    if recursive {
      FileIsLeaf(nodes, x);
    }
    CopiedKeysIsTree(nodes, nodes[id := TopRow(nodes[x], d, parent)], u, nodes[x].path, d, x, parent, recursive,
                     map[x := id], {x});
  }

  /** How COPY answers. */
  ghost function CopyOutcome(nodes: Nodes, u: UserId, s: string, d: string, overwrite: bool, quota: int): Status
    requires IsPath(d)
  {
    if s == "/" || d == "/" then Permission
    else if s == d then Done
    else if AtOrUnder(d, s) then Invalid
    else if Key(u, s) !in Keys(nodes) || !IsDirAt(nodes, u, Paths.Dir(d)) then NotExist
    else if quota > 0 && Usage(nodes, u) + SubtreeUsage(nodes, u, s) - SubtreeUsage(nodes, u, d) > quota
      then QuotaExceeded
    else if Key(u, d) in Keys(nodes) && !overwrite then Exist
    else Done
  }

  /** COPY makes sure of the user's root before its transaction, unless it answers without one. */
  ghost function CopyBase(nodes: Nodes, u: UserId, s: string, d: string, id: NodeId): Nodes {
    if s == "/" || d == "/" || AtOrUnder(d, s) then nodes else Rooted(nodes, u, id)
  }

  /** After the destination is cleared, the copy can start; or the source went with it. */
  lemma {:induction false} MidTarget(before: Nodes, u: UserId, s: string, d: string, top: NodeId, parent: NodeId)
    requires TreeOk(before) && IsPath(s) && IsPath(d) && s != "/" && d != "/" && !AtOrUnder(d, s)
    requires top in before && KeyOf(before[top]) == Key(u, s)
    requires parent in before && KeyOf(before[parent]) == Key(u, Paths.Dir(d)) && before[parent].isDir
    ensures CopyTarget(RemoveTree(before, u, d), u, top, before[top], d, parent)
    ensures TreeOk(RemoveTree(before, u, d)) && (top in RemoveTree(before, u, d) <==> !AtOrUnder(s, d))
  {
    hide Paths.Dir, IsPath;
    var mid := RemoveTree(before, u, d);
    RemoveOk(before, u, d);
    DestinationParent(s, d);
    if AtOrUnder(s, d) {
      forall n | n in mid ensures mid[n].parent != Some(top) {
        if before[n].parent == Some(top) {
          ChildStrictlyBelow(before, top, n);
          UnderTrans(before[n].path, s, d);
        }
      }
    } else {
      RelocatableAfterRemove(before, u, s, d, top, parent);
    }
  }

  /** The row an overwritten ancestor leaves in the source's place claims bytes that are gone, unless it is a
      directory or empty. */
  lemma {:induction false} OrphanReadable(nd: Node, data: Data, d: string, parent: NodeId)
    requires NodeOk(nd, data) && IsPath(d)
    ensures NodeOk(TopRow(Orphan(nd), d, parent), data) <==> nd.isDir || nd.size == 0
  {
    FlattenNil();
  }

  /** COPY keeps its source exactly when the destination does not contain it. */
  lemma {:induction false} CopyKeepsSource(nodes: Nodes, after: Nodes, u: UserId, s: string, d: string, top: NodeId,
          parent: NodeId, recursive: bool, m: map<NodeId, NodeId>)
    requires TreeOk(nodes) && Relocatable(nodes, u, s, d, top, parent)
    requires CopiedTree(RemoveTree(nodes, u, d), after, u, s, d, top, parent, recursive, m)
    ensures forall n :: n in nodes && !InSubtree(nodes[n], u, d) ==> n in after && after[n] == nodes[n]
    ensures forall n :: n in nodes && InSubtree(nodes[n], u, s) ==> n in after && after[n] == nodes[n]
  {
    hide CopiedNode, Paths.Dir;
    forall n | n in nodes && InSubtree(nodes[n], u, s) ensures !InSubtree(nodes[n], u, d) {
      Apart(nodes[n].path, s, d);
    }
    forall n | n in nodes && !InSubtree(nodes[n], u, d) ensures n in after && after[n] == nodes[n] {
      assert n in RemoveTree(nodes, u, d);
    }
  }

  /** The source and destination rows were found, and the destination has become a copy of the source. */
  ghost predicate IsCopied(before: Nodes, after: Nodes, u: UserId, s: string, d: string, recursive: bool,
          m: map<NodeId, NodeId>)
    requires IsPath(d)
  {
    && Key(u, s) in Keys(before) && Key(u, Paths.Dir(d)) in Keys(before)
    && var top, parent := IdAt(before, Key(u, s)), IdAt(before, Key(u, Paths.Dir(d)));
       CopiedTree(RemoveTree(before, u, d), after, u, s, d, top, parent, recursive, m)
  }

  /** The source vanished with the destination that contained it; what is left is one row without its bytes. */
  ghost predicate IsOrphaned(before: Nodes, after: Nodes, u: UserId, s: string, d: string)
    requires IsPath(d)
  {
    && Key(u, s) in Keys(before) && Key(u, Paths.Dir(d)) in Keys(before)
    && var top, parent := IdAt(before, Key(u, s)), IdAt(before, Key(u, Paths.Dir(d)));
       exists id: NodeId :: id !in before && after
         == RemoveTree(before, u, d)[id := TopRow(Orphan(before[top]), d, parent)]
  }

  /** A copy at path: the same bytes, never leased; of a file still being written only its existence. */
  predicate IsCopyOf(copy: Node, nd: Node, path: string) {
    && copy.user == nd.user && copy.path == path && copy.isDir == nd.isDir && copy.size == nd.size
    && copy.extents == nd.extents && copy.leaseOwner.None? && copy.leaseUntil.None?
    && copy.wal == (if nd.state.Buffered? then nd.wal else [])
    && copy.state == (if nd.isDir || nd.state.Stored? then Stored else Buffered)
  }

  /** COPY in terms of path strings: every source row, or only the top one, has a copy at d + t; at or under d there is
      nothing else; every row elsewhere is as it was. */
  ghost predicate CopiedPaths(before: Nodes, after: Nodes, u: UserId, s: string, d: string, recursive: bool) {
    && (forall n :: n in before ==> HasCopy(before[n], after, u, s, d, recursive))
    && (forall x :: x in after && IsBelow(after[x], u, d) ==> IsTraced(before, after[x], u, s, d, recursive))
    && (forall n :: n in before && !IsBelow(before[n], u, d) ==> n in after && after[n] == before[n])
    && forall x :: x in after && !IsBelow(after[x], u, d) ==> x in before
  }

  predicate IsSource(nd: Node, u: UserId, s: string, recursive: bool) {
    IsBelow(nd, u, s) && (recursive || nd.path == s)
  }

  /** A source row has its copy. */
  predicate HasCopy(nd: Node, after: Nodes, u: UserId, s: string, d: string, recursive: bool) {
    IsSource(nd, u, s, recursive) ==> exists x :: x in after && IsCopyOf(after[x], nd, d + nd.path[|s|..])
  }

  /** The row is the copy of a source row. */
  predicate IsTraced(before: Nodes, copy: Node, u: UserId, s: string, d: string, recursive: bool) {
    exists n :: n in before && IsSource(before[n], u, s, recursive)
      && IsCopyOf(copy, before[n], d + before[n].path[|s|..])
  }

  lemma {:induction false} RowCopied(before: Nodes, after: Nodes, u: UserId, s: string, d: string, recursive: bool,
          m: map<NodeId, NodeId>, n: NodeId)
    requires TreeOk(before) && IsPath(d) && !AtOrUnder(s, d) && !AtOrUnder(d, s)
    requires IsCopied(before, after, u, s, d, recursive, m)
    requires n in before && InSubtree(before[n], u, s) && (recursive || before[n].path == s)
    ensures n in m && m[n] in after && IsCopyOf(after[m[n]], before[n], d + before[n].path[|s|..])
  {
    var top := IdAt(before, Key(u, s));
    Apart(before[n].path, s, d);
    if !recursive {
      OnlyOneThere(before, n, top);
    }
    hide TreeOk, IsPath, Paths.Dir, BaseName, Keys, IdAt, AtOrUnder;
    assert n in RemoveTree(before, u, d);
    assert m[n] in m.Values;
  }

  lemma {:induction false} CopyFound(before: Nodes, after: Nodes, u: UserId, s: string, d: string, recursive: bool,
          m: map<NodeId, NodeId>, x: NodeId)
    requires TreeOk(before) && IsPath(d) && !AtOrUnder(s, d) && !AtOrUnder(d, s)
    requires IsCopied(before, after, u, s, d, recursive, m) && x in after
    ensures if x in m.Values then
              exists n :: n in m && m[n] == x && n in before && InSubtree(before[n], u, s)
                          && (recursive || before[n].path == s) && after[x].user == u
            else x in before && after[x] == before[x] && !InSubtree(before[x], u, d)
  {
    var top := IdAt(before, Key(u, s));
    assert KeyOf(before[top]) == Key(u, s);
    hide TreeOk, IsPath, Paths.Dir, BaseName, Keys, IdAt, AtOrUnder;
    if x in m.Values {
      var n :| n in m && m[n] == x;
      assert n in RemoveTree(before, u, d);
    }
  }

  lemma {:induction false} CopyMeans(before: Nodes, after: Nodes, u: UserId, s: string, d: string, recursive: bool,
          m: map<NodeId, NodeId>)
    requires TreeOk(before) && IsPath(s) && IsPath(d) && s != "/" && d != "/" && !AtOrUnder(s, d) && !AtOrUnder(d, s)
    requires IsCopied(before, after, u, s, d, recursive, m)
    ensures CopiedPaths(before, after, u, s, d, recursive)
  {
    hide TreeOk, IsPath, IsCopied, HasCopy, IsTraced, AtOrUnder, IsOrphaned, IsBelow;
    CopySpares(before, after, u, s, d, recursive, m);
    forall n | n in before ensures HasCopy(before[n], after, u, s, d, recursive) {
      RowHasCopy(before, after, u, s, d, recursive, m, n);
    }
    forall x | x in after
      ensures if IsBelow(after[x], u, d) then IsTraced(before, after[x], u, s, d, recursive) else x in before
    {
      CopyTraced(before, after, u, s, d, recursive, m, x);
    }
  }

  lemma {:induction false} RowHasCopy(before: Nodes, after: Nodes, u: UserId, s: string, d: string, recursive: bool,
          m: map<NodeId, NodeId>, n: NodeId)
    requires TreeOk(before) && IsPath(d) && !AtOrUnder(s, d) && !AtOrUnder(d, s)
    requires IsCopied(before, after, u, s, d, recursive, m) && n in before
    ensures HasCopy(before[n], after, u, s, d, recursive)
  {
    BelowIs(before, u, s);
    BelowLength(before, u, s);
    hide TreeOk, IsPath, IsCopied, IsCopyOf, AtOrUnder, IsBelow, InSubtree;
    if IsSource(before[n], u, s, recursive) {
      RowCopied(before, after, u, s, d, recursive, m, n);
    }
  }

  lemma {:induction false} CopyTraced(before: Nodes, after: Nodes, u: UserId, s: string, d: string, recursive: bool,
          m: map<NodeId, NodeId>, x: NodeId)
    requires TreeOk(before) && IsPath(d) && !AtOrUnder(s, d) && !AtOrUnder(d, s)
    requires IsCopied(before, after, u, s, d, recursive, m) && x in after
    ensures if IsBelow(after[x], u, d) then IsTraced(before, after[x], u, s, d, recursive) else x in before
  {
    BelowIs(before, u, s);
    BelowLength(before, u, s);
    BelowIs(before, u, d);
    hide TreeOk, IsPath, IsCopied, IsCopyOf, InSubtree, AtOrUnder, IsBelow;
    CopyFound(before, after, u, s, d, recursive, m, x);
    if x in m.Values {
      var n :| n in m && m[n] == x && n in before && InSubtree(before[n], u, s)
               && (recursive || before[n].path == s) && after[x].user == u;
      RowCopied(before, after, u, s, d, recursive, m, n);
      CopyIsBelow(after[x], before[n], u, s, d);
      assert IsBelow(after[x], u, d) && IsSource(before[n], u, s, recursive);
    }
  }

  lemma {:induction false} CopyIsBelow(copy: Node, nd: Node, u: UserId, s: string, d: string)
    requires InSubtree(nd, u, s) && |s| <= |nd.path| && IsCopyOf(copy, nd, d + nd.path[|s|..])
    ensures IsBelow(copy, u, d)
  {
    UnderRebase(nd.path, s, d);
  }

  lemma {:induction false} OnlyOneThere(nodes: Nodes, a: NodeId, b: NodeId)
    requires TreeOk(nodes) && a in nodes && b in nodes && KeyOf(nodes[a]) == KeyOf(nodes[b])
    ensures a == b
  {
  }

  lemma {:induction false} UnderRebase(q: string, s: string, d: string)
    requires AtOrUnder(q, s)
    ensures d + q[|s|..] == d || d + "/" <= d + q[|s|..]
  {
    if q != s {
      assert (d + q[|s|..])[..|d| + 1] == d + "/";
    }
  }

  /** Whatever COPY did at its destination, rows elsewhere are as they were; all rows, if nothing was there. */
  lemma {:induction false} CopySpares(before: Nodes, after: Nodes, u: UserId, s: string, d: string, recursive: bool,
          m: map<NodeId, NodeId>)
    requires TreeOk(before) && IsPath(d) && d != "/"
    requires IsCopied(before, after, u, s, d, recursive, m) || IsOrphaned(before, after, u, s, d)
    ensures forall n :: n in before && !IsBelow(before[n], u, d) ==> n in after && after[n] == before[n]
    ensures Key(u, d) !in Keys(before) ==> forall n :: n in before ==> n in after && after[n] == before[n]
  {
    BelowIs(before, u, d);
    if Key(u, d) !in Keys(before) {
      NothingThere(before, u, d);
    }
    hide TreeOk, IsPath, Paths.Dir, BaseName, Keys, IdAt, CopiedNode, TopRow, AtOrUnder;
    forall n | n in before && !IsBelow(before[n], u, d) ensures n in after && after[n] == before[n] {
      assert n in RemoveTree(before, u, d);
    }
  }

  lemma {:induction false} OrphanedIs(before: Nodes, after: Nodes, u: UserId, s: string, d: string, top: NodeId,
          parent: NodeId, id: NodeId)
    requires TreeOk(before) && IsPath(d) && top in before && parent in before && id !in before
    requires KeyOf(before[top]) == Key(u, s) && KeyOf(before[parent]) == Key(u, Paths.Dir(d))
    requires after == RemoveTree(before, u, d)[id := TopRow(Orphan(before[top]), d, parent)]
    ensures IsOrphaned(before, after, u, s, d)
  {
    hide RemoveTree, TopRow, Paths.Dir;
    TheIdAt(before, top);
    TheIdAt(before, parent);
  }

  /** COPY keeps its source exactly when the destination does not contain it. */
  lemma {:induction false} CopySourceFate(before: Nodes, after: Nodes, u: UserId, s: string, d: string, recursive: bool,
          m: map<NodeId, NodeId>)
    requires TreeOk(before) && IsPath(s) && IsPath(d) && s != "/" && d != "/" && s != d && !AtOrUnder(d, s)
    requires if AtOrUnder(s, d) then IsOrphaned(before, after, u, s, d)
        else IsCopied(before, after, u, s, d, recursive, m)
    ensures Key(u, s) in Keys(after) <==> !AtOrUnder(s, d)
  {
    hide Paths.Dir, BaseName, CopiedNode, TopRow, TreeOk, IsPath;
    var x := IdAt(before, Key(u, s));
    if AtOrUnder(s, d) {
      OrphanKeys(before, after, u, s, d);
    } else {
      assert x in RemoveTree(before, u, d);
      assert x in after && KeyOf(after[x]) == Key(u, s);
    }
  }

  lemma {:induction false} OrphanWithinQuota(before: Nodes, after: Nodes, u: UserId, s: string, d: string, quota: int)
    requires IsPath(d) && IsOrphaned(before, after, u, s, d)
    requires Usage(before, u) + SubtreeUsage(before, u, s) - SubtreeUsage(before, u, d) <= quota
    ensures Usage(after, u) <= quota
  {
    hide RemoveTree, Keys, IsPath, Paths.Dir, Usage, SubtreeUsage, BaseName, Rebase;
    var top, parent := IdAt(before, Key(u, s)), IdAt(before, Key(u, Paths.Dir(d)));
    var id: NodeId :| id !in before && after == RemoveTree(before, u, d)[id := TopRow(Orphan(before[top]), d, parent)];
    OneRowWithinQuota(before, u, s, d, top, id, TopRow(Orphan(before[top]), d, parent), quota);
  }

  lemma {:induction false} OrphanKeys(before: Nodes, after: Nodes, u: UserId, s: string, d: string)
    requires IsPath(d) && s != d && AtOrUnder(s, d) && IsOrphaned(before, after, u, s, d)
    ensures Key(u, s) !in Keys(after)
  {
    forall n | n in after ensures KeyOf(after[n]) != Key(u, s) {
    }
  }

  ghost function SizesOf(nodes: Nodes, ids: set<NodeId>): map<NodeId, int> {
    map n | n in nodes && n in ids :: nodes[n].size
  }

  function FilesIn(nodes: Nodes, ids: seq<NodeId>): set<NodeId> {
    set n | n in ids && n in nodes && !nodes[n].isDir
  }

  lemma {:induction false} SizesMore(nodes: Nodes, done: set<NodeId>, n: NodeId)
    requires n in nodes && n !in done
    ensures Total(SizesOf(nodes, done + {n})) == Total(SizesOf(nodes, done)) + nodes[n].size
  {
    TotalInsert(SizesOf(nodes, done), n, nodes[n].size);
    assert SizesOf(nodes, done + {n}) == SizesOf(nodes, done)[n := nodes[n].size];
  }

  /** The sum over the listed files, as SumSizeByUser and subtreeSize take it. */
  method SumSizes(nodes: Nodes, ids: seq<NodeId>) returns (sum: int)
    requires forall n :: n in ids ==> n in nodes
    requires Distinct(ids)
    ensures sum == Total(SizesOf(nodes, FilesIn(nodes, ids)))
  {
    hide SizesOf, Total;
    sum := 0;
    ghost var done: set<NodeId> := {};
    SizesNone(nodes);
    for i := 0 to |ids|
      invariant done == set j | 0 <= j < i && !nodes[ids[j]].isDir :: ids[j]
      invariant sum == Total(SizesOf(nodes, done))
    {
      var n := ids[i];
      if !nodes[n].isDir {
        SizesMore(nodes, done, n);
        sum := sum + nodes[n].size;
        done := done + {n};
      }
    }
    assert done == FilesIn(nodes, ids);
  }

  lemma {:induction false} SizesNone(nodes: Nodes)
    ensures Total(SizesOf(nodes, {})) == 0
  {
    assert SizesOf(nodes, {}) == map[];
  }

  class FileSystem {
    var nodes: Nodes
    var blobs: Blobs
    var nextId: NodeId
    /** The bytes of every blob, which the filesystem never changes. */
    ghost var data: Data

    ghost predicate Valid()
      reads this
    {
      && TreeOk(nodes) && NodesOk(nodes, data) && RefsOk(nodes, blobs)
      && forall n :: n in nodes ==> n < nextId
    }

    // ---- statements -------------------------------------------------------------------------------

    method GetByPath(u: UserId, p: string) returns (r: Option<NodeId>)
      ensures r.Some? <==> Key(u, p) in Keys(nodes)
      ensures r.Some? ==> r.value in nodes && KeyOf(nodes[r.value]) == Key(u, p)
    {
      if n :| n in nodes && KeyOf(nodes[n]) == Key(u, p) {
        r := Some(n);
      } else {
        r := None;
      }
    }

    /** path = prefix OR path LIKE escapeLike(prefix) || '/%': exactly the subtree. */
    method ListSubtree(u: UserId, prefix: string) returns (ids: seq<NodeId>)
      ensures forall n :: n in ids <==> n in SubtreeIds(nodes, u, prefix)
      ensures Distinct(ids)
    {
      hide Like, EscapeLike;
      var pattern := EscapeLike(prefix) + "/%";
      var rows := set n | n in nodes && nodes[n].user == u && (nodes[n].path == prefix || Like(nodes[n].path, pattern));
      forall n | n in nodes ensures n in rows <==> InSubtree(nodes[n], u, prefix) {
        SubtreePattern(nodes[n].path, prefix);
      }
      ids := Enumerate(rows);
    }

    method ListChildren(u: UserId, x: NodeId) returns (ids: seq<NodeId>)
      ensures forall n :: n in ids <==> n in nodes && nodes[n].user == u && nodes[n].parent == Some(x)
      ensures Distinct(ids)
    {
      ids := Enumerate(set n | n in nodes && nodes[n].user == u && nodes[n].parent == Some(x));
    }

    /** INSERT into nodes, under the unique index on (user, path). */
    method Create(nd: Node) returns (st: Status, id: NodeId)
      requires forall n :: n in nodes ==> n < nextId
      modifies this`nodes, this`nextId
      ensures id == old(nextId) && nextId == id + 1
      ensures st == if KeyOf(nd) in Keys(old(nodes)) then Exist else Done
      ensures nodes == if st.Done? then old(nodes)[id := nd] else old(nodes)
    {
      id := nextId;
      nextId := nextId + 1;
      if n :| n in nodes && KeyOf(nodes[n]) == KeyOf(nd) {
        st := Exist;
      } else {
        st := Done;
        nodes := nodes[id := nd];
      }
    }

    /** UPDATE by id: no row or a taken path is an error. */
    method Update(n: NodeId, nd: Node) returns (st: Status)
      modifies this`nodes
      ensures st.Done? || st.Failed?
      ensures st.Done? <==> n in old(nodes) && forall m :: m in old(nodes) && m != n ==>
          KeyOf(old(nodes)[m]) != KeyOf(nd)
      ensures nodes == if st.Done? then old(nodes)[n := nd] else old(nodes)
    {
      if n !in nodes {
        return Failed;
      }
      if m :| m in nodes && m != n && KeyOf(nodes[m]) == KeyOf(nd) {
        return Failed;
      }
      nodes := nodes[n := nd];
      st := Done;
    }

    /** DELETE by id; the foreign key cascades along parent_id. */
    method Delete(n: NodeId)
      requires TreeOk(nodes) && n in nodes && nodes[n].path != "/"
      modifies this`nodes
      ensures nodes == RemoveTree(old(nodes), old(nodes)[n].user, old(nodes)[n].path)
    {
      hide Descends;
      forall x | x in nodes ensures Descends(nodes, x, n) <==> InSubtree(nodes[x], nodes[n].user, nodes[n].path) {
        DescendsIsUnder(nodes, x, n);
      }
      nodes := map x | x in nodes && !Descends(nodes, x, n) :: nodes[x];
    }

    method AddRefcounts(deltas: map<BlobId, int>)
      modifies this`blobs
      ensures blobs == Shifted(old(blobs), deltas)
      ensures blobs.Keys == old(blobs).Keys && forall b :: b in blobs ==>
        blobs[b] == old(blobs)[b].(refcount := old(blobs)[b].refcount + if b in deltas then deltas[b] else 0)
    {
      blobs := Shifted(blobs, deltas);
    }

    method ReleaseExtents(n: NodeId)
      requires n in nodes
      modifies this`blobs
      ensures blobs == Released(old(blobs), nodes[n].extents, -1)
    {
      if nodes[n].extents == [] {
        return;
      }
      var deltas := Deltas(nodes[n].extents, -1);
      ShiftedIsReleased(blobs, deltas, nodes[n].extents, -1);
      AddRefcounts(deltas);
    }

    // ---- DELETE -----------------------------------------------------------------------------------

    /** removeWithin: releases every file below n, then deletes n. Nothing outside the subtree is touched and
        exactly the references of the rows the cascade deletes are released. */
    method RemoveWithin(u: UserId, n: NodeId)
      requires TreeOk(nodes) && DirsBare(nodes) && n in nodes && nodes[n].user == u && nodes[n].path != "/"
      modifies this`nodes, this`blobs
      ensures nodes == RemoveTree(old(nodes), u, old(nodes)[n].path)
      ensures blobs == Settle(old(blobs), old(nodes), nodes)
    {
      hide Refs, TreeOk, Settle, RemoveTree, ReleasedAll, Released;
      var subtree := ListSubtree(u, nodes[n].path);
      if subtree == [] {
        subtree := [n];
      }
      ghost var p := nodes[n].path;
      assert n in SubtreeIds(nodes, u, p);
      ReleaseNone(blobs, nodes);
      ghost var done: set<NodeId> := {};
      for i := 0 to |subtree|
        invariant nodes == old(nodes)
        invariant done == set j | 0 <= j < i :: subtree[j]
        invariant blobs == ReleasedAll(old(blobs), nodes, done)
      {
        var x := subtree[i];
        assert x in SubtreeIds(nodes, u, p) && x !in done;
        if !nodes[x].isDir {
          ReleaseOne(old(blobs), nodes, done, x);
          ReleaseExtents(x);
        } else {
          ReleaseBare(old(blobs), nodes, done, x);
        }
        done := done + {x};
      }
      assert done == SubtreeIds(nodes, u, p);
      ReleaseSettles(old(blobs), nodes, u, p);
      Delete(n);
    }

    lemma {:induction false} AfterRemove(before: Nodes, was: Blobs, u: UserId, p: string)
      requires TreeOk(before) && NodesOk(before, data) && RefsOk(before, was) && IsPath(p) && p != "/"
      requires forall n :: n in before ==> n < nextId
      requires nodes == RemoveTree(before, u, p) && blobs == Settle(was, before, nodes)
      ensures Valid()
    {
      hide TreeOk, RefsOk, Settle;
      RemoveOk(before, u, p);
      SettleOk(was, before, nodes);
    }

    /** DELETE. */
    method RemoveAll(u: UserId, p: string) returns (st: Status)
      requires Valid() && IsPath(p)
      modifies this`nodes, this`blobs
      ensures Valid()
      ensures st == if p == "/" then Permission else if Key(u, p) !in Keys(old(nodes)) then NotExist else Done
      ensures nodes == if st.Done? then RemoveTree(old(nodes), u, p) else old(nodes)
      ensures st.Done? ==> WithoutBelow(old(nodes), nodes, u, p)
      ensures blobs == if st.Done? then Settle(old(blobs), old(nodes), nodes) else old(blobs)
    {
      RemovedMeans(nodes, u, p);
      hide TreeOk, RefsOk, NodesOk, Settle, RemoveTree;
      if p == "/" {
        return Permission;
      }
      var node := GetByPath(u, p);
      if node.None? {
        return NotExist;
      }
      DirsAreBare(nodes, data);
      RemoveWithin(u, node.value);
      AfterRemove(old(nodes), old(blobs), u, p);
      st := Done;
    }

    // ---- MOVE -------------------------------------------------------------------------------------

    /** The updates of MOVE, one row at a time. When the source row is gone (it was below an overwritten
        destination) the subtree query finds nothing. */
    method MoveRows(u: UserId, s: string, d: string, top: NodeId, parent: NodeId) returns (st: Status)
      requires IsPath(d)
      requires (TreeOk(nodes) && Relocatable(nodes, u, s, d, top, parent) && Free(nodes, u, d))
               || SubtreeIds(nodes, u, s) == {}
      modifies this`nodes
      ensures st.Done?
      ensures nodes == PartlyMoved(old(nodes), SubtreeIds(old(nodes), u, s), u, s, d, top, parent)
    {
      hide PartlyMoved, Relocatable, TreeOk, Free, Paths.Dir, BaseName, IsPath;
      var mid := nodes;
      var subtree := ListSubtree(u, s);
      ghost var done: set<NodeId> := {};
      MovedNone(mid, u, s, d, top, parent);
      for i := 0 to |subtree|
        invariant done == set j | 0 <= j < i :: subtree[j]
        invariant nodes == PartlyMoved(mid, done, u, s, d, top, parent)
      {
        var n := subtree[i];
        assert n in SubtreeIds(mid, u, s) && n !in done;
        var child := mid[n].(path := d + mid[n].path[|s|..]);
        if n == top {
          child := child.(name := BaseName(d), parent := Some(parent));
        }
        assert child == MovedNode(mid[n], n == top, s, d, parent);
        assert nodes.Keys == mid.Keys by { MovedKeysSame(mid, done, u, s, d, top, parent); }
        forall m | m in nodes && m != n ensures KeyOf(nodes[m]) != KeyOf(child) {
          MoveFits(mid, done, u, s, d, top, parent, n, m);
        }
        var ok := Update(n, child);
        assert ok.Done?;
        if !ok.Done? {
          return ok;
        }
        MovedMore(mid, done, n, u, s, d, top, parent);
        done := done + {n};
      }
      assert done == SubtreeIds(mid, u, s);
      st := Done;
    }

    lemma {:induction false} MovedKeysSame(mid: Nodes, done: set<NodeId>, u: UserId, s: string, d: string, top: NodeId,
            parent: NodeId)
      requires IsPath(d)
      ensures PartlyMoved(mid, done, u, s, d, top, parent).Keys == mid.Keys
    {
    }
  
    /** Overwriting: the destination and everything below it goes, if it is there. */
    method ClearDestination(u: UserId, d: string, existing: Option<NodeId>)
      requires TreeOk(nodes) && DirsBare(nodes) && IsPath(d) && d != "/"
      requires if existing.Some? then existing.value in nodes && KeyOf(nodes[existing.value]) == Key(u, d)
               else Key(u, d) !in Keys(nodes)
      modifies this`nodes, this`blobs
      ensures nodes == RemoveTree(old(nodes), u, d) && blobs == Settle(old(blobs), old(nodes), nodes)
    {
      hide TreeOk, Settle, RemoveTree;
      if existing.Some? {
        RemoveWithin(u, existing.value);
      } else {
        NothingThere(nodes, u, d);
        SettleSame(blobs, nodes, nodes);
      }
    }

    /** The update of a single file's row, which fails when the row is gone. */
    method MoveFile(u: UserId, s: string, d: string, top: NodeId, parent: NodeId, nd: Node) returns (st: Status)
      requires IsPath(d) && nd.path == s
      requires top in nodes ==>
        TreeOk(nodes) && Relocatable(nodes, u, s, d, top, parent) && Free(nodes, u, d) && nodes[top] == nd && !nd.isDir
      modifies this`nodes
      ensures st == if top in old(nodes) then Done else Failed
      ensures nodes == if st.Done? then PartlyMoved(old(nodes), SubtreeIds(old(nodes), u, s), u, s, d, top, parent)
                       else old(nodes)
    {
      hide PartlyMoved, TreeOk, Free, Paths.Dir, BaseName, IsPath;
      ghost var mid := nodes;
      var moved := nd.(name := BaseName(d), path := d, parent := Some(parent));
      if top in nodes {
        FileIsLeaf(mid, top);
        assert top in SubtreeIds(mid, u, s);
        assert moved == MovedNode(nd, true, s, d, parent);
        MovedNone(mid, u, s, d, top, parent);
        MovedMore(mid, {}, top, u, s, d, top, parent);
        assert {} + {top} == {top};
        forall m | m in mid && m != top ensures KeyOf(mid[m]) != KeyOf(moved) {
          MoveFits(mid, {}, u, s, d, top, parent, top, m);
        }
      }
      st := Update(top, moved);
    }

    method RenameTx(u: UserId, s: string, d: string) returns (st: Status)
      requires Valid() && IsPath(s) && IsPath(d) && s != "/" && d != "/" && s != d && !AtOrUnder(d, s)
      modifies this`nodes, this`blobs
      ensures st == RenameOutcome(old(nodes), u, s, d)
      ensures st.Done? ==> nodes == RenameResult(old(nodes), u, s, d) && blobs == Settle(old(blobs), old(nodes), nodes)
    {
      hide TreeOk, NodesOk, RefsOk, Settle, RemoveTree, RenameTree, PartlyMoved, IsPath, Paths.Dir;
      DestinationParent(s, d);
      var node := GetByPath(u, s);
      if node.None? {
        return NotExist;
      }
      var parent := GetByPath(u, Paths.Dir(d));
      if parent.None? {
        return NotExist;
      }
      TheIdsAt(nodes, node.value, parent.value);
      if !nodes[parent.value].isDir {
        return NotExist;
      }
      var top, nd := node.value, nodes[node.value];
      var existing := GetByPath(u, d);
      DirsAreBare(nodes, data);
      ClearDestination(u, d, existing);
      ghost var mid := nodes;
      MidState(old(nodes), u, s, d, top, parent.value);
      if nd.isDir {
        st := MoveRows(u, s, d, top, parent.value);
      } else {
        st := MoveFile(u, s, d, top, parent.value, nd);
      }
      if st.Done? {
        MovedExtents(mid, SubtreeIds(mid, u, s), u, s, d, top, parent.value);
        SettleRename(old(blobs), old(nodes), mid, nodes);
      }
    }

    lemma {:induction false} TheIdsAt(nodes: Nodes, a: NodeId, b: NodeId)
      requires TreeOk(nodes) && a in nodes && b in nodes
      ensures KeyOf(nodes[a]) in Keys(nodes) && IdAt(nodes, KeyOf(nodes[a])) == a
      ensures KeyOf(nodes[b]) in Keys(nodes) && IdAt(nodes, KeyOf(nodes[b])) == b
    {
      TheIdAt(nodes, a);
      TheIdAt(nodes, b);
    }

    /** Between clearing the destination and moving the rows. */
    lemma {:induction false} MidState(before: Nodes, u: UserId, s: string, d: string, top: NodeId, parent: NodeId)
      requires TreeOk(before) && IsPath(s) && IsPath(d) && s != "/" && d != "/" && !AtOrUnder(d, s)
      requires top in before && KeyOf(before[top]) == Key(u, s)
      requires parent in before && KeyOf(before[parent]) == Key(u, Paths.Dir(d)) && before[parent].isDir
      ensures var mid := RemoveTree(before, u, d);
        if AtOrUnder(s, d) then
          top !in mid && SubtreeIds(mid, u, s) == {} && PartlyMoved(mid, {}, u, s, d, top, parent) == mid
        else
          && TreeOk(mid) && Relocatable(mid, u, s, d, top, parent) && Free(mid, u, d) && mid[top] == before[top]
          && PartlyMoved(mid, SubtreeIds(mid, u, s), u, s, d, top, parent) == RenameTree(before, u, s, d, top, parent)
    {
      hide Paths.Dir, PartlyMoved, RenameTree;
      var mid := RemoveTree(before, u, d);
      if AtOrUnder(s, d) {
        SourceGone(before, u, s, d);
        MovedNone(mid, u, s, d, top, parent);
      } else {
        RemoveOk(before, u, d);
        RelocatableAfterRemove(before, u, s, d, top, parent);
        MovedAll(before, u, s, d, top, parent);
      }
    }

    /** MOVE. */
    method Rename(u: UserId, s: string, d: string) returns (st: Status)
      requires Valid() && IsPath(s) && IsPath(d)
      modifies this`nodes, this`blobs
      ensures Valid()
      ensures st == RenameOutcome(old(nodes), u, s, d)
      ensures nodes == if st.Done? && s != d then RenameResult(old(nodes), u, s, d) else old(nodes)
      ensures blobs == if st.Done? && s != d then Settle(old(blobs), old(nodes), nodes) else old(blobs)
      ensures st.Permission? <==> s == "/" || d == "/"
      ensures st.Invalid? <==> s != "/" && d != "/" && s != d && (d == s || s + "/" <= d)
      ensures st.NotExist? ==> Key(u, s) !in Keys(old(nodes)) || !IsDirAt(old(nodes), u, Paths.Dir(d))
      ensures st.Failed? ==> d + "/" <= s && !IsDirAt(old(nodes), u, s)
      ensures !st.Exist? && !st.QuotaExceeded?
      ensures st.Done? && s != d ==> Key(u, s) in Keys(old(nodes)) && IsDirAt(old(nodes), u, Paths.Dir(d))
      ensures st.Done? && s != d && !(d + "/" <= s) ==> MovedPaths(old(nodes), nodes, u, s, d)
    {
      UnderMeans(d, s);
      UnderMeans(s, d);
      if RenameOutcome(nodes, u, s, d).Done? && s != d && !(d + "/" <= s) {
        RenameMeans(nodes, u, s, d);
      }
      hide TreeOk, NodesOk, RefsOk, Settle, IsPath, Paths.Dir, RenameResult, MovedPaths, AtOrUnder;
      if s == "/" || d == "/" {
        return Permission;
      }
      if s == d {
        return Done;
      }
      SelfMoveTest(d, s);
      if HasPrefix(d + "/", s + "/") {
        return Invalid;
      }
      var nodes0, blobs0 := nodes, blobs;
      st := RenameTx(u, s, d);
      if st.Done? {
        RenameResultOk(nodes0, blobs0, data, nextId, u, s, d);
      } else {
        nodes, blobs := nodes0, blobs0;
      }
    }

    // ---- COPY -------------------------------------------------------------------------------------

    ghost predicate Sound()
      reads this
    {
      TreeOk(nodes) && NodesOk(nodes, data) && forall n :: n in nodes ==> n < nextId
    }

    lemma {:induction false} CopyKeeps(before: Nodes, was: NodeId, u: UserId, x: NodeId, nd: Node, d: string,
            parent: NodeId, recursive: bool, m: map<NodeId, NodeId>)
      requires TreeOk(before) && NodesOk(before, data) && (forall n :: n in before ==> n < was)
      requires x in before && CopyTarget(before, u, x, nd, d, parent)
      requires CopiedTree(before, nodes, u, nd.path, d, x, parent, recursive, m)
      requires was <= nextId && forall y :: y in m ==> m[y] < nextId
      ensures Sound()
    {
      hide TreeOk, Free, IsPath, Relocatable;
      CopyOk(before, nodes, u, nd.path, d, x, parent, recursive, m);
      CopyNodesOk(before, nodes, data, u, nd.path, d, x, parent, recursive, m);
    }

    /** A stored file's copy shares its blobs: no blob is created and each one it names gains a reference. */
    method CopyStored(u: UserId, x: NodeId, nd: Node, d: string, parent: NodeId) returns (st: Status)
      requires Sound() && CopyTarget(nodes, u, x, nd, d, parent) && !nd.isDir && nd.state.Stored?
      modifies this`nodes, this`blobs, this`nextId
      ensures st.Done? && nextId == old(nextId) + 1
      ensures nodes == old(nodes)[old(nextId) := TopRow(if x in old(nodes) then nd else Orphan(nd), d, parent)]
      ensures blobs == Settle(old(blobs), old(nodes), nodes)
    {
      hide TreeOk, NodesOk, Relocatable, IsPath, BaseName, Settle, Released, Shifted, Count, IsDeltas, Free;
      CopyFree(nodes, u, d);
      var ok, id := Create(Node(u, Some(parent), BaseName(d), d, false, nd.size, Stored, None, None, [], []));
      if !ok.Done? {
        return ok;
      }
      var ex := if x in nodes then nodes[x].extents else [];
      nodes := nodes[id := nodes[id].(extents := ex)];
      SettleInsert(blobs, old(nodes), id, nodes[id]);
      if ex != [] {
        var deltas := Deltas(ex, 1);
        ShiftedIsReleased(blobs, deltas, ex, 1);
        AddRefcounts(deltas);
      } else {
        SettleBare(blobs, old(nodes), id, nodes[id]);
      }
      assert nodes == old(nodes)[id := nodes[id]];
      StoredRow(if x in old(nodes) then nd else Orphan(nd), d, parent);
      st := Done;
    }

    lemma {:induction false} StoredRow(nd: Node, d: string, parent: NodeId)
      requires IsPath(d) && !nd.isDir && nd.state.Stored?
      ensures TopRow(nd, d, parent)
           == Node(nd.user, Some(parent), BaseName(d), d, false, nd.size, Stored, None, None, [], nd.extents)
    {
    }

    /** A buffered file's copy gets a log of its own with the same chunks. */
    method CopyLog(u: UserId, x: NodeId, nd: Node, d: string, parent: NodeId) returns (st: Status)
      requires Sound() && CopyTarget(nodes, u, x, nd, d, parent) && !nd.isDir && !nd.state.Stored?
      modifies this`nodes, this`nextId
      ensures st.Done? && nextId == old(nextId) + 1
      ensures nodes == old(nodes)[old(nextId) := TopRow(if x in old(nodes) then nd else Orphan(nd), d, parent)]
      ensures nodes[old(nextId)].extents == []
    {
      assert x in nodes ==> nodes[x] == nd && NodeOk(nodes[x], data);
      CopyFree(nodes, u, d);
      hide TreeOk, NodesOk, NodeOk, CopyTarget, IsPath, BaseName, Flatten, TopRow, Keys, Disciplined;
      var ok, id := Create(Node(u, Some(parent), BaseName(d), d, false, nd.size, Buffered, None, None, [], []));
      if !ok.Done? {
        return ok;
      }
      var chunks := CopyChunks(if x in nodes then nodes[x].wal else [], nd.size);
      nodes := nodes[id := nodes[id].(wal := chunks)];
      assert nodes == old(nodes)[id := nodes[id]];
      LogRow(if x in old(nodes) then nd else Orphan(nd), data, d, parent, chunks);
      st := Done;
    }

    lemma {:induction false} LogRow(nd: Node, data: Data, d: string, parent: NodeId, chunks: seq<Bytes>)
      requires IsPath(d) && !nd.isDir && !nd.state.Stored? && nd.extents == []
      requires NodeOk(nd, data) || nd.wal == []
      requires chunks == if nd.size == 0 then [] else nd.wal
      ensures TopRow(nd, d, parent)
           == Node(nd.user, Some(parent), BaseName(d), d, false, nd.size, Buffered, None, None, chunks, [])
    {
    }

    /** copyNode. Recursion ends because each child's subtree, unchanged by the rows already added, is smaller. */
    method CopyAt(u: UserId, x: NodeId, nd: Node, d: string, parent: NodeId, recursive: bool)
      returns (st: Status, ghost m: map<NodeId, NodeId>)
      requires Sound() && CopyTarget(nodes, u, x, nd, d, parent)
      modifies this`nodes, this`blobs, this`nextId
      ensures st.Done? && nextId > old(nextId) && blobs == Settle(old(blobs), old(nodes), nodes)
      ensures x in old(nodes) ==>
        && Sound() && CopiedTree(old(nodes), nodes, u, nd.path, d, x, parent, recursive, m)
        && forall y :: y in m ==> old(nextId) <= m[y] < nextId
      ensures x !in old(nodes) ==> nodes == old(nodes)[old(nextId) := TopRow(Orphan(nd), d, parent)]
      decreases |SubtreeIds(nodes, u, nd.path)|, 3
    {
      hide TreeOk, NodesOk, Relocatable, IsPath, Settle, Free, CopiedTree, CopiedNode;
      ghost var id := nextId;
      m := map[x := id];
      if nd.isDir {
        st, m := CopyDir(u, x, nd, d, parent, recursive);
        return;
      }
      if nd.state.Stored? {
        st := CopyStored(u, x, nd, d, parent);
      } else {
        st := CopyLog(u, x, nd, d, parent);
        SettleBare(blobs, old(nodes), id, nodes[id]);
      }
      if x in old(nodes) {
        OneRowCopied(old(nodes), u, x, d, parent, recursive, id);
        CopyKeeps(old(nodes), id, u, x, nd, d, parent, recursive, m);
      }
    }

    /** The directory's own row. */
    method CopyDirRow(u: UserId, x: NodeId, nd: Node, d: string, parent: NodeId) returns (st: Status, id: NodeId)
      requires Sound() && CopyTarget(nodes, u, x, nd, d, parent) && nd.isDir
      modifies this`nodes, this`nextId
      ensures st.Done? && id == old(nextId) && nextId == id + 1
      ensures nodes == old(nodes)[id := TopRow(if x in old(nodes) then nd else Orphan(nd), d, parent)]
      ensures nodes[id].extents == [] && nodes[id].parent == Some(parent)
    {
      assert x in nodes ==> NodeOk(nodes[x], data);
      hide TreeOk, NodesOk, Relocatable, IsPath, Free, NodeOk, BaseName;
      CopyFree(nodes, u, d);
      st, id := Create(Node(u, Some(parent), BaseName(d), d, true, nd.size, Stored, None, None, [], []));
      DirRow(nd, data, d, parent, x in old(nodes));
    }

    lemma {:induction false} TopUnderway(before: Nodes, u: UserId, x: NodeId, nd: Node, d: string, parent: NodeId,
            id: NodeId)
      requires TreeOk(before) && NodesOk(before, data) && (forall n :: n in before ==> n < id) && id < nextId
      requires x in before && CopyTarget(before, u, x, nd, d, parent)
      requires nodes == before[id := TopRow(nd, d, parent)]
      ensures Underway(before, u, x, nd, d, parent, id, map[x := id], {x})
      ensures CopiedTree(before, nodes, u, nd.path, d, x, parent, false, map[x := id])
    {
      hide TreeOk, NodesOk, CopiedTree, CopiedKeys, CopiedNode, Sound, Free, Relocatable;
      OneRowCopied(before, u, x, d, parent, false, id);
      CopyKeeps(before, id, u, x, nd, d, parent, false, map[x := id]);
      CopiedTop(before, u, nd.path, d, x, parent, id);
    }

    method CopyDir(u: UserId, x: NodeId, nd: Node, d: string, parent: NodeId, recursive: bool)
      returns (st: Status, ghost m: map<NodeId, NodeId>)
      requires Sound() && CopyTarget(nodes, u, x, nd, d, parent) && nd.isDir
      modifies this`nodes, this`blobs, this`nextId
      ensures st.Done? && nextId > old(nextId) && blobs == Settle(old(blobs), old(nodes), nodes)
      ensures x in old(nodes) ==>
        && Sound() && CopiedTree(old(nodes), nodes, u, nd.path, d, x, parent, recursive, m)
        && forall y :: y in m ==> old(nextId) <= m[y] < nextId
      ensures x !in old(nodes) ==> nodes == old(nodes)[old(nextId) := TopRow(Orphan(nd), d, parent)]
      decreases |SubtreeIds(nodes, u, nd.path)|, 2
    {
      assert x in nodes ==> nodes[x] == nd;
      hide TreeOk, NodesOk, Settle, CopiedTree, CopiedKeys, SubtreeIds, CopyTarget, TopRow;
      var id;
      st, id := CopyDirRow(u, x, nd, d, parent);
      SettleBare(blobs, old(nodes), id, nodes[id]);
      ghost var mid := nodes;
      if x in old(nodes) {
        TopUnderway(old(nodes), u, x, nd, d, parent, id);
      }
      if !recursive {
        return st, map[x := id];
      }
      st, m := CopyChildren(u, x, nd, d, parent, id, old(nodes));
      if x in old(nodes) {
        CopiedKeysIsTree(old(nodes), nodes, u, nd.path, d, x, parent, true, m, SubtreeIds(old(nodes), u, nd.path));
      }
      SettleTrans(old(blobs), old(nodes), mid, nodes);
    }

    /** Part of x's subtree has been copied: the nodes in keys, as m says. */
    ghost predicate Underway(base: Nodes, u: UserId, x: NodeId, nd: Node, d: string, parent: NodeId, id: NodeId,
            m: map<NodeId, NodeId>, keys: set<NodeId>)
      reads this
    {
      && Sound() && CopiedKeys(base, nodes, u, nd.path, d, x, parent, m, keys)
      && x in m && m[x] == id && forall y :: y in m ==> id <= m[y] < nextId
    }

    method CopyOneChild(u: UserId, x: NodeId, nd: Node, d: string, parent: NodeId, id: NodeId, ghost base: Nodes,
            ghost m: map<NodeId, NodeId>, children: seq<NodeId>, i: nat)
      returns (st: Status, ghost m': map<NodeId, NodeId>)
      requires TreeOk(base) && x in base && CopyTarget(base, u, x, nd, d, parent) && nd.isDir && id < nextId
      requires ChildrenOf(base, x, children) && i < |children|
      requires Underway(base, u, x, nd, d, parent, id, m, Reached(base, u, x, children[..i]))
      modifies this`nodes, this`blobs, this`nextId
      ensures st.Done? && nextId >= old(nextId) && blobs == Settle(old(blobs), old(nodes), nodes)
      ensures Underway(base, u, x, nd, d, parent, id, m', Reached(base, u, x, children[..i + 1]))
      decreases |SubtreeIds(base, u, nd.path)|, 0
    {
      assert CopiedKeys(base, nodes, u, nd.path, d, x, parent, m, Reached(base, u, x, children[..i]));
      assert x in m && m[x] == id && forall y :: y in m ==> id <= m[y] < nextId;
      hide *;
      ChildTarget(base, nodes, u, x, nd, d, parent, m, children, i);
      var c := children[i];
      ghost var mid, was := nodes, nextId;
      ghost var mc;
      st, mc := CopyAt(u, c, nodes[c], d + "/" + nodes[c].name, id, true);
      UnderwayNext(base, mid, was, u, x, nd, d, parent, id, m, children, i, mc);
      m' := m + mc;
    }

    lemma {:induction false} UnderwayNext(base: Nodes, mid: Nodes, was: nat, u: UserId, x: NodeId, nd: Node, d: string,
            parent: NodeId, id: NodeId, m: map<NodeId, NodeId>, children: seq<NodeId>, i: nat, mc: map<NodeId, NodeId>)
      requires Sound() && ChildrenOf(base, x, children) && i < |children|
      requires x in m && m[x] == id && (forall y :: y in m ==> id <= m[y] < was)
      requires id <= was <= nextId && forall y :: y in mc ==> was <= mc[y] < nextId
      requires Midway(base, mid, u, nd.path, d, x, parent, m, Reached(base, u, x, children[..i]), children[i])
      requires CopiedTree(mid, nodes, u, base[children[i]].path, Child(d, base[children[i]].name), children[i], m[x],
          true, mc)
      ensures Underway(base, u, x, nd, d, parent, id, m + mc, Reached(base, u, x, children[..i + 1]))
    {
      hide CopiedTree, CopiedKeys, Reached, Midway, Sound, Child;
      LoopNext(base, mid, nodes, u, nd.path, d, x, parent, m, children, i, mc);
    }

    method SourceChildren(u: UserId, x: NodeId, nd: Node, d: string, parent: NodeId, id: NodeId, ghost base: Nodes)
      returns (children: seq<NodeId>)
      requires TreeOk(base) && CopyTarget(base, u, x, nd, d, parent) && id !in base
      requires id in nodes && nodes == base[id := nodes[id]] && nodes[id].parent == Some(parent)
      ensures if x in base then ChildrenOf(base, x, children) && Reached(base, u, x, []) == {x} else children == []
    {
      hide *;
      children := ListChildren(u, x);
      ChildrenFound(base, nodes, u, x, nd, d, parent, id, children);
    }

    /** The loop over the source directory's children. */
    method CopyChildren(u: UserId, x: NodeId, nd: Node, d: string, parent: NodeId, id: NodeId, ghost base: Nodes)
      returns (st: Status, ghost m: map<NodeId, NodeId>)
      requires TreeOk(base) && CopyTarget(base, u, x, nd, d, parent) && nd.isDir && id !in base && id < nextId
      requires id in nodes && nodes == base[id := nodes[id]] && nodes[id].parent == Some(parent)
      requires x in base ==> Underway(base, u, x, nd, d, parent, id, map[x := id], {x})
      modifies this`nodes, this`blobs, this`nextId
      ensures st.Done? && nextId >= old(nextId) && blobs == Settle(old(blobs), old(nodes), nodes)
      ensures x in base ==>
        Underway(base, u, x, nd, d, parent, id, m, SubtreeIds(base, u, nd.path))
      ensures x !in base ==> nodes == old(nodes)
      decreases |SubtreeIds(base, u, nd.path)|, 1
    {
      m := map[x := id];
      assert x in base ==> base[x] == nd && nd.path != "/" && nd.user == u;
      hide *;
      var children := SourceChildren(u, x, nd, d, parent, id, base);
      SettleSame(blobs, nodes, nodes);
      ghost var start, blobs0 := nodes, blobs;
      assert children[..0] == [] && children[..|children|] == children;
      for i := 0 to |children|
        invariant nextId >= old(nextId) && blobs == Settle(blobs0, start, nodes)
        invariant if x in base then Underway(base, u, x, nd, d, parent, id, m, Reached(base, u, x, children[..i]))
                  else nodes == start
      {
        ghost var mid := nodes;
        st, m := CopyOneChild(u, x, nd, d, parent, id, base, m, children, i);
        if !st.Done? {
          return;
        }
        SettleTrans(blobs0, start, mid, nodes);
      }
      if x in base {
        ReachedAll(base, u, x, children);
      }
      st := Done;
    }

    lemma {:induction false} DirRow(nd: Node, data: Data, d: string, parent: NodeId, here: bool)
      requires IsPath(d) && nd.isDir && (here ==> NodeOk(nd, data))
      ensures TopRow(if here then nd else Orphan(nd), d, parent)
           == Node(nd.user, Some(parent), BaseName(d), d, true, nd.size, Stored, None, None, [], [])
    {
    }

    lemma {:induction false} HasFirst(ids: seq<NodeId>)
      requires ids != []
      ensures ids[0] in ids
    {
    }

    /** The children listed after the directory's own copy was created are the source's children. */
    lemma {:induction false} ChildrenFound(base: Nodes, now: Nodes, u: UserId, x: NodeId, nd: Node, d: string,
            parent: NodeId, id: NodeId, children: seq<NodeId>)
      requires TreeOk(base) && CopyTarget(base, u, x, nd, d, parent) && id !in base
      requires id in now && now == base[id := now[id]] && now[id].parent == Some(parent)
      requires forall n :: n in children <==> n in now && now[n].user == u && now[n].parent == Some(x)
      requires Distinct(children)
      ensures if x in base then ChildrenOf(base, x, children) && Reached(base, u, x, []) == {x} else children == []
    {
      if x in base {
        DestinationParent(nd.path, d);
        assert parent != x;
        forall c | c in base && base[c].parent == Some(x) ensures base[c].user == u {
          assert ParentOk(base, base[c]);
        }
      } else {
        if children != [] {
          HasFirst(children);
        }
      }
    }

    method SumSizeByUser(u: UserId) returns (used: int)
      ensures used == Usage(nodes, u)
    {
      var ids := Enumerate(set n | n in nodes && nodes[n].user == u && !nodes[n].isDir);
      used := SumSizes(nodes, ids);
      assert SizesOf(nodes, FilesIn(nodes, ids)) == Sizes(nodes, u);
    }

    method SubtreeSize(u: UserId, p: string) returns (size: int)
      ensures size == SubtreeUsage(nodes, u, p)
    {
      var ids := ListSubtree(u, p);
      size := SumSizes(nodes, ids);
      assert SizesOf(nodes, FilesIn(nodes, ids)) == SubtreeSizes(nodes, u, p);
    }

    method EnsureRoot(u: UserId)
      requires Valid()
      modifies this`nodes, this`nextId
      ensures Valid() && nodes == Rooted(old(nodes), u, old(nextId))
      ensures nextId == NextId(old(nodes), u, old(nextId))
      ensures HasRoot(nodes, u)
      ensures forall n :: n in old(nodes) ==> n in nodes && nodes[n] == old(nodes)[n]
      ensures forall n :: n in nodes && n !in old(nodes) ==> nodes[n].user == u && nodes[n].path == "/"
    {
      assert old(nextId) !in old(nodes);
      var root := GetByPath(u, "/");
      if root.None? {
        RootFits(nodes, blobs, data, u, nextId);
        hide TreeOk, NodesOk, RefsOk, HasRoot;
        var st, id := Create(RootNode(u));
        assert KeyOf(nodes[id]) == Key(u, "/");
      }
      RootIsDir(nodes, u);
    }

    lemma {:induction false} RootIsDir(nodes: Nodes, u: UserId)
      requires TreeOk(nodes) && Key(u, "/") in Keys(nodes)
      ensures HasRoot(nodes, u)
    {
      var n := IdAt(nodes, Key(u, "/"));
      if nodes[n].parent.Some? {
        ChildIsPath(nodes[nodes[n].parent.value].path, nodes[n].name);
      }
    }

    lemma {:induction false} RootFits(nodes: Nodes, blobs: Blobs, data: Data, u: UserId, id: NodeId)
      requires TreeOk(nodes) && NodesOk(nodes, data) && RefsOk(nodes, blobs) && id !in nodes
          && Key(u, "/") !in Keys(nodes)
      ensures var nodes' := nodes[id := RootNode(u)]; TreeOk(nodes') && NodesOk(nodes', data) && RefsOk(nodes', blobs)
    {
      hide Refs;
      AddTree(nodes, id, RootNode(u));
      forall b ensures Refs(nodes[id := RootNode(u)], b) == Refs(nodes, b) {
        RefsInsert(nodes, id, RootNode(u), b);
      }
    }

    /** COPY's quota check, made before anything is touched. */
    method CopyFits(u: UserId, s: string, d: string, quota: int) returns (ok: bool)
      requires TreeOk(nodes) && IsPath(d) && d != "/"
      ensures ok <==> !(quota > 0 && Usage(nodes, u) + SubtreeUsage(nodes, u, s) - SubtreeUsage(nodes, u, d) > quota)
      ensures forall other: Nodes :: SameFiles(nodes, other, u) ==>
        (ok <==> !(quota > 0 && Usage(other, u) + SubtreeUsage(other, u, s) - SubtreeUsage(other, u, d) > quota))
    {
      forall other: Nodes | SameFiles(nodes, other, u)
        ensures Usage(other, u) == Usage(nodes, u) && SubtreeUsage(other, u, s) == SubtreeUsage(nodes, u, s)
        ensures SubtreeUsage(other, u, d) == SubtreeUsage(nodes, u, d)
      {
        UsageOwn(nodes, other, u);
        SubtreeOwn(nodes, other, u, s);
        SubtreeOwn(nodes, other, u, d);
      }
      hide TreeOk, Usage, SubtreeUsage, IsPath;
      if quota <= 0 {
        return true;
      }
      var used := SumSizeByUser(u);
      var add := SubtreeSize(u, s);
      var existing := GetByPath(u, d);
      if existing.Some? {
        var freed := SubtreeSize(u, nodes[existing.value].path);
        add := add - freed;
      } else {
        NothingThere(nodes, u, d);
        UsageRemove(nodes, u, d);
      }
      ok := used + add <= quota;
    }

    method CopyTx(u: UserId, s: string, d: string, recursive: bool, overwrite: bool, quota: int)
      returns (st: Status, ghost m: map<NodeId, NodeId>)
      requires Valid() && IsPath(s) && IsPath(d) && s != "/" && d != "/" && s != d && !AtOrUnder(d, s)
      modifies this`nodes, this`blobs, this`nextId
      ensures nextId >= old(nextId) && st == CopyOutcome(old(nodes), u, s, d, overwrite, quota)
      ensures st.Done? ==> blobs == Settle(old(blobs), old(nodes), nodes)
      ensures st.Done? && !AtOrUnder(s, d) ==> Sound() && IsCopied(old(nodes), nodes, u, s, d, recursive, m)
      ensures st.Done? && AtOrUnder(s, d) ==> IsOrphaned(old(nodes), nodes, u, s, d)
    {
      hide TreeOk, NodesOk, RefsOk, Settle, RemoveTree, IsPath, Paths.Dir, CopiedTree, Usage, SubtreeUsage, TopRow,
        CopyTarget;
      m := map[];
      var node := GetByPath(u, s);
      if node.None? {
        return NotExist, m;
      }
      DestinationParent(s, d);
      var parent := GetByPath(u, Paths.Dir(d));
      if parent.None? {
        return NotExist, m;
      }
      TheIdsAt(nodes, node.value, parent.value);
      if !nodes[parent.value].isDir {
        return NotExist, m;
      }
      var fits := CopyFits(u, s, d, quota);
      if !fits {
        return QuotaExceeded, m;
      }
      var nd := nodes[node.value];
      var existing := GetByPath(u, d);
      if existing.Some? && !overwrite {
        return Exist, m;
      }
      DirsAreBare(nodes, data);
      ClearDestination(u, d, existing);
      MidTarget(old(nodes), u, s, d, node.value, parent.value);
      ghost var mid := nodes;
      RemovedOk(old(nodes), data, nextId, u, d);
      st, m := CopyAt(u, node.value, nd, d, parent.value, recursive);
      SettleTrans(old(blobs), old(nodes), mid, nodes);
      if AtOrUnder(s, d) {
        OrphanedIs(old(nodes), nodes, u, s, d, node.value, parent.value, old(nextId));
      }
    }

    lemma {:induction false} RemovedOk(before: Nodes, data: Data, next: NodeId, u: UserId, d: string)
      requires NodesOk(before, data) && forall n :: n in before ==> n < next
      ensures NodesOk(RemoveTree(before, u, d), data) && forall n :: n in RemoveTree(before, u, d) ==> n < next
    {
    }

    /** COPY. */
    method Copy(u: UserId, s: string, d: string, recursive: bool, overwrite: bool, quota: int)
      returns (st: Status, ghost m: map<NodeId, NodeId>, ghost base: Nodes)
      requires Valid() && IsPath(s) && IsPath(d)
      modifies this`nodes, this`blobs, this`nextId
      ensures base == if s == d then old(nodes) else CopyBase(old(nodes), u, s, d, old(nextId))
      ensures st == CopyOutcome(base, u, s, d, overwrite, quota)
      ensures !st.Done? || s == d ==> Valid() && nodes == base && blobs == old(blobs)
      ensures st.Done? && s != d ==> blobs == Settle(old(blobs), base, nodes)
      ensures st.Done? && s != d && !AtOrUnder(s, d) ==>
        Valid() && IsCopied(base, nodes, u, s, d, recursive, m)
      ensures st.Done? && s != d && AtOrUnder(s, d) ==> IsOrphaned(base, nodes, u, s, d)
      ensures st.Done? && s != d && quota > 0 ==> Usage(nodes, u) <= quota
      ensures st.Permission? <==> s == "/" || d == "/"
      ensures !st.Permission? && !st.Invalid? && s != d ==> HasRoot(base, u)
      ensures st.Invalid? <==> s != "/" && d != "/" && s != d && s + "/" <= d
      ensures st.NotExist? ==> Key(u, s) !in Keys(base) || !IsDirAt(base, u, Paths.Dir(d))
      ensures st.QuotaExceeded? ==>
        quota > 0 && Usage(base, u) + SubtreeUsage(base, u, s) - SubtreeUsage(base, u, d) > quota
      ensures st.Exist? ==> Key(u, d) in Keys(base) && !overwrite
      ensures !st.Failed?
      ensures st.Done? && s != d ==>
        && Key(u, s) in Keys(base) && IsDirAt(base, u, Paths.Dir(d)) && (Key(u, d) in Keys(base) ==> overwrite)
        && !(quota > 0 && Usage(base, u) + SubtreeUsage(base, u, s) - SubtreeUsage(base, u, d) > quota)
      ensures !st.Done? || s == d || !overwrite ==> forall n :: n in base ==> n in nodes && nodes[n] == base[n]
      ensures forall n :: n in base && !(base[n].user == u && (base[n].path == d || d + "/" <= base[n].path)) ==>
        n in nodes && nodes[n] == base[n]
      ensures st.Done? && s != d && !(d + "/" <= s) ==> CopiedPaths(base, nodes, u, s, d, recursive)
    {
      hide TreeOk, NodesOk, RefsOk, Settle, IsPath, Paths.Dir, IsCopied, IsOrphaned, Usage, SubtreeUsage, Rooted,
        HasRoot;
      base := nodes;
      m := map[];
      if s == "/" || d == "/" {
        return Permission, m, base;
      }
      if s == d {
        return Done, m, base;
      }
      if AtOrUnder(d, s) {
        return Invalid, m, base;
      }
      EnsureRoot(u);
      base := nodes;
      var nodes0, blobs0 := nodes, blobs;
      UnderMeans(d, s);
      UnderMeans(s, d);
      st, m := CopyTx(u, s, d, recursive, overwrite, quota);
      if st.Done? {
        CopySpares(nodes0, nodes, u, s, d, recursive, m);
        if !AtOrUnder(s, d) {
          CopyMeans(nodes0, nodes, u, s, d, recursive, m);
        }
      }
      if !st.Done? {
        nodes, blobs := nodes0, blobs0;
      } else if !AtOrUnder(s, d) {
        SettleOk(blobs0, nodes0, nodes);
        if quota > 0 {
          CopiedWithinQuota(nodes0, nodes, u, s, d, recursive, m, quota);
        }
      } else if quota > 0 {
        OrphanWithinQuota(nodes0, nodes, u, s, d, quota);
      }
    }

    // ---- MKCOL and PUT ----------------------------------------------------------------------------

    /** MKCOL. */
    method Mkdir(u: UserId, p: string) returns (st: Status, id: NodeId, ghost base: Nodes)
      requires Valid() && IsPath(p)
      modifies this`nodes, this`nextId
      ensures Valid() && base == if p == "/" then old(nodes) else Rooted(old(nodes), u, old(nextId))
      ensures st == if p == "/" || Key(u, p) in Keys(base) then Exist
                    else if !IsDirAt(base, u, Paths.Dir(p)) then NotExist else Done
      ensures !st.Done? ==> nodes == base
      ensures st.Done? ==> id !in base && nodes == base[id := DirNode(u, p, IdAt(base, Key(u, Paths.Dir(p))))]
      ensures st.Done? ==> id == NextId(old(nodes), u, old(nextId)) && nextId == id + 1
      ensures st.Done? ==> nodes[id].user == u && nodes[id].path == p && nodes[id].isDir
      ensures !st.Done? ==> nextId == if p == "/" then old(nextId) else NextId(old(nodes), u, old(nextId))
    {
      hide TreeOk, NodesOk, RefsOk, IsPath, Paths.Dir, Rooted, DirNode, FileNode;
      base, id := nodes, 0;
      if p == "/" {
        return Exist, id, base;
      }
      EnsureRoot(u);
      base := nodes;
      var existing := GetByPath(u, p);
      if existing.Some? {
        return Exist, id, base;
      }
      var parent := GetByPath(u, Paths.Dir(p));
      if parent.None? {
        return NotExist, id, base;
      }
      TheIdsAt(nodes, parent.value, parent.value);
      if !nodes[parent.value].isDir {
        return NotExist, id, base;
      }
      NewRow(nodes, blobs, data, u, p, parent.value, nextId);
      st, id := Create(DirNode(u, p, parent.value));
    }

    lemma {:induction false} NewRow(nodes: Nodes, blobs: Blobs, data: Data, u: UserId, p: string, parent: NodeId,
            id: NodeId)
      requires TreeOk(nodes) && NodesOk(nodes, data) && RefsOk(nodes, blobs) && id !in nodes
      requires IsPath(p) && p != "/" && Key(u, p) !in Keys(nodes)
      requires parent in nodes && KeyOf(nodes[parent]) == Key(u, Paths.Dir(p)) && nodes[parent].isDir
      ensures KeyOf(DirNode(u, p, parent)) == Key(u, p) == KeyOf(FileNode(u, p, parent))
      ensures DirNode(u, p, parent).isDir && IsOpened(FileNode(u, p, parent))
      ensures var a := nodes[id := DirNode(u, p, parent)]; TreeOk(a) && NodesOk(a, data) && RefsOk(a, blobs)
      ensures var a := nodes[id := FileNode(u, p, parent)]; TreeOk(a) && NodesOk(a, data) && RefsOk(a, blobs)
    {
      DirBase(p);
      FlattenNil();
      hide Paths.Dir, BaseName, TreeOk, IsPath, Flatten;
      NewRowIn(nodes, blobs, data, id, DirNode(u, p, parent));
      NewRowIn(nodes, blobs, data, id, FileNode(u, p, parent));
    }

    lemma {:induction false} NewRowIn(nodes: Nodes, blobs: Blobs, data: Data, id: NodeId, nd: Node)
      requires TreeOk(nodes) && NodesOk(nodes, data) && RefsOk(nodes, blobs) && id !in nodes
      requires IsPath(nd.path) && ParentOk(nodes, nd) && KeyOf(nd) !in Keys(nodes) && nd.extents == []
          && NodeOk(nd, data)
      ensures var a := nodes[id := nd]; TreeOk(a) && NodesOk(a, data) && RefsOk(a, blobs)
    {
      hide Refs, TreeOk, NodeOk;
      AddTree(nodes, id, nd);
      forall b ensures Refs(nodes[id := nd], b) == Refs(nodes, b) {
        RefsInsert(nodes, id, nd, b);
      }
    }

    /** truncateNode: the old references released, the old log dropped, the row reset. */
    method TruncateNode(n: NodeId)
      requires Valid() && n in nodes && !nodes[n].isDir
      modifies this`nodes, this`blobs
      ensures Valid() && nodes == old(nodes)[n := Truncated(old(nodes)[n])]
      ensures IsOpened(nodes[n]) && KeyOf(nodes[n]) == KeyOf(old(nodes)[n])
      ensures blobs == Settle(old(blobs), old(nodes), nodes)
    {
      TruncateNodes(nodes, data, n);
      SettleTruncate(blobs, nodes, n, Truncated(nodes[n]));
      SettleOk(blobs, nodes, nodes[n := Truncated(nodes[n])]);
      hide TreeOk, NodesOk, RefsOk, Settle, Released;
      ReleaseExtents(n);
      nodes := nodes[n := nodes[n].(extents := [])];
      nodes := nodes[n := nodes[n].(wal := [])];
      nodes := nodes[n := nodes[n].(state := Writing, size := 0)];
      assert nodes == old(nodes)[n := Truncated(old(nodes)[n])];
    }

    lemma {:induction false} SettleTruncate(blobs: Blobs, nodes: Nodes, n: NodeId, nd: Node)
      requires n in nodes && nd.extents == []
      ensures Settle(blobs, nodes, nodes[n := nd]) == Released(blobs, nodes[n].extents, -1)
    {
      hide Refs;
      forall b ensures Refs(nodes[n := nd], b) == Refs(nodes, b) - Count(nodes[n].extents, b) {
        RefsUpdate(nodes, n, nd, b);
      }
    }

    /** Opening p for writing: truncates the file there or creates one. */
    method OpenWrite(u: UserId, p: string, excl: bool) returns (st: Status, n: NodeId, ghost base: Nodes)
      requires Valid() && IsPath(p)
      modifies this`nodes, this`blobs, this`nextId
      ensures Valid() && base == Rooted(old(nodes), u, old(nextId))
      ensures st == OpenOutcome(base, u, p, excl)
      ensures !st.Done? ==> nodes == base && blobs == old(blobs)
      ensures st.Done? ==> n in nodes && KeyOf(nodes[n]) == Key(u, p) && blobs == Settle(old(blobs), base, nodes)
      ensures st.Done? && n in base ==> nodes == base[n := Truncated(base[n])]
      ensures st.Done? && n !in base ==> nodes == base[n := FileNode(u, p, IdAt(base, Key(u, Paths.Dir(p))))]
      ensures st.Done? ==> (n in base <==> Key(u, p) in Keys(base)) && (n in base ==> !base[n].isDir)
      ensures st.Done? && n !in base ==> n == NextId(old(nodes), u, old(nextId)) && nextId == n + 1
      ensures !st.Done? || n in base ==> nextId == NextId(old(nodes), u, old(nextId))
      ensures st.Invalid? ==> p == "/" || IsDirAt(base, u, p)
      ensures st.NotExist? ==> p != "/" && !IsDirAt(base, u, Paths.Dir(p))
      ensures st.Exist? ==> excl && Key(u, p) in Keys(base)
      ensures !st.Permission? && !st.QuotaExceeded? && !st.Failed?
      ensures st.Done? ==>
        p != "/" && IsDirAt(base, u, Paths.Dir(p)) && !IsDirAt(base, u, p) && !(excl && Key(u, p) in Keys(base))
      ensures excl || !st.Done? ==> forall x :: x in base ==> x in nodes && nodes[x] == base[x]
      ensures forall x :: x in base && (base[x].user != u || base[x].path != p) ==> x in nodes && nodes[x] == base[x]
      ensures st.Done? ==> nodes[n].user == u && nodes[n].path == p && IsOpened(nodes[n])
    {
      hide TreeOk, NodesOk, RefsOk, IsPath, Paths.Dir, Rooted, DirNode, FileNode, Settle;
      EnsureRoot(u);
      base := nodes;
      n := 0;
      if p == "/" {
        return Invalid, n, base;
      }
      var parent := GetByPath(u, Paths.Dir(p));
      if parent.None? {
        return NotExist, n, base;
      }
      TheIdsAt(nodes, parent.value, parent.value);
      if !nodes[parent.value].isDir {
        return NotExist, n, base;
      }
      var existing := GetByPath(u, p);
      if existing.Some? {
        n := existing.value;
        TheIdsAt(nodes, n, n);
        if nodes[n].isDir {
          return Invalid, n, base;
        }
        if excl {
          return Exist, n, base;
        }
        TruncateNode(n);
        st := Done;
      } else {
        NewRow(nodes, blobs, data, u, p, parent.value, nextId);
        NewFileBare(u, p, parent.value);
        SettleBare(blobs, nodes, nextId, FileNode(u, p, parent.value));
        st, n := Create(FileNode(u, p, parent.value));
      }
    }

    lemma {:induction false} NewFileBare(u: UserId, p: string, parent: NodeId)
      requires IsPath(p)
      ensures FileNode(u, p, parent).extents == [] && KeyOf(FileNode(u, p, parent)) == Key(u, p)
    {
    }

    /** The check the server makes before it streams a PUT of additional bytes. */
    method CheckQuota(u: UserId, p: string, additional: int, quota: int) returns (st: Status)
      requires UniquePaths(nodes)
      ensures st == if quota > 0 && additional > 0 && Usage(nodes, u) - Freed(nodes, u, p) + additional > quota
                    then QuotaExceeded else Done
      ensures forall other: Nodes :: SameFiles(nodes, other, u) ==>
        (st.QuotaExceeded? <==>
          quota > 0 && additional > 0 && Usage(other, u) - Freed(nodes, u, p) + additional > quota)
      ensures (forall n :: n in nodes && nodes[n].user == u ==> nodes[n].isDir) ==>
        (st.QuotaExceeded? <==> quota > 0 && additional > quota)
    {
      UsageLaws(nodes, u);
      NothingFreed(nodes, u, p);
      hide Usage, UniquePaths;
      if quota <= 0 || additional <= 0 {
        return Done;
      }
      var used := SumSizeByUser(u);
      var existing := GetByPath(u, p);
      if existing.Some? {
        TheIdAt(nodes, existing.value);
        if !nodes[existing.value].isDir {
          used := used - nodes[existing.value].size;
        }
      }
      if used + additional > quota {
        return QuotaExceeded;
      }
      st := Done;
    }

    lemma {:induction false} NothingFreed(nodes: Nodes, u: UserId, p: string)
      ensures (forall n :: n in nodes && nodes[n].user == u ==> nodes[n].isDir) ==> Freed(nodes, u, p) == 0
    {
    }

    /** AppendChunk: one more row, under the unique index on (node, seq). */
    method AppendChunk(n: NodeId, seqNo: nat, chunk: Bytes) returns (ok: bool)
      requires n in nodes ==> seqNo <= |nodes[n].wal|
      modifies this`nodes
      ensures ok <==> n in old(nodes) && seqNo == |old(nodes)[n].wal|
      ensures nodes == if ok then old(nodes)[n := old(nodes)[n].(wal := old(nodes)[n].wal + [chunk])] else old(nodes)
    {
      if n !in nodes || seqNo != |nodes[n].wal| {
        return false;
      }
      nodes := nodes[n := nodes[n].(wal := nodes[n].wal + [chunk])];
      ok := true;
    }

    /** The transaction of Close: the quota over everything the user has, then the row becomes buffered. When it
        fails the half-written node is deleted, so a failed PUT leaves no ghost. */
    method Commit(u: UserId, n: NodeId, size: nat, quota: int) returns (st: Status)
      requires TreeOk(nodes)
      requires n in nodes ==> nodes[n].user == u && !nodes[n].isDir && nodes[n].state.Writing? && nodes[n].size == 0
      modifies this`nodes
      ensures st == if quota > 0 && Usage(old(nodes), u) + size > quota then QuotaExceeded
                    else if n in old(nodes) then Done else Failed
      ensures nodes == if st.Done? then old(nodes)[n := old(nodes)[n].(state := Buffered, size := size)]
                       else old(nodes) - {n}
      ensures st.Done? ==> Usage(nodes, u) == Usage(old(nodes), u) + size && (quota > 0 ==> Usage(nodes, u) <= quota)
      ensures forall other: Nodes :: SameFiles(old(nodes), other, u) ==>
        (st.QuotaExceeded? <==> quota > 0 && Usage(other, u) + size > quota)
      ensures (forall x :: x in old(nodes) && old(nodes)[x].user == u ==>
          old(nodes)[x].isDir || old(nodes)[x].size == 0) ==>
        (st.QuotaExceeded? <==> quota > 0 && size > quota)
      ensures TreeOk(nodes)
      ensures old(Valid()) && (n in old(nodes) ==> size == |Flatten(old(nodes)[n].wal)|) ==> Valid()
    {
      UsageLaws(nodes, u);
      hide TreeOk, NodesOk, RefsOk, Usage, Flatten, SameFiles;
      var used := SumSizeByUser(u);
      if quota > 0 && used + size > quota {
        st := QuotaExceeded;
        DropHalfWritten(n);
        return;
      }
      if n !in nodes {
        st := Failed;
        DropHalfWritten(n);
        return;
      }
      WritingTree(nodes, n);
      UsageRewrite(nodes, u, n, nodes[n].(state := Buffered, size := size));
      RewriteTree(nodes, n, nodes[n].(state := Buffered, size := size));
      if Valid() && size == |Flatten(nodes[n].wal)| {
        WritingRow(nodes, blobs, data, n);
      }
      nodes := nodes[n := nodes[n].(size := size, state := Buffered)];
      st := Done;
    }

    /** The clean-up transaction after a failed Close. */
    method DropHalfWritten(n: NodeId)
      requires TreeOk(nodes)
      requires n in nodes ==> !nodes[n].isDir && nodes[n].state.Writing?
      modifies this`nodes
      ensures TreeOk(nodes) && nodes == old(nodes) - {n}
      ensures old(Valid()) ==> Valid()
    {
      hide TreeOk, NodesOk, RefsOk, RemoveTree, IsPath;
      if n in nodes {
        NotRootFile(nodes, n);
        WritingTree(nodes, n);
        if Valid() {
          WritingRow(nodes, blobs, data, n);
        }
        Delete(n);
      }
    }

    /** A file being written can be finished or dropped; nothing else depends on it. */
    lemma {:induction false} WritingRow(nodes: Nodes, blobs: Blobs, data: Data, n: NodeId)
      requires TreeOk(nodes) && NodesOk(nodes, data) && RefsOk(nodes, blobs)
      requires n in nodes && !nodes[n].isDir && nodes[n].state.Writing?
      ensures var a := nodes[n := Closed(nodes[n])]; TreeOk(a) && NodesOk(a, data) && RefsOk(a, blobs)
      ensures RemoveTree(nodes, nodes[n].user, nodes[n].path) == nodes - {n}
      ensures TreeOk(nodes - {n}) && NodesOk(nodes - {n}, data) && RefsOk(nodes - {n}, blobs)
    {
      assert NodeOk(nodes[n], data);
      assert nodes[n].extents == [];
      assert NodeOk(Closed(nodes[n]), data);
      WritingTree(nodes, n);
      WritingRefs(nodes, blobs, n);
      hide TreeOk, Flatten, RemoveTree, RefsOk, NodeOk;
    }

    lemma {:induction false} WritingRefs(nodes: Nodes, blobs: Blobs, n: NodeId)
      requires RefsOk(nodes, blobs) && n in nodes && nodes[n].extents == []
      ensures RefsOk(nodes[n := Closed(nodes[n])], blobs) && RefsOk(nodes - {n}, blobs)
    {
      hide Refs;
      forall b ensures Refs(nodes[n := Closed(nodes[n])], b) == Refs(nodes, b) == Refs(nodes - {n}, b) {
        RefsSame(nodes, nodes[n := Closed(nodes[n])], b);
        RefsInsert(nodes - {n}, n, nodes[n], b);
        assert (nodes - {n})[n := nodes[n]] == nodes;
      }
    }

    lemma {:induction false} WritingTree(nodes: Nodes, n: NodeId)
      requires TreeOk(nodes) && n in nodes && !nodes[n].isDir
      ensures TreeOk(nodes[n := Closed(nodes[n])]) && TreeOk(nodes - {n})
      ensures RemoveTree(nodes, nodes[n].user, nodes[n].path) == nodes - {n}
    {
      hide TreeOk, IsPath;
      RewriteTree(nodes, n, Closed(nodes[n]));
      FileIsLeaf(nodes, n);
      assert forall x :: x in nodes ==> (x in SubtreeIds(nodes, nodes[n].user, nodes[n].path) <==> x == n);
      assert RemoveTree(nodes, nodes[n].user, nodes[n].path) == nodes - {n};
      NotRootFile(nodes, n);
      RemoveOk(nodes, nodes[n].user, nodes[n].path);
    }

    lemma {:induction false} NotRootFile(nodes: Nodes, n: NodeId)
      requires TreeOk(nodes) && n in nodes && !nodes[n].isDir
      ensures nodes[n].path != "/" && IsPath(nodes[n].path)
    {
      assert ParentOk(nodes, nodes[n]);
      if nodes[n].parent.Some? {
        ChildIsPath(nodes[nodes[n].parent.value].path, nodes[n].name);
      }
    }

    // ---- the packer's finalize --------------------------------------------------------------------

    /** Stores a packed file if it is still buffered and still leased by owner: extents written, references
        counted, log dropped. A missing blob row fails the insert and rolls everything back. */
    method FinalizeNode(n: NodeId, owner: Owner, ex: seq<Extent>) returns (stored: bool)
      requires NodesOk(nodes, data)
      modifies this`nodes, this`blobs
      ensures stored <==> n in old(nodes) && old(nodes)[n].state.Buffered? && old(nodes)[n].leaseOwner == Some(owner)
                          && forall i :: 0 <= i < |ex| ==> ex[i].blob in old(blobs)
      ensures nodes == if stored then old(nodes)[n := StoredNode(old(nodes)[n], ex)] else old(nodes)
      ensures blobs == if stored then Settle(old(blobs), old(nodes), nodes) else old(blobs)
      ensures stored ==>
        && nodes[n].state.Stored? && nodes[n].extents == ex && nodes[n].wal == [] && nodes[n].size == old(nodes)[n].size
        && nodes[n].leaseOwner.None? && nodes[n].leaseUntil.None? && KeyOf(nodes[n]) == KeyOf(old(nodes)[n])
    {
      hide Settle, Released, Shifted, IsDeltas, Count, NodesOk;
      if n !in nodes || !nodes[n].state.Buffered? || nodes[n].leaseOwner != Some(owner) {
        return false;
      }
      BufferedBare(nodes, data, n);
      SettleStore(blobs, nodes, n, StoredNode(nodes[n], ex));
      var nodes0 := nodes;
      nodes := nodes[n := nodes[n].(state := Stored, leaseOwner := None, leaseUntil := None)];
      if i :| 0 <= i < |ex| && ex[i].blob !in blobs {
        nodes := nodes0;
        return false;
      }
      assert nodes[n].extents + ex == ex;
      nodes := nodes[n := nodes[n].(extents := nodes[n].extents + ex)];
      var deltas := Deltas(ex, 1);
      ShiftedIsReleased(blobs, deltas, ex, 1);
      AddRefcounts(deltas);
      nodes := nodes[n := nodes[n].(wal := [])];
      assert nodes == nodes0[n := StoredNode(nodes0[n], ex)];
      stored := true;
    }

    lemma {:induction false} BufferedBare(nodes: Nodes, data: Data, n: NodeId)
      requires NodesOk(nodes, data) && n in nodes && nodes[n].state.Buffered?
      ensures nodes[n].extents == []
    {
      assert NodeOk(nodes[n], data);
    }

    lemma {:induction false} SettleStore(blobs: Blobs, nodes: Nodes, n: NodeId, nd: Node)
      requires n in nodes && nodes[n].extents == []
      ensures Settle(blobs, nodes, nodes[n := nd]) == Released(blobs, nd.extents, 1)
    {
      hide Refs;
      forall b ensures Refs(nodes[n := nd], b) == Refs(nodes, b) + Count(nd.extents, b) {
        RefsUpdate(nodes, n, nd, b);
      }
    }

    // ---- the loss of a blob -----------------------------------------------------------------------

    /** markPermUnavailable: the blob is marked and every file whose only content was on it is deleted. Their
        references stay counted, which the mark allows. */
    method MarkPermUnavailable(b: BlobId)
      requires Valid() && b in blobs
      modifies this`nodes, this`blobs
      ensures Valid() && nodes == WithoutSole(old(nodes), b)
      ensures LostSole(old(nodes), nodes, b)
      ensures blobs == old(blobs)[b := old(blobs)[b].(state := PermUnavailable)]
    {
      SoleMeans(nodes, b);
      hide TreeOk, RefsOk, SolelyOn, LostSole;
      Safety.SoleTree(nodes, data, b);
      Safety.SoleRefsOk(nodes, blobs, b);
      SoleFiles(nodes, data, b);
      hide NodesOk;
      ghost var before := nodes;
      blobs := blobs[b := blobs[b].(state := PermUnavailable)];
      var sole := set n | n in nodes && SolelyOn(nodes[n], b);
      var ids := Enumerate(sole);
      DeleteFiles(ids, sole);
      assert WithoutSole(before, b) == before - sole;
    }

    /** The loop of single deletions; a file has nothing below it that would go with it. */
    method DeleteFiles(ids: seq<NodeId>, ghost all: set<NodeId>)
      requires TreeOk(nodes) && forall n :: n in ids <==> n in all
      requires forall n :: n in all ==> n in nodes && !nodes[n].isDir
      requires Distinct(ids)
      modifies this`nodes
      ensures TreeOk(nodes) && nodes == old(nodes) - all
    {
      hide TreeOk, IsPath, RemoveTree;
      ghost var before := nodes;
      ghost var left := all;
      for i := 0 to |ids|
        invariant TreeOk(nodes) && left <= all && nodes == before - (all - left)
        invariant forall n :: n in left <==> n in ids[i..]
      {
        var n := ids[i];
        assert ids[i..] == [n] + ids[i + 1..];
        assert n in left;
        NotRootFile(nodes, n);
        WritingTree(nodes, n);
        Delete(n);
        left := left - {n};
      }
    }

    lemma {:induction false} SoleFiles(nodes: Nodes, data: Data, b: BlobId)
      requires NodesOk(nodes, data)
      ensures forall n :: n in nodes && SolelyOn(nodes[n], b) ==> !nodes[n].isDir
    {
    }
  }

  /** Gone are exactly the files with extents, every one of them on b. */
  predicate LostSole(before: Nodes, after: Nodes, b: BlobId) {
    && (forall n :: n in after ==> n in before && after[n] == before[n])
    && forall n :: n in before ==>
         (n !in after <==> before[n].extents != [] && forall e :: e in before[n].extents ==> e.blob == b)
  }

  lemma {:induction false} SoleMeans(nodes: Nodes, b: BlobId)
    ensures LostSole(nodes, WithoutSole(nodes, b), b)
  {
    forall n | n in nodes
      ensures SolelyOn(nodes[n], b) <==> nodes[n].extents != [] && forall e :: e in nodes[n].extents ==> e.blob == b
    {
      if forall e :: e in nodes[n].extents ==> e.blob == b {
        forall i | 0 <= i < |nodes[n].extents| ensures nodes[n].extents[i].blob == b {
          assert nodes[n].extents[i] in nodes[n].extents;
        }
      }
    }
  }

  /** A file just opened for writing: empty, with no log and no extents. */
  predicate IsOpened(nd: Node) {
    !nd.isDir && nd.state.Writing? && nd.size == 0 && nd.wal == [] && nd.extents == []
  }

  /** How opening for writing answers. */
  ghost function OpenOutcome(nodes: Nodes, u: UserId, p: string, excl: bool): Status
    requires IsPath(p)
  {
    if p == "/" then Invalid
    else if !IsDirAt(nodes, u, Paths.Dir(p)) then NotExist
    else if IsDirAt(nodes, u, p) then Invalid
    else if Key(u, p) in Keys(nodes) && excl then Exist
    else Done
  }

  lemma {:induction false} CopiedWithinQuota(nodes: Nodes, after: Nodes, u: UserId, s: string, d: string,
          recursive: bool, m: map<NodeId, NodeId>, quota: int)
    requires IsPath(d) && !AtOrUnder(d, s) && !AtOrUnder(s, d) && IsCopied(nodes, after, u, s, d, recursive, m)
    requires Usage(nodes, u) + SubtreeUsage(nodes, u, s) - SubtreeUsage(nodes, u, d) <= quota
    ensures Usage(after, u) <= quota
  {
    hide Usage, SubtreeUsage, CopiedTree, RemoveTree;
    CopyWithinQuota(nodes, after, u, s, d, IdAt(nodes, Key(u, s)), IdAt(nodes, Key(u, Paths.Dir(d))), recursive, m,
      quota);
  }

  lemma {:induction false} RenameResultOk(nodes: Nodes, blobs: Blobs, data: Data, next: NodeId, u: UserId, s: string,
          d: string)
    requires TreeOk(nodes) && NodesOk(nodes, data) && RefsOk(nodes, blobs) && forall n :: n in nodes ==> n < next
    requires IsPath(s) && IsPath(d) && s != d && RenameOutcome(nodes, u, s, d).Done?
    ensures var nodes' := RenameResult(nodes, u, s, d);
      && TreeOk(nodes') && NodesOk(nodes', data) && RefsOk(nodes', Settle(blobs, nodes, nodes'))
      && forall n :: n in nodes' ==> n < next
  {
    hide TreeOk, RefsOk, Settle, IsPath, Paths.Dir;
    var nodes' := RenameResult(nodes, u, s, d);
    SettleOk(blobs, nodes, nodes');
    if AtOrUnder(s, d) {
      RemoveOk(nodes, u, d);
    } else {
      var top, parent := IdAt(nodes, Key(u, s)), IdAt(nodes, Key(u, Paths.Dir(d)));
      assert Relocatable(nodes, u, s, d, top, parent);
      RenameOk(nodes, u, s, d, top, parent);
      RenameNodesOk(nodes, data, u, s, d, top, parent);
    }
  }

  // ---- the quota pre-check ------------------------------------------------------------------------

  lemma {:induction false} RootedUsage(nodes: Nodes, u: UserId, id: NodeId, p: string)
    requires UniquePaths(nodes) && id !in nodes && p != "/"
    ensures Usage(Rooted(nodes, u, id), u) == Usage(nodes, u)
    ensures UniquePaths(Rooted(nodes, u, id)) && Freed(Rooted(nodes, u, id), u, p) == Freed(nodes, u, p)
  {
    if Key(u, "/") !in Keys(nodes) {
      hide UniquePaths;
      NewDirUsage(nodes, u, id, RootNode(u), p);
    }
  }

  lemma {:induction false} NewDirUsage(nodes: Nodes, u: UserId, id: NodeId, nd: Node, p: string)
    requires UniquePaths(nodes) && id !in nodes && nd.isDir && KeyOf(nd) !in Keys(nodes) && KeyOf(nd) != Key(u, p)
    ensures var base := nodes[id := nd];
      Usage(base, u) == Usage(nodes, u) && UniquePaths(base) && Freed(base, u, p) == Freed(nodes, u, p)
  {
    var base := nodes[id := nd];
    assert Sizes(base, u) == Sizes(nodes, u);
    assert forall n :: n in nodes ==> KeyOf(nodes[n]) in Keys(nodes) && KeyOf(base[n]) in Keys(base);
    if Key(u, p) in Keys(base) {
      TheIdAt(nodes, IdAt(base, Key(u, p)));
    }
  }

  /** With nothing in between, the pre-check for a PUT of n > 0 bytes accepts exactly when opening p, which leaves
      the table after, and closing after n bytes passes the check Close makes. */
  lemma {:induction false} CheckQuotaExact(nodes: Nodes, u: UserId, id: NodeId, p: string, x: NodeId, after: Nodes,
          n: nat, quota: int)
    requires UniquePaths(nodes) && id !in nodes && IsPath(p) && OpenOutcome(Rooted(nodes, u, id), u, p, false).Done?
    requires var base := Rooted(nodes, u, id);
      (x in base <==> Key(u, p) in Keys(base)) &&
      if x in base then KeyOf(base[x]) == Key(u, p) && after == base[x := Truncated(base[x])]
      else after == base[x := FileNode(u, p, IdAt(base, Key(u, Paths.Dir(p))))]
    ensures Usage(nodes, u) - Freed(nodes, u, p) + n > quota <==> Usage(after, u) + n > quota
  {
    var base := Rooted(nodes, u, id);
    RootedUsage(nodes, u, id, p);
    if x in base {
      TheIdAt(base, x);
      hide Usage, Paths.Dir, Rooted;
      UsageRewrite(base, u, x, Truncated(base[x]));
    } else {
      hide Usage, Paths.Dir, Rooted;
      UsageNew(base, u, x, FileNode(u, p, IdAt(base, Key(u, Paths.Dir(p)))));
    }
  }

  // ---- a destination that contains the source -----------------------------------------------------

  /** Directories /, /a and /a/b. */
  function ThreeDirs(): Nodes {
    map[
      0 := RootNode(0),
      1 := Node(0, Some(0), "a", "/a", true, 0, Stored, None, None, [], []),
      2 := Node(0, Some(1), "b", "/a/b", true, 0, Stored, None, None, [], [])]
  }

  lemma {:induction false} ThreeDirsOk()
    ensures TreeOk(ThreeDirs()) && IsPath("/a") && IsPath("/a/b") && Paths.Dir("/a") == "/"
    ensures AtOrUnder("/a/b", "/a") && !AtOrUnder("/a", "/a/b") && !AtOrUnder("/", "/a")
  {
    assert Child("/", "a") == "/a" && Child("/a", "b") == "/a/b";
    ChildIsPath("/", "a");
    ChildIsPath("/a", "b");
    assert "/a/b"[..2] == "/a";
    hide Paths.Dir, LastSlash, IsPath;
  }

  /** A concrete MOVE, of /a/b onto /a: it answers without an error and both directories are gone. */
  lemma {:induction false} MoveOntoParentLoses()
    ensures TreeOk(ThreeDirs()) && IsPath("/a") && RenameOutcome(ThreeDirs(), 0, "/a/b", "/a").Done?
    ensures Key(0, "/a/b") in Keys(ThreeDirs()) && IsDirAt(ThreeDirs(), 0, Paths.Dir("/a"))
    ensures Keys(RenameResult(ThreeDirs(), 0, "/a/b", "/a")) == {Key(0, "/")}
  {
    var nodes := ThreeDirs();
    ThreeDirsOk();
    TheIdsOf(nodes);
    assert KeyOf(nodes[0]) == Key(0, "/") && KeyOf(nodes[2]) == Key(0, "/a/b");
    hide TreeOk, IsPath, Paths.Dir, Child, AtOrUnder, Keys, IdAt;
    assert IsDirAt(nodes, 0, "/") && IsDirAt(nodes, 0, "/a/b");
    OnlyRootLeft(nodes);
  }

  /** Directories / and /a, and the file /a/f with one chunk in its log. */
  function OneFile(c: Bytes): Nodes {
    map[
      0 := RootNode(0),
      1 := Node(0, Some(0), "a", "/a", true, 0, Stored, None, None, [], []),
      2 := Node(0, Some(1), "f", "/a/f", false, |c|, Buffered, None, None, [c], [])]
  }

  lemma {:induction false} OneFileTree(c: Bytes)
    ensures TreeOk(OneFile(c)) && IsPath("/a") && IsPath("/a/f") && Paths.Dir("/a") == "/"
    ensures AtOrUnder("/a/f", "/a") && !AtOrUnder("/a", "/a/f")
  {
    assert Child("/", "a") == "/a" && Child("/a", "f") == "/a/f";
    ChildIsPath("/", "a");
    ChildIsPath("/a", "f");
    assert "/a/f"[..2] == "/a";
    hide Paths.Dir, LastSlash, IsPath;
  }

  lemma {:induction false} OneFileRows(c: Bytes)
    requires 0 < |c| <= CHUNK
    ensures NodesOk(OneFile(c), map[]) && Content(OneFile(c)[2], map[]) == c
  {
    FlattenOne(c);
    assert c[..|c|] == c;
    hide Flatten;
  }

  lemma {:induction false} OneFileFound(c: Bytes)
    requires TreeOk(OneFile(c))
    ensures var nodes := OneFile(c);
      Key(0, "/a/f") in Keys(nodes) && IdAt(nodes, Key(0, "/a/f")) == 2 && Key(0, "/") in Keys(nodes)
      && IsDirAt(nodes, 0, "/")
  {
    var nodes := OneFile(c);
    TheIdsOf(nodes);
    assert KeyOf(nodes[0]) == Key(0, "/") && KeyOf(nodes[2]) == Key(0, "/a/f");
    assert nodes[0].isDir;
  }

  /** A concrete COPY, of the non-empty file /a/f onto /a with overwrite: it answers without an error, and whatever id
      the new row gets, the source is gone and the file now at /a claims bytes that no table holds. */
  lemma {:induction false} CopyOntoParentLoses(c: Bytes, after: Nodes)
    requires 0 < |c| <= CHUNK
    ensures var nodes := OneFile(c);
      && TreeOk(nodes) && NodesOk(nodes, map[]) && IsPath("/a") && Content(nodes[2], map[]) == c
      && KeyOf(nodes[2]) == Key(0, "/a/f") && CopyBase(nodes, 0, "/a/f", "/a", 3) == nodes
      && CopyOutcome(nodes, 0, "/a/f", "/a", true, 0).Done?
      && (IsOrphaned(nodes, after, 0, "/a/f", "/a") ==>
           && Key(0, "/a/f") !in Keys(after)
           && exists n :: n in after && KeyOf(after[n]) == Key(0, "/a") && !NodeOk(after[n], map[]))
  {
    var nodes := OneFile(c);
    OneFileTree(c);
    OneFileRows(c);
    OneFileFound(c);
    assert NodeOk(nodes[2], map[]) && KeyOf(nodes[2]) == Key(0, "/a/f");
    hide TreeOk, NodesOk, IsPath, Paths.Dir, AtOrUnder, Keys, IdAt, NodeOk, Content, IsDirAt, TopRow, RemoveTree;
    if IsOrphaned(nodes, after, 0, "/a/f", "/a") {
      OrphanKeys(nodes, after, 0, "/a/f", "/a");
      OrphanedRow(nodes, after, "/a/f", "/a", 2);
    }
  }

  /** The row an orphaned copy leaves at its destination is not consistent when the file had bytes. */
  lemma {:induction false} OrphanedRow(nodes: Nodes, after: Nodes, s: string, d: string, top: NodeId)
    requires IsPath(d) && IsOrphaned(nodes, after, 0, s, d) && top in nodes && IdAt(nodes, Key(0, s)) == top
    requires NodeOk(nodes[top], map[]) && !nodes[top].isDir && nodes[top].size > 0 && nodes[top].user == 0
    ensures exists n :: n in after && KeyOf(after[n]) == Key(0, d) && !NodeOk(after[n], map[])
  {
    hide RemoveTree, Keys, IsPath, Paths.Dir;
    var parent := IdAt(nodes, Key(0, Paths.Dir(d)));
    var id: NodeId :| id !in nodes && after == RemoveTree(nodes, 0, d)[id := TopRow(Orphan(nodes[top]), d, parent)];
    OrphanReadable(nodes[top], map[], d, parent);
    TopRowAt(Orphan(nodes[top]), d, parent);
    hide NodeOk, TopRow;
    assert id in after;
  }

  lemma {:induction false} TopRowAt(nd: Node, d: string, parent: NodeId)
    requires IsPath(d)
    ensures KeyOf(TopRow(nd, d, parent)) == Key(nd.user, d)
  {
    hide IsPath;
  }

  lemma {:induction false} OnlyRootLeft(nodes: Nodes)
    requires nodes == ThreeDirs() && AtOrUnder("/a/b", "/a") && !AtOrUnder("/", "/a")
    ensures Keys(RemoveTree(nodes, 0, "/a")) == {Key(0, "/")}
  {
    hide AtOrUnder;
    var after := RemoveTree(nodes, 0, "/a");
    assert AtOrUnder("/a", "/a") by { AtItself("/a"); }
    assert after.Keys == {0};
    assert KeyOf(after[0]) == Key(0, "/");
    assert Keys(after) == {Key(0, "/")};
  }

  lemma {:induction false} AtItself(p: string)
    ensures AtOrUnder(p, p)
  {
  }

  lemma {:induction false} TheIdsOf(nodes: Nodes)
    requires UniquePaths(nodes)
    ensures forall n :: n in nodes ==> KeyOf(nodes[n]) in Keys(nodes) && IdAt(nodes, KeyOf(nodes[n])) == n
  {
    forall n | n in nodes ensures KeyOf(nodes[n]) in Keys(nodes) && IdAt(nodes, KeyOf(nodes[n])) == n {
      TheIdAt(nodes, n);
    }
  }
}
