/** The node tree, held twice: by path and by parent_id. The metadata effects of MKCOL, MOVE, COPY and
    DELETE on the nodes table, and what they mean for the map from paths to file contents. */
module Tree {
  import opened Base
  import opened Paths
  import opened Wal
  import opened Extents
  import opened Tables

  datatype Key = Key(user: UserId, path: string)

  datatype Entry = Dir | File(bytes: Bytes)

  /** What a user of the filesystem sees: paths and what is there. */
  type View = map<Key, Entry>

  function KeyOf(nd: Node): Key {
    Key(nd.user, nd.path)
  }

  // ---- the two views of the tree ----------------------------------------------------------------

  predicate ParentOk(nodes: Nodes, nd: Node) {
    if nd.parent.None? then nd.path == "/" && nd.isDir
    else
      && nd.parent.value in nodes
      && var parent := nodes[nd.parent.value];
      && parent.isDir && parent.user == nd.user
      && IsName(nd.name) && nd.path == Child(parent.path, nd.name)
  }

  predicate UniquePaths(nodes: Nodes) {
    forall n, m :: n in nodes && m in nodes && KeyOf(nodes[n]) == KeyOf(nodes[m]) ==> n == m
  }

  predicate TreeOk(nodes: Nodes) {
    && UniquePaths(nodes)
    && forall n :: n in nodes ==> IsPath(nodes[n].path) && ParentOk(nodes, nodes[n])
  }

  predicate InSubtree(nd: Node, u: UserId, p: string) {
    nd.user == u && AtOrUnder(nd.path, p)
  }

  /** a is reached from x by following parent_id, the relation ON DELETE CASCADE closes over. */
  predicate Descends(nodes: Nodes, x: NodeId, a: NodeId)
    requires TreeOk(nodes) && x in nodes
    decreases |nodes[x].path|
  {
    x == a ||
    (nodes[x].parent.Some? &&
     (ChildIsPath(nodes[nodes[x].parent.value].path, nodes[x].name);
      Descends(nodes, nodes[x].parent.value, a)))
  }

  /** The parent chain and the path prefix describe the same subtree. */
  lemma {:induction false} DescendsIsUnder(nodes: Nodes, x: NodeId, a: NodeId)
    requires TreeOk(nodes) && x in nodes && a in nodes && nodes[a].path != "/"
    ensures Descends(nodes, x, a) <==> InSubtree(nodes[x], nodes[a].user, nodes[a].path)
    decreases |nodes[x].path|
  {
    if nodes[x].parent.Some? {
      var p := nodes[x].parent.value;
      ChildIsPath(nodes[p].path, nodes[x].name);
      DescendsIsUnder(nodes, p, a);
      ChildUnder(nodes[p].path, nodes[x].name, nodes[a].path);
    }
  }

  lemma {:induction false} ParentInSubtree(nodes: Nodes, n: NodeId, u: UserId, p: string)
    requires TreeOk(nodes) && n in nodes && nodes[n].parent.Some? && IsPath(p) && p != "/"
    ensures InSubtree(nodes[n], u, p) <==>
            KeyOf(nodes[n]) == Key(u, p) || InSubtree(nodes[nodes[n].parent.value], u, p)
  {
    ChildUnder(nodes[nodes[n].parent.value].path, nodes[n].name, p);
  }

  // ---- rows as they are created, truncated and closed --------------------------------------------

  function RootNode(u: UserId): Node {
    Node(u, None, "", "/", true, 0, Stored, None, None, [], [])
  }

  function DirNode(u: UserId, p: string, parent: NodeId): Node
    requires IsPath(p)
  {
    Node(u, Some(parent), BaseName(p), p, true, 0, Stored, None, None, [], [])
  }

  function FileNode(u: UserId, p: string, parent: NodeId): Node
    requires IsPath(p)
  {
    Node(u, Some(parent), BaseName(p), p, false, 0, Writing, None, None, [], [])
  }

  function Truncated(nd: Node): Node {
    nd.(state := Writing, size := 0, wal := [], extents := [])
  }

  function Closed(nd: Node): Node {
    nd.(state := Buffered, size := |Flatten(nd.wal)|)
  }

  function StoredNode(nd: Node, ex: seq<Extent>): Node {
    nd.(state := Stored, leaseOwner := None, leaseUntil := None, wal := [], extents := ex)
  }

  predicate SolelyOn(nd: Node, b: BlobId) {
    nd.extents != [] && forall i :: 0 <= i < |nd.extents| ==> nd.extents[i].blob == b
  }

  function WithoutSole(nodes: Nodes, b: BlobId): Nodes {
    map n | n in nodes && !SolelyOn(nodes[n], b) :: nodes[n]
  }

  // ---- the view ---------------------------------------------------------------------------------

  ghost function Keys(nodes: Nodes): set<Key> {
    set n | n in nodes :: KeyOf(nodes[n])
  }

  ghost function IdAt(nodes: Nodes, k: Key): (n: NodeId)
    requires k in Keys(nodes)
    ensures n in nodes && KeyOf(nodes[n]) == k
  {
    var n :| n in nodes && KeyOf(nodes[n]) == k;
    n
  }

  function EntryOf(nd: Node, data: Data): Entry
    requires NodeOk(nd, data)
  {
    if nd.isDir then Dir else File(Content(nd, data))
  }

  ghost function ViewOf(nodes: Nodes, data: Data): View
    requires NodesOk(nodes, data)
  {
    map k | k in Keys(nodes) :: EntryOf(nodes[IdAt(nodes, k)], data)
  }

  lemma {:induction false} ViewAt(nodes: Nodes, data: Data, n: NodeId)
    requires NodesOk(nodes, data) && UniquePaths(nodes) && n in nodes
    ensures KeyOf(nodes[n]) in ViewOf(nodes, data)
    ensures ViewOf(nodes, data)[KeyOf(nodes[n])] == EntryOf(nodes[n], data)
  {
    assert KeyOf(nodes[n]) in Keys(nodes);
  }

  /** A view is determined by its entries. */
  lemma {:induction false} ViewIs(nodes: Nodes, data: Data, v: View)
    requires NodesOk(nodes, data) && UniquePaths(nodes)
    requires forall n :: n in nodes ==> KeyOf(nodes[n]) in v && v[KeyOf(nodes[n])] == EntryOf(nodes[n], data)
    requires v.Keys <= Keys(nodes)
    ensures ViewOf(nodes, data) == v
  {
    var w := ViewOf(nodes, data);
    forall k | k in w ensures k in v && w[k] == v[k] {
      ViewAt(nodes, data, IdAt(nodes, k));
    }
    assert w.Keys == v.Keys;
  }

  // ---- one row added or rewritten -----------------------------------------------------------------

  lemma {:induction false} AddTree(nodes: Nodes, n: NodeId, nd: Node)
    requires TreeOk(nodes) && n !in nodes
    requires IsPath(nd.path) && ParentOk(nodes, nd) && KeyOf(nd) !in Keys(nodes)
    ensures TreeOk(nodes[n := nd])
  {
    hide IsPath, Child, IsName;
    var nodes' := nodes[n := nd];
    forall x | x in nodes' ensures IsPath(nodes'[x].path) && ParentOk(nodes', nodes'[x]) {
      assert x != n ==> ParentOk(nodes, nodes[x]);
    }
    assert forall x :: x in nodes ==> KeyOf(nodes[x]) in Keys(nodes);
  }

  lemma {:induction false} RewriteTree(nodes: Nodes, n: NodeId, nd: Node)
    requires TreeOk(nodes) && n in nodes
    requires nd.user == nodes[n].user && nd.path == nodes[n].path && nd.parent == nodes[n].parent
    requires nd.name == nodes[n].name && nd.isDir == nodes[n].isDir
    ensures TreeOk(nodes[n := nd])
  {
    hide IsPath, Child, IsName;
    var nodes' := nodes[n := nd];
    forall x | x in nodes' ensures IsPath(nodes'[x].path) && ParentOk(nodes', nodes'[x]) {
      assert ParentOk(nodes, nodes[x]);
    }
    forall x, y | x in nodes' && y in nodes' && KeyOf(nodes'[x]) == KeyOf(nodes'[y]) ensures x == y {
      assert KeyOf(nodes[x]) == KeyOf(nodes[y]);
    }
  }

  lemma {:induction false} TruncateNodes(nodes: Nodes, data: Data, n: NodeId)
    requires TreeOk(nodes) && NodesOk(nodes, data) && n in nodes && !nodes[n].isDir
    ensures TreeOk(nodes[n := Truncated(nodes[n])]) && NodesOk(nodes[n := Truncated(nodes[n])], data)
  {
    RewriteTree(nodes, n, Truncated(nodes[n]));
    FlattenNil();
  }

  // ---- abstract operations ----------------------------------------------------------------------

  predicate KeyUnder(k: Key, u: UserId, p: string) {
    k.user == u && AtOrUnder(k.path, p)
  }

  ghost function ViewRemove(v: View, u: UserId, p: string): View {
    map k | k in v && !KeyUnder(k, u, p) :: v[k]
  }

  ghost function MovedKeys(v: View, u: UserId, s: string, d: string): set<Key> {
    set k | k in v && KeyUnder(k, u, s) :: Key(u, Rebase(k.path, s, d))
  }

  /** MOVE: what was at s+t is at d+t; nothing else remains at or under s or d. */
  ghost function ViewRename(v: View, u: UserId, s: string, d: string): View {
    map k | k in MovedKeys(v, u, s, d) + (set k | k in v && !KeyUnder(k, u, s) && !KeyUnder(k, u, d)) ::
      if KeyUnder(k, u, d) then Source(v, u, s, d, k) else v[k]
  }

  /** COPY: d+t shows what s+t shows (only the top when not recursive); nothing else is at or under d. */
  ghost function ViewCopy(v: View, u: UserId, s: string, d: string, recursive: bool): View {
    map k | k in MovedKeys(Sources(v, u, s, recursive), u, s, d) + (set k | k in v && !KeyUnder(k, u, d)) ::
      if KeyUnder(k, u, d) then Source(v, u, s, d, k) else v[k]
  }

  ghost function Sources(v: View, u: UserId, s: string, recursive: bool): View {
    if recursive then v else map k | k in v && k == Key(u, s) :: v[k]
  }

  ghost function Source(v: View, u: UserId, s: string, d: string, k: Key): Entry
    requires KeyUnder(k, u, d)
  {
    var from := Key(u, Rebase(k.path, d, s));
    if from in v then v[from] else Dir
  }

  // ---- DELETE -----------------------------------------------------------------------------------

  function RemoveTree(nodes: Nodes, u: UserId, p: string): Nodes {
    map n | n in nodes && !InSubtree(nodes[n], u, p) :: nodes[n]
  }

  lemma {:induction false} RemoveOk(nodes: Nodes, u: UserId, p: string)
    requires TreeOk(nodes) && IsPath(p) && p != "/"
    ensures TreeOk(RemoveTree(nodes, u, p))
  {
    var nodes' := RemoveTree(nodes, u, p);
    forall n | n in nodes' ensures ParentOk(nodes', nodes'[n]) {
      if nodes[n].parent.Some? {
        ParentInSubtree(nodes, n, u, p);
      }
    }
  }

  lemma {:induction false} RemoveView(nodes: Nodes, data: Data, u: UserId, p: string)
    requires TreeOk(nodes) && NodesOk(nodes, data)
    ensures NodesOk(RemoveTree(nodes, u, p), data)
    ensures ViewOf(RemoveTree(nodes, u, p), data) == ViewRemove(ViewOf(nodes, data), u, p)
  {
    var nodes' := RemoveTree(nodes, u, p);
    var v' := ViewRemove(ViewOf(nodes, data), u, p);
    forall n | n in nodes' ensures KeyOf(nodes'[n]) in v' && v'[KeyOf(nodes'[n])] == EntryOf(nodes'[n], data) {
      ViewAt(nodes, data, n);
    }
    forall k | k in v' ensures k in Keys(nodes') {
      var n := IdAt(nodes, k);
      assert n in nodes';
    }
    ViewIs(nodes', data, v');
  }

  // ---- MOVE -------------------------------------------------------------------------------------

  function MovedNode(nd: Node, top: bool, s: string, d: string, parent: NodeId): Node
    requires AtOrUnder(nd.path, s) && IsPath(d)
  {
    nd.(path := Rebase(nd.path, s, d),
        name := if top then BaseName(d) else nd.name,
        parent := if top then Some(parent) else nd.parent)
  }

  function RenameTree(nodes: Nodes, u: UserId, s: string, d: string, top: NodeId, parent: NodeId): Nodes
    requires IsPath(d)
  {
    map n | n in nodes && !InSubtree(nodes[n], u, d) ::
      if InSubtree(nodes[n], u, s) then MovedNode(nodes[n], n == top, s, d, parent) else nodes[n]
  }

  /** What MOVE and COPY check before they touch anything, plus the guard the code lacks: the destination
      must not contain the source either. */
  predicate Relocatable(nodes: Nodes, u: UserId, s: string, d: string, top: NodeId, parent: NodeId) {
    && IsPath(s) && IsPath(d) && s != "/" && d != "/"
    && !AtOrUnder(d, s) && !AtOrUnder(s, d)
    && top in nodes && KeyOf(nodes[top]) == Key(u, s)
    && parent in nodes && KeyOf(nodes[parent]) == Key(u, Paths.Dir(d)) && nodes[parent].isDir
  }

  lemma {:induction false} Apart(q: string, s: string, d: string)
    requires !AtOrUnder(d, s) && !AtOrUnder(s, d)
    ensures !(AtOrUnder(q, s) && AtOrUnder(q, d))
  {
    if AtOrUnder(q, s) && AtOrUnder(q, d) {
      UnderComparable(q, s, d);
    }
  }

  lemma {:induction false} DestinationParent(s: string, d: string)
    requires IsPath(s) && IsPath(d) && s != "/" && d != "/" && !AtOrUnder(d, s)
    ensures !AtOrUnder(Paths.Dir(d), s) && !AtOrUnder(Paths.Dir(d), d)
    ensures IsPath(Paths.Dir(d)) && IsName(BaseName(d)) && d == Child(Paths.Dir(d), BaseName(d))
  {
    DirBase(d);
    ChildUnder(Paths.Dir(d), BaseName(d), s);
  }

  lemma {:induction false} RenameParents(nodes: Nodes, u: UserId, s: string, d: string, top: NodeId, parent: NodeId,
          n: NodeId)
    requires TreeOk(nodes) && Relocatable(nodes, u, s, d, top, parent)
    requires n in RenameTree(nodes, u, s, d, top, parent)
    ensures var nodes' := RenameTree(nodes, u, s, d, top, parent);
            IsPath(nodes'[n].path) && ParentOk(nodes', nodes'[n])
  {
    hide LastSlash, Paths.Dir, BaseName;
    var nodes' := RenameTree(nodes, u, s, d, top, parent);
    var nd := nodes[n];
    DestinationParent(s, d);
    if nd.parent.Some? {
      var p := nodes[nd.parent.value];
      ParentInSubtree(nodes, n, u, s);
      ParentInSubtree(nodes, n, u, d);
      if InSubtree(nd, u, s) {
        RebaseOk(nd.path, s, d);
        if n != top {
          assert InSubtree(p, u, s);
          Apart(p.path, s, d);
          RebaseChild(p.path, nd.name, s, d);
          assert nd.parent.value != top || nodes'[nd.parent.value].path == Rebase(p.path, s, d);
        } else {
          assert Rebase(s, s, d) == d;
        }
      }
    }
  }

  lemma {:induction false} RenameOk(nodes: Nodes, u: UserId, s: string, d: string, top: NodeId, parent: NodeId)
    requires TreeOk(nodes) && Relocatable(nodes, u, s, d, top, parent)
    ensures TreeOk(RenameTree(nodes, u, s, d, top, parent))
  {
    var nodes' := RenameTree(nodes, u, s, d, top, parent);
    forall n | n in nodes' ensures IsPath(nodes'[n].path) && ParentOk(nodes', nodes'[n]) {
      RenameParents(nodes, u, s, d, top, parent, n);
    }
    forall n, m | n in nodes' && m in nodes' && KeyOf(nodes'[n]) == KeyOf(nodes'[m]) ensures n == m {
      RenameUnique(nodes, u, s, d, top, parent, n, m);
    }
  }

  lemma {:induction false} RenameUnique(nodes: Nodes, u: UserId, s: string, d: string, top: NodeId, parent: NodeId,
          n: NodeId, m: NodeId)
    requires TreeOk(nodes) && Relocatable(nodes, u, s, d, top, parent)
    requires var nodes' := RenameTree(nodes, u, s, d, top, parent);
             n in nodes' && m in nodes' && KeyOf(nodes'[n]) == KeyOf(nodes'[m])
    ensures n == m
  {
    var a, b := nodes[n], nodes[m];
    if InSubtree(a, u, s) {
      RebaseOk(a.path, s, d);
    }
    if InSubtree(b, u, s) {
      RebaseOk(b.path, s, d);
    }
    if InSubtree(a, u, s) && InSubtree(b, u, s) {
      RebaseInjective(a.path, b.path, s, d);
    }
  }

  lemma {:induction false} RenameNodesOk(nodes: Nodes, data: Data, u: UserId, s: string, d: string, top: NodeId,
          parent: NodeId)
    requires NodesOk(nodes, data) && IsPath(d)
    ensures NodesOk(RenameTree(nodes, u, s, d, top, parent), data)
  {
    var nodes' := RenameTree(nodes, u, s, d, top, parent);
    forall n | n in nodes' ensures NodeOk(nodes'[n], data) {
      assert NodeOk(nodes[n], data);
    }
  }

  lemma {:induction false} MovedEntry(nd: Node, data: Data, top: bool, s: string, d: string, parent: NodeId)
    requires NodeOk(nd, data) && AtOrUnder(nd.path, s) && IsPath(d)
    ensures NodeOk(MovedNode(nd, top, s, d, parent), data)
    ensures EntryOf(MovedNode(nd, top, s, d, parent), data) == EntryOf(nd, data)
  {
  }

  lemma {:induction false} SourceOfMoved(nodes: Nodes, data: Data, u: UserId, s: string, d: string, n: NodeId)
    requires TreeOk(nodes) && NodesOk(nodes, data) && n in nodes && InSubtree(nodes[n], u, s)
    requires IsPath(s) && IsPath(d) && s != "/" && d != "/"
    ensures var k := Key(u, Rebase(nodes[n].path, s, d));
            KeyUnder(k, u, d) && k in MovedKeys(ViewOf(nodes, data), u, s, d) &&
            Source(ViewOf(nodes, data), u, s, d, k) == EntryOf(nodes[n], data)
  {
    RebaseOk(nodes[n].path, s, d);
    ViewAt(nodes, data, n);
  }

  lemma {:induction false} RenameViewNode(nodes: Nodes, data: Data, u: UserId, s: string, d: string, top: NodeId,
          parent: NodeId, n: NodeId)
    requires TreeOk(nodes) && NodesOk(nodes, data) && Relocatable(nodes, u, s, d, top, parent)
    requires NodesOk(RenameTree(nodes, u, s, d, top, parent), data) && n in RenameTree(nodes, u, s, d, top, parent)
    ensures var nd := RenameTree(nodes, u, s, d, top, parent)[n];
            var v' := ViewRename(ViewOf(nodes, data), u, s, d);
            KeyOf(nd) in v' && v'[KeyOf(nd)] == EntryOf(nd, data)
  {
    hide LastSlash, Paths.Dir, BaseName, EntryOf;
    if InSubtree(nodes[n], u, s) {
      SourceOfMoved(nodes, data, u, s, d, n);
      MovedEntry(nodes[n], data, n == top, s, d, parent);
    } else {
      ViewAt(nodes, data, n);
    }
  }

  lemma {:induction false} RenameViewKey(nodes: Nodes, data: Data, u: UserId, s: string, d: string, top: NodeId,
          parent: NodeId, k: Key)
    requires TreeOk(nodes) && NodesOk(nodes, data) && Relocatable(nodes, u, s, d, top, parent)
    requires k in ViewRename(ViewOf(nodes, data), u, s, d)
    ensures k in Keys(RenameTree(nodes, u, s, d, top, parent))
  {
    var v, nodes' := ViewOf(nodes, data), RenameTree(nodes, u, s, d, top, parent);
    if k in MovedKeys(v, u, s, d) {
      var k0 :| k0 in v && KeyUnder(k0, u, s) && k == Key(u, Rebase(k0.path, s, d));
      var n := IdAt(nodes, k0);
      Apart(k0.path, s, d);
      assert n in nodes' && KeyOf(nodes'[n]) == k;
    } else {
      var n := IdAt(nodes, k);
      assert n in nodes' && KeyOf(nodes'[n]) == k;
    }
  }

  lemma {:induction false} RenameView(nodes: Nodes, data: Data, u: UserId, s: string, d: string, top: NodeId,
          parent: NodeId)
    requires TreeOk(nodes) && NodesOk(nodes, data) && Relocatable(nodes, u, s, d, top, parent)
    ensures NodesOk(RenameTree(nodes, u, s, d, top, parent), data)
    ensures ViewOf(RenameTree(nodes, u, s, d, top, parent), data) == ViewRename(ViewOf(nodes, data), u, s, d)
  {
    assert IsPath(d);
    hide ViewOf, ViewRename, Keys, Relocatable, RenameTree, NodesOk, EntryOf;
    var nodes' := RenameTree(nodes, u, s, d, top, parent);
    var v' := ViewRename(ViewOf(nodes, data), u, s, d);
    RenameNodesOk(nodes, data, u, s, d, top, parent);
    RenameOk(nodes, u, s, d, top, parent);
    forall n | n in nodes' ensures KeyOf(nodes'[n]) in v' && v'[KeyOf(nodes'[n])] == EntryOf(nodes'[n], data) {
      RenameViewNode(nodes, data, u, s, d, top, parent, n);
    }
    forall k | k in v' ensures k in Keys(nodes') {
      RenameViewKey(nodes, data, u, s, d, top, parent, k);
    }
    ViewIs(nodes', data, v');
  }

  /** MOVE keeps every node's identity, content and lease; only its place changes. */
  lemma {:induction false} RenameKeepsRows(nodes: Nodes, u: UserId, s: string, d: string, top: NodeId, parent: NodeId)
    requires TreeOk(nodes) && Relocatable(nodes, u, s, d, top, parent)
    ensures var nodes' := RenameTree(nodes, u, s, d, top, parent);
      && (forall n :: n in nodes' ==>
           n in nodes
           && nodes'[n] == nodes[n].(path := nodes'[n].path, name := nodes'[n].name, parent := nodes'[n].parent))
      && (forall n :: n in nodes && InSubtree(nodes[n], u, s) ==>
           (n in nodes' && nodes'[n].path == d + nodes[n].path[|s|..]))
      && (forall n :: n in nodes && !InSubtree(nodes[n], u, s) && !InSubtree(nodes[n], u, d) ==>
           (n in nodes' && nodes'[n] == nodes[n]))
      && (forall n :: n in nodes' ==> !InSubtree(nodes'[n], u, s))
  {
    hide LastSlash, Paths.Dir, BaseName;
    var nodes' := RenameTree(nodes, u, s, d, top, parent);
    forall n | n in nodes && InSubtree(nodes[n], u, s) ensures n in nodes' && !InSubtree(nodes'[n], u, s) {
      Apart(nodes[n].path, s, d);
      RebaseOk(nodes[n].path, s, d);
      Apart(Rebase(nodes[n].path, s, d), s, d);
    }
  }

  // ---- COPY -------------------------------------------------------------------------------------

  /** Stored files share their blobs, buffered files duplicate their log, files still being written copy
      as empty buffered ones, directories are recreated. The copy is never leased. */
  function CopiedNode(nd: Node, top: bool, s: string, d: string, parent: NodeId): Node
    requires AtOrUnder(nd.path, s) && IsPath(d)
  {
    Node(nd.user, Some(parent), if top then BaseName(d) else nd.name, Rebase(nd.path, s, d), nd.isDir, nd.size,
         if nd.isDir || nd.state.Stored? then Stored else Buffered, None, None,
         if nd.state.Buffered? then nd.wal else [], nd.extents)
  }

  ghost function SubtreeIds(nodes: Nodes, u: UserId, p: string): set<NodeId> {
    set n | n in nodes && InSubtree(nodes[n], u, p)
  }

  predicate Injective(m: map<NodeId, NodeId>) {
    forall x, y :: x in m && y in m && m[x] == m[y] ==> x == y
  }

  function CopyParent(nodes: Nodes, m: map<NodeId, NodeId>, x: NodeId, top: NodeId, parent: NodeId): NodeId
    requires x in nodes
  {
    if x == top || nodes[x].parent.None? || nodes[x].parent.value !in m then parent
    else m[nodes[x].parent.value]
  }

  /** nodes' is nodes plus one copy m[x] of every copied node x. */
  ghost predicate CopiedTree(nodes: Nodes, nodes': Nodes, u: UserId, s: string, d: string, top: NodeId, parent: NodeId,
          recursive: bool, m: map<NodeId, NodeId>)
  {
    && IsPath(d)
    && m.Keys == (if recursive then SubtreeIds(nodes, u, s) else {top} * SubtreeIds(nodes, u, s))
    && Injective(m) && m.Values !! nodes.Keys
    && nodes'.Keys == nodes.Keys + m.Values
    && (forall n :: n in nodes ==> nodes'[n] == nodes[n])
    && forall x :: x in m ==>
         (m[x] in m.Values &&
          nodes'[m[x]] == CopiedNode(nodes[x], x == top, s, d, CopyParent(nodes, m, x, top, parent)))
  }

  predicate Free(nodes: Nodes, u: UserId, d: string) {
    forall n :: n in nodes ==> !InSubtree(nodes[n], u, d)
  }

  lemma {:induction false} RelocatableAfterRemove(nodes: Nodes, u: UserId, s: string, d: string, top: NodeId,
          parent: NodeId)
    requires TreeOk(nodes) && Relocatable(nodes, u, s, d, top, parent)
    ensures Relocatable(RemoveTree(nodes, u, d), u, s, d, top, parent) && Free(RemoveTree(nodes, u, d), u, d)
  {
    DestinationParent(s, d);
  }

  lemma {:induction false} CopiedEntry(nd: Node, data: Data, top: bool, s: string, d: string, parent: NodeId)
    requires NodeOk(nd, data) && AtOrUnder(nd.path, s) && IsPath(d)
    ensures NodeOk(CopiedNode(nd, top, s, d, parent), data)
    ensures EntryOf(CopiedNode(nd, top, s, d, parent), data) == EntryOf(nd, data)
  {
    FlattenNil();
    if !nd.isDir && nd.state.Writing? {
      assert Flatten(nd.wal)[..0] == [] == Flatten([])[..0];
    }
  }

  lemma {:induction false} CopiedParent(nodes: Nodes, nodes': Nodes, u: UserId, s: string, d: string, top: NodeId,
          parent: NodeId, recursive: bool, m: map<NodeId, NodeId>, x: NodeId)
    requires TreeOk(nodes) && Relocatable(nodes, u, s, d, top, parent)
    requires CopiedTree(nodes, nodes', u, s, d, top, parent, recursive, m) && x in m
    ensures IsPath(nodes'[m[x]].path) && ParentOk(nodes', nodes'[m[x]])
  {
    hide LastSlash, Paths.Dir, BaseName;
    var nd := nodes[x];
    RebaseOk(nd.path, s, d);
    DestinationParent(s, d);
    if x == top {
      assert Rebase(s, s, d) == d;
    } else {
      assert nd.parent.Some?;
      var p := nodes[nd.parent.value];
      ParentInSubtree(nodes, x, u, s);
      assert nd.parent.value in m;
      RebaseChild(p.path, nd.name, s, d);
    }
  }

  lemma {:induction false} CopyOk(nodes: Nodes, nodes': Nodes, u: UserId, s: string, d: string, top: NodeId,
          parent: NodeId, recursive: bool, m: map<NodeId, NodeId>)
    requires TreeOk(nodes) && Relocatable(nodes, u, s, d, top, parent) && Free(nodes, u, d)
    requires CopiedTree(nodes, nodes', u, s, d, top, parent, recursive, m)
    ensures TreeOk(nodes')
  {
    hide LastSlash, Paths.Dir, BaseName, AtOrUnder, IsPath;
    forall n | n in nodes' ensures IsPath(nodes'[n].path) && ParentOk(nodes', nodes'[n]) {
      if n in m.Values {
        var x :| x in m && m[x] == n;
        CopiedParent(nodes, nodes', u, s, d, top, parent, recursive, m, x);
      } else {
        assert ParentOk(nodes, nodes[n]);
      }
    }
    forall a, b | a in nodes' && b in nodes' && KeyOf(nodes'[a]) == KeyOf(nodes'[b]) ensures a == b {
      CopyUnique(nodes, nodes', u, s, d, top, parent, recursive, m, a, b);
    }
  }

  lemma {:induction false} CopyUnique(nodes: Nodes, nodes': Nodes, u: UserId, s: string, d: string, top: NodeId,
          parent: NodeId, recursive: bool, m: map<NodeId, NodeId>, a: NodeId, b: NodeId)
    requires TreeOk(nodes) && Relocatable(nodes, u, s, d, top, parent) && Free(nodes, u, d)
    requires CopiedTree(nodes, nodes', u, s, d, top, parent, recursive, m)
    requires a in nodes' && b in nodes' && KeyOf(nodes'[a]) == KeyOf(nodes'[b])
    ensures a == b
  {
    hide LastSlash, Paths.Dir, BaseName, IsPath;
    if a in m.Values {
      var x :| x in m && m[x] == a;
      RebaseOk(nodes[x].path, s, d);
      if b in m.Values {
        var y :| y in m && m[y] == b;
        RebaseInjective(nodes[x].path, nodes[y].path, s, d);
      }
    } else if b in m.Values {
      var y :| y in m && m[y] == b;
      RebaseOk(nodes[y].path, s, d);
    }
  }

  lemma {:induction false} CopyNodesOk(nodes: Nodes, nodes': Nodes, data: Data, u: UserId, s: string, d: string,
          top: NodeId, parent: NodeId, recursive: bool, m: map<NodeId, NodeId>)
    requires NodesOk(nodes, data) && CopiedTree(nodes, nodes', u, s, d, top, parent, recursive, m)
    ensures NodesOk(nodes', data)
  {
    forall n | n in nodes' ensures NodeOk(nodes'[n], data) {
      if n in m.Values {
        var x :| x in m && m[x] == n;
        CopiedEntry(nodes[x], data, x == top, s, d, CopyParent(nodes, m, x, top, parent));
      }
    }
  }

  lemma {:induction false} CopyView(nodes: Nodes, nodes': Nodes, data: Data, u: UserId, s: string, d: string,
          top: NodeId, parent: NodeId, recursive: bool, m: map<NodeId, NodeId>)
    requires TreeOk(nodes) && NodesOk(nodes, data) && Relocatable(nodes, u, s, d, top, parent) && Free(nodes, u, d)
    requires CopiedTree(nodes, nodes', u, s, d, top, parent, recursive, m)
    ensures NodesOk(nodes', data)
    ensures ViewOf(nodes', data) == ViewCopy(ViewOf(nodes, data), u, s, d, recursive)
  {
    hide ViewOf, ViewCopy, Keys, Relocatable, Free, CopiedTree, NodesOk, EntryOf;
    var v' := ViewCopy(ViewOf(nodes, data), u, s, d, recursive);
    CopyOk(nodes, nodes', u, s, d, top, parent, recursive, m);
    CopyNodesOk(nodes, nodes', data, u, s, d, top, parent, recursive, m);
    forall n | n in nodes' ensures KeyOf(nodes'[n]) in v' && v'[KeyOf(nodes'[n])] == EntryOf(nodes'[n], data) {
      CopyViewNode(nodes, nodes', data, u, s, d, top, parent, recursive, m, n);
    }
    forall k | k in v' ensures k in Keys(nodes') {
      CopyViewKey(nodes, nodes', data, u, s, d, top, parent, recursive, m, k);
    }
    ViewIs(nodes', data, v');
  }

  lemma {:induction false} CopyViewNode(nodes: Nodes, nodes': Nodes, data: Data, u: UserId, s: string, d: string,
          top: NodeId, parent: NodeId, recursive: bool, m: map<NodeId, NodeId>, n: NodeId)
    requires TreeOk(nodes) && NodesOk(nodes, data) && Relocatable(nodes, u, s, d, top, parent) && Free(nodes, u, d)
    requires CopiedTree(nodes, nodes', u, s, d, top, parent, recursive, m) && NodesOk(nodes', data) && n in nodes'
    ensures var v' := ViewCopy(ViewOf(nodes, data), u, s, d, recursive);
            KeyOf(nodes'[n]) in v' && v'[KeyOf(nodes'[n])] == EntryOf(nodes'[n], data)
  {
    hide ViewOf, ViewCopy, EntryOf;
    if n in m.Values {
      var x :| x in m && m[x] == n;
      CopiedEntry(nodes[x], data, x == top, s, d, CopyParent(nodes, m, x, top, parent));
      CopyViewNew(nodes, data, u, s, d, top, recursive, x);
    } else {
      CopyViewOld(nodes, data, u, s, d, recursive, n);
    }
  }

  lemma {:induction false} CopyViewOld(nodes: Nodes, data: Data, u: UserId, s: string, d: string, recursive: bool,
          n: NodeId)
    requires TreeOk(nodes) && NodesOk(nodes, data) && n in nodes && !InSubtree(nodes[n], u, d)
    ensures var v' := ViewCopy(ViewOf(nodes, data), u, s, d, recursive);
            KeyOf(nodes[n]) in v' && v'[KeyOf(nodes[n])] == EntryOf(nodes[n], data)
  {
    ViewAt(nodes, data, n);
    assert !KeyUnder(KeyOf(nodes[n]), u, d);
  }

  lemma {:induction false} CopyViewNew(nodes: Nodes, data: Data, u: UserId, s: string, d: string, top: NodeId,
          recursive: bool, x: NodeId)
    requires TreeOk(nodes) && NodesOk(nodes, data) && x in nodes && InSubtree(nodes[x], u, s)
    requires IsPath(s) && IsPath(d) && s != "/" && d != "/" && (recursive || nodes[x].path == s)
    ensures var k := Key(u, Rebase(nodes[x].path, s, d));
            var v' := ViewCopy(ViewOf(nodes, data), u, s, d, recursive);
            k in v' && v'[k] == EntryOf(nodes[x], data)
  {
    SourceOfMoved(nodes, data, u, s, d, x);
    ViewAt(nodes, data, x);
    assert KeyOf(nodes[x]) in Sources(ViewOf(nodes, data), u, s, recursive);
  }

  lemma {:induction false} CopyViewKey(nodes: Nodes, nodes': Nodes, data: Data, u: UserId, s: string, d: string,
          top: NodeId, parent: NodeId, recursive: bool, m: map<NodeId, NodeId>, k: Key)
    requires TreeOk(nodes) && NodesOk(nodes, data) && Relocatable(nodes, u, s, d, top, parent)
    requires CopiedTree(nodes, nodes', u, s, d, top, parent, recursive, m)
    requires k in ViewCopy(ViewOf(nodes, data), u, s, d, recursive)
    ensures k in Keys(nodes')
  {
    hide LastSlash, Paths.Dir, BaseName, IsPath, NodeOk, EntryOf;
    var v := ViewOf(nodes, data);
    if k in MovedKeys(Sources(v, u, s, recursive), u, s, d) {
      var k0 :| k0 in Sources(v, u, s, recursive) && KeyUnder(k0, u, s) && k == Key(u, Rebase(k0.path, s, d));
      var x := IdAt(nodes, k0);
      assert x in m;
      assert KeyOf(nodes'[m[x]]) == k;
    } else {
      var n := IdAt(nodes, k);
      assert n in nodes' && KeyOf(nodes'[n]) == k;
    }
  }
}
