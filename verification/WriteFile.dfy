/** The handle of an open PUT: Write cuts the stream into chunks, Close flushes the rest and commits. Insert
    errors are part of the model: each call is told how many of its inserts the database still accepts. */
module WriteFile {
  import opened Base
  import opened Wal
  import opened Tables
  import opened Tree
  import opened Quota
  import Fs = FileSystem

  class WriteFile {
    const fs: Fs.FileSystem
    const n: NodeId
    const u: UserId
    const quota: int
    var buf: Bytes
    var seqNo: nat
    var size: nat
    var closed: bool
    /** Every byte handed to Write so far, accepted or not. */
    ghost var written: Bytes

    /** While the handle is open and its row exists, the row's log and the buffer are what was written. A deleted
        row only makes the next insert fail. */
    ghost predicate Valid()
      reads this, fs
    {
      && size == |written|
      && (!closed && n in fs.nodes ==>
           var nd := fs.nodes[n];
           && nd.user == u && !nd.isDir && nd.state.Writing? && nd.size == 0
           && AllFull(nd.wal) && |nd.wal| == seqNo && Flatten(nd.wal) + buf == written)
    }

    constructor (fs: Fs.FileSystem, n: NodeId, u: UserId, quota: int)
      requires n in fs.nodes ==>
        fs.nodes[n].user == u && !fs.nodes[n].isDir && fs.nodes[n].state.Writing? && fs.nodes[n].size == 0 &&
        fs.nodes[n].wal == []
      ensures Valid() && !closed && written == [] && buf == []
      ensures this.fs == fs && this.n == n && this.u == u && this.quota == quota
    {
      this.fs, this.n, this.u, this.quota := fs, n, u, quota;
      buf, seqNo, size, closed, written := [], 0, 0, false, [];
    }

    method FlushChunk(chunk: Bytes, accepted: bool) returns (ok: bool)
      requires n in fs.nodes ==> seqNo == |fs.nodes[n].wal|
      modifies this`seqNo, fs`nodes
      ensures ok <==> accepted && n in old(fs.nodes)
      ensures seqNo == if ok then old(seqNo) + 1 else old(seqNo)
      ensures fs.nodes == if ok then old(fs.nodes)[n := old(fs.nodes)[n].(wal := old(fs.nodes)[n].wal + [chunk])]
                          else old(fs.nodes)
    {
      if !accepted {
        return false;
      }
      ok := fs.AppendChunk(n, seqNo, chunk);
      if ok {
        seqNo := seqNo + 1;
      }
    }

    /** A successful Write leaves less than a chunk in the buffer. A failed one keeps what it was given: the log
        and the buffer are still exactly the bytes written. Only the row's log grows, and only by full chunks. */
    method Write(p: Bytes, budget: nat) returns (ok: bool)
      requires Valid()
      modifies this`buf, this`seqNo, this`size, this`written, fs`nodes
      ensures Valid()
      ensures old(closed) ==> !ok && buf == old(buf) && written == old(written) && fs.nodes == old(fs.nodes)
      ensures !old(closed) ==> written == old(written) + p
      ensures ok ==> |buf| < CHUNK
      ensures !closed && n in fs.nodes ==> (ok <==> (|old(buf)| + |p|) / CHUNK <= budget)
      ensures if !old(closed) && n in old(fs.nodes) then GrownLog(old(fs.nodes), fs.nodes, n)
          else fs.nodes == old(fs.nodes)
      ensures forall x :: x in old(fs.nodes) && x != n ==> x in fs.nodes && fs.nodes[x] == old(fs.nodes)[x]
      ensures !closed && n in old(fs.nodes) ==>
        forall i :: |old(fs.nodes)[n].wal| <= i < |fs.nodes[n].wal| ==> |fs.nodes[n].wal[i]| == 1_048_576
      ensures !closed && n in old(fs.nodes) ==>
        |fs.nodes[n].wal| == |old(fs.nodes)[n].wal| + Min(budget, (|old(buf)| + |p|) / CHUNK)
    {
      hide Flatten;
      if closed {
        return false;
      }
      size := size + |p|;
      buf := buf + p;
      written := written + p;
      assert n in fs.nodes ==> Flatten(fs.nodes[n].wal) + buf == written;
      ok := FlushFull(budget);
    }

    /** The loop of Write. */
    method FlushFull(budget: nat) returns (ok: bool)
      requires Valid() && !closed
      modifies this`buf, this`seqNo, fs`nodes
      ensures Valid()
      ensures ok ==> |buf| < CHUNK
      ensures n in fs.nodes ==> (ok <==> |old(buf)| / CHUNK <= budget)
      ensures if n in old(fs.nodes) then GrownLog(old(fs.nodes), fs.nodes, n) else fs.nodes == old(fs.nodes)
      ensures n in old(fs.nodes) ==> |fs.nodes[n].wal| == |old(fs.nodes)[n].wal| + Min(budget, |old(buf)| / CHUNK)
    {
      hide Flatten;
      var left: nat := budget;
      if n in fs.nodes {
        GrownSame(fs.nodes, n);
      }
      ghost var total, flushed := |buf|, 0;
      while |buf| >= CHUNK
        invariant Valid()
        invariant |buf| + flushed * CHUNK == total && left + flushed == budget
        invariant if n in old(fs.nodes) then GrownLog(old(fs.nodes), fs.nodes, n) else fs.nodes == old(fs.nodes)
        invariant n in old(fs.nodes) ==> |fs.nodes[n].wal| == |old(fs.nodes)[n].wal| + flushed
        decreases |buf|
      {
        var chunk := buf[..CHUNK];
        ghost var before := fs.nodes;
        var done := FlushChunk(chunk, left > 0);
        if !done {
          Enough(total, |buf|, flushed);
          return false;
        }
        LogGrows(old(fs.nodes), before, n, chunk, buf);
        buf := buf[CHUNK..];
        left := left - 1;
        flushed := flushed + 1;
      }
      Enough(total, |buf|, flushed);
      ok := true;
    }

    lemma {:induction false} Enough(total: nat, rest: nat, flushed: nat)
      requires rest + flushed * CHUNK == total
      ensures rest < CHUNK ==> total / CHUNK == flushed
      ensures rest >= CHUNK ==> total / CHUNK > flushed
    {
    }

    /** The insert of the last, possibly short, chunk. */
    method FlushRest(accepted: bool) returns (ok: bool)
      requires Valid() && !closed && TreeOk(fs.nodes)
      modifies this`buf, this`seqNo, fs`nodes
      ensures ok <==> old(buf) == [] || (accepted && n in old(fs.nodes))
      ensures fs.nodes == if ok && n in old(fs.nodes) then old(fs.nodes)[n := Flushed(old(fs.nodes)[n], old(buf))]
                          else old(fs.nodes)
      ensures TreeOk(fs.nodes) && Usage(fs.nodes, u) == Usage(old(fs.nodes), u)
      ensures old(fs.Valid()) && |old(buf)| <= CHUNK ==> fs.Valid()
    {
      hide Flatten, TreeOk, Usage, NodesOk, RefsOk, AllFull;
      if n in fs.nodes {
        FlushUsage(fs.nodes, n, Flushed(fs.nodes[n], buf), u);
        if fs.Valid() && 0 < |buf| <= CHUNK {
          FlushValid(fs.nodes, fs.blobs, fs.data, n, buf);
        }
        assert fs.nodes == fs.nodes[n := fs.nodes[n]];
      }
      if buf == [] {
        return true;
      }
      ok := FlushChunk(buf, accepted);
      if ok {
        buf := [];
      }
    }

    /** Close. On success the row holds exactly the bytes written, cut into full chunks and a last one; they are
        read back exactly when that last one is not oversized, which every successful Write guarantees. A failed last
        insert leaves the half-written row as it was; a failed commit deletes it. */
    method Close(accepted: bool) returns (st: Fs.Status)
      requires Valid() && TreeOk(fs.nodes)
      modifies this`buf, this`seqNo, this`closed, fs`nodes
      ensures closed && TreeOk(fs.nodes)
      ensures old(closed) ==> st.Done? && fs.nodes == old(fs.nodes)
      ensures !old(closed) ==> st.Done? == (n in old(fs.nodes) && (old(buf) == [] || accepted)
                                           && !(quota > 0 && Usage(old(fs.nodes), u) + |written| > quota))
      ensures !old(closed) && st.Done? ==> IsStored(old(fs.nodes), fs.nodes, n, old(buf), written)
      ensures !old(closed) && st.Done? ==>
        n in fs.nodes && fs.nodes[n].state.Buffered? && fs.nodes[n].size == |written|
          && Flatten(fs.nodes[n].wal) == written
        && fs.nodes == old(fs.nodes)[n := fs.nodes[n]] && KeyOf(fs.nodes[n]) == KeyOf(old(fs.nodes)[n])
      ensures !old(closed) && n in old(fs.nodes) && (old(buf) == [] || accepted) &&
              (forall x :: x in old(fs.nodes) && old(fs.nodes)[x].user == u ==>
                 old(fs.nodes)[x].isDir || old(fs.nodes)[x].size == 0) ==>
        (st.Done? <==> !(quota > 0 && |written| > quota))
      ensures !old(closed) && st.Done? && quota > 0 ==> Usage(fs.nodes, u) <= quota
      ensures !old(closed) && !st.Done? ==>
        fs.nodes == if old(buf) == [] || (accepted && n in old(fs.nodes)) then old(fs.nodes) - {n} else old(fs.nodes)
      ensures old(fs.Valid()) && |old(buf)| <= CHUNK ==> fs.Valid()
    {
      if forall x :: x in fs.nodes && fs.nodes[x].user == u ==> fs.nodes[x].isDir || fs.nodes[x].size == 0 {
        UsageNone(fs.nodes, u);
      }
      StoredMeans(fs.nodes, n, buf, written);
      hide TreeOk, Usage, IsStored, NodesOk, RefsOk, Flatten;
      if !closed {
        st := Finish(accepted);
      } else {
        st := Fs.Done;
      }
    }

    method Finish(accepted: bool) returns (st: Fs.Status)
      requires Valid() && TreeOk(fs.nodes) && !closed
      modifies this`buf, this`seqNo, this`closed, fs`nodes
      ensures closed && TreeOk(fs.nodes)
      ensures st.Done? == (n in old(fs.nodes) && (old(buf) == [] || accepted)
                           && !(quota > 0 && Usage(old(fs.nodes), u) + |written| > quota))
      ensures st.Done? ==> IsStored(old(fs.nodes), fs.nodes, n, old(buf), written)
      ensures st.Done? && quota > 0 ==> Usage(fs.nodes, u) <= quota
      ensures !st.Done? ==>
        fs.nodes == if old(buf) == [] || (accepted && n in old(fs.nodes)) then old(fs.nodes) - {n} else old(fs.nodes)
      ensures old(fs.Valid()) && |old(buf)| <= CHUNK ==> fs.Valid()
    {
      ghost var before := fs.nodes;
      if n in before {
        StoredIs(before, n, buf, written);
        FlushedRow(before[n], buf, u);
      }
      hide Flatten, TreeOk, Usage, NodesOk, RefsOk, Disciplined, AllFull, IsStored, Flushed, Finished;
      var ok := FlushRest(accepted);
      closed := true;
      if !ok {
        return Fs.Failed;
      }
      st := fs.Commit(u, n, size, quota);
      if !st.Done? && n in before {
        DroppedRow(before, n, Flushed(before[n], old(buf)));
      }
    }
  }

  lemma {:induction false} DroppedRow(nodes: Nodes, n: NodeId, nd: Node)
    ensures nodes[n := nd] - {n} == nodes - {n}
  {
  }

  lemma {:induction false} OnlyChunk(p: Bytes)
    requires |p| > CHUNK
    ensures Flatten([p]) == p && !Disciplined([p])
    ensures ReadRange([p], CHUNK, 1) == [] && Slice(Flatten([p]), CHUNK, 1) == [p[CHUNK]]
  {
    FlattenOne(p);
    OversizeUnread([], p);
    assert [] + [p] == [p];
  }

  lemma {:induction false} Chunks(size: nat)
    requires size > CHUNK
    ensures size / CHUNK > 0
  {
  }

  /** A concrete PUT of more than a chunk: the first insert fails, the client closes all the same, and the file that
      Close reports as stored has one oversized chunk: a read past the first mebibyte finds nothing. */
  method OversizedPut(fs: Fs.FileSystem, n: NodeId, p: Bytes) returns (wrote: bool, st: Fs.Status)
    requires TreeOk(fs.nodes) && n in fs.nodes && !fs.nodes[n].isDir && fs.nodes[n].state.Writing?
    requires fs.nodes[n].size == 0 && fs.nodes[n].wal == [] && |p| > CHUNK
    modifies fs`nodes
    ensures !wrote && st.Done? && n in fs.nodes && fs.nodes[n].state.Buffered?
    ensures fs.nodes[n].wal == [p] && fs.nodes[n].size == |p| && !Disciplined(fs.nodes[n].wal)
    ensures ReadRange(fs.nodes[n].wal, CHUNK, 1) == [] && Slice(Flatten(fs.nodes[n].wal), CHUNK, 1) == [p[CHUNK]]
  {
    hide TreeOk, Usage, ReadRange;
    var file := new WriteFile(fs, n, fs.nodes[n].user, 0);
    Chunks(|p|);
    wrote := file.Write(p, 0);
    FlattenNil();
    assert fs.nodes[n].wal == [];
    assert [] + file.buf == file.buf == p;
    assert fs.nodes == old(fs.nodes);
    st := file.Close(true);
    OnlyChunk(p);
  }

  /** The row became a buffered file holding exactly the bytes written. */
  ghost predicate IsStored(before: Nodes, after: Nodes, n: NodeId, buf: Bytes, written: Bytes) {
    && n in before && n in after && after == before[n := Finished(before[n], buf, |written|)]
    && Flatten(after[n].wal) == written
    && (Disciplined(after[n].wal) <==> |buf| <= CHUNK)
  }

  lemma {:induction false} StoredMeans(before: Nodes, n: NodeId, buf: Bytes, written: Bytes)
    ensures forall after: Nodes :: IsStored(before, after, n, buf, written) ==>
      && n in before && n in after && after[n].state.Buffered? && after[n].size == |written|
      && Flatten(after[n].wal) == written && after == before[n := after[n]] && KeyOf(after[n]) == KeyOf(before[n])
  {
    hide Flatten, Disciplined;
  }

  lemma {:induction false} StoredIs(before: Nodes, n: NodeId, buf: Bytes, written: Bytes)
    requires n in before && AllFull(before[n].wal) && Flatten(before[n].wal) + buf == written
    ensures Flatten(Flushed(before[n], buf).wal) == written
    ensures before[n := Flushed(before[n], buf)][n := Flushed(before[n], buf).(state := Buffered, size := |written|)]
         == before[n := Finished(before[n], buf, |written|)]
    ensures IsStored(before, before[n := Finished(before[n], buf, |written|)], n, buf, written)
  {
    hide Flatten, Disciplined;
    FinishedRow(before[n], buf);
  }

  ghost predicate GrownLog(before: Nodes, after: Nodes, n: NodeId) {
    && n in before && n in after && before[n].wal <= after[n].wal && AllFull(after[n].wal)
    && after == before[n := before[n].(wal := after[n].wal)]
  }

  lemma {:induction false} GrownSame(nodes: Nodes, n: NodeId)
    requires n in nodes && AllFull(nodes[n].wal)
    ensures GrownLog(nodes, nodes, n)
  {
    assert nodes == nodes[n := nodes[n]];
  }

  /** One more full chunk moves from the buffer to the log. */
  lemma {:induction false} LogGrows(start: Nodes, before: Nodes, n: NodeId, chunk: Bytes, buf: Bytes)
    requires n in before && GrownLog(start, before, n) && |buf| >= CHUNK && chunk == buf[..CHUNK]
    ensures var wal := before[n].wal + [chunk];
      && GrownLog(start, before[n := before[n].(wal := wal)], n)
      && Flatten(wal) + buf[CHUNK..] == Flatten(before[n].wal) + buf
  {
    hide Flatten;
    FlattenSnoc(before[n].wal, chunk);
    assert chunk + buf[CHUNK..] == buf;
  }

  function Flushed(nd: Node, buf: Bytes): Node {
    if buf == [] then nd else nd.(wal := nd.wal + [buf])
  }

  /** The row Close leaves. */
  function Finished(nd: Node, buf: Bytes, size: nat): Node {
    Flushed(nd, buf).(state := Buffered, size := size)
  }

  lemma {:induction false} FlushedRow(nd: Node, buf: Bytes, u: UserId)
    requires nd.user == u && !nd.isDir && nd.state.Writing? && nd.size == 0
    ensures var f := Flushed(nd, buf); f.user == u && !f.isDir && f.state.Writing? && f.size == 0
  {
  }

  lemma {:induction false} FinishedRow(nd: Node, buf: Bytes)
    requires AllFull(nd.wal)
    ensures Flatten(Flushed(nd, buf).wal) == Flatten(nd.wal) + buf
    ensures Disciplined(Flushed(nd, buf).wal) <==> |buf| <= CHUNK
  {
    if buf != [] {
      LastChunk(nd.wal, buf);
    }
  }

  lemma {:induction false} FlushUsage(nodes: Nodes, n: NodeId, nd: Node, u: UserId)
    requires TreeOk(nodes) && n in nodes && nd == nodes[n].(wal := nd.wal)
    ensures TreeOk(nodes[n := nd]) && Usage(nodes[n := nd], u) == Usage(nodes, u)
  {
    hide TreeOk, Total;
    RewriteTree(nodes, n, nd);
    assert Sizes(nodes[n := nd], u) == Sizes(nodes, u);
  }

  lemma {:induction false} FlushValid(nodes: Nodes, blobs: Blobs, data: Data, n: NodeId, buf: Bytes)
    requires NodesOk(nodes, data) && RefsOk(nodes, blobs)
    requires n in nodes && !nodes[n].isDir && nodes[n].state.Writing? && AllFull(nodes[n].wal) && 0 < |buf| <= CHUNK
    ensures var after := nodes[n := nodes[n].(wal := nodes[n].wal + [buf])];
      NodesOk(after, data) && RefsOk(after, blobs)
  {
    var after := nodes[n := nodes[n].(wal := nodes[n].wal + [buf])];
    assert NodeOk(nodes[n], data) && NodeOk(after[n], data);
    hide Refs;
    forall b ensures Refs(after, b) == Refs(nodes, b) {
      RefsSame(nodes, after, b);
    }
  }
}
