/** The write-ahead log of one file: its content cut into fixed-size chunks, and windowed reads over them. */
module Wal {
  import opened Base

  const CHUNK: nat := 0x10_0000

  /** Every chunk is full except possibly the last, and none is empty. */
  predicate Disciplined(chunks: seq<Bytes>) {
    forall i :: 0 <= i < |chunks| ==>
      0 < |chunks[i]| <= CHUNK && (i < |chunks| - 1 ==> |chunks[i]| == CHUNK)
  }

  predicate AllFull(chunks: seq<Bytes>) {
    forall i :: 0 <= i < |chunks| ==> |chunks[i]| == CHUNK
  }

  lemma {:induction false} FlattenNil()
    ensures Flatten([]) == []
  {
  }

  lemma {:induction false} FlattenOne(c: Bytes)
    ensures Flatten([c]) == c
  {
    assert [c][..0] == [];
  }

  lemma {:induction false} FullLength(chunks: seq<Bytes>)
    requires AllFull(chunks)
    ensures |Flatten(chunks)| == |chunks| * CHUNK
  {
    if chunks != [] {
      FullLength(chunks[..|chunks| - 1]);
    }
  }

  /** A chunk's number determines its byte offset, and a disciplined list its chunk count. */
  lemma {:induction false} PrefixLength(chunks: seq<Bytes>, k: nat)
    requires Disciplined(chunks) && k < |chunks|
    ensures |Flatten(chunks[..k])| == k * CHUNK
    ensures Flatten(chunks) == Flatten(chunks[..k]) + Flatten(chunks[k..])
  {
    FullLength(chunks[..k]);
    FlattenConcat(chunks[..k], chunks[k..]);
    assert chunks[..k] + chunks[k..] == chunks;
  }

  lemma {:induction false} TotalLength(chunks: seq<Bytes>)
    requires Disciplined(chunks)
    ensures |Flatten(chunks)| <= |chunks| * CHUNK
    ensures chunks != [] ==> |Flatten(chunks)| > (|chunks| - 1) * CHUNK
  {
    if chunks != [] {
      PrefixLength(chunks, |chunks| - 1);
      assert Flatten(chunks) == Flatten(chunks[..|chunks| - 1]) + chunks[|chunks| - 1];
    }
  }

  // ---- the windowed read ------------------------------------------------------------------------

  /** The rows with first <= seq <= last, in seq order. */
  function Rows(chunks: seq<Bytes>, first: nat, last: nat): seq<Bytes> {
    if first >= |chunks| || last < first then []
    else chunks[first..Min(last + 1, |chunks|)]
  }

  /** The part of the assembled window that was asked for. */
  function Cut(assembled: Bytes, from: nat, to: int): Bytes {
    var to := Min(to, |assembled|);
    if from >= to then [] else assembled[from..to]
  }

  function ReadRange(chunks: seq<Bytes>, offset: int, length: int): Bytes {
    if length <= 0 || offset < 0 then []
    else
      var end := offset + length;
      var base := offset / CHUNK * CHUNK;
      Cut(Flatten(Rows(chunks, offset / CHUNK, (end - 1) / CHUNK)), offset - base, end - base)
  }

  /** What a windowed read of content should give. */
  function Slice(content: Bytes, offset: int, length: int): Bytes {
    if length <= 0 || offset < 0 || offset >= |content| then []
    else content[offset..Min(offset + length, |content|)]
  }

  lemma {:induction false} RowsAt(chunks: seq<Bytes>, first: nat, last: nat)
    requires Disciplined(chunks) && first <= last && first < |chunks|
    ensures var rows := Flatten(Rows(chunks, first, last)); var all := Flatten(chunks);
            && |rows| == Min((last + 1) * CHUNK, |all|) - first * CHUNK
            && rows == all[first * CHUNK..first * CHUNK + |rows|]
  {
    hide Flatten, Disciplined;
    var hi := Min(last + 1, |chunks|);
    var all := Flatten(chunks);
    PrefixLength(chunks, first);
    TotalLength(chunks);
    if hi < |chunks| {
      PrefixLength(chunks, hi);
      FlattenConcat(chunks[..first], chunks[first..hi]);
      assert chunks[..first] + chunks[first..hi] == chunks[..hi];
    } else {
      assert chunks[first..hi] == chunks[first..];
    }
  }

  lemma {:induction false} CutOfWindow(all: Bytes, assembled: Bytes, base: nat, hi: nat, offset: nat, length: nat)
    requires base <= offset && 0 < length && offset + length <= hi
    requires base <= |all| && base + |assembled| == Min(hi, |all|)
    requires assembled == all[base..base + |assembled|]
    ensures Cut(assembled, offset - base, offset + length - base) == Slice(all, offset, length)
  {
    if offset < |all| {
      var to := Min(offset + length - base, |assembled|);
      SliceOfSlice(all, base, base + |assembled|, offset - base, to);
    }
  }

  lemma {:induction false} CutNil(from: nat, to: int)
    ensures Cut([], from, to) == []
  {
  }

  lemma {:induction false} WindowIsSlice(chunks: seq<Bytes>, first: nat, last: nat, offset: nat, length: nat)
    requires Disciplined(chunks)
    requires first * CHUNK <= offset < (first + 1) * CHUNK
    requires last * CHUNK < offset + length <= (last + 1) * CHUNK && first <= last && 0 < length
    ensures Cut(Flatten(Rows(chunks, first, last)), offset - first * CHUNK, offset + length - first * CHUNK)
         == Slice(Flatten(chunks), offset, length)
  {
    hide Flatten, Disciplined, Cut;
    TotalLength(chunks);
    if first >= |chunks| {
      FlattenNil();
      CutNil(offset - first * CHUNK, offset + length - first * CHUNK);
    }
    if first < |chunks| {
      RowsAt(chunks, first, last);
      PrefixLength(chunks, first);
      CutOfWindow(Flatten(chunks), Flatten(Rows(chunks, first, last)), first * CHUNK, (last + 1) * CHUNK,
                  offset, length);
    }
  }

  lemma {:induction false} DivBounds(x: nat)
    ensures x / CHUNK * CHUNK <= x < (x / CHUNK + 1) * CHUNK
  {
  }

  /** Reading only the chunks the window touches equals slicing the whole content. */
  lemma {:induction false} ReadRangeIsSlice(chunks: seq<Bytes>, offset: int, length: int)
    requires Disciplined(chunks)
    ensures ReadRange(chunks, offset, length) == Slice(Flatten(chunks), offset, length)
  {
    hide Flatten, Rows, Cut, Disciplined;
    if length > 0 && offset >= 0 {
      DivBounds(offset);
      DivBounds(offset + length - 1);
      WindowIsSlice(chunks, offset / CHUNK, (offset + length - 1) / CHUNK, offset, length);
    }
  }

  method ReadRangeLoop(chunks: seq<Bytes>, offset: int, length: int) returns (out: Bytes)
    ensures out == ReadRange(chunks, offset, length)
  {
    hide Flatten;
    if length <= 0 || offset < 0 {
      return [];
    }
    var end := offset + length;
    var firstSeq, lastSeq := offset / CHUNK, (end - 1) / CHUNK;
    var base := firstSeq * CHUNK;
    var rows := Rows(chunks, firstSeq, lastSeq);
    var assembled := Assembled(rows);
    var from, to := offset - base, end - base;
    if to > |assembled| {
      to := |assembled|;
    }
    if from >= to {
      return [];
    }
    out := assembled[from..to];
  }

  method Assembled(rows: seq<Bytes>) returns (assembled: Bytes)
    ensures assembled == Flatten(rows)
  {
    assembled := [];
    for i := 0 to |rows|
      invariant assembled == Flatten(rows[..i])
    {
      FlattenSnoc(rows[..i], rows[i]);
      assert rows[..i + 1] == rows[..i] + [rows[i]];
      assembled := assembled + rows[i];
    }
    assert rows[..|rows|] == rows;
  }

  // ---- re-chunking a buffered file for COPY -----------------------------------------------------

  /** The window of chunk k, or what is left of the content, is chunk k. */
  lemma {:induction false} ChunkAt(chunks: seq<Bytes>, k: nat)
    requires Disciplined(chunks) && k < |chunks|
    ensures k * CHUNK < |Flatten(chunks)|
    ensures chunks[k] == Flatten(chunks)[k * CHUNK..Min(k * CHUNK + CHUNK, |Flatten(chunks)|)]
  {
    hide Flatten, Disciplined;
    RowsAt(chunks, k, k);
    TotalLength(chunks);
    FlattenOne(chunks[k]);
    assert Rows(chunks, k, k) == [chunks[k]];
  }

  lemma {:induction false} NextChunk(chunks: seq<Bytes>, k: nat, n: int)
    requires Disciplined(chunks) && k < |chunks|
    requires n == Min(CHUNK, |Flatten(chunks)| - k * CHUNK)
    ensures |Flatten(chunks[..k])| == k * CHUNK && ReadRange(chunks, k * CHUNK, n) == chunks[k] != []
    ensures Flatten(chunks[..k + 1]) == Flatten(chunks[..k]) + chunks[k]
  {
    hide Flatten, ReadRange;
    PrefixLength(chunks, k);
    ChunkAt(chunks, k);
    ReadRangeIsSlice(chunks, k * CHUNK, n);
    FlattenSnoc(chunks[..k], chunks[k]);
    assert chunks[..k + 1] == chunks[..k] + [chunks[k]];
  }

  lemma {:induction false} ReadNothing(offset: int, length: int)
    ensures ReadRange([], offset, length) == []
  {
  }

  /** The loop COPY runs over a buffered source (size is the whole content), over a source still being written
      (size is 0) or over one whose log is gone: chunk by chunk it reproduces the source's rows. */
  method CopyChunks(chunks: seq<Bytes>, size: nat) returns (copied: seq<Bytes>)
    requires Disciplined(chunks) && (size == 0 || chunks == [] || size == |Flatten(chunks)|)
    ensures copied == if size == 0 then [] else chunks
  {
    hide Flatten, ReadRange, Disciplined;
    var off := 0;
    copied := [];
    FlattenNil();
    while off < size
      invariant |copied| <= |chunks| && copied == chunks[..|copied|]
      invariant off == |Flatten(copied)|
      invariant size == 0 ==> copied == []
      decreases size - off
    {
      var n := CHUNK;
      if off + n > size {
        n := size - off;
      }
      ghost var k := |copied|;
      if chunks != [] {
        assert k < |chunks| by { assert chunks[..|chunks|] == chunks; }
        PrefixLength(chunks, k);
        NextChunk(chunks, k, n);
      } else {
        ReadNothing(off, n);
      }
      var data := ReadRangeLoop(chunks, off, n);
      if data == [] {
        break;
      }
      copied := copied + [data];
      off := off + |data|;
    }
    if size > 0 && |copied| < |chunks| {
      PrefixLength(chunks, |copied|);
      ChunkAt(chunks, |copied|);
      assert false;
    }
    assert chunks[..|chunks|] == chunks;
  }

  /** The content determines the chunks, however the writer cut its calls. */
  lemma {:induction false} ChunksAreUnique(a: seq<Bytes>, b: seq<Bytes>)
    requires Disciplined(a) && Disciplined(b) && Flatten(a) == Flatten(b)
    ensures a == b
  {
    hide Flatten, Disciplined;
    TotalLength(a);
    TotalLength(b);
    assert |a| == |b|;
    forall k | 0 <= k < |a| ensures a[k] == b[k] {
      ChunkAt(a, k);
      ChunkAt(b, k);
    }
  }

  lemma {:induction false} LastChunk(full: seq<Bytes>, last: Bytes)
    requires AllFull(full) && last != []
    ensures Disciplined(full + [last]) <==> |last| <= CHUNK
    ensures Flatten(full + [last]) == Flatten(full) + last && |Flatten(full)| == |full| * CHUNK
  {
    var all := full + [last];
    FlattenSnoc(full, last);
    FullLength(full);
    assert all[|full|] == last;
  }

  /** Full chunks followed by one last chunk read back right at every offset exactly when that chunk is not
      oversized. A Write whose flush failed, followed by Close, can leave an oversized one. */
  lemma {:induction false} ReadsBack(full: seq<Bytes>, last: Bytes)
    requires AllFull(full) && last != []
    ensures (forall o: int, n: int :: ReadRange(full + [last], o, n) == Slice(Flatten(full + [last]), o, n))
            <==> |last| <= CHUNK
  {
    hide ReadRange, Slice, Flatten;
    LastChunk(full, last);
    if |last| <= CHUNK {
      forall o: int, n: int ensures ReadRange(full + [last], o, n) == Slice(Flatten(full + [last]), o, n) {
        ReadRangeIsSlice(full + [last], o, n);
      }
    } else {
      OversizeUnread(full, last);
    }
  }

  lemma {:induction false} OversizeUnread(full: seq<Bytes>, last: Bytes)
    requires AllFull(full) && |last| > CHUNK
    ensures var o := (|full| + 1) * CHUNK;
            ReadRange(full + [last], o, 1) == [] && Slice(Flatten(full + [last]), o, 1) != []
  {
    LastChunk(full, last);
    var o := (|full| + 1) * CHUNK;
    assert o / CHUNK == |full| + 1;
    FlattenNil();
  }
}
