/** The reading side: a buffered file streamed from its log, a stored file streamed from the blobs its extents
    name, the seekable handle over both, and the read-ahead plan. */
module Readers {
  import opened Base
  import opened Wal
  import opened Extents
  import opened Tables

  const READ_BLOCK: nat := 0x4_0000

  /** Go's copy: as much of from as fits into p. */
  method CopyInto(p: array<byte>, from: Bytes) returns (k: nat)
    modifies p
    ensures k == Min(p.Length, |from|) && p[..k] == from[..k] && p[k..] == old(p[k..])
  {
    k := if p.Length <= |from| then p.Length else |from|;
    forall i | 0 <= i < k {
      p[i] := from[i];
    }
    assert forall i :: 0 <= i < k ==> p[..k][i] == from[..k][i];
  }

  // ---- buffered files -----------------------------------------------------------------------------

  class WalReader {
    /** The node's rows in the log, as they are now: none once the file is stored, truncated or deleted. */
    var chunks: seq<Bytes>
    const size: nat
    var pos: nat
    var buf: Bytes

    ghost predicate Valid()
      reads this
    {
      && Disciplined(chunks) && (size == 0 || chunks == [] || size == |Flatten(chunks)|)
      && (size < pos ==> buf == [])
    }

    /** What the reader has still to deliver. */
    ghost function Remaining(): Bytes
      requires Valid()
      reads this
    {
      buf + Unread(chunks, size, pos)
    }

    constructor (chunks: seq<Bytes>, size: nat, start: nat)
      requires Disciplined(chunks) && (size == 0 || size == |Flatten(chunks)|)
      ensures Valid() && this.chunks == chunks && this.size == size
      ensures Remaining() == if size == 0 || start >= size then [] else Flatten(chunks)[start..]
    {
      this.chunks, this.size := chunks, size;
      pos, buf := start, [];
      new;
      UnreadIs(chunks, size, start);
    }

    /** The rows vanish under the reader. It keeps what it has buffered and nothing else: the rest of the file is lost
        to this handle, unless the reader had asked for all of it already. */
    method RowsGone()
      requires Valid()
      modifies this`chunks
      ensures Valid() && chunks == [] && Remaining() == old(buf)
      ensures old(chunks) != [] && size > 0 ==> (old(Remaining()) == old(buf) <==> old(pos) >= size)
    {
      hide Flatten, Disciplined;
      UnreadIs(chunks, size, pos);
      UnreadIs([], size, pos);
      ghost var before := Remaining();
      assert before == buf <==> Unread(chunks, size, pos) == [] by { PlusNothing(buf, Unread(chunks, size, pos)); }
      chunks := [];
      assert Disciplined([]) by { NoRows(); }
    }

    /** Delivers the next bytes in order, at least one unless p is empty, and EOF exactly at the end. */
    method Read(p: array<byte>) returns (k: nat, eof: bool)
      requires Valid()
      modifies this, p
      ensures Valid() && k <= p.Length
      ensures p[..k] + Remaining() == old(Remaining()) && p[k..] == old(p[k..])
      ensures eof <==> old(Remaining()) == []
      ensures eof ==> k == 0
      ensures !eof && p.Length > 0 ==> k > 0
    {
      hide Flatten, ReadRange, Disciplined, Unread;
      if buf == [] {
        if pos >= size {
          NothingUnread(chunks, size, pos);
          return 0, true;
        }
        var n := READ_BLOCK;
        if pos + n > size {
          n := size - pos;
        }
        NextUnread(chunks, size, pos, n);
        var data := ReadRangeLoop(chunks, pos, n);
        if data == [] {
          return 0, true;
        }
        buf := data;
        pos := pos + |data|;
      }
      eof := false;
      assert buf == buf[..Min(p.Length, |buf|)] + buf[Min(p.Length, |buf|)..];
      k := CopyInto(p, buf);
      buf := buf[k..];
    }
  }

  /** What the log still holds for a reader at pos. */
  function Unread(chunks: seq<Bytes>, size: nat, pos: nat): Bytes {
    if size == 0 || pos >= size || pos >= |Flatten(chunks)| then [] else Flatten(chunks)[pos..]
  }

  lemma {:induction false} UnreadIs(chunks: seq<Bytes>, size: nat, pos: nat)
    ensures chunks == [] ==> Unread(chunks, size, pos) == [] && Flatten(chunks) == []
    ensures size == |Flatten(chunks)| && size > 0 ==>
      Unread(chunks, size, pos) == if pos >= size then [] else Flatten(chunks)[pos..]
    ensures size == 0 ==> Unread(chunks, size, pos) == []
  {
    FlattenNil();
  }

  lemma {:induction false} NothingUnread(chunks: seq<Bytes>, size: nat, pos: nat)
    requires pos >= size
    ensures Unread(chunks, size, pos) == []
  {
  }

  /** The next read takes the next bytes of what the log still holds, and nothing exactly when it holds nothing. */
  lemma {:induction false} NextUnread(chunks: seq<Bytes>, size: nat, pos: nat, n: nat)
    requires Disciplined(chunks) && (chunks == [] || size == |Flatten(chunks)|) && pos + n <= size && n > 0
    ensures var data := ReadRange(chunks, pos, n);
      && |data| <= n && (data == [] <==> Unread(chunks, size, pos) == [])
      && Unread(chunks, size, pos) == data + Unread(chunks, size, pos + |data|)
  {
    hide Flatten, ReadRange, Disciplined;
    UnreadIs(chunks, size, pos);
    ReadRangeIsSlice(chunks, pos, n);
    if chunks != [] {
      SplitAt(Flatten(chunks), pos, n);
      UnreadIs(chunks, size, pos + n);
    }
  }

  lemma {:induction false} PlusNothing(a: Bytes, b: Bytes)
    ensures a + b == a <==> b == []
  {
    assert |a + b| == |a| + |b|;
  }

  lemma {:induction false} NoRows()
    ensures Disciplined([])
  {
  }

  lemma {:induction false} SplitAt(all: Bytes, pos: nat, n: nat)
    requires pos + n <= |all|
    ensures all[pos..] == all[pos..pos + n] + all[pos + n..]
  {
  }

  // ---- stored files -------------------------------------------------------------------------------

  /** Which extent holds offset pos. */
  predicate Holds(e: Extent, pos: nat) {
    e.fileOffset <= pos < e.fileOffset + e.length
  }

  /** Every offset below the covered size lies in an extent. */
  lemma {:induction false} SomeHolds(ex: seq<Extent>, pos: nat) returns (j: nat)
    requires Tiled(ex) && pos < Covered(ex)
    ensures j < |ex| && Holds(ex[j], pos)
  {
    var init := ex[..|ex| - 1];
    if pos < Covered(init) {
      assert forall i :: 0 <= i < |init| ==> init[..i] == ex[..i];
      j := SomeHolds(init, pos);
    } else {
      j := |ex| - 1;
    }
  }

  method ExtentAt(ex: seq<Extent>, pos: nat) returns (e: Option<Extent>)
    ensures e.None? <==> forall i :: 0 <= i < |ex| ==> !Holds(ex[i], pos)
    ensures e.Some? ==> exists i :: 0 <= i < |ex| && e.value == ex[i] && Holds(ex[i], pos)
  {
    for i := 0 to |ex|
      invariant forall j :: 0 <= j < i ==> !Holds(ex[j], pos)
    {
      if ex[i].fileOffset <= pos < ex[i].fileOffset + ex[i].length {
        return Some(ex[i]);
      }
    }
    e := None;
  }

  datatype ReadError = NoError | EndOfFile | UnexpectedEnd | FetchFailed

  class ExtentReader {
    const extents: seq<Extent>
    const size: nat
    /** What the blob service returns for each blob when it can be reached. */
    const data: Data
    var pos: nat
    var cur: Option<(BlobId, Bytes)>

    ghost predicate Valid()
      reads this
    {
      && Tiled(extents) && Mapped(extents, data) && size == Covered(extents)
      && (cur.Some? ==> cur.value.0 in data && cur.value.1 == data[cur.value.0])
    }

    ghost function Remaining(): Bytes
      requires Valid()
      reads this
    {
      AssembleLength(extents, data);
      if pos >= size then [] else Assemble(extents, data)[pos..]
    }

    constructor (extents: seq<Extent>, size: nat, data: Data, start: nat)
      requires Tiled(extents) && Mapped(extents, data) && size == Covered(extents)
      ensures Valid() && pos == start && this.extents == extents && this.size == size && this.data == data
    {
      this.extents, this.size, this.data := extents, size, data;
      pos, cur := start, None;
    }

    /** Delivers the next bytes in order. A hole or a short blob never occurs; the only error is a blob that
        cannot be fetched, and then nothing is lost. */
    method Read(p: array<byte>, reachable: bool) returns (k: nat, err: ReadError)
      requires Valid()
      modifies this`pos, this`cur, p
      ensures Valid() && k <= p.Length && pos == old(pos) + k
      ensures p[..k] + Remaining() == old(Remaining()) && p[k..] == old(p[k..])
      ensures err.NoError? || err.EndOfFile? || (err.FetchFailed? && !reachable)
      ensures err.EndOfFile? <==> old(Remaining()) == []
      ensures !err.NoError? ==> k == 0
      ensures err.NoError? && p.Length > 0 ==> k > 0
    {
      hide Assemble, Covered, Tiled;
      AssembleLength(extents, data);
      if pos >= size {
        return 0, EndOfFile;
      }
      var ext := ExtentAt(extents, pos);
      ghost var j := SomeHolds(extents, pos);
      if ext.None? {
        return 0, EndOfFile;
      }
      var e := ext.value;
      ghost var i :| 0 <= i < |extents| && e == extents[i] && Holds(extents[i], pos);
      PieceFits(extents, data, i);
      if cur.None? || cur.value.0 != e.blob {
        if !reachable {
          return 0, FetchFailed;
        }
        cur := Some((e.blob, data[e.blob]));
      }
      k, err := Deliver(p, e, i);
    }

    /** The part of Read after the blob is at hand. */
    method Deliver(p: array<byte>, e: Extent, ghost i: nat) returns (k: nat, err: ReadError)
      requires Valid() && i < |extents| && e == extents[i] && Holds(e, pos) && pos < size
      requires cur.Some? && cur.value.0 == e.blob
      modifies this`pos, p
      ensures Valid() && k <= p.Length && pos == old(pos) + k && err.NoError?
      ensures p[..k] + Remaining() == old(Remaining()) && p[k..] == old(p[k..])
      ensures p.Length > 0 ==> k > 0
    {
      hide Assemble, Covered, Tiled;
      AssembleLength(extents, data);
      PieceFits(extents, data, i);
      hide Mapped;
      k, err := 0, UnexpectedEnd;
      var bytes := cur.value.1;
      var within := pos - e.fileOffset;
      var blobPos := e.blobOffset + within;
      var avail: int := e.length - within;
      if blobPos + avail > |bytes| {
        avail := |bytes| - blobPos;
      }
      if avail > 0 {
        k := CopyInto(p, bytes[blobPos..blobPos + avail]);
        NextPiece(extents, data, i, pos, k);
        pos := pos + k;
        err := NoError;
      }
    }
  }

  /** If a piece of the blob is a piece of the file, so is any part of it. */
  lemma {:induction false} PieceAt(all: Bytes, at: nat, len: nat, bytes: Bytes, from: nat, within: nat, k: nat)
    requires at + len <= |all| && from + len <= |bytes| && within + k <= len
    requires all[at..at + len] == bytes[from..from + len]
    ensures all[at + within..at + within + k] == bytes[from + within..from + len][..k]
  {
    SliceOfSlice(all, at, at + len, within, within + k);
    SliceOfSlice(bytes, from, from + len, within, len);
    SliceOfSlice(bytes, from, from + len, within, within + k);
    SliceOfSlice(bytes, from + within, from + len, 0, k);
  }

  lemma {:induction false} PieceFits(ex: seq<Extent>, data: Data, i: nat)
    requires Tiled(ex) && Mapped(ex, data) && i < |ex|
    ensures ex[i].blob in data && ex[i].blobOffset + ex[i].length <= |data[ex[i].blob]|
    ensures ex[i].fileOffset + ex[i].length <= |Assemble(ex, data)|
  {
    hide Assemble, Covered, Tiled;
    AssembleAt(ex, data, i);
  }

  /** The next k bytes of the file at pos, taken from the blob of the extent that holds pos. */
  lemma {:induction false} NextPiece(ex: seq<Extent>, data: Data, i: nat, pos: nat, k: nat)
    requires Tiled(ex) && Mapped(ex, data) && i < |ex| && Holds(ex[i], pos)
        && pos + k <= ex[i].fileOffset + ex[i].length
    requires ex[i].blob in data && ex[i].blobOffset + ex[i].length <= |data[ex[i].blob]|
    requires ex[i].fileOffset + ex[i].length <= |Assemble(ex, data)|
    ensures var e := ex[i]; var from := e.blobOffset + (pos - e.fileOffset);
      data[e.blob][from..e.blobOffset + e.length][..k] + Assemble(ex, data)[pos + k..] == Assemble(ex, data)[pos..]
  {
    hide Assemble, Covered, Tiled, Mapped;
    var e := ex[i];
    AssembleAt(ex, data, i);
    PieceAt(Assemble(ex, data), e.fileOffset, e.length, data[e.blob], e.blobOffset, pos - e.fileOffset, k);
    SplitAt(Assemble(ex, data), pos, k);
  }

  // ---- the seekable handle ------------------------------------------------------------------------

  datatype Whence = SeekStart | SeekCurrent | SeekEnd | SeekOther

  class ReadFile {
    const nd: Node
    const data: Data
    var pos: nat
    var wal: WalReader?
    var ext: ExtentReader?

    ghost function Repr(): set<object>
      reads this
    {
      (if wal != null then {wal} else {}) + if ext != null then {ext} else {}
    }

    ghost predicate Valid()
      reads this, Repr()
    {
      && NodeOk(nd, data) && !nd.isDir
      && (wal != null ==> !nd.state.Stored? && wal.Valid() && wal.Remaining() == Rest())
      && (ext != null ==>
           nd.state.Stored? && ext.Valid() && ext.extents == nd.extents && ext.size == nd.size && ext.data == data
           && ext.pos == pos)
    }

    /** The suffix of the file's content that the handle has not delivered. */
    ghost function Rest(): Bytes
      requires NodeOk(nd, data)
      reads this
    {
      Suffix(Content(nd, data), pos)
    }

    constructor (nd: Node, data: Data)
      requires NodeOk(nd, data) && !nd.isDir
      ensures Valid() && Rest() == Content(nd, data) && this.nd == nd && this.data == data && Repr() == {}
    {
      this.nd, this.data := nd, data;
      pos, wal, ext := 0, null, null;
      SuffixAll(Content(nd, data));
    }

    /** Seek: the next Read starts at the new position. A negative target is refused and changes nothing. */
    method Seek(offset: int, whence: Whence) returns (abs: int, ok: bool)
      requires Valid()
      modifies this
      ensures Valid()
      ensures ok <==> !whence.SeekOther? && Target(old(pos), nd.size, offset, whence) >= 0
      ensures ok ==> abs == pos == Target(old(pos), nd.size, offset, whence) && Repr() == {}
      ensures ok && whence.SeekStart? ==> pos == offset
      ensures ok && whence.SeekCurrent? ==> pos == old(pos) + offset
      ensures ok && whence.SeekEnd? ==> abs == |Content(nd, data)| + offset
      ensures ok && whence.SeekEnd? && offset <= 0 ==> |Rest()| == -offset
      ensures whence.SeekOther? || (whence.SeekStart? && offset < 0) ==> !ok
      ensures whence.SeekEnd? && |Content(nd, data)| + offset < 0 ==> !ok
      ensures whence.SeekCurrent? && old(pos) + offset < 0 ==> !ok
      ensures !whence.SeekOther? && offset >= 0 ==> ok
      ensures !ok ==> pos == old(pos) && Repr() == old(Repr())
    {
      ContentLength(nd, data);
      match whence {
        case SeekStart => abs := offset;
        case SeekCurrent => abs := pos + offset;
        case SeekEnd => abs := nd.size + offset;
        case SeekOther => return 0, false;
      }
      if abs < 0 {
        return 0, false;
      }
      pos := abs;
      wal, ext := null, null;
      ok := true;
    }

    /** Whatever was sought or read before, Read delivers the next bytes of the content, at least one unless p is
        empty, and EOF exactly at or past the end. */
    method Read(p: array<byte>, reachable: bool) returns (k: nat, err: ReadError)
      requires Valid()
      modifies this, Repr(), p
      ensures Valid() && k <= p.Length && fresh(Repr() - old(Repr()))
      ensures pos == old(pos) + k && p[..k] + Rest() == old(Rest()) && p[k..] == old(p[k..])
      ensures err.EndOfFile? <==> old(Rest()) == []
      ensures err.NoError? || err.EndOfFile? || (err.FetchFailed? && !reachable)
      ensures !err.NoError? ==> k == 0
      ensures err.NoError? && p.Length > 0 ==> k > 0
    {
      ContentLength(nd, data);
      if pos >= nd.size {
        return 0, EndOfFile;
      }
      if nd.state.Stored? {
        k, err := ReadStored(p, reachable);
      } else {
        k, err := ReadLog(p);
      }
    }

    method ReadStored(p: array<byte>, reachable: bool) returns (k: nat, err: ReadError)
      requires Valid() && nd.state.Stored? && pos < nd.size
      modifies this, Repr(), p
      ensures Valid() && k <= p.Length && fresh(Repr() - old(Repr()))
      ensures pos == old(pos) + k && p[..k] + Rest() == old(Rest()) && p[k..] == old(p[k..])
      ensures err.NoError? || (err.FetchFailed? && !reachable)
      ensures !err.NoError? ==> k == 0
      ensures err.NoError? && p.Length > 0 ==> k > 0
    {
      hide Tiled, Mapped, Covered, Assemble;
      ContentLength(nd, data);
      AssembleLength(nd.extents, data);
      if ext == null {
        ext := new ExtentReader(nd.extents, nd.size, data, pos);
      }
      k, err := ext.Read(p, reachable);
      pos := pos + k;
    }

    method ReadLog(p: array<byte>) returns (k: nat, err: ReadError)
      requires Valid() && !nd.state.Stored? && pos < nd.size
      modifies this, Repr(), p
      ensures Valid() && k <= p.Length && fresh(Repr() - old(Repr()))
      ensures pos == old(pos) + k && p[..k] + Rest() == old(Rest()) && p[k..] == old(p[k..])
      ensures err.NoError? && (p.Length > 0 ==> k > 0)
    {
      hide Flatten, Disciplined;
      ContentLength(nd, data);
      if wal == null {
        wal := new WalReader(nd.wal, nd.size, pos);
        WholeLog(nd, data);
      }
      ghost var before := Rest();
      var eof;
      k, eof := wal.Read(p);
      SuffixStep(Content(nd, data), pos, k, p[..k], wal.Remaining());
      pos := pos + k;
      err := NoError;
    }
  }

  function Target(pos: nat, size: nat, offset: int, whence: Whence): int {
    match whence
    case SeekStart => offset
    case SeekCurrent => pos + offset
    case SeekEnd => size + offset
    case SeekOther => -1
  }

  function Suffix(content: Bytes, pos: nat): Bytes {
    if pos >= |content| then [] else content[pos..]
  }

  lemma {:induction false} WholeLog(nd: Node, data: Data)
    requires NodeOk(nd, data) && nd.size > 0 && !nd.state.Stored?
    ensures Content(nd, data) == Flatten(nd.wal)
  {
  }

  lemma {:induction false} SuffixAll(content: Bytes)
    ensures Suffix(content, 0) == content
  {
  }

  lemma {:induction false} SuffixStep(content: Bytes, pos: nat, k: nat, got: Bytes, rest: Bytes)
    requires pos < |content| && |got| == k && got + rest == Suffix(content, pos)
    ensures rest == Suffix(content, pos + k)
  {
    assert rest == (got + rest)[k..];
  }

  /** One read into a new buffer. */
  method ReadNew(file: ReadFile, length: nat) returns (piece: Bytes, err: ReadError)
    requires file.Valid() && length > 0
    modifies file, file.Repr()
    ensures file.Valid() && fresh(file.Repr() - old(file.Repr()))
    ensures piece + file.Rest() == old(file.Rest())
    ensures (err.NoError? && piece != []) || (err.EndOfFile? && old(file.Rest()) == [])
  {
    hide NodeOk, Content, Suffix;
    var p := new byte[length];
    var k;
    k, err := file.Read(p, true);
    piece := p[..k];
  }

  /** Reading to the end: from wherever the handle stands, reading into any sequence of non-empty buffers until EOF
      delivers exactly the rest of the content, and ends. */
  method Drain(file: ReadFile, lengths: nat -> nat) returns (all: Bytes)
    requires file.Valid() && forall i :: lengths(i) > 0
    modifies file, file.Repr()
    ensures file.Valid() && all == old(file.Rest()) && file.Rest() == []
  {
    hide NodeOk, Content, Suffix;
    all := [];
    var err := NoError;
    var i := 0;
    while err.NoError?
      invariant file.Valid() && fresh(file.Repr() - old(file.Repr()))
      invariant all + file.Rest() == old(file.Rest())
      invariant err.NoError? || (err.EndOfFile? && file.Rest() == [])
      decreases |file.Rest()|, err.NoError?
    {
      ghost var before := all;
      var piece;
      piece, err := ReadNew(file, lengths(i));
      assert before + (piece + file.Rest()) == (before + piece) + file.Rest();
      all := all + piece;
      i := i + 1;
    }
  }

  /** A GET from offset a, as the HTTP server makes it: the size is asked for by seeking to the end, then the handle is
      put at the start of the range and read to EOF. The size is the content's, and what comes is its suffix. */
  method ServeRange(nd: Node, data: Data, a: nat, lengths: nat -> nat) returns (size: int, all: Bytes)
    requires NodeOk(nd, data) && !nd.isDir && forall i :: lengths(i) > 0
    ensures size == |Content(nd, data)| && (a <= size ==> all == Content(nd, data)[a..]) && (a > size ==> all == [])
  {
    hide NodeOk, Content;
    var file := new ReadFile(nd, data);
    var ok;
    size, ok := file.Seek(0, SeekEnd);
    var at;
    at, ok := file.Seek(a, SeekStart);
    all := Drain(file, lengths);
  }

  /** A handle whose rows have vanished, as after a finalize that came after it was opened: reading on delivers exactly
      what its reader had buffered and then the end of the file, without an error. */
  method StaleDrain(wal: WalReader, lengths: nat -> nat) returns (all: Bytes)
    requires wal.Valid() && forall i :: lengths(i) > 0
    modifies wal
    ensures wal.Valid() && all == old(wal.buf)
  {
    wal.RowsGone();
    all := [];
    var eof := false;
    var i := 0;
    hide Disciplined, Unread, Flatten;
    while !eof
      invariant wal.Valid() && all + wal.Remaining() == old(wal.buf) && (eof ==> wal.Remaining() == [])
      decreases |wal.Remaining()|, !eof
    {
      ghost var before := wal.Remaining();
      var p := new byte[lengths(i)];
      var k;
      k, eof := wal.Read(p);
      assert before == p[..k] + wal.Remaining();
      all := all + p[..k];
      i := i + 1;
    }
  }

  /** GET: a fresh handle delivers the whole content of the row it was opened on. */
  method ReadWhole(nd: Node, data: Data, lengths: nat -> nat) returns (all: Bytes)
    requires NodeOk(nd, data) && !nd.isDir && forall i :: lengths(i) > 0
    ensures all == Content(nd, data)
  {
    var file := new ReadFile(nd, data);
    all := Drain(file, lengths);
  }

  // ---- the read-ahead plan ------------------------------------------------------------------------

  datatype Planned = Planned(blob: BlobId, start: nat)

  predicate SortedStarts(list: seq<Planned>) {
    forall i, j :: 0 <= i < j < |list| ==> list[i].start <= list[j].start
  }

  predicate DistinctBlobs(list: seq<Planned>) {
    forall i, j :: 0 <= i < j < |list| ==> list[i].blob != list[j].blob
  }

  /** sort.Slice by start; a list already in order is left alone. */
  method SortByStart(list: seq<Planned>) returns (out: seq<Planned>)
    requires DistinctBlobs(list)
    ensures SortedStarts(out) && DistinctBlobs(out) && forall x :: x in out <==> x in list
    ensures SortedStarts(list) ==> out == list
  {
    out := [];
    for i := 0 to |list|
      invariant SortedStarts(out) && DistinctBlobs(out) && forall x :: x in out <==> x in list[..i]
      invariant SortedStarts(list) ==> out == list[..i]
    {
      var j := |out|;
      while j > 0 && out[j - 1].start > list[i].start
        invariant 0 <= j <= |out|
        invariant forall k :: j <= k < |out| ==> out[k].start > list[i].start
        invariant SortedStarts(list) ==> j == |out|
      {
        j := j - 1;
      }
      assert list[..i + 1] == list[..i] + [list[i]];
      InsertAt(out, j, list[i]);
      out := out[..j] + [list[i]] + out[j..];
    }
    assert list[..|list|] == list;
  }

  lemma {:induction false} InsertAt(out: seq<Planned>, j: nat, p: Planned)
    requires j <= |out| && SortedStarts(out) && DistinctBlobs(out) && forall x :: x in out ==> x.blob != p.blob
    requires forall k :: j <= k < |out| ==> out[k].start > p.start
    requires j > 0 ==> out[j - 1].start <= p.start
    ensures var all := out[..j] + [p] + out[j..];
      SortedStarts(all) && DistinctBlobs(all) && (forall x :: x in all <==> x in out || x == p) &&
      (j == |out| ==> all == out + [p])
  {
    hide SortedStarts, DistinctBlobs;
    InsertedIs(out, j, p);
    InsertedOk(out[..j] + [p] + out[j..], out, j, p);
    if j == |out| {
      assert out[..j] == out && out[j..] == [];
    }
  }

  lemma {:induction false} InsertedOk(all: seq<Planned>, out: seq<Planned>, j: nat, p: Planned)
    requires |all| == |out| + 1 && j <= |out| && SortedStarts(out) && DistinctBlobs(out)
    requires all[j] == p && forall k :: 0 <= k < |all| && k != j ==> all[k] == out[if k < j then k else k - 1]
    requires forall x :: x in out ==> x.blob != p.blob
    requires forall k :: j <= k < |out| ==> out[k].start > p.start
    requires j > 0 ==> out[j - 1].start <= p.start
    ensures SortedStarts(all) && DistinctBlobs(all)
  {
    forall a, b | 0 <= a < b < |all| ensures all[a].start <= all[b].start && all[a].blob != all[b].blob {
      if a < j {
        assert all[a] == out[a] && out[a] in out && out[a].start <= out[j - 1].start;
      }
      if b > j {
        assert all[b] == out[b - 1] && out[b - 1] in out;
      }
    }
  }

  lemma {:induction false} InsertedIs(out: seq<Planned>, j: nat, p: Planned)
    requires j <= |out|
    ensures var all := out[..j] + [p] + out[j..];
      && |all| == |out| + 1
      && all[j] == p && (forall k :: 0 <= k < |all| && k != j ==> all[k] == out[if k < j then k else k - 1])
      && (forall x :: x in all <==> x in out || x == p)
  {
    var all := out[..j] + [p] + out[j..];
    forall x ensures x in all <==> x in out || x == p {
      assert out == out[..j] + out[j..];
      assert x in out <==> x in out[..j] || x in out[j..];
    }
  }

  ghost predicate ServedBy(ex: seq<Extent>, x: Planned) {
    exists i :: 0 <= i < |ex| && ex[i].blob == x.blob && ex[i].fileOffset == x.start
  }

  ghost predicate Listed(list: seq<Planned>, e: Extent) {
    exists x :: x in list && x.blob == e.blob && x.start <= e.fileOffset
  }

  /** Every extent's blob is listed no later than the extent, and every entry is some extent's. */
  ghost predicate Covers(ex: seq<Extent>, list: seq<Planned>) {
    && (forall e :: e in ex ==> Listed(list, e))
    && forall x :: x in list ==> ServedBy(ex, x)
  }

  predicate InOrder(ex: seq<Extent>, list: seq<Planned>) {
    |list| == |ex| && forall j :: 0 <= j < |ex| ==> list[j] == Planned(ex[j].blob, ex[j].fileOffset)
  }

  /** The index of the list planBlobs builds before it sorts. */
  predicate Indexed(idx: map<BlobId, nat>, list: seq<Planned>) {
    && (forall b :: b in idx ==> idx[b] < |list| && list[idx[b]].blob == b)
    && (forall j :: 0 <= j < |list| ==> list[j].blob in idx && idx[list[j].blob] == j)
  }

  ghost predicate PlanOf(ex: seq<Extent>, idx: map<BlobId, nat>, list: seq<Planned>) {
    Indexed(idx, list) && Covers(ex, list) && (OneBlobEach(ex) ==> InOrder(ex, list))
  }

  lemma {:induction false} ServedMore(ex: seq<Extent>, e: Extent, x: Planned)
    requires ServedBy(ex, x) || x == Planned(e.blob, e.fileOffset)
    ensures ServedBy(ex + [e], x)
  {
    var all := ex + [e];
    if ServedBy(ex, x) {
      var i :| 0 <= i < |ex| && ex[i].blob == x.blob && ex[i].fileOffset == x.start;
      assert all[i].blob == x.blob;
    } else {
      assert all[|ex|].blob == x.blob;
    }
  }

  lemma {:induction false} CoversNew(ex: seq<Extent>, list: seq<Planned>, e: Extent)
    requires Covers(ex, list)
    ensures Covers(ex + [e], list + [Planned(e.blob, e.fileOffset)])
  {
    var p := Planned(e.blob, e.fileOffset);
    forall x | x in list + [p] ensures ServedBy(ex + [e], x) {
      ServedMore(ex, e, x);
    }
    forall y | y in ex + [e] ensures Listed(list + [p], y) {
      if y in ex {
        var x :| x in list && x.blob == y.blob && x.start <= y.fileOffset;
        assert x in list + [p];
      } else {
        assert p in list + [p];
      }
    }
  }

  /** The entry of a blob seen before, lowered if the new extent starts earlier. */
  function Lowered(list: seq<Planned>, j: nat, e: Extent): seq<Planned>
    requires j < |list|
  {
    if e.fileOffset < list[j].start then list[j := list[j].(start := e.fileOffset)] else list
  }

  lemma {:induction false} CoversLowered(ex: seq<Extent>, list: seq<Planned>, j: nat, e: Extent)
    requires Covers(ex, list) && j < |list| && list[j].blob == e.blob
    ensures Covers(ex + [e], Lowered(list, j, e))
  {
    var list' := Lowered(list, j, e);
    forall x | x in list' ensures ServedBy(ex + [e], x) {
      var k :| 0 <= k < |list'| && list'[k] == x;
      assert list[k] in list;
      ServedMore(ex, e, x);
    }
    forall y | y in ex + [e] ensures Listed(list', y) {
      if y in ex {
        var x :| x in list && x.blob == y.blob && x.start <= y.fileOffset;
        var k :| 0 <= k < |list| && list[k] == x;
        assert list'[k] in list';
      } else {
        assert list'[j] in list';
      }
    }
  }

  lemma {:induction false} PlanMore(ex: seq<Extent>, idx: map<BlobId, nat>, list: seq<Planned>, e: Extent)
    requires PlanOf(ex, idx, list)
    ensures if e.blob in idx then idx[e.blob] < |list| && PlanOf(ex + [e], idx, Lowered(list, idx[e.blob], e))
            else PlanOf(ex + [e], idx[e.blob := |list|], list + [Planned(e.blob, e.fileOffset)])
  {
    var all := ex + [e];
    assert all[|ex|] == e && forall i :: 0 <= i < |ex| ==> all[i] == ex[i];
    if e.blob in idx {
      var j := idx[e.blob];
      CoversLowered(ex, list, j, e);
      assert list[j] in list;
      assert ServedBy(ex, list[j]);
      var i :| 0 <= i < |ex| && ex[i].blob == list[j].blob && ex[i].fileOffset == list[j].start;
      assert all[i].blob == all[|ex|].blob;
      assert !OneBlobEach(all);
      hide Covers, OneBlobEach;
    } else {
      CoversNew(ex, list, e);
      assert OneBlobEach(all) ==> OneBlobEach(ex);
      hide Covers, OneBlobEach;
    }
  }

  /** planBlobs: each blob of the file once, with the lowest offset it serves, in offset order; on a tiled file
      one entry per extent, in file order. */
  method PlanBlobs(ex: seq<Extent>) returns (plan: seq<Planned>)
    ensures SortedStarts(plan) && DistinctBlobs(plan) && Covers(ex, plan)
    ensures Tiled(ex) ==> InOrder(ex, plan)
  {
    hide Covered, PlanOf, Covers, SortedStarts, DistinctBlobs;
    var idx: map<BlobId, nat> := map[];
    var list: seq<Planned> := [];
    PlanNone();
    for i := 0 to |ex|
      invariant PlanOf(ex[..i], idx, list)
    {
      var e := ex[i];
      PlanMore(ex[..i], idx, list, e);
      assert ex[..i + 1] == ex[..i] + [e];
      if e.blob in idx {
        var j := idx[e.blob];
        if e.fileOffset < list[j].start {
          list := list[j := list[j].(start := e.fileOffset)];
        }
      } else {
        idx := idx[e.blob := |list|];
        list := list + [Planned(e.blob, e.fileOffset)];
      }
    }
    assert ex[..|ex|] == ex;
    PlanCovers(ex, idx, list);
    plan := SortByStart(list);
    CoversSame(ex, list, plan);
  }

  lemma {:induction false} PlanNone()
    ensures PlanOf([], map[], [])
  {
  }

  lemma {:induction false} PlanCovers(ex: seq<Extent>, idx: map<BlobId, nat>, list: seq<Planned>)
    requires PlanOf(ex, idx, list)
    ensures DistinctBlobs(list) && Covers(ex, list)
    ensures Tiled(ex) ==> SortedStarts(list) && InOrder(ex, list)
  {
    hide Covered, Covers;
    if Tiled(ex) {
      StartsIncrease(ex);
    }
  }

  lemma {:induction false} CoversSame(ex: seq<Extent>, list: seq<Planned>, plan: seq<Planned>)
    requires Covers(ex, list) && forall x :: x in plan <==> x in list
    ensures Covers(ex, plan)
  {
    hide ServedBy;
    forall e | e in ex ensures Listed(plan, e) {
      var x :| x in list && x.blob == e.blob && x.start <= e.fileOffset;
      assert x in plan;
    }
  }

  lemma {:induction false} StartsIncrease(ex: seq<Extent>)
    requires Tiled(ex)
    ensures forall i, j :: 0 <= i < j < |ex| ==> ex[i].fileOffset + ex[i].length <= ex[j].fileOffset
  {
    forall i, j | 0 <= i < j < |ex| ensures ex[i].fileOffset + ex[i].length <= ex[j].fileOffset {
      CoveredMonotone(ex, i + 1, j);
      assert ex[..i + 1][..i] == ex[..i];
    }
  }

  /** blobIndexFor: the last start at or before cur. */
  method BlobIndexFor(plan: seq<Planned>, cur: nat) returns (i: nat)
    requires plan != [] && SortedStarts(plan)
    ensures i < |plan| && (plan[0].start <= cur ==> plan[i].start <= cur)
    ensures forall j :: i < j < |plan| ==> cur < plan[j].start
  {
    i := 0;
    while i + 1 < |plan| && plan[i + 1].start <= cur
      invariant i < |plan| && (plan[0].start <= cur ==> plan[i].start <= cur)
      decreases |plan| - i
    {
      i := i + 1;
    }
  }

  /** On a tiled file, planBlobs plus blobIndexFor name the blob of the very extent that extentAt finds. */
  lemma {:induction false} PlanAgrees(ex: seq<Extent>, plan: seq<Planned>, i: nat, cur: nat)
    requires Tiled(ex) && cur < Covered(ex) && InOrder(ex, plan)
    requires i < |plan| && (plan[0].start <= cur ==> plan[i].start <= cur)
    requires forall j :: i < j < |plan| ==> cur < plan[j].start
    ensures Holds(ex[i], cur) && plan[i].blob == ex[i].blob
    ensures forall k :: 0 <= k < |ex| && Holds(ex[k], cur) ==> k == i
  {
    var j := SomeHolds(ex, cur);
    FirstAtZero(ex);
    StartsIncrease(ex);
    hide Covered, Tiled;
    assert plan[j].start == ex[j].fileOffset && plan[i].start == ex[i].fileOffset;
  }

  /** What the read-ahead fetches next at offset cur: the blob the reader needs there and those after it. */
  method ReadAheadFrom(ex: seq<Extent>, cur: nat) returns (next: seq<Planned>)
    requires Tiled(ex) && cur < Covered(ex)
    ensures exists i :: 0 <= i < |ex| && Holds(ex[i], cur) && InOrder(ex[i..], next)
  {
    FirstAtZero(ex);
    hide Tiled, Covers;
    var plan := PlanBlobs(ex);
    var i := BlobIndexFor(plan, cur);
    PlanAgrees(ex, plan, i, cur);
    next := plan[i..];
  }

  lemma {:induction false} FirstAtZero(ex: seq<Extent>)
    requires Tiled(ex) && ex != []
    ensures ex[0].fileOffset == 0
  {
    assert ex[..0] == [];
  }
}
