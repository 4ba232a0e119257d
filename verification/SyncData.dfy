/**
 File contents on a sync connection: DATA chunks of at most 64 KiB closed by a
 DONE message, and the loop that takes them apart again.
 */
module SyncData {
  import opened Basics
  import opened Framing

  const SYNC_DATA_MAX := 64 * 1024

  /** MKID: the word whose bytes in memory are a, b, c, d, on either kind of machine. */
  function MkId(big: bool, id: Bytes): (r: Word)
    requires |id| == 4
    ensures Store(big, r) == id
  {
    IdStored(big, id);
    Load(big, id)
  }

  lemma IdStored(big: bool, b: Bytes)
    requires |b| == 4
    ensures Store(big, Load(big, b)) == b
  {
    WordOfBytes(b[0], b[1], b[2], b[3]);
    WordOfBytes(b[3], b[2], b[1], b[0]);
  }

  const DATA: Bytes := [0x44, 0x41, 0x54, 0x41]
  const DONE: Bytes := [0x44, 0x4f, 0x4e, 0x45]

  /** One message header on the wire: four letters, and the size from its least significant byte up. */
  function Header(id: Bytes, size: Word): (r: Bytes)
    requires |id| == 4
    ensures |r| == 8 && r[..4] == id
  {
    id + Store(false, size)
  }

  /** The same header as the program lays it out, on either kind of machine. */
  function RawHeader(big: bool, id: Bytes, size: Word): (r: Bytes)
    requires |id| == 4
    ensures r == Header(id, size)
  {
    WireOrder(big, size);
    Store(big, MkId(big, id)) + Store(big, Fix(big, size))
  }

  function Chunk(data: Bytes): (r: Bytes)
    requires |data| <= SYNC_DATA_MAX
    ensures |r| == 8 + |data|
  {
    Header(DATA, |data|) + data
  }

  // ----- sending

  /** The pieces write_data_buffer cuts a buffer into. */
  function Pieces(buf: Bytes): (r: seq<Bytes>)
  {
    if buf == [] then []
    else
      var n := Min(|buf|, SYNC_DATA_MAX);
      [buf[..n]] + Pieces(buf[n..])
  }

  function Joined(pieces: seq<Bytes>): (r: Bytes)
  {
    if pieces == [] then [] else pieces[0] + Joined(pieces[1..])
  }

  ghost predicate Fits(pieces: seq<Bytes>)
  {
    forall i :: 0 <= i < |pieces| ==> |pieces[i]| <= SYNC_DATA_MAX
  }

  /** The pieces make up the buffer; each holds something, and all but the last are full. */
  lemma {:induction false} PiecesPartition(buf: Bytes)
    ensures var ps := Pieces(buf);
            && Joined(ps) == buf && Fits(ps)
            && (forall i :: 0 <= i < |ps| ==> ps[i] != [])
            && (forall i :: 0 <= i < |ps| - 1 ==> |ps[i]| == SYNC_DATA_MAX)
  {
    if buf != [] {
      var n := Min(|buf|, SYNC_DATA_MAX);
      PiecesPartition(buf[n..]);
      assert buf == buf[..n] + buf[n..];
    }
  }

  /** The bytes of a run of DATA messages. */
  function Emit(pieces: seq<Bytes>): (r: Bytes)
    requires Fits(pieces)
  {
    if pieces == [] then [] else Chunk(pieces[0]) + Emit(pieces[1..])
  }

  function Emitted(buf: Bytes): (r: Bytes)
  {
    PiecesPartition(buf);
    Emit(Pieces(buf))
  }

  /** All of one file: its chunks and the closing DONE with the modification time. */
  function Sent(buf: Bytes, mtime: Word): (r: Bytes)
  {
    Emitted(buf) + Header(DONE, mtime)
  }

  lemma EmittedCons(buf: Bytes)
    requires buf != []
    ensures var n := Min(|buf|, SYNC_DATA_MAX); Emitted(buf) == Chunk(buf[..n]) + Emitted(buf[n..])
  {
    var n := Min(|buf|, SYNC_DATA_MAX);
    assert Pieces(buf)[0] == buf[..n] && Pieces(buf)[1..] == Pieces(buf[n..]);
  }

  /** The kernel's answers to each call of readx or writex, good for at least a whole chunk. */
  ghost predicate Patient(io: nat -> seq<Io>)
  {
    forall k: nat :: Serves(io(k), SYNC_DATA_MAX + 8)
  }

  lemma Patience(io: nat -> seq<Io>, k: nat, n: nat)
    requires n <= SYNC_DATA_MAX + 8
    ensures Patient(io) ==> Serves(io(k), n)
  {
    if Patient(io) {
      ServesFewer(io(k), SYNC_DATA_MAX + 8, n);
    }
  }

  /** One round of write_data_buffer: the next chunk is put together and written out. */
  method WriteNext(big: bool, left: Bytes, script: seq<Io>) returns (ok: bool, got: Bytes, count: nat)
    requires left != []
    ensures count == Min(|left|, SYNC_DATA_MAX)
    ensures got <= Emitted(left) && |got| <= 8 + SYNC_DATA_MAX
    ensures ok <==> got + Emitted(left[count..]) == Emitted(left)
    ensures !ok ==> |got| < 8 + count && |got| < |Emitted(left)|
    ensures Serves(script, SYNC_DATA_MAX + 8) ==> ok
  {
    count := Min(|left|, SYNC_DATA_MAX);
    var data := left[..count];
    if Serves(script, SYNC_DATA_MAX + 8) {
      ServesFewer(script, SYNC_DATA_MAX + 8, 8 + count);
    }
    EmittedCons(left);
    ok, got := WriteX(RawHeader(big, DATA, count) + data, script);
    assert ok ==> got == Chunk(data);
    assert !ok ==> |got| < |Chunk(data)|;
  }

  /** An unsigned counter that has advanced by n in all. */
  function Wrapped(n: nat): (r: Word)
    ensures r == n % 0x1_0000_0000
  {
    if n < 0x1_0000_0000 then n else Wrapped(n - 0x1_0000_0000)
  }

  /** write_data_buffer: total counts the bytes whose chunks went out whole. */
  method WriteDataBuffer(big: bool, buf: Bytes, io: nat -> seq<Io>, before: Word)
    returns (ok: bool, out: Bytes, total: nat, calls: nat, totalBytes: Word)
    ensures total <= |buf| && totalBytes == Wrapped(before + total)
    ensures out <= Emitted(buf)
    ensures ok <==> total == |buf|
    ensures ok <==> out == Emitted(buf)
    ensures 0 <= |out| - (|Emitted(buf)| - |Emitted(buf[total..])|) < 8 + SYNC_DATA_MAX
    ensures Patient(io) ==> ok
  {
    out, total, calls, totalBytes := [], 0, 0, before;
    assert buf[0..] == buf;
    ghost var left := Emitted(buf);
    while total < |buf|
      invariant total <= |buf| && totalBytes == Wrapped(before + total)
      invariant left == Emitted(buf[total..]) && out + left == Emitted(buf)
    {
      var sent, got, count := WriteNext(big, buf[total..], io(calls));
      calls := calls + 1;
      if !sent {
        PrefixOfBoth(out, got, left);
        return false, out + got, total, calls, totalBytes;
      }
      assert buf[total..][count..] == buf[total + count..];
      left := Emitted(buf[total + count..]);
      Regroup(out, got, left);
      totalBytes := Count(before, total, totalBytes, count);
      out, total := out + got, total + count;
    }
    ok := true;
  }

  lemma PrefixOfBoth(a: Bytes, b: Bytes, c: Bytes)
    requires b <= c
    ensures a + b <= a + c
  {
  }

  /** total_bytes += n. */
  method Count(ghost before: Word, ghost sofar: nat, totalBytes: Word, n: nat) returns (r: Word)
    requires totalBytes == Wrapped(before + sofar)
    ensures r == Wrapped(before + sofar + n)
  {
    AddWraps(before + sofar, n);
    r := (totalBytes + n) % 0x1_0000_0000;
  }

  /** The data phase of sync_send: the result of write_data_buffer, whole, is ignored, DONE follows. */
  method SendData(big: bool, buf: Bytes, mtime: Word, io: nat -> seq<Io>, before: Word)
    returns (ok: bool, out: Bytes, whole: bool, totalBytes: Word)
    ensures ok ==> |out| >= 8 && out[..|out| - 8] <= Emitted(buf) && out[|out| - 8..] == Header(DONE, mtime)
    ensures ok ==> (out == Sent(buf, mtime) <==> whole)
    ensures Patient(io) ==> ok && whole
    ensures whole ==> totalBytes == Wrapped(before + |buf|)
  {
    var chunks, total, calls;
    whole, chunks, total, calls, totalBytes := WriteDataBuffer(big, buf, io, before);
    var sent, got := WriteX(RawHeader(big, DONE, mtime), io(calls));
    Patience(io, calls, 8);
    out := chunks + got;
    assert sent ==> out[..|out| - 8] == chunks && out[|out| - 8..] == Header(DONE, mtime);
    ok := sent;
  }

  // ----- receiving

  /**
   How the loop of sync_recv ends. OutOfBuffer stands for a size of 2^31 or more: it
   turns negative in the signed variable, passes the guard, and the read that
   follows is not confined to the buffer.
   */
  datatype End = Finished | Cut | Overrun | RemoteError(id: Bytes, size: Word) | OutOfBuffer

  datatype Received = Received(written: Bytes, end: End, rest: Bytes)

  /** The size word of a header: its value on the wire ... */
  function Size(b: Bytes): (r: Word)
    requires |b| >= 8
  {
    FromBytes(b[4], b[5], b[6], b[7])
  }

  /** ... is what ltohl makes of the word a machine loads. */
  function RawSize(big: bool, b: Bytes): (r: Word)
    requires |b| >= 8
    ensures r == Size(b)
  {
    LoadWire(big, b[4..8]);
    BytesOfWord(Fix(big, Load(big, b[4..8])));
    Fix(big, Load(big, b[4..8]))
  }

  /** A machine finds its own value of an identifier exactly where the four letters are. */
  lemma RawId(big: bool, b: Bytes, id: Bytes)
    requires |b| == 4 && |id| == 4
    ensures Load(big, b) == MkId(big, id) <==> b == id
  {
    IdStored(big, b);
  }

  /** What a size word is in a signed 32-bit variable. */
  function Signed(w: Word): (r: int)
  {
    if w < 0x8000_0000 then w else w - 0x1_0000_0000
  }

  /** One round of the loop: the contents of a chunk, or the end of the transfer. */
  datatype Round = Got(data: Bytes, rest: Bytes) | Ended(end: End, rest: Bytes)

  function NextRound(b: Bytes): (r: Round)
    ensures |r.rest| + (if r.Got? then 8 + |r.data| else 0) <= |b|
    ensures r.Got? ==> |r.data| <= SYNC_DATA_MAX
  {
    if |b| < 8 then Ended(Cut, [])
    else
      var id, size, rest := b[..4], Size(b), b[8..];
      if id == DONE then Ended(Finished, rest)
      else if id != DATA then Ended(RemoteError(id, size), rest)
      else if Signed(size) > SYNC_DATA_MAX then Ended(Overrun, rest)
      else if Signed(size) < 0 then Ended(OutOfBuffer, rest)
      else if |rest| < size then Ended(Cut, [])
      else Got(rest[..size], rest[size..])
  }

  /** The receive loop on a whole stream. */
  function Receive(b: Bytes): (r: Received)
    decreases |b|
  {
    match NextRound(b)
    case Ended(end, rest) => Received([], end, rest)
    case Got(data, rest) =>
      var r := Receive(rest);
      r.(written := data + r.written)
  }

  lemma HeaderParses(id: Bytes, size: Word, rest: Bytes)
    requires |id| == 4
    ensures var b := Header(id, size) + rest; b[..4] == id && Size(b) == size && b[8..] == rest
  {
    BytesOfWord(size);
  }

  /**
   One round, exactly, by the header at the head of the stream: DONE finishes; any id
   but DATA is a remote error; a size over the limit is an overrun, or slips through
   the signed test from 2^31 on; otherwise the data, if all of it is there.
   */
  lemma RoundExactly(id: Bytes, size: Word, rest: Bytes)
    requires |id| == 4
    ensures var r := NextRound(Header(id, size) + rest);
            if id == DONE then r == Ended(Finished, rest)
            else if id != DATA then r == Ended(RemoteError(id, size), rest)
            else if size >= 0x8000_0000 then r == Ended(OutOfBuffer, rest)
            else if size > SYNC_DATA_MAX then r == Ended(Overrun, rest)
            else if |rest| < size then r == Ended(Cut, [])
            else r.Got? && r.data + r.rest == rest && |r.data| == size
  {
    HeaderParses(id, size, rest);
  }

  lemma ReceiveDone(mtime: Word, rest: Bytes)
    ensures Receive(Header(DONE, mtime) + rest) == Received([], Finished, rest)
  {
    HeaderParses(DONE, mtime, rest);
  }

  lemma ReceiveChunk(data: Bytes, more: Bytes)
    requires |data| <= SYNC_DATA_MAX
    ensures var r := Receive(more);
            Receive(Chunk(data) + more) == r.(written := data + r.written)
  {
    HeaderParses(DATA, |data|, data + more);
    assert Chunk(data) + more == Header(DATA, |data|) + (data + more);
    assert (data + more)[..|data|] == data && (data + more)[|data|..] == more;
  }

  /** Any run of chunks that fit, closed by DONE, comes back joined, and nothing after DONE is read. */
  lemma {:induction false} ReceiveEmit(pieces: seq<Bytes>, mtime: Word, rest: Bytes)
    requires Fits(pieces)
    ensures Receive(Emit(pieces) + Header(DONE, mtime) + rest)
            == Received(Joined(pieces), Finished, rest)
  {
    var done := Header(DONE, mtime);
    if pieces == [] {
      ReceiveDone(mtime, rest);
      assert Emit(pieces) + done + rest == done + rest;
    } else {
      ReceiveEmit(pieces[1..], mtime, rest);
      ReceiveChunk(pieces[0], Emit(pieces[1..]) + done + rest);
      Regroup(Chunk(pieces[0]), Emit(pieces[1..]), done);
      Regroup(Chunk(pieces[0]), Emit(pieces[1..]) + done, rest);
    }
  }

  /** What sync_send makes of a file, sync_recv turns back into that file and stops at DONE. */
  lemma SyncRoundTrip(buf: Bytes, mtime: Word, rest: Bytes)
    ensures Receive(Sent(buf, mtime) + rest) == Received(buf, Finished, rest)
  {
    PiecesPartition(buf);
    ReceiveEmit(Pieces(buf), mtime, rest);
  }

  // ----- uploads cut short

  /** The first eight bytes of a header cut short and of the DONE that follows it. */
  lemma CutBytes(h: Bytes, c: Bytes, done: Bytes)
    requires |h| == 8 && h[..4] == DATA && |done| == 8 && done[..4] == DONE && 0 < |c| < 8 && c == h[..|c|]
    ensures var b := c + done;
            if |c| < 4 then b[..4] != DATA && b[..4] != DONE
            else b[..4] == DATA && 0x44 <= b[7] <= 0x4f
  {
    var b := c + done;
    assert done[0] == DONE[0] && done[1] == DONE[1] && done[2] == DONE[2] && done[3] == DONE[3];
    if |c| < 4 {
      assert b[|c|] == 0x44 && h[..4][|c|] != 0x44;
      assert b[..4][|c|] != DATA[|c|];
      assert b[..4][1] == (if |c| == 1 then 0x44 else h[..4][1]) != DONE[1];
    } else {
      assert b[..4] == h[..4];
      assert b[7] == done[7 - |c|];
    }
  }

  lemma WrongHeader(b: Bytes)
    requires |b| >= 8
    requires (b[..4] != DATA && b[..4] != DONE) || (b[..4] == DATA && 0x44 <= b[7] <= 0x4f)
    ensures Receive(b).end != Finished
  {
    assert b[..4] == DATA ==> SYNC_DATA_MAX < Size(b) < 0x8000_0000;
  }

  /** A chunk cut within its header runs into the letters of DONE, which make a wrong id or a huge size. */
  lemma CutHeader(data: Bytes, c: Bytes, mtime: Word)
    requires |data| <= SYNC_DATA_MAX && 0 < |c| < 8 && c <= Chunk(data)
    ensures Receive(c + Header(DONE, mtime)).end != Finished
  {
    var h := Header(DATA, |data|);
    assert c == h[..|c|] by {
      assert c == Chunk(data)[..|c|];
    }
    CutBytes(h, c, Header(DONE, mtime));
    WrongHeader(c + Header(DONE, mtime));
  }

  /** A chunk cut within its data swallows DONE, in part or whole, and nothing is left to end the file. */
  lemma CutData(data: Bytes, c: Bytes, mtime: Word)
    requires |data| <= SYNC_DATA_MAX && 8 <= |c| < 8 + |data| && c <= Chunk(data)
    ensures Receive(c + Header(DONE, mtime)).end != Finished
  {
    var h, done := Header(DATA, |data|), Header(DONE, mtime);
    var rest := c[8..] + done;
    assert c == h + c[8..] by {
      assert c[..8] == Chunk(data)[..8] == h;
    }
    Regroup(h, c[8..], done);
    DataRound(|data|, rest);
    if |rest| >= |data| {
      ShortIsCut(rest[|data|..]);
    }
  }

  lemma DataRound(size: nat, rest: Bytes)
    requires size <= SYNC_DATA_MAX
    ensures NextRound(Header(DATA, size) + rest)
            == if |rest| < size then Ended(Cut, []) else Got(rest[..size], rest[size..])
  {
    HeaderParses(DATA, size, rest);
  }

  lemma ShortIsCut(b: Bytes)
    requires |b| < 8
    ensures Receive(b).end == Cut
  {
  }

  lemma Cancel(e: Bytes, a: Bytes, b: Bytes)
    requires e + a == e + b
    ensures a == b
  {
    assert (e + a)[|e|..] == a && (e + b)[|e|..] == b;
  }

  lemma {:induction false} EmitLength(pieces: seq<Bytes>, k: nat)
    requires Fits(pieces) && 0 < k <= |pieces|
    ensures |Emit(pieces[..k])| >= |Chunk(pieces[0])|
  {
    assert pieces[..k][0] == pieces[0];
  }

  /** c ends where one of the chunks does. */
  ghost predicate AtBoundary(pieces: seq<Bytes>, c: Bytes)
  {
    Fits(pieces) && exists k :: 0 <= k <= |pieces| && c == Emit(pieces[..k])
  }

  /** Of all uploads cut short, exactly those cut between chunks are received as complete. */
  lemma {:induction false} CutExactly(pieces: seq<Bytes>, c: Bytes, mtime: Word)
    requires Fits(pieces) && c <= Emit(pieces)
    ensures Receive(c + Header(DONE, mtime)).end == Finished <==> AtBoundary(pieces, c)
  {
    if c == [] {
      ReceiveDone(mtime, []);
      assert c + Header(DONE, mtime) == Header(DONE, mtime) + [];
      assert c == Emit(pieces[..0]);
    } else {
      var e, more := Chunk(pieces[0]), Emit(pieces[1..]);
      SplitPrefix(e, more, c);
      if |c| < |e| {
        CutChunk(pieces, c, mtime);
      } else {
        var c1 := c[|e|..];
        CutExactly(pieces[1..], c1, mtime);
        ReceiveChunk(pieces[0], c1 + Header(DONE, mtime));
        Regroup(e, c1, Header(DONE, mtime));
        BoundaryCons(pieces, c1);
      }
    }
  }

  lemma CutChunk(pieces: seq<Bytes>, c: Bytes, mtime: Word)
    requires Fits(pieces) && pieces != [] && 0 < |c| < |Chunk(pieces[0])| && c <= Chunk(pieces[0])
    ensures Receive(c + Header(DONE, mtime)).end != Finished && !AtBoundary(pieces, c)
  {
    if |c| < 8 {
      CutHeader(pieces[0], c, mtime);
    } else {
      CutData(pieces[0], c, mtime);
    }
    forall k | 0 <= k <= |pieces|
      ensures c != Emit(pieces[..k])
    {
      if k > 0 {
        EmitLength(pieces, k);
      }
    }
  }

  lemma BoundaryCons(pieces: seq<Bytes>, c: Bytes)
    requires Fits(pieces) && pieces != []
    ensures AtBoundary(pieces, Chunk(pieces[0]) + c) <==> AtBoundary(pieces[1..], c)
  {
    var e := Chunk(pieces[0]);
    forall k | 0 < k <= |pieces|
      ensures Emit(pieces[..k]) == e + Emit(pieces[1..][..k - 1])
    {
      assert pieces[..k][1..] == pieces[1..][..k - 1];
    }
    if AtBoundary(pieces[1..], c) {
      var k :| 0 <= k <= |pieces[1..]| && c == Emit(pieces[1..][..k]);
      assert Emit(pieces[..k + 1]) == e + c;
    }
    if AtBoundary(pieces, e + c) {
      var k :| 0 <= k <= |pieces| && e + c == Emit(pieces[..k]);
      assert k > 0;
      Cancel(e, c, Emit(pieces[1..][..k - 1]));
    }
  }

  /**
   sync_send ignores a failed data write and sends DONE: the far end takes what it
   got for the complete file exactly if the write failed between two chunks, and
   then has the beginning of the file.
   */
  lemma TruncatedUpload(buf: Bytes, c: Bytes, mtime: Word)
    requires c <= Emitted(buf)
    ensures var r := Receive(c + Header(DONE, mtime));
            && (r.end == Finished <==> AtBoundary(Pieces(buf), c))
            && (r.end == Finished ==> r.written <= buf && (r.written == buf <==> c == Emitted(buf)))
  {
    PiecesPartition(buf);
    var ps := Pieces(buf);
    CutExactly(ps, c, mtime);
    if AtBoundary(ps, c) {
      var k :| 0 <= k <= |ps| && c == Emit(ps[..k]);
      ReceiveEmit(ps[..k], mtime, []);
      assert c + Header(DONE, mtime) + [] == c + Header(DONE, mtime);
      JoinedPrefix(ps, k);
      if k == |ps| {
        assert ps[..k] == ps;
      }
    }
  }

  lemma {:induction false} JoinedPrefix(pieces: seq<Bytes>, k: nat)
    requires Fits(pieces) && k <= |pieces| && forall i :: 0 <= i < |pieces| ==> pieces[i] != []
    ensures Joined(pieces[..k]) <= Joined(pieces)
    ensures k < |pieces| ==> |Joined(pieces[..k])| < |Joined(pieces)| && |Emit(pieces[..k])| < |Emit(pieces)|
  {
    if k > 0 {
      assert pieces[..k][1..] == pieces[1..][..k - 1];
      JoinedPrefix(pieces[1..], k - 1);
    }
  }

  /** A header's eight bytes are determined by what is read from them. */
  lemma HeaderDetermined(b: Bytes)
    requires |b| >= 8
    ensures b == Header(b[..4], Size(b)) + b[8..]
  {
    WordOfBytes(b[4], b[5], b[6], b[7]);
  }

  /** A round that yields data has read exactly the chunk that holds it, one that finishes a DONE. */
  lemma RoundSound(b: Bytes)
    ensures match NextRound(b)
            case Got(data, rest) => b == Chunk(data) + rest
            case Ended(end, rest) => end == Finished ==> b == Header(DONE, Size(b)) + rest
  {
    if |b| >= 8 {
      HeaderDetermined(b);
      match NextRound(b) {
        case Got(data, rest) => Regroup(Header(DATA, Size(b)), data, rest);
        case _ =>
      }
    }
  }

  /** Only a run of chunks closed by DONE is received as a whole file. */
  lemma {:induction false} ReceiveSound(b: Bytes) returns (pieces: seq<Bytes>, mtime: Word)
    requires Receive(b).end == Finished
    ensures Fits(pieces) && Joined(pieces) == Receive(b).written
    ensures b == Emit(pieces) + Header(DONE, mtime) + Receive(b).rest
    decreases |b|
  {
    RoundSound(b);
    match NextRound(b)
    case Ended(_, _) =>
      pieces, mtime := [], Size(b);
    case Got(data, rest) =>
      var tail;
      tail, mtime := ReceiveSound(rest);
      pieces := [data] + tail;
      assert pieces[1..] == tail;
      Regroup(Chunk(data), Emit(tail), Header(DONE, mtime));
      Regroup(Chunk(data), Emit(tail) + Header(DONE, mtime), Receive(rest).rest);
  }

  /** The overrun guard stops a chunk that exceeds the buffer exactly when its size fits a signed word. */
  lemma OverrunExact(size: Word, rest: Bytes)
    requires size > SYNC_DATA_MAX
    ensures Receive(Header(DATA, size) + rest).end == Overrun <==> size < 0x8000_0000
  {
    HeaderParses(DATA, size, rest);
  }

  /** The reads of one round, either of which may fail. */
  method ReadRound(big: bool, stream: Bytes, script: seq<Io>, script1: seq<Io>) returns (r: Round)
    ensures r == NextRound(stream) || (r.Ended? && r.end == Cut)
    ensures Serves(script, Min(8, |stream|)) && Serves(script1, SYNC_DATA_MAX) && r.Ended?
            ==> NextRound(stream).Ended? && NextRound(stream).end == r.end
  {
    var ok, header, body := ReadX(stream, 8, script);
    if !ok {
      return Ended(Cut, []);
    }
    assert stream[..4] == header[..4] && stream[8..] == body;
    RawId(big, header[..4], DATA);
    RawId(big, header[..4], DONE);
    var id, size := Load(big, header[..4]), RawSize(big, header);
    if id == MkId(big, DONE) {
      return Ended(Finished, body);
    } else if id != MkId(big, DATA) {
      return Ended(RemoteError(header[..4], size), body);
    } else if Signed(size) > SYNC_DATA_MAX {
      return Ended(Overrun, body);
    } else if Signed(size) < 0 {
      return Ended(OutOfBuffer, body);
    }
    if Serves(script1, SYNC_DATA_MAX) {
      ServesFewer(script1, SYNC_DATA_MAX, Min(size, |body|));
    }
    var ok1, data, after := ReadX(body, size, script1);
    if !ok1 {
      return Ended(Cut, []);
    }
    assert body[..size] == data && body[size..] == after;
    return Got(data, after);
  }

  /** The loop of sync_recv: reads from the connection and writes to the local file, both of which may fail. */
  method SyncRecv(big: bool, stream: Bytes, io: nat -> seq<Io>, file: nat -> seq<Io>, before: Word)
    returns (end: End, written: Bytes, rest: Bytes, totalBytes: Word)
    ensures written <= Receive(stream).written
    ensures end != Cut ==> Received(written, end, rest) == Receive(stream)
    ensures end != Cut ==> totalBytes == Wrapped(before + |written|)
    ensures Patient(io) && Patient(file) ==> end == Receive(stream).end
  {
    written, rest, totalBytes := [], stream, before;
    ghost var whole := Receive(stream);
    var k: nat := 0;
    while true
      invariant whole == Receive(rest).(written := written + Receive(rest).written)
      invariant totalBytes == Wrapped(before + |written|)
      decreases |rest|
    {
      Patience(io, 2 * k, Min(8, |rest|));
      Patience(io, 2 * k + 1, SYNC_DATA_MAX);
      var round := ReadRound(big, rest, io(2 * k), io(2 * k + 1));
      if round.Ended? {
        return round.end, written, round.rest, totalBytes;
      }
      var data, after := round.data, round.rest;
      Patience(file, k, |data|);
      var ok, stored := WriteX(data, file(k));
      assert whole.written == written + (data + Receive(after).written);
      assert whole.written == written + data + Receive(after).written;
      if !ok {
        return Cut, written + stored, after, totalBytes;
      }
      totalBytes := Count(before, |written|, totalBytes, |data|);
      written, rest := written + data, after;
      k := k + 1;
    }
  }
}
