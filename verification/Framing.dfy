/**
 Packets on the wire: the 24-byte header in little-endian order whatever the
 byte order of either machine, the checksum, and the loops that move it through
 short reads and writes.
 */
module Framing {
  import opened Basics

  type Word = x: int | 0 <= x < 0x1_0000_0000

  const ALL_ONES: Word := 0xffff_ffff

  /** The header of a packet, in the order of its fields in memory. */
  datatype Msg = Msg(command: Word, arg0: Word, arg1: Word, dataLength: Word, dataCheck: Word, magic: Word)

  datatype APacket = APacket(msg: Msg, data: Bytes)

  // ----- words

  /** Byte k of w, counted from the least significant one. */
  function ByteOf(w: Word, k: nat): (r: Byte)
    requires k < 4
  {
    match k
    case 0 => w % 0x100
    case 1 => w / 0x100 % 0x100
    case 2 => w / 0x100 / 0x100 % 0x100
    case _ => w / 0x100 / 0x100 / 0x100 % 0x100
  }

  function FromBytes(a: Byte, b: Byte, c: Byte, d: Byte): (r: Word)
  {
    a + 0x100 * (b + 0x100 * (c + 0x100 * d))
  }

  lemma BytesOfWord(w: Word)
    ensures FromBytes(ByteOf(w, 0), ByteOf(w, 1), ByteOf(w, 2), ByteOf(w, 3)) == w
  {
  }

  lemma SplitByte(a: Byte, r: nat)
    ensures (a + 0x100 * r) / 0x100 == r && (a + 0x100 * r) % 0x100 == a
  {
  }

  lemma WordOfBytes(a: Byte, b: Byte, c: Byte, d: Byte)
    ensures var w := FromBytes(a, b, c, d);
            ByteOf(w, 0) == a && ByteOf(w, 1) == b && ByteOf(w, 2) == c && ByteOf(w, 3) == d
  {
    SplitByte(c, d);
    SplitByte(b, c + 0x100 * d);
    SplitByte(a, b + 0x100 * (c + 0x100 * d));
  }

  /** H4: the byte order of w reversed. */
  function H4(w: Word): (r: Word)
  {
    FromBytes(ByteOf(w, 3), ByteOf(w, 2), ByteOf(w, 1), ByteOf(w, 0))
  }

  /** fix_endians on one field: nothing on a little-endian machine. */
  function Fix(big: bool, w: Word): (r: Word)
  {
    if big then H4(w) else w
  }

  /** How a machine lays out a word in memory, and reads it back. */
  function Store(big: bool, w: Word): (r: Bytes)
    ensures |r| == 4
  {
    if big then [ByteOf(w, 3), ByteOf(w, 2), ByteOf(w, 1), ByteOf(w, 0)]
    else [ByteOf(w, 0), ByteOf(w, 1), ByteOf(w, 2), ByteOf(w, 3)]
  }

  function Load(big: bool, b: Bytes): (r: Word)
    requires |b| == 4
  {
    if big then FromBytes(b[3], b[2], b[1], b[0]) else FromBytes(b[0], b[1], b[2], b[3])
  }

  /** On the wire a word is little-endian, whichever machine wrote it ... */
  lemma WireOrder(big: bool, w: Word)
    ensures Store(big, Fix(big, w)) == Store(false, w)
  {
    WordOfBytes(ByteOf(w, 3), ByteOf(w, 2), ByteOf(w, 1), ByteOf(w, 0));
  }

  /** ... and whichever machine reads it. */
  lemma WireLoad(big: bool, w: Word)
    ensures Fix(big, Load(big, Store(false, w))) == w
  {
    BytesOfWord(w);
    WordOfBytes(ByteOf(w, 3), ByteOf(w, 2), ByteOf(w, 1), ByteOf(w, 0));
  }

  lemma LoadWire(big: bool, b: Bytes)
    requires |b| == 4
    ensures Store(false, Fix(big, Load(big, b))) == b
  {
    WordOfBytes(b[0], b[1], b[2], b[3]);
    WordOfBytes(b[3], b[2], b[1], b[0]);
  }

  // ----- headers and checksums

  function Sum(data: Bytes): (r: nat)
  {
    if data == [] then 0 else data[0] + Sum(data[1..])
  }

  lemma {:induction false} SumBound(data: Bytes)
    ensures Sum(data) <= 255 * |data|
  {
    if data != [] {
      SumBound(data[1..]);
    }
  }

  lemma {:induction false} SumAppend(data: Bytes, b: Byte)
    ensures Sum(data + [b]) == Sum(data) + b
  {
    if data == [] {
      assert [b][1..] == [];
    } else {
      assert (data + [b])[1..] == data[1..] + [b];
      SumAppend(data[1..], b);
    }
  }

  lemma AddWraps(a: nat, b: nat)
    ensures (a % 0x1_0000_0000 + b) % 0x1_0000_0000 == (a + b) % 0x1_0000_0000
  {
  }

  /** The checksum loop of send_packet and check_data, in 32-bit arithmetic. */
  method Checksum(data: Bytes) returns (sum: Word)
    ensures sum == Sum(data) % 0x1_0000_0000
    ensures |data| <= MAX_PAYLOAD ==> sum == Sum(data)
  {
    sum := 0;
    for i := 0 to |data|
      invariant sum == Sum(data[..i]) % 0x1_0000_0000
    {
      SumAppend(data[..i], data[i]);
      assert data[..i + 1] == data[..i] + [data[i]];
      AddWraps(Sum(data[..i]), data[i]);
      sum := (sum + data[i]) % 0x1_0000_0000;
    }
    assert data[..|data|] == data;
    SumBound(data);
  }

  /** What send_packet makes of a message and its payload. */
  function Sealed(command: Word, arg0: Word, arg1: Word, data: Bytes): (p: APacket)
    requires |data| <= MAX_PAYLOAD
  {
    SumBound(data);
    APacket(Msg(command, arg0, arg1, |data|, Sum(data), ALL_ONES - command), data)
  }

  /** The magic word is the command with every bit inverted, which is what check_header wants. */
  lemma MagicIsComplement(command: Word, arg0: Word, arg1: Word, data: Bytes, k: nat)
    requires |data| <= MAX_PAYLOAD && k < 4
    ensures ByteOf(Sealed(command, arg0, arg1, data).msg.magic, k) == 255 - ByteOf(command, k)
    ensures HeaderOk(Sealed(command, arg0, arg1, data).msg)
  {
    BytesOfWord(command);
    WordOfBytes(255 - ByteOf(command, 0), 255 - ByteOf(command, 1),
                255 - ByteOf(command, 2), 255 - ByteOf(command, 3));
  }

  ghost predicate WellFormed(p: APacket)
  {
    && |p.data| <= MAX_PAYLOAD
    && p == Sealed(p.msg.command, p.msg.arg0, p.msg.arg1, p.data)
  }

  /** The six header fields as remote_write hands them to the socket. */
  function HeaderBytes(big: bool, m: Msg): (r: Bytes)
    ensures |r| == 24
  {
    Store(big, Fix(big, m.command)) + Store(big, Fix(big, m.arg0)) + Store(big, Fix(big, m.arg1))
    + Store(big, Fix(big, m.dataLength)) + Store(big, Fix(big, m.dataCheck)) + Store(big, Fix(big, m.magic))
  }

  /** The bytes of remote_write: header and payload. */
  function Encode(big: bool, p: APacket): (r: Bytes)
  {
    HeaderBytes(big, p.msg) + p.data
  }

  /** The header as remote_read sees it after fix_endians. */
  function ParseHeader(big: bool, b: Bytes): (m: Msg)
    requires |b| == 24
  {
    Msg(Fix(big, Load(big, b[0..4])), Fix(big, Load(big, b[4..8])), Fix(big, Load(big, b[8..12])),
        Fix(big, Load(big, b[12..16])), Fix(big, Load(big, b[16..20])), Fix(big, Load(big, b[20..24])))
  }

  predicate HeaderOk(m: Msg)
  {
    m.magic == ALL_ONES - m.command && m.dataLength <= MAX_PAYLOAD
  }

  /** The part of remote_read after the header m has been read: payload and checksum. */
  function ReadBody(m: Msg, b: Bytes): (r: Option<(APacket, Bytes)>)
  {
    if !HeaderOk(m) || |b| < m.dataLength then None
    else
      var data := b[..m.dataLength];
      if Sum(data) % 0x1_0000_0000 != m.dataCheck then None
      else Some((APacket(m, data), b[m.dataLength..]))
  }

  /** remote_read on a byte stream: the packet and what follows it, or a failure. */
  function Decode(big: bool, b: Bytes): (r: Option<(APacket, Bytes)>)
  {
    if |b| < 24 then None else ReadBody(ParseHeader(big, b[..24]), b[24..])
  }

  lemma HeaderRoundTrip(writer: bool, reader: bool, m: Msg)
    ensures ParseHeader(reader, HeaderBytes(writer, m)) == m
  {
    HeaderSlices(writer, m);
    WireLoad(reader, m.command);
    WireLoad(reader, m.arg0);
    WireLoad(reader, m.arg1);
    WireLoad(reader, m.dataLength);
    WireLoad(reader, m.dataCheck);
    WireLoad(reader, m.magic);
  }

  lemma HeaderSlices(big: bool, m: Msg)
    ensures var h := HeaderBytes(big, m);
            && h[0..4] == Store(false, m.command) && h[4..8] == Store(false, m.arg0)
            && h[8..12] == Store(false, m.arg1) && h[12..16] == Store(false, m.dataLength)
            && h[16..20] == Store(false, m.dataCheck) && h[20..24] == Store(false, m.magic)
  {
    WireOrder(big, m.command);
    WireOrder(big, m.arg0);
    WireOrder(big, m.arg1);
    WireOrder(big, m.dataLength);
    WireOrder(big, m.dataCheck);
    WireOrder(big, m.magic);
  }

  lemma Cut24(b: Bytes)
    requires |b| == 24
    ensures b == b[0..4] + b[4..8] + b[8..12] + b[12..16] + b[16..20] + b[20..24]
  {
  }

  lemma HeaderUnique(writer: bool, reader: bool, b: Bytes)
    requires |b| == 24
    ensures HeaderBytes(writer, ParseHeader(reader, b)) == b
  {
    var m := ParseHeader(reader, b);
    var h := HeaderBytes(writer, m);
    assert h[0..4] == b[0..4] && h[4..8] == b[4..8] && h[8..12] == b[8..12]
           && h[12..16] == b[12..16] && h[16..20] == b[16..20] && h[20..24] == b[20..24]
    by {
      HeaderSlices(writer, m);
      LoadWire(reader, b[0..4]);
      LoadWire(reader, b[4..8]);
      LoadWire(reader, b[8..12]);
      LoadWire(reader, b[12..16]);
      LoadWire(reader, b[16..20]);
      LoadWire(reader, b[20..24]);
    }
    Cut24(h);
    Cut24(b);
  }

  lemma Join(h: Bytes, data: Bytes, rest: Bytes)
    ensures var b := h + data + rest;
            && b[..|h|] == h && b[|h|..] == data + rest
            && (data + rest)[..|data|] == data && (data + rest)[|data|..] == rest
  {
  }

  lemma BodyRoundTrip(p: APacket, rest: Bytes)
    requires WellFormed(p)
    ensures ReadBody(p.msg, p.data + rest) == Some((p, rest))
  {
    Join([], p.data, rest);
    SumBound(p.data);
  }

  /** A packet written by either kind of machine is read back by either kind. */
  lemma RoundTrip(writer: bool, reader: bool, p: APacket, rest: Bytes)
    requires WellFormed(p)
    ensures Decode(reader, Encode(writer, p) + rest) == Some((p, rest))
  {
    Join(HeaderBytes(writer, p.msg), p.data, rest);
    HeaderRoundTrip(writer, reader, p.msg);
    BodyRoundTrip(p, rest);
  }

  lemma BodySound(m: Msg, b: Bytes)
    requires ReadBody(m, b).Some?
    ensures var (p, rest) := ReadBody(m, b).value; WellFormed(p) && p.msg == m && b == p.data + rest
  {
    SumBound(b[..m.dataLength]);
  }

  /** Whatever remote_read accepts is a well-formed packet, written byte for byte as it was read. */
  lemma DecodeSound(writer: bool, reader: bool, b: Bytes)
    requires Decode(reader, b).Some?
    ensures var (p, rest) := Decode(reader, b).value; WellFormed(p) && b == Encode(writer, p) + rest
  {
    HeaderUnique(writer, reader, b[..24]);
    BodySound(ParseHeader(reader, b[..24]), b[24..]);
    var (p, rest) := Decode(reader, b).value;
    assert b == b[..24] + b[24..];
    assert b[..24] + (p.data + rest) == b[..24] + p.data + rest;
  }

  function EncodeAll(big: bool, ps: seq<APacket>): (r: Bytes)
  {
    if ps == [] then [] else Encode(big, ps[0]) + EncodeAll(big, ps[1..])
  }

  /** Reading packets until the stream is exhausted; None if one is bad or cut short. */
  function DecodeAll(big: bool, b: Bytes): (r: Option<seq<APacket>>)
    decreases |b|
  {
    if b == [] then Some([])
    else
      var d := Decode(big, b);
      if d == None then None
      else
        var (p, rest) := d.value;
        var more := DecodeAll(big, rest);
        if more == None then None else Some([p] + more.value)
  }

  /** Any sequence of packets survives the wire. */
  lemma {:induction false} RoundTripAll(writer: bool, reader: bool, ps: seq<APacket>)
    requires forall i :: 0 <= i < |ps| ==> WellFormed(ps[i])
    ensures DecodeAll(reader, EncodeAll(writer, ps)) == Some(ps)
  {
    if ps != [] {
      RoundTrip(writer, reader, ps[0], EncodeAll(writer, ps[1..]));
      RoundTripAll(writer, reader, ps[1..]);
      Uncons(ps, []);
    }
  }

  lemma {:induction false} SumUpdate(data: Bytes, i: nat, b: Byte)
    requires i < |data|
    ensures Sum(data[i := b]) == Sum(data) - data[i] + b
  {
    if i != 0 {
      assert data[i := b][1..] == data[1..][i - 1 := b];
      SumUpdate(data[1..], i - 1, b);
    } else {
      assert data[0 := b][1..] == data[1..];
    }
  }

  lemma BodyDamaged(p: APacket, rest: Bytes, i: nat, b: Byte)
    requires WellFormed(p) && i < |p.data| && b != p.data[i]
    ensures ReadBody(p.msg, p.data[i := b] + rest) == None
  {
    Join([], p.data[i := b], rest);
    SumUpdate(p.data, i, b);
    SumBound(p.data[i := b]);
    SumBound(p.data);
  }

  /** A packet with one payload byte changed in flight is rejected. */
  lemma DamageDetected(writer: bool, reader: bool, p: APacket, rest: Bytes, i: nat, b: Byte)
    requires WellFormed(p) && i < |p.data| && b != p.data[i]
    ensures Decode(reader, Encode(writer, p.(data := p.data[i := b])) + rest) == None
  {
    Join(HeaderBytes(writer, p.msg), p.data[i := b], rest);
    HeaderRoundTrip(writer, reader, p.msg);
    BodyDamaged(p, rest, i, b);
  }

  // ----- short reads and writes

  /** One answer of adb_read or adb_write: at most n bytes moved, EINTR, or an error or end of file. */
  datatype Io = Moved(n: nat) | Eintr | Fails

  /** How many of the bytes wanted a run of answers moves before a failure ends it. */
  function Progress(script: seq<Io>, want: nat): (r: nat)
    ensures r <= want
  {
    if want == 0 || script == [] || script[0].Fails? || script[0] == Moved(0) then 0
    else if script[0].Eintr? then Progress(script[1..], want)
    else
      var k := Min(script[0].n, want);
      k + Progress(script[1..], want - k)
  }

  /** The bytes that answers move, EINTR moving none. */
  function MovedSum(script: seq<Io>): (n: nat)
  {
    if script == [] then 0 else (if script[0].Moved? then script[0].n else 0) + MovedSum(script[1..])
  }

  predicate Stops(w: Io)
  {
    w.Fails? || w == Moved(0)
  }

  /** Progress, exactly: what the answers before the first failure or 0 move, up to what is wanted; EINTR is retried. */
  lemma {:induction false} ProgressExactly(script: seq<Io>, want: nat, j: nat)
    requires j <= |script| && (forall i :: 0 <= i < j ==> !Stops(script[i])) && (j < |script| ==> Stops(script[j]))
    ensures Progress(script, want) == Min(want, MovedSum(script[..j]))
  {
    if want > 0 && j > 0 {
      assert script[..j][1..] == script[1..][..j - 1];
      assert forall i :: 0 <= i < j - 1 ==> script[1..][i] == script[i + 1];
      ProgressExactly(script[1..], want - (if script[0].Moved? then Min(script[0].n, want) else 0), j - 1);
    }
  }

  predicate Serves(script: seq<Io>, want: nat)
  {
    Progress(script, want) == want
  }

  /** Answers good for many bytes are good for fewer. */
  lemma {:induction false} ServesFewer(script: seq<Io>, want: nat, fewer: nat)
    requires Serves(script, want) && fewer <= want
    ensures Serves(script, fewer)
  {
    if fewer != 0 {
      if script[0].Eintr? {
        ServesFewer(script[1..], want, fewer);
      } else {
        var n := script[0].n;
        ServesFewer(script[1..], want - Min(n, want), fewer - Min(n, fewer));
      }
    }
  }

  /** Answers that never fail and number at least as many as the bytes wanted get them all moved. */
  lemma {:induction false} PatientServes(script: seq<Io>, want: nat)
    requires forall i :: 0 <= i < |script| ==> script[i].Moved? && script[i].n > 0
    requires want <= |script|
    ensures Serves(script, want)
  {
    if want != 0 {
      PatientServes(script[1..], want - Min(script[0].n, want));
    }
  }

  /** writex: all of buf, unless a write fails; running out of answers is a failure. */
  method WriteX(buf: Bytes, script: seq<Io>) returns (ok: bool, written: Bytes)
    ensures written == buf[..Progress(script, |buf|)]
    ensures ok <==> Serves(script, |buf|)
    ensures ok <==> written == buf
  {
    var p := MoveX(|buf|, script);
    return p == |buf|, buf[..p];
  }

  /** readx: exactly len bytes of the stream, unless a read fails or the stream ends. */
  method ReadX(stream: Bytes, len: nat, script: seq<Io>) returns (ok: bool, got: Bytes, rest: Bytes)
    ensures got == stream[..Progress(script, Min(len, |stream|))]
    ensures stream == got + rest
    ensures ok <==> |got| == len
  {
    var most := Min(len, |stream|);
    var p := MoveX(most, script);
    return p == len, stream[..p], stream[p..];
  }

  /** The common loop: how far the answers get before one fails or nothing more is there. */
  method MoveX(most: nat, script: seq<Io>) returns (p: nat)
    ensures p == Progress(script, most)
  {
    p := 0;
    var j := 0;
    while p < most && j < |script| && !script[j].Fails? && script[j] != Moved(0)
      invariant p <= most && j <= |script|
      invariant p + Progress(script[j..], most - p) == Progress(script, most)
      decreases |script| - j
    {
      if script[j].Moved? {
        p := p + Min(script[j].n, most - p);
      }
      j := j + 1;
    }
  }

  /** remote_write: the header is byte-swapped in place, then sent with the payload. */
  method RemoteWrite(p: APacket, big: bool, script: seq<Io>) returns (ok: bool, out: Bytes)
    requires p.msg.dataLength == |p.data|
    ensures out <= Encode(big, p) && (ok <==> out == Encode(big, p))
    ensures ok <==> Serves(script, 24 + |p.data|)
  {
    ok, out := WriteX(HeaderBytes(big, p.msg) + p.data, script);
  }

  /** The second half of remote_read: payload and checksum; complete says that no read failed. */
  method ReadPayload(m: Msg, stream: Bytes, script: seq<Io>) returns (complete: bool, p: Option<APacket>, rest: Bytes)
    requires HeaderOk(m)
    ensures p.Some? ==> complete && ReadBody(m, stream) == Some((p.value, rest))
    ensures complete && p == None ==> ReadBody(m, stream) == None
    ensures !complete ==> !Serves(script, m.dataLength) || |stream| < m.dataLength
  {
    var ok, data, after := ReadX(stream, m.dataLength, script);
    if !ok {
      return false, None, after;
    }
    assert stream[..m.dataLength] == data && stream[m.dataLength..] == after;
    var sum := Checksum(data);
    return true, if sum == m.dataCheck then Some(APacket(m, data)) else None, after;
  }

  /** remote_read: the packet at the head of the stream, if it is good and the reads are served. */
  method RemoteRead(stream: Bytes, big: bool, script: seq<Io>, script1: seq<Io>)
    returns (complete: bool, p: Option<APacket>, rest: Bytes)
    ensures p.Some? ==> complete && Decode(big, stream) == Some((p.value, rest))
    ensures complete && p == None ==> Decode(big, stream) == None
    ensures Serves(script, 24) && Serves(script1, MAX_PAYLOAD) && Decode(big, stream).Some? ==> p.Some?
  {
    var ok, header, body := ReadX(stream, 24, script);
    if !ok {
      return false, None, body;
    }
    assert stream[..24] == header && stream[24..] == body;
    var m := ParseHeader(big, header);
    if !HeaderOk(m) {
      return true, None, body;
    }
    complete, p, rest := ReadPayload(m, body, script1);
    if Serves(script1, MAX_PAYLOAD) {
      ServesFewer(script1, MAX_PAYLOAD, m.dataLength);
    }
  }

  // ----- sequences of packets under any schedule

  /** The packets the output thread gets out of a stream before one is bad or cut short. */
  function DecodeMany(big: bool, b: Bytes): (ps: seq<APacket>)
    decreases |b|
  {
    match Decode(big, b)
    case None => []
    case Some((p, rest)) => [p] + DecodeMany(big, rest)
  }

  /** A packet cut short is not decoded. */
  lemma CutShort(writer: bool, reader: bool, p: APacket, b: Bytes)
    requires WellFormed(p) && b <= Encode(writer, p) && b != Encode(writer, p)
    ensures Decode(reader, b) == None
  {
    if |b| >= 24 {
      var h := HeaderBytes(writer, p.msg);
      assert b[..24] == h by {
        assert b[..24] == Encode(writer, p)[..24] == h;
      }
      HeaderRoundTrip(writer, reader, p.msg);
    }
  }

  lemma SplitPrefix(e: Bytes, more: Bytes, b: Bytes)
    requires b <= e + more
    ensures |b| < |e| ==> b <= e
    ensures |b| >= |e| ==> b == e + b[|e|..] && b[|e|..] <= more && (b == e + more ==> b[|e|..] == more)
  {
  }

  lemma Uncons(ps: seq<APacket>, qs: seq<APacket>)
    requires ps != []
    ensures [ps[0]] + ps[1..] == ps
    ensures qs <= ps[1..] ==> [ps[0]] + qs <= ps
  {
  }

  /** Whatever part of the bytes arrives, the packets that come out are the first of those sent. */
  lemma {:induction false} PrefixDelivered(writer: bool, reader: bool, ps: seq<APacket>, b: Bytes)
    requires forall i :: 0 <= i < |ps| ==> WellFormed(ps[i])
    requires b <= EncodeAll(writer, ps)
    ensures DecodeMany(reader, b) <= ps
    ensures b == EncodeAll(writer, ps) ==> DecodeMany(reader, b) == ps
  {
    if ps != [] {
      var e, more := Encode(writer, ps[0]), EncodeAll(writer, ps[1..]);
      SplitPrefix(e, more, b);
      if |b| < |e| {
        CutShort(writer, reader, ps[0], b);
      } else {
        RoundTrip(writer, reader, ps[0], b[|e|..]);
        PrefixDelivered(writer, reader, ps[1..], b[|e|..]);
        Uncons(ps, DecodeMany(reader, b[|e|..]));
      }
    }
  }

  /** The answers to each call serve a whole packet. */
  ghost predicate Serving(io: nat -> seq<Io>)
  {
    forall k: nat :: Serves(io(k), 24 + MAX_PAYLOAD)
  }

  lemma ServingFewer(io: nat -> seq<Io>, k: nat, n: nat)
    requires n <= 24 + MAX_PAYLOAD
    ensures Serving(io) ==> Serves(io(k), n)
  {
    if Serving(io) {
      ServesFewer(io(k), 24 + MAX_PAYLOAD, n);
    }
  }

  lemma {:induction false} EncodeSnoc(big: bool, ps: seq<APacket>, k: nat)
    requires k < |ps|
    ensures EncodeAll(big, ps[..k + 1]) == EncodeAll(big, ps[..k]) + Encode(big, ps[k])
    decreases k
  {
    if k == 0 {
      assert ps[..1][1..] == [] && ps[..0] == [];
    } else {
      assert ps[..k + 1][1..] == ps[1..][..k] && ps[..k][1..] == ps[1..][..k - 1];
      EncodeSnoc(big, ps[1..], k - 1);
      Regroup(Encode(big, ps[0]), EncodeAll(big, ps[1..][..k - 1]), Encode(big, ps[k]));
    }
  }

  lemma {:induction false} EncodePrefix(big: bool, ps: seq<APacket>, k: nat)
    requires k <= |ps|
    ensures EncodeAll(big, ps[..k]) <= EncodeAll(big, ps)
    decreases |ps| - k
  {
    if k == |ps| {
      assert ps[..k] == ps;
    } else {
      EncodeSnoc(big, ps, k);
      EncodePrefix(big, ps, k + 1);
    }
  }

  /** The k-th packet, after those before it. */
  method WriteNth(ps: seq<APacket>, big: bool, k: nat, script: seq<Io>) returns (sent: bool, bytes: Bytes)
    requires k < |ps| && WellFormed(ps[k])
    ensures EncodeAll(big, ps[..k]) + bytes <= EncodeAll(big, ps)
    ensures sent ==> EncodeAll(big, ps[..k]) + bytes == EncodeAll(big, ps[..k + 1])
    ensures Serves(script, 24 + |ps[k].data|) ==> sent
  {
    sent, bytes := RemoteWrite(ps[k], big, script);
    EncodeSnoc(big, ps, k);
    EncodePrefix(big, ps, k + 1);
    PrefixOfSum(EncodeAll(big, ps[..k]), bytes, Encode(big, ps[k]), EncodeAll(big, ps));
  }

  /** The input thread writes packets until the socket breaks. */
  method WritePackets(ps: seq<APacket>, big: bool, io: nat -> seq<Io>) returns (ok: bool, out: Bytes)
    requires forall i :: 0 <= i < |ps| ==> WellFormed(ps[i])
    ensures out <= EncodeAll(big, ps) && (ok ==> out == EncodeAll(big, ps))
    ensures Serving(io) ==> ok
  {
    out := [];
    for k := 0 to |ps|
      invariant out == EncodeAll(big, ps[..k])
    {
      ServingFewer(io, k, 24 + |ps[k].data|);
      var sent, bytes := WriteNth(ps, big, k, io(k));
      out := out + bytes;
      if !sent {
        return false, out;
      }
    }
    assert ps[..|ps|] == ps;
    ok := true;
  }

  lemma PrefixOfSum(a: Bytes, b: Bytes, c: Bytes, d: Bytes)
    requires b <= c && a + c <= d
    ensures a + b <= d
  {
    assert a + b <= a + c;
  }

  /** The output thread reads packets until one fails. */
  method ReadPackets(stream: Bytes, big: bool, io: nat -> seq<Io>, io1: nat -> seq<Io>) returns (ps: seq<APacket>)
    ensures ps <= DecodeMany(big, stream)
    ensures Serving(io) && Serving(io1) ==> ps == DecodeMany(big, stream)
  {
    ps := [];
    var rest, k: nat := stream, 0;
    while true
      invariant ps + DecodeMany(big, rest) == DecodeMany(big, stream)
      decreases |rest|
    {
      ServingFewer(io, k, 24);
      ServingFewer(io1, k, MAX_PAYLOAD);
      var _, p, after := RemoteRead(rest, big, io(k), io1(k));
      if p == None {
        return;
      }
      Regroup(ps, [p.value], DecodeMany(big, after));
      ps, rest, k := ps + [p.value], after, k + 1;
    }
  }

  /** From send_packet here to handle_packet there, under any schedule: the first packets sent, or all of them. */
  method Exchange(ps: seq<APacket>, writer: bool, reader: bool,
                  w: nat -> seq<Io>, r: nat -> seq<Io>, r1: nat -> seq<Io>) returns (got: seq<APacket>)
    requires forall i :: 0 <= i < |ps| ==> WellFormed(ps[i])
    ensures got <= ps
    ensures Serving(w) && Serving(r) && Serving(r1) ==> got == ps
  {
    var ok, bytes := WritePackets(ps, writer, w);
    PrefixDelivered(writer, reader, ps, bytes);
    got := ReadPackets(bytes, reader, r, r1);
  }
}
