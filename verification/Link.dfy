/**
 From one main loop to the other: what the threads of one end write, in bytes,
 and what the threads of the other end make of them, is the channel that Network
 assumes: in order, possibly missing an end.
 */
module Link {
  import opened Basics
  import opened Endpoints
  import opened Framing
  import Threads

  const A_CNXN: Word := 0x4e584e43
  const A_OPEN: Word := 0x4e45504f
  const A_OKAY: Word := 0x59414b4f
  const A_CLSE: Word := 0x45534c43
  const A_WRTE: Word := 0x45545257
  const A_VERSION: Word := 0x0100_0000

  /** The packet fits the wire format: 32-bit ids and one packet's worth of data. */
  ghost predicate Sendable(p: Packet)
  {
    match p
    case Cnxn => true
    case Open(l, dest) => l <= ALL_ONES && |dest| < MAX_PAYLOAD
    case Okay(l, r) => l <= ALL_ONES && r <= ALL_ONES
    case Wrte(l, r, data) => l <= ALL_ONES && r <= ALL_ONES && |data| <= MAX_PAYLOAD
    case Clse(l, r) => l <= ALL_ONES && r <= ALL_ONES
  }

  /** The message and payload of a packet; OPEN ends its destination with a NUL. */
  ghost function Marshal(p: Packet, banner: Bytes): (a: APacket)
    requires Sendable(p) && |banner| <= MAX_PAYLOAD
    ensures WellFormed(a)
  {
    match p
    case Cnxn => Sealed(A_CNXN, A_VERSION, MAX_PAYLOAD, banner)
    case Open(l, dest) => Sealed(A_OPEN, l, 0, dest + [0])
    case Okay(l, r) => Sealed(A_OKAY, l, r, [])
    case Wrte(l, r, data) => Sealed(A_WRTE, l, r, data)
    case Clse(l, r) => Sealed(A_CLSE, l, r, [])
  }

  /** How handle_packet takes a packet: the command, the ids, the payload. */
  function Unmarshal(a: APacket): (p: Option<Packet>)
  {
    var m := a.msg;
    if m.command == A_CNXN then Some(Cnxn)
    else if m.command == A_OPEN then Some(Open(m.arg0, if a.data == [] then [] else a.data[..|a.data| - 1]))
    else if m.command == A_OKAY then Some(Okay(m.arg0, m.arg1))
    else if m.command == A_WRTE then Some(Wrte(m.arg0, m.arg1, a.data))
    else if m.command == A_CLSE then Some(Clse(m.arg0, m.arg1))
    else None
  }

  lemma MarshalRoundTrip(p: Packet, banner: Bytes)
    requires Sendable(p) && |banner| <= MAX_PAYLOAD
    ensures Unmarshal(Marshal(p, banner)) == Some(p)
  {
    if p.Open? {
      assert (p.dest + [0])[..|p.dest|] == p.dest;
    }
  }

  ghost predicate AllSendable(ps: seq<Packet>)
  {
    forall i :: 0 <= i < |ps| ==> Sendable(ps[i])
  }

  ghost function MarshalAll(ps: seq<Packet>, banner: Bytes): (r: seq<APacket>)
    requires AllSendable(ps) && |banner| <= MAX_PAYLOAD
    ensures |r| == |ps| && forall i :: 0 <= i < |r| ==> WellFormed(r[i]) && r[i] == Marshal(ps[i], banner)
  {
    seq(|ps|, i requires 0 <= i < |ps| => Marshal(ps[i], banner))
  }

  /** got delivers the first packets of ps, in order and unchanged. */
  ghost predicate Delivers(got: seq<APacket>, ps: seq<Packet>)
  {
    |got| <= |ps| && forall i :: 0 <= i < |got| ==> Unmarshal(got[i]) == Some(ps[i])
  }

  lemma MarshalledDelivers(got: seq<APacket>, ps: seq<Packet>, banner: Bytes)
    requires AllSendable(ps) && |banner| <= MAX_PAYLOAD && got <= MarshalAll(ps, banner)
    ensures Delivers(got, ps)
  {
    forall i | 0 <= i < |got|
      ensures Unmarshal(got[i]) == Some(ps[i])
    {
      assert got[i] == MarshalAll(ps, banner)[i];
      MarshalRoundTrip(ps[i], banner);
    }
  }

  /** The bytes that the input thread has handed to the socket. */
  ghost function Written(host: bool, acts: seq<Threads.Action>, banner: Bytes, writer: bool): (b: Bytes)
    requires AllSendable(Threads.Run(host, acts).said) && |banner| <= MAX_PAYLOAD
  {
    Threads.HandshakeSafety(host, acts);
    EncodeAll(writer, MarshalAll(Threads.Run(host, acts).wire, banner))
  }

  /**
   For every interleaving of the threads of one end, and whatever part b of the bytes
   they wrote arrives: the far end decodes the first packets that the main loop here
   handed to send_packet, in order; and all of them if the threads wound down in
   order and no byte was lost.
   */
  lemma LinkIsFifo(host: bool, acts: seq<Threads.Action>, banner: Bytes, writer: bool, reader: bool, b: Bytes)
    requires AllSendable(Threads.Run(host, acts).said) && |banner| <= MAX_PAYLOAD
    requires b <= Written(host, acts, banner, writer)
    ensures var s := Threads.Run(host, acts);
            && Delivers(DecodeMany(reader, b), s.said)
            && (s.ended && b == Written(host, acts, banner, writer) ==> |DecodeMany(reader, b)| == |s.said|)
  {
    Threads.HandshakeSafety(host, acts);
    var s := Threads.Run(host, acts);
    PrefixDelivered(writer, reader, MarshalAll(s.wire, banner), b);
    MarshalledDelivers(DecodeMany(reader, b), s.wire, banner);
  }

  /** heard are the first packets of got, as handle_packet understands them. */
  ghost predicate ReadsFrom(heard: seq<Packet>, got: seq<APacket>)
  {
    |heard| <= |got| && forall i :: 0 <= i < |heard| ==> Unmarshal(got[i]) == Some(heard[i])
  }

  /**
   From one main loop to the other, over all interleavings at both ends and any loss
   of bytes in between: what the far main loop has taken, then what is on its way to
   it, are the first packets this main loop had to say; and all of them if this end
   wound down in order, no byte was lost, and the far output thread read them all and
   met no failed write.
   */
  lemma MainToMain(host: bool, acts: seq<Threads.Action>, banner: Bytes, writer: bool,
                   far: bool, farActs: seq<Threads.Action>, reader: bool, b: Bytes)
    requires AllSendable(Threads.Run(host, acts).said) && |banner| <= MAX_PAYLOAD
    requires b <= Written(host, acts, banner, writer)
    requires ReadsFrom(Threads.Heard(far, farActs), DecodeMany(reader, b))
    ensures var got := Threads.TakenUp(far, farActs) + Threads.Talk(Threads.Run(far, farActs).toMain);
            && got <= Threads.Spoke(host, acts)
            && (&& Threads.Run(host, acts).ended && b == Written(host, acts, banner, writer)
                && |Threads.Heard(far, farActs)| == |DecodeMany(reader, b)| && !Threads.Dropped(far, farActs)
                ==> got == Threads.Spoke(host, acts))
  {
    LinkIsFifo(host, acts, banner, writer, reader, b);
    Threads.SaidExactly(host, acts);
    Threads.HeardInOrder(far, farActs);
    var heard, said := Threads.Heard(far, farActs), Threads.Run(host, acts).said;
    assert heard <= said by {
      assert forall i :: 0 <= i < |heard| ==> Some(heard[i]) == Some(said[i]);
    }
  }
}
