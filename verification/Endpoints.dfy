/**
 One end of an ADB connection as a value: every local socket it ever created,
 and what each packet handler and each fd event does to them.

 A remote socket carries only the id of the far socket, so it is folded into its
 local peer's `peer` field.  A socket record outlives the socket (stage Gone);
 its fields from `sent` on are history and never influence a transition.
 */
module Endpoints {
  import opened Basics

  /** 0 is never the id of a local socket. */
  type Id = nat

  /** arg0, arg1 and the payload of the five messages that reach the wire. */
  datatype Packet =
    | Cnxn
    | Open(local: Id, dest: Bytes)
    | Okay(local: Id, remote: Id)
    | Wrte(local: Id, remote: Id, data: Bytes)
    | Clse(local: Id, remote: Id)

  /** On the live list, on the closing list, or freed. */
  datatype Stage = Live | Draining | Gone

  datatype Socket = Socket(
    stage: Stage,
    peer: Option<Id>,
    queue: seq<Bytes>,
    reading: bool,    // FDE_READ wanted
    writing: bool,    // FDE_WRITE wanted
    sent: Bytes,      // bytes put into WRTE packets
    wrote: Bytes,     // bytes accepted by the fd
    byPeer: bool,     // retired by a CLSE from the far end
    cut: bool,        // a write to its own fd failed, or that fd hung up while closing
    bound: bool)      // it has had a remote peer

  datatype Endpoint = Endpoint(
    host: bool,
    online: bool,
    nextId: Id,
    socks: map<Id, Socket>,
    closes: nat,      // CLSE packets sent
    binds: nat,       // remote sockets created
    opens: nat)       // OPEN packets received

  /** An endpoint and the packets one handler invocation handed to send_packet. */
  datatype Outcome = Outcome(end: Endpoint, out: seq<Packet>)

  function Fresh(peer: Option<Id>, reading: bool): (r: Socket)
  {
    Socket(Live, peer, [], reading, false, [], [], false, false, peer != None)
  }

  // ----- packet queues

  /** All unwritten bytes of a queue, in order. */
  function Flat(queue: seq<Bytes>): (r: Bytes)
  {
    if queue == [] then [] else queue[0] + Flat(queue[1..])
  }

  /** What is left of a queue once its fd has accepted k more bytes. */
  function Drain(queue: seq<Bytes>, k: nat): (r: seq<Bytes>)
  {
    if queue == [] then []
    else if |queue[0]| <= k then Drain(queue[1..], k - |queue[0]|)
    else [queue[0][k..]] + queue[1..]
  }

  lemma {:induction false} DrainDropsPrefix(queue: seq<Bytes>, k: nat)
    requires k <= |Flat(queue)|
    ensures Flat(Drain(queue, k)) == Flat(queue)[k..]
    ensures k < |Flat(queue)| ==> Drain(queue, k) != []
    ensures k == |Flat(queue)| ==> Drain(queue, k) == []
    ensures |Drain(queue, k)| <= |queue|
  {
    if queue == [] {
    } else if |queue[0]| <= k {
      DrainDropsPrefix(queue[1..], k - |queue[0]|);
    } else {
      assert Drain(queue, k)[1..] == queue[1..];
    }
  }

  // ----- what one socket does

  /** The socket afterwards and the packets handed to send_packet on its behalf. */
  datatype Reply = Reply(sock: Socket, out: seq<Packet>)

  /** Off the live list: freed if nothing is queued, else onto the closing list. */
  function Retired(s: Socket): (r: Socket)
  {
    s.(stage := if s.queue == [] then Gone else Draining,
       peer := None, reading := false, writing := s.queue != [])
  }

  /** The fd accepted the first k queued bytes. */
  function Written(s: Socket, k: nat): (r: Socket)
    requires k <= |Flat(s.queue)|
  {
    s.(queue := Drain(s.queue, k), wrote := s.wrote + Flat(s.queue)[..k])
  }

  /** A closing socket is freed after its fd accepted k more bytes. */
  function Destroyed(s: Socket, k: nat, isCut: bool): (r: Socket)
    requires k <= |Flat(s.queue)|
  {
    s.(stage := Gone, queue := [], writing := false, cut := s.cut || isCut,
       wrote := s.wrote + Flat(s.queue)[..k])
  }

  /** local_socket_close on a live socket: its remote socket sends CLSE and dies with it. */
  function OnClose(s: Socket): (r: Reply)
  {
    Reply(Retired(s), if s.peer == None then [] else [Clse(0, s.peer.value)])
  }

  /**
   local_socket_enqueue, and the OKAY for a payload taken whole: the fd accepts n
   bytes at once; fail says that the next write fails for good.
   */
  function OnData(s: Socket, x: Id, from: Id, data: Bytes, n: nat, fail: bool): (r: Reply)
  {
    var k := Min(n, |data|);
    var s1 := s.(wrote := s.wrote + data[..k]);
    if s.queue != [] then Reply(s.(queue := s.queue + [data], writing := true), [])
    else if k == |data| then Reply(s1, [Okay(x, from)])
    else if fail then OnClose(s1.(cut := true))
    else Reply(s1.(queue := [data[k..]], writing := true), [])
  }

  /** FDE_READ on a live socket: one packet of data, then possibly the end of the file. */
  function OnRead(s: Socket, x: Id, data: Bytes, eof: bool): (r: Reply)
  {
    if data == [] || s.peer == None then
      if eof then OnClose(s) else Reply(s, [])
    else
      var s1 := s.(reading := false, sent := s.sent + data);
      var w := [Wrte(x, s.peer.value, data)];
      if eof then Reply(OnClose(s1).sock, w + OnClose(s1).out) else Reply(s1, w)
  }

  /** FDE_WRITE on a live socket: the fd accepts n bytes, then blocks or fails. */
  function OnWrite(s: Socket, x: Id, n: nat, fail: bool): (r: Reply)
  {
    var k := Min(n, |Flat(s.queue)|);
    if k == |Flat(s.queue)| then
      Reply(Written(s, k).(writing := false), if s.peer == None then [] else [Okay(x, s.peer.value)])
    else if fail then OnClose(Written(s, k).(cut := true))
    else Reply(Written(s, k), [])
  }

  /** FDE_WRITE on a closing socket: it goes away once drained, or on a failure. */
  function OnFlush(s: Socket, n: nat, fail: bool): (r: Socket)
  {
    var k := Min(n, |Flat(s.queue)|);
    if k == |Flat(s.queue)| then Destroyed(s, k, false)
    else if fail then Destroyed(s, k, true)
    else Written(s, k)
  }

  // ----- what an endpoint does

  predicate IsLive(e: Endpoint, x: Id)
  {
    x in e.socks && e.socks[x].stage == Live
  }

  predicate IsDraining(e: Endpoint, x: Id)
  {
    x in e.socks && e.socks[x].stage == Draining
  }

  function Put(e: Endpoint, x: Id, s: Socket): (r: Endpoint)
  {
    e.(socks := e.socks[x := s])
  }

  function Clses(out: seq<Packet>): (r: nat)
  {
    if out == [] then 0 else Flag(out[0].Clse?) + Clses(out[1..])
  }

  function Apply(e: Endpoint, x: Id, r: Reply): (o: Outcome)
  {
    Outcome(Put(e, x, r.sock).(closes := e.closes + Clses(r.out)), r.out)
  }

  /** The packet handler; accept, n and fail are the answers of the operating system. */
  function HandlePacket(e: Endpoint, p: Packet, accept: bool, n: nat, fail: bool): (r: Outcome)
  {
    match p
    case Cnxn =>
      Outcome((if e.online then GoOffline(e) else e).(online := true),
              if e.host then [] else [Cnxn])
    case Open(l, _) =>
      if !e.online then Outcome(e, [])
      else if !accept then
        Outcome(e.(opens := e.opens + 1, closes := e.closes + 1), [Clse(0, l)])
      else
        var x := e.nextId;
        Outcome(Put(e, x, Fresh(Some(l), true))
                .(nextId := x + 1, opens := e.opens + 1, binds := e.binds + 1),
                [Okay(x, l)])
    case Okay(l, x) =>
      if !e.online || !IsLive(e, x) then Outcome(e, [])
      else if e.socks[x].peer == None then
        Outcome(Put(e, x, e.socks[x].(peer := Some(l), reading := true, bound := true))
                .(binds := e.binds + 1), [])
      else
        Outcome(Put(e, x, e.socks[x].(reading := true)), [])
    case Clse(_, x) =>
      if !e.online || !IsLive(e, x) then Outcome(e, [])
      else Apply(e, x, OnClose(e.socks[x].(byPeer := true)))
    case Wrte(l, x, data) =>
      if !e.online || !IsLive(e, x) then Outcome(e, [])
      else Apply(e, x, OnData(e.socks[x], x, l, data, n, fail))
  }

  /** A client whose request names a remote destination: a peerless local socket and an OPEN. */
  function Connect(e: Endpoint, dest: Bytes): (r: Outcome)
  {
    Outcome(Put(e, e.nextId, Fresh(None, false)).(nextId := e.nextId + 1),
            [Open(e.nextId, dest)])
  }

  /** SYNC(0,0): every remote socket is disconnected, closing its local peer without a CLSE. */
  function GoOffline(e: Endpoint): (r: Endpoint)
  {
    e.(online := false,
       socks := map x | x in e.socks ::
                  if e.socks[x].stage == Live && e.socks[x].peer != None
                  then Retired(e.socks[x]) else e.socks[x])
  }

  /** close_all_sockets once the transport is offline: only peerless sockets are left. */
  function Sweep(e: Endpoint): (r: Endpoint)
  {
    e.(socks := map x | x in e.socks ::
                  if e.socks[x].stage == Live then Retired(e.socks[x]) else e.socks[x])
  }

  // ----- losing and regaining the transport, spelled out

  /** t is s off the live list: nothing of what it has written or queued is lost. */
  ghost predicate LetGo(s: Socket, t: Socket)
  {
    && t.stage == (if s.queue == [] then Gone else Draining)
    && t.peer == None && !t.reading && (t.writing <==> t.queue != [])
    && t.queue == s.queue && t.wrote == s.wrote && t.sent == s.sent && t.cut == s.cut
  }

  /**
   CNXN, at any endpoint: it is online, the device answers with one CNXN and the host
   with nothing; if it was online, no live socket is bound to the old session any
   more, each that was is let go with its queue, and no other socket changes.
   */
  lemma CnxnExactly(e: Endpoint, accept: bool, n: nat, fail: bool)
    ensures var o := HandlePacket(e, Cnxn, accept, n, fail);
            && o.end.online && o.end.nextId == e.nextId && o.end.host == e.host
            && o.out == (if e.host then [] else [Cnxn])
            && o.end.socks.Keys == e.socks.Keys
            && (forall x :: x in e.socks ==>
                  if e.online && IsLive(e, x) && e.socks[x].peer != None
                  then LetGo(e.socks[x], o.end.socks[x]) else o.end.socks[x] == e.socks[x])
            && (e.online ==> forall x :: IsLive(o.end, x) ==> o.end.socks[x].peer == None)
  {
  }

  /** SYNC(0,0) and the sweep after it: first the bound sockets are let go, then all that are left. */
  lemma OfflineExactly(e: Endpoint)
    ensures var e1, e2 := GoOffline(e), Sweep(GoOffline(e));
            && !e1.online && !e2.online && e1.socks.Keys == e2.socks.Keys == e.socks.Keys
            && (forall x :: x in e.socks ==>
                  if IsLive(e, x) && e.socks[x].peer != None
                  then LetGo(e.socks[x], e1.socks[x]) else e1.socks[x] == e.socks[x])
            && (forall x :: x in e.socks ==>
                  if IsLive(e, x) then LetGo(e.socks[x], e2.socks[x]) else e2.socks[x] == e.socks[x])
            && forall x :: !IsLive(e2, x)
  {
  }

  function Start(host: bool): (r: Endpoint)
  {
    Endpoint(host, true, 1, map[], 0, 0, 0)
  }

  /** Exactly the ids handed out so far have a record. */
  ghost predicate Sound(e: Endpoint)
  {
    && 0 < e.nextId
    && (forall x: Id :: x in e.socks <==> 0 < x < e.nextId)
  }
}
