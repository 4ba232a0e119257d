/**
 The handlers of the main loop on the heap of sockets, with the identity of every
 packet: which one a queue, a smart socket or the transport holds after each
 branch, and which put_apacket ran.  Runs interleave them with the steps of the
 output and the input thread that allocate, pass on and free packets.
 */
module Handlers {
  import opened Basics
  import opened SocketTable
  import Engine

  type Answers = seq<Engine.WriteResult>

  // ----- packets

  function LenIn(m: Pool, p: Pid): (n: nat)
  {
    if p in m.len then m.len[p] else 0
  }

  function LenOf(st: Store, p: Pid): (n: nat)
  {
    LenIn(st.pool, p)
  }

  function SetLen(st: Store, p: Pid, n: nat): (r: Store)
  {
    st.(pool := st.pool.(len := st.pool.len[p := n]))
  }

  function Put(st: Store, p: Pid): (r: Store)
  {
    st.(pool := PutAll(st.pool, [p]))
  }

  function Leak(st: Store, p: Pid): (r: Store)
  {
    st.(pool := st.pool.(leaked := st.pool.leaked + [p]))
  }

  /** send_packet. */
  function Send(st: Store, p: Pid): (r: Store)
  {
    st.(pool := st.pool.(sent := st.pool.sent + [p]))
  }

  /** get_apacket: the packet is st.pool.next. */
  function Alloc(st: Store): (r: Store)
  {
    st.(pool := st.pool.(next := st.pool.next + 1))
  }

  /** A message of the engine's own: get_apacket and send_packet. */
  function Say(st: Store): (r: Store)
  {
    st.(pool := SendNew(st.pool))
  }

  function WithQueue(st: Store, s: Ref, q: seq<Pid>): (r: Store)
    requires s in st.heap
  {
    st.(heap := st.heap[s := st.heap[s].(queue := q)])
  }

  // ----- local sockets

  predicate IsKind(st: Store, s: Ref, k: Kind)
  {
    s in st.heap && st.heap[s].kind == k
  }

  predicate IsLive(st: Store, s: Ref)
  {
    IsKind(st, s, LocalKind) && !st.heap[s].closing
  }

  /** Writing packet p to s would fail for good. */
  predicate WouldFail(st: Store, s: Ref, p: Pid, script: Answers)
    requires s in st.heap
  {
    st.heap[s].queue == [] && Engine.WriteOutcome(LenOf(st, p), script, false).fail
  }

  /** Packet p after the fd of s took all but its last `left` bytes. */
  function Placed(st: Store, s: Ref, p: Pid, left: nat, fail: bool): (r: Store)
    requires s in st.heap
  {
    if left == 0 then Put(st, p)
    else if fail then Leak(ClosedVia(st, s), p)
    else WithQueue(SetLen(st, p, left), s, [p])
  }

  /** local_socket_enqueue: written and freed, queued, or leaked by a failed write that closes s. */
  function Enqueue(st: Store, s: Ref, p: Pid, script: Answers): (r: (Store, bool))
    requires s in st.heap
  {
    var q := st.heap[s].queue;
    if q != [] then (WithQueue(st, s, q + [p]), false)
    else
      var len := LenOf(st, p);
      var io := Engine.WriteOutcome(len, script, false);
      (Placed(st, s, p, len - io.k, io.fail), io.k == len)
  }

  /** How a drain ends: the packets left, the length left of the first, and whether a write failed. */
  datatype Drain = Drain(rest: seq<Pid>, left: nat, fail: bool)

  function Drained(m: Pool, q: seq<Pid>, script: Answers): (d: Drain)
    ensures |d.rest| <= |q| && (d.fail ==> d.rest != [])
  {
    if q == [] then Drain([], 0, false)
    else
      var len := LenIn(m, q[0]);
      var io := Engine.WriteOutcome(len, script, true);
      if io.k == len then Drained(m, q[1..], io.rest) else Drain(q, len - io.k, io.fail)
  }

  lemma {:induction false} DrainedSuffix(m: Pool, q: seq<Pid>, script: Answers)
    ensures var d := Drained(m, q, script); d.rest == q[|q| - |d.rest|..]
  {
    if q != [] {
      var io := Engine.WriteOutcome(LenIn(m, q[0]), script, true);
      DrainedSuffix(m, q[1..], io.rest);
    }
  }

  function TotalLen(m: Pool, q: seq<Pid>): (n: nat)
  {
    if q == [] then 0 else LenIn(m, q[0]) + TotalLen(m, q[1..])
  }

  /**
   The drain, exactly: it fails if and only if packets are left and the answer that
   stops it is an error or 0; part of the first one left is unwritten; and it is
   complete if the answers before that took something often enough.
   */
  lemma {:induction false} DrainedExactly(m: Pool, q: seq<Pid>, script: Answers, j: nat)
    requires Engine.StopsAt(script, true, j)
    ensures var d := Drained(m, q, script);
            && (d.fail <==> d.rest != [] && j < |script| && !script[j].WouldBlock?)
            && (d.rest != [] ==> 0 < d.left <= LenIn(m, d.rest[0]))
            && (Engine.TookCount(script[..j]) >= TotalLen(m, q) ==> d.rest == [])
  {
    if q != [] {
      var len := LenIn(m, q[0]);
      Engine.WriteExactly(len, script, true, j);
      var u := Engine.WriteUses(len, script, true, j);
      Engine.CountBelowSum(script[..j]);
      if Engine.WriteOutcome(len, script, true).k == len {
        DrainedExactly(m, q[1..], script[u..], j - u);
        Engine.UsedCount(len, script, u);
        assert script[..j] == script[..u] + script[u..][..j - u];
        Engine.TookConcat(script[..u], script[u..][..j - u]);
      }
    }
  }

  /** The packets after a drain of q that ended as d: what was written whole is freed. */
  function DrainPool(m: Pool, q: seq<Pid>, d: Drain): (r: Pool)
    requires |d.rest| <= |q|
  {
    var m1 := PutAll(m, q[..|q| - |d.rest|]);
    if d.rest == [] then m1 else m1.(len := m.len[d.rest[0] := d.left])
  }

  function AfterDrain(st: Store, s: Ref, d: Drain): (r: Store)
    requires s in st.heap && |d.rest| <= |st.heap[s].queue|
  {
    WithQueue(st, s, d.rest).(pool := DrainPool(st.pool, st.heap[s].queue, d))
  }

  /** What follows a drain that ended as d: close, tell the peer to go on, or wait. */
  function Settled(st: Store, s: Ref, d: Drain): (r: Store)
    requires s in st.heap
  {
    if d.fail || (d.rest == [] && st.heap[s].closing) then ClosedVia(st, s)
    else if d.rest == [] && st.heap[s].peer.Some? && IsKind(st, st.heap[s].peer.value, RemoteKind) then Say(st)
    else st
  }

  /** FDE_WRITE. */
  function EventWrite(st: Store, s: Ref, script: Answers): (r: Store)
    requires s in st.heap
  {
    var d := Drained(st.pool, st.heap[s].queue, script);
    Settled(AfterDrain(st, s, d), s, d)
  }

  // ----- smart sockets

  /** What the bytes collected so far ask for: nothing yet, nonsense, the next request, a host service, a remote one. */
  datatype Request = Wait | Bad | Again | Host(s2: Ref) | Remote(t: nat)

  /** The peer becomes a plain local socket bound to the host service s2; the smart socket goes. */
  function Hosted(st: Store, ss: Ref, s2: Ref): (r: Store)
    requires IsKind(st, ss, SmartKind) && st.heap[ss].peer.Some? && st.heap[ss].peer.value in st.heap
  {
    var p := st.heap[ss].peer.value;
    st.(heap := st.heap[p := st.heap[p].(close := LocalClose, peer := Some(s2))][s2 := NewLocal(Some(p), None)]
                - {ss},
        live := st.live + [s2],
        pool := PutAll(st.pool, st.heap[ss].queue))
  }

  /** The peer is rigged and its OPEN sent; the smart socket goes. */
  function Requested(st: Store, ss: Ref, t: nat): (r: Store)
    requires IsKind(st, ss, SmartKind) && st.heap[ss].peer.Some? && st.heap[ss].peer.value in st.heap
  {
    var p := st.heap[ss].peer.value;
    st.(heap := st.heap[p := st.heap[p].(close := CloseNotify, peer := None, transport := Some(t))] - {ss},
        pool := PutAll(SendNew(st.pool), st.heap[ss].queue))
  }

  /** The packet of a smart socket after one more; None if the two do not fit in one. */
  function Collected(st: Store, ss: Ref, p: Pid): (r: Option<Store>)
    requires ss in st.heap
  {
    var q := st.heap[ss].queue;
    if q == [] then Some(WithQueue(st, ss, [p]))
    else if LenOf(st, q[0]) + LenOf(st, p) > MAX_PAYLOAD then None
    else Some(Put(SetLen(st, q[0], LenOf(st, q[0]) + LenOf(st, p)), p))
  }

  function Served(st: Store, ss: Ref, req: Request): (r: (Store, int))
    requires IsKind(st, ss, SmartKind) && st.heap[ss].peer.Some? && st.heap[ss].peer.value in st.heap
    requires st.heap[ss].queue != []
  {
    match req
    case Wait => (st, 0)
    case Bad => (FarClosed(st, ss), -1)
    case Again => (SetLen(st, st.heap[ss].queue[0], 0), 0)
    case Host(s2) => if s2 in st.heap then (st, 0) else (Hosted(st, ss, s2), 0)
    case Remote(t) => (Requested(st, ss, t), 1)
  }

  /** smart_socket_enqueue and its result: -1 means that the enqueueing socket was closed too. */
  function SmartEnqueue(st: Store, ss: Ref, p: Pid, req: Request): (r: (Store, int))
    requires IsKind(st, ss, SmartKind) && st.heap[ss].peer.Some? && st.heap[ss].peer.value in st.heap
  {
    match Collected(st, ss, p)
    case None => (FarClosed(Put(st, p), ss), -1)
    case Some(st1) => Served(st1, ss, req)
  }

  // ----- reading

  /** s has a peer, which points back at it. */
  predicate Linked(st: Store, s: Ref)
    requires s in st.heap
  {
    var q := st.heap[s].peer;
    q.Some? && q.value in st.heap && st.heap[q.value].peer == Some(s)
  }

  /** s->peer->enqueue with the packet p just filled. */
  function PassOn(st: Store, s: Ref, p: Pid, script: Answers, req: Request): (r: (Store, int))
    requires s in st.heap && Linked(st, s)
  {
    var q := st.heap[s].peer.value;
    match st.heap[q].kind
    case RemoteKind => (Send(st, p), 1)
    case SmartKind => SmartEnqueue(st, q, p, req)
    case LocalKind => var e := Enqueue(st, q, p, script); (e.0, if e.1 then 0 else 1)
  }

  /**
   The peer is a local socket and its write will fail, closing s too; with nothing
   queued s is freed under the feet of its handler.
   */
  predicate Undermined(st: Store, s: Ref, p: Pid, script: Answers)
    requires s in st.heap
  {
    var q := st.heap[s].peer;
    q.Some? && IsKind(st, q.value, LocalKind) && WouldFail(st, q.value, p, script) && st.heap[s].queue == []
  }

  /** The packet just filled is passed on, or freed if it is empty or there is no peer. */
  function Filled(st: Store, s: Ref, p: Pid, script: Answers, req: Request): (r: (Store, int))
    requires s in st.heap
  {
    if LenOf(st, p) == 0 || !Linked(st, s) then (Put(st, p), 0) else PassOn(st, s, p, script, req)
  }

  /** A packet p fresh from get_apacket, filled with got bytes. */
  function Fill(st: Store, got: nat): (r: Store)
  {
    SetLen(Alloc(st), st.pool.next, got)
  }

  /** The end of the file closes s; if s is already freed, the step ends where the code would go on to use it. */
  function AfterRead(r: (Store, int), s: Ref, eof: bool): (st: Store)
  {
    if eof && r.1 >= 0 && IsKind(r.0, s, LocalKind) then ClosedVia(r.0, s) else r.0
  }

  /** FDE_READ: got bytes were read, then possibly the end of the file. */
  function EventRead(st: Store, s: Ref, got: nat, eof: bool, script: Answers, req: Request): (r: Store)
    requires s in st.heap
  {
    AfterRead(Filled(Fill(st, got), s, st.pool.next, script, req), s, eof)
  }

  // ----- packets from the transport

  /** Packets taken off the socket pair; s is what find_local_socket found, drop the disconnect ring. */
  datatype Message =
    | Sync(on: bool, drop: seq<Ref>)
    | Cnxn(drop: seq<Ref>)
    | Open(accept: bool, s: Ref, r: Ref, t: nat)
    | Okay(s: Ref, r: Ref, t: nat)
    | Clse(s: Ref)
    | Wrte(s: Ref, len: nat, script: Answers)

  function NewLocal(peer: Option<Ref>, t: Option<nat>): (k: ASocket)
  {
    ASocket(LocalKind, LocalClose, peer, false, [], t)
  }

  function NewRemote(s: Ref, t: nat): (k: ASocket)
  {
    ASocket(RemoteKind, RemoteClose, Some(s), false, [], Some(t))
  }

  function NewSmart(s: Ref): (k: ASocket)
  {
    ASocket(SmartKind, SmartClose, Some(s), false, [], None)
  }

  /** A service socket and its remote peer. */
  function Accepted(st: Store, s: Ref, r: Ref, t: nat): (r1: Store)
  {
    if s in st.heap || r in st.heap || s == r then st
    else st.(heap := st.heap[s := NewLocal(Some(r), None)][r := NewRemote(s, t)], live := st.live + [s])
  }

  /** A client's socket and the smart socket that reads its requests. */
  function Client(st: Store, s: Ref, ss: Ref): (r1: Store)
  {
    if s in st.heap || ss in st.heap || s == ss then st
    else st.(heap := st.heap[s := NewLocal(Some(ss), None)][ss := NewSmart(s)], live := st.live + [s])
  }

  /** A forwarded connection: its OPEN is sent, it has no peer yet. */
  function Forward(st: Store, s: Ref, t: nat): (r1: Store)
  {
    if s in st.heap then st
    else Say(st.(heap := st.heap[s := NewLocal(None, Some(t))], live := st.live + [s]))
  }

  /** The first OKAY for s gives it a remote peer, and unrigs it. */
  function Bound(st: Store, s: Ref, r: Ref, t: nat): (r1: Store)
    requires s in st.heap
  {
    if st.heap[s].peer.Some? || r in st.heap then st
    else st.(heap := st.heap[s := st.heap[s].(close := LocalClose, peer := Some(r))][r := NewRemote(s, t)])
  }

  /** run_transport_disconnects: each remote socket goes, and the local one it serves. */
  function DropAll(st: Store, drop: seq<Ref>): (r: Store)
    decreases |drop|
  {
    if drop == [] then st
    else DropAll(if IsKind(st, drop[0], RemoteKind) then FarClosed(st, drop[0]) else st, drop[1..])
  }

  datatype World = World(host: bool, online: bool, st: Store, toMain: seq<Pid>)

  /** handle_packet on packet p. */
  function Handle(w: World, p: Pid, m: Message): (r: World)
  {
    var st := w.st;
    match m
    case Sync(on, drop) =>
      if on then w.(st := if w.host then Say(Send(st, p)) else Send(st, p))
      else w.(online := false, st := Send(DropAll(st, drop), p))
    case Cnxn(drop) =>
      var st1 := if w.online then DropAll(st, drop) else st;
      w.(online := true, st := Put(if w.host then st1 else Say(st1), p))
    case Open(accept, s, r, t) =>
      w.(st := Put(if !w.online then st else Say(if accept then Accepted(st, s, r, t) else st), p))
    case Okay(s, r, t) =>
      w.(st := Put(if w.online && IsLive(st, s) then Bound(st, s, r, t) else st, p))
    case Clse(s) =>
      w.(st := Put(if w.online && IsLive(st, s) then ClosedVia(st, s) else st, p))
    case Wrte(s, len, script) =>
      if w.online && IsLive(st, s) then
        var (st1, ready) := Enqueue(SetLen(st, p, len), s, p, script);
        w.(st := if ready then Say(st1) else st1)
      else w.(st := Put(st, p))
  }

  // ----- runs

  /** close_all_sockets, for the sockets it finds. */
  function Sweep(st: Store, found: seq<Ref>): (r: Store)
    decreases |found|
  {
    if found == [] then st
    else Sweep(if IsLive(st, found[0]) then Closed(st, found[0]) else st, found[1..])
  }

  datatype Action =
    | Arrive(ok: bool)                     // output thread: a packet for the main loop, or a failed write
    | Depart                               // input thread: a packet is written out or ignored, and freed
    | SweepSockets(found: seq<Ref>)        // input thread: close_all_sockets
    | HandlePacket(m: Message)             // main loop: the next packet
    | AcceptClient(s: Ref, ss: Ref)        // main loop: a client and its smart socket
    | AcceptForward(s: Ref, t: nat)        // main loop: a forwarded connection and its OPEN
    | Write(s: Ref, script: Answers)       // main loop: FDE_WRITE
    | Read(s: Ref, got: nat, eof: bool, script: Answers, req: Request)

  function Next(w: World, act: Action): (r: World)
  {
    var st := w.st;
    match act
    case Arrive(ok) =>
      var p := st.pool.next;
      if ok then w.(st := Alloc(st), toMain := w.toMain + [p]) else w.(st := Put(Alloc(st), p))
    case Depart =>
      if st.pool.sent == [] then w
      else w.(st := Put(st.(pool := st.pool.(sent := st.pool.sent[1..])), st.pool.sent[0]))
    case SweepSockets(found) => w.(st := Sweep(st, found))
    case HandlePacket(m) =>
      if w.toMain == [] then w else Handle(w.(toMain := w.toMain[1..]), w.toMain[0], m)
    case AcceptClient(s, ss) => w.(st := Client(st, s, ss))
    case AcceptForward(s, t) => w.(st := Forward(st, s, t))
    case Write(s, script) =>
      if IsKind(st, s, LocalKind) then w.(st := EventWrite(st, s, script)) else w
    case Read(s, got, eof, script, req) =>
      if IsKind(st, s, LocalKind) then w.(st := EventRead(st, s, got, eof, script, req)) else w
  }

  function Run(host: bool, acts: seq<Action>): (r: World)
  {
    if acts == [] then World(host, false, Store(map[], [], [], Pool(0, map[], [], [], [])), [])
    else Next(Run(host, acts[..|acts| - 1]), acts[|acts| - 1])
  }

  // ----- the handlers as they run

  /** local_socket_enqueue. */
  method LocalEnqueue(t: Table, s: Ref, p: Pid, script: Answers) returns (ready: bool)
    requires !t.locked && Valid(t.St()) && IsLive(t.St(), s)
    modifies t
    ensures !t.locked && Valid(t.St())
    ensures (t.St(), ready) == Enqueue(old(t.St()), s, p, script)
  {
    EnqueueValid(t.St(), s, p, script);
    if t.heap[s].queue != [] {
      t.heap := t.heap[s := t.heap[s].(queue := t.heap[s].queue + [p])];
      return false;
    }
    var len := LenIn(t.pool, p);
    var k, fail, _ := Engine.WriteLoop(len, script, false);
    ready := k == len;
    Place(t, s, p, len - k, fail);
  }

  /** Where the packet goes once its first bytes are written: freed, leaked, or queued. */
  method Place(t: Table, s: Ref, p: Pid, left: nat, fail: bool)
    requires !t.locked && Valid(t.St()) && IsLive(t.St(), s) && t.heap[s].queue == []
    modifies t
    ensures !t.locked && t.St() == Placed(old(t.St()), s, p, left, fail)
  {
    if left == 0 {
      t.pool := t.pool.(freed := t.pool.freed + [p]);
    } else if fail {
      t.CloseVia(s, None);
      t.pool := t.pool.(leaked := t.pool.leaked + [p]);
    } else {
      t.pool := t.pool.(len := t.pool.len[p := left]);
      t.heap := t.heap[s := t.heap[s].(queue := [p])];
    }
  }

  /** handle_packet for WRTE: a packet that finds its socket is not freed here. */
  method OnWrte(t: Table, online: bool, s: Ref, p: Pid, len: nat, script: Answers)
    requires !t.locked && Valid(t.St())
    modifies t
    ensures !t.locked && Valid(t.St())
    ensures t.St() == Handle(World(true, online, old(t.St()), []), p, Wrte(s, len, script)).st
  {
    if !online || s !in t.heap || t.heap[s].kind != LocalKind || t.heap[s].closing {
      t.pool := t.pool.(freed := t.pool.freed + [p]);
      return;
    }
    t.pool := t.pool.(len := t.pool.len[p := len]);
    var ready := LocalEnqueue(t, s, p, script);
    if ready {
      t.pool := SendNew(t.pool);
    }
  }

  /** The loops of FDE_WRITE: packets written whole are freed one by one. */
  method DrainPackets(m: Pool, q: seq<Pid>, script: Answers) returns (d: Drain, m1: Pool)
    ensures d == Drained(m, q, script) && m1 == DrainPool(m, q, d)
  {
    ghost var goal := Drained(m, q, script);
    var c, left, freed, stuck := 0, script, m.freed, false;
    d := Drain([], 0, false);
    while c < |q| && !stuck
      invariant c <= |q| && freed == m.freed + q[..c]
      invariant if stuck then c < |q| && goal == d && d.rest == q[c..]
                else goal == Drained(m, q[c..], left) && d == Drain([], 0, false)
      decreases |q| - c, !stuck
    {
      d, left, stuck := WriteNext(m, q, c, left);
      if !stuck {
        OneMore(q, c);
        freed, c := freed + [q[c]], c + 1;
      }
    }
    m1 := m.(freed := freed);
    if stuck {
      m1 := m1.(len := m.len[q[c] := d.left]);
    }
  }

  /** One packet of the queue: written whole, or where the drain gets stuck. */
  method WriteNext(m: Pool, q: seq<Pid>, c: nat, script: Answers) returns (d: Drain, left: Answers, stuck: bool)
    requires c < |q|
    ensures if stuck then d == Drained(m, q[c..], script) && d.rest == q[c..]
            else Drained(m, q[c..], script) == Drained(m, q[c + 1..], left) && d == Drain([], 0, false)
  {
    var len := LenIn(m, q[c]);
    var k, fail, j := Engine.WriteLoop(len, script, true);
    OneMore(q, c);
    DrainStep(m, q[c..], script);
    stuck := k < len;
    return if stuck then Drain(q[c..], len - k, fail) else Drain([], 0, false), script[j..], stuck;
  }

  lemma DrainStep(m: Pool, rest: seq<Pid>, left: Answers)
    requires rest != []
    ensures var len := LenIn(m, rest[0]);
            var io := Engine.WriteOutcome(len, left, true);
            Drained(m, rest, left)
            == if io.k == len then Drained(m, rest[1..], io.rest) else Drain(rest, len - io.k, io.fail)
  {
  }

  lemma OneMore(q: seq<Pid>, c: nat)
    requires c < |q|
    ensures q[c..][0] == q[c] && q[c..][1..] == q[c + 1..] && q[..c + 1] == q[..c] + [q[c]]
  {
  }

  /** FDE_WRITE of local_socket_event_func. */
  method OnWritable(t: Table, s: Ref, script: Answers)
    requires !t.locked && Valid(t.St()) && IsKind(t.St(), s, LocalKind)
    modifies t
    ensures !t.locked && Valid(t.St()) && t.St() == EventWrite(old(t.St()), s, script)
  {
    var d, m := DrainPackets(t.pool, t.heap[s].queue, script);
    AfterDrainValid(t.St(), s, d);
    t.heap, t.pool := t.heap[s := t.heap[s].(queue := d.rest)], m;
    Settle(t, s, d);
  }

  method Settle(t: Table, s: Ref, d: Drain)
    requires !t.locked && Valid(t.St()) && IsKind(t.St(), s, LocalKind) && (d.fail ==> d.rest != [])
    modifies t
    ensures !t.locked && Valid(t.St()) && t.St() == Settled(old(t.St()), s, d)
  {
    if d.fail {
      t.CloseVia(s, None);
    } else if d.rest == [] {
      if t.heap[s].closing {
        t.CloseVia(s, None);
      } else if t.heap[s].peer.Some? && t.heap[t.heap[s].peer.value].kind == RemoteKind {
        t.pool := SendNew(t.pool);
      }
    }
  }

  /** The first half of smart_socket_enqueue: the packet is kept, or copied and freed. */
  method Collect(t: Table, ss: Ref, p: Pid) returns (fits: bool)
    requires ss in t.heap
    modifies t`heap, t`pool
    ensures fits == Collected(old(t.St()), ss, p).Some?
    ensures fits ==> t.St() == Collected(old(t.St()), ss, p).value
    ensures !fits ==> t.St() == Put(old(t.St()), p)
  {
    if t.heap[ss].queue == [] {
      t.heap := t.heap[ss := t.heap[ss].(queue := [p])];
      return true;
    }
    var first := t.heap[ss].queue[0];
    var have, more := LenIn(t.pool, first), LenIn(t.pool, p);
    fits := have + more <= MAX_PAYLOAD;
    if fits {
      t.pool := t.pool.(len := t.pool.len[first := have + more]);
    }
    t.pool := t.pool.(freed := t.pool.freed + [p]);
  }

  /** smart_socket_enqueue, given what the collected bytes ask for. */
  method OnRequest(t: Table, ss: Ref, p: Pid, req: Request) returns (res: int)
    requires !t.locked && Valid(t.St()) && IsKind(t.St(), ss, SmartKind) && t.heap[ss].peer.Some?
    requires t.heap[ss].peer.value in t.heap && (req.Host? ==> req.s2 !in t.heap)
    modifies t
    ensures !t.locked && Valid(t.St())
    ensures (t.St(), res) == SmartEnqueue(old(t.St()), ss, p, req)
  {
    if Collected(t.St(), ss, p).Some? {
      CollectedValid(t.St(), ss, p);
    }
    var fits := Collect(t, ss, p);
    if fits {
      res := Serve(t, ss, req);
    } else {
      t.FarClose(ss);
      res := -1;
    }
  }

  /** The second half of smart_socket_enqueue. */
  method Serve(t: Table, ss: Ref, req: Request) returns (res: int)
    requires !t.locked && Valid(t.St()) && IsKind(t.St(), ss, SmartKind) && t.heap[ss].peer.Some?
    requires t.heap[ss].peer.value in t.heap && t.heap[ss].queue != [] && (req.Host? ==> req.s2 !in t.heap)
    modifies t
    ensures !t.locked && Valid(t.St())
    ensures (t.St(), res) == Served(old(t.St()), ss, req)
  {
    ServedValid(t.St(), ss, req);
    var q := t.heap[ss].peer.value;
    match req
    case Wait => res := 0;
    case Bad =>
      t.FarClose(ss);
      res := -1;
    case Again =>
      t.pool := t.pool.(len := t.pool.len[t.heap[ss].queue[0] := 0]);
      res := 0;
    case Host(s2) =>
      t.heap := t.heap[q := t.heap[q].(close := LocalClose, peer := Some(s2))][s2 := NewLocal(Some(q), None)];
      t.live := t.live + [s2];
      t.Dispose(t.heap[ss].queue);
      t.heap := t.heap - {ss};
      res := 0;
    case Remote(u) =>
      t.heap := t.heap[q := t.heap[q].(close := CloseNotify, peer := None, transport := Some(u))];
      t.pool := SendNew(t.pool);
      t.Dispose(t.heap[ss].queue);
      t.heap := t.heap - {ss};
      res := 1;
  }

  /** FDE_READ of local_socket_event_func, once got bytes have been read. */
  method OnReadable(t: Table, s: Ref, got: nat, eof: bool, script: Answers, req: Request)
    requires !t.locked && Valid(t.St()) && IsKind(t.St(), s, LocalKind)
    requires !Undermined(Fill(t.St(), got), s, t.pool.next, script)
    requires req.Host? ==> req.s2 !in t.heap
    modifies t
    ensures !t.locked && Valid(t.St()) && t.St() == EventRead(old(t.St()), s, got, eof, script, req)
  {
    var p := t.pool.next;
    t.pool := t.pool.(next := p + 1, len := t.pool.len[p := got]);
    assert t.St() == Fill(old(t.St()), got);
    ReaderStays(t.St(), s, p, script, req);
    var res := PassFilled(t, s, p, script, req);
    EventReadIs(old(t.St()), s, got, eof, script, req, (t.St(), res));
    EndRead(t, s, res, eof);
  }

  lemma EventReadIs(st: Store, s: Ref, got: nat, eof: bool, script: Answers, req: Request, r: (Store, int))
    requires s in st.heap
    requires r == Filled(Fill(st, got), s, st.pool.next, script, req)
    ensures EventRead(st, s, got, eof, script, req) == AfterRead(r, s, eof)
  {
  }

  method EndRead(t: Table, s: Ref, res: int, eof: bool)
    requires !t.locked && Valid(t.St()) && (res >= 0 ==> IsKind(t.St(), s, LocalKind))
    modifies t
    ensures !t.locked && Valid(t.St()) && t.St() == AfterRead((old(t.St()), res), s, eof)
  {
    if res >= 0 && eof {
      t.CloseVia(s, None);
    }
  }

  method PassFilled(t: Table, s: Ref, p: Pid, script: Answers, req: Request) returns (res: int)
    requires !t.locked && Valid(t.St()) && IsKind(t.St(), s, LocalKind)
    requires req.Host? ==> req.s2 !in t.heap
    modifies t
    ensures !t.locked && Valid(t.St())
    ensures (t.St(), res) == Filled(old(t.St()), s, p, script, req)
  {
    if LenIn(t.pool, p) == 0 || t.heap[s].peer == None {
      t.pool := t.pool.(freed := t.pool.freed + [p]);
      return 0;
    }
    res := HandOver(t, s, p, script, req);
  }

  /** s->peer->enqueue. */
  method HandOver(t: Table, s: Ref, p: Pid, script: Answers, req: Request) returns (res: int)
    requires !t.locked && Valid(t.St()) && IsKind(t.St(), s, LocalKind) && Linked(t.St(), s)
    requires req.Host? ==> req.s2 !in t.heap
    modifies t
    ensures !t.locked && Valid(t.St())
    ensures (t.St(), res) == PassOn(old(t.St()), s, p, script, req)
  {
    var q := t.heap[s].peer.value;
    match t.heap[q].kind
    case RemoteKind =>
      t.pool := t.pool.(sent := t.pool.sent + [p]);
      res := 1;
    case SmartKind => res := OnRequest(t, q, p, req);
    case LocalKind =>
      var ready := LocalEnqueue(t, q, p, script);
      res := if ready then 0 else 1;
  }

  /** Unless told otherwise, a handler that passed a packet on still has its socket exactly if it is not undermined. */
  lemma ReaderStays(st: Store, s: Ref, p: Pid, script: Answers, req: Request)
    requires Valid(st) && IsKind(st, s, LocalKind)
    ensures var (st1, res) := Filled(st, s, p, script, req);
            res >= 0 ==> (IsKind(st1, s, LocalKind) <==> !Undermined(st, s, p, script))
  {
    var q := st.heap[s].peer;
    if q.Some? {
      if IsKind(st, q.value, LocalKind) {
        EnqueuerStays(st, q.value, s, p, script);
      } else {
        RequesterStays(st, s, p, script, req);
      }
    }
  }

  lemma EnqueuerStays(st: Store, q: Ref, s: Ref, p: Pid, script: Answers)
    requires Valid(st) && IsLive(st, q) && IsKind(st, s, LocalKind) && st.heap[q].peer == Some(s)
    ensures IsKind(Enqueue(st, q, p, script).0, s, LocalKind)
            <==> !(WouldFail(st, q, p, script) && st.heap[s].queue == [])
  {
    UnrigValid(st, q, None);
    ClosedEmpty(Unrig(st, q), q, s);
  }

  lemma RequesterStays(st: Store, s: Ref, p: Pid, script: Answers, req: Request)
    requires Valid(st) && IsKind(st, s, LocalKind) && Linked(st, s)
    requires !IsKind(st, st.heap[s].peer.value, LocalKind)
    ensures var (st1, res) := PassOn(st, s, p, script, req); res >= 0 ==> IsKind(st1, s, LocalKind)
  {
  }

  /** Closing q frees its local peer s exactly if s has nothing queued. */
  lemma ClosedEmpty(st: Store, q: Ref, s: Ref)
    requires Valid(st) && IsKind(st, q, LocalKind) && IsKind(st, s, LocalKind) && st.heap[q].peer == Some(s)
    ensures IsKind(Closed(st, q), s, LocalKind) <==> st.heap[s].queue != []
  {
  }

  // ----- what the handlers do, observed from outside

  /** From st to st1 only s, if at all, changes, and the lists stay. */
  ghost predicate SameBut(st: Store, st1: Store, s: Ref)
  {
    && st1.heap.Keys == st.heap.Keys && st1.live == st.live && st1.closing == st.closing
    && forall r :: r in st.heap && r != s ==> st1.heap[r] == st.heap[r]
  }

  predicate HasRemotePeer(st: Store, s: Ref)
  {
    s in st.heap && st.heap[s].peer.Some? && IsKind(st, st.heap[s].peer.value, RemoteKind)
  }

  /**
   local_socket_enqueue, exactly, for answers that stop at j.  Behind other packets p
   is queued.  Else it is freed, and the sender may go on, if the fd takes all of it;
   queued with what is left if the fd blocks; leaked, with s closed and its peer told,
   if a write fails.
   */
  lemma EnqueueExactly(st: Store, s: Ref, p: Pid, script: Answers, j: nat)
    requires Valid(st) && IsLive(st, s) && Engine.StopsAt(script, false, j)
    ensures var (st1, ready), len := Enqueue(st, s, p, script), LenOf(st, p);
            var took := Engine.TookSum(script[..j]);
            var failed := j < |script| && !script[j].WouldBlock?;
            if st.heap[s].queue != [] then
              && !ready && SameBut(st, st1, s) && st1.pool == st.pool
              && st1.heap[s].queue == st.heap[s].queue + [p]
            else if took >= len then ready && st1 == Put(st, p)
            else if failed then
              && !ready && s !in st1.heap && st1.pool.leaked == st.pool.leaked + [p]
              && |st1.pool.sent| == |st.pool.sent| + Flag(HasRemotePeer(st, s))
            else
              && !ready && SameBut(st, st1, s) && st1.heap[s].queue == [p] && LenOf(st1, p) == len - took
              && st1.pool.freed == st.pool.freed && st1.pool.sent == st.pool.sent
  {
    Engine.WriteExactly(LenOf(st, p), script, false, j);
    UnrigValid(st, s, None);
    ClosedExactly(Unrig(st, s), s);
  }

  /** A drain, exactly: the packets written whole are freed in order, the others stay queued, and nothing is sent. */
  lemma AfterDrainExactly(st: Store, s: Ref, script: Answers)
    requires s in st.heap
    ensures var q, d := st.heap[s].queue, Drained(st.pool, st.heap[s].queue, script);
            var st1 := AfterDrain(st, s, d);
            && SameBut(st, st1, s) && st1.heap[s] == st.heap[s].(queue := d.rest)
            && st1.pool.sent == st.pool.sent && st1.pool.leaked == st.pool.leaked
            && (exists done :: q == done + d.rest && st1.pool.freed == st.pool.freed + done)
            && (d.rest != [] ==> LenOf(st1, d.rest[0]) == d.left)
  {
    DrainedSuffix(st.pool, st.heap[s].queue, script);
    var q, d := st.heap[s].queue, Drained(st.pool, st.heap[s].queue, script);
    var done := q[..|q| - |d.rest|];
    assert q == done + d.rest;
    assert AfterDrain(st, s, d).pool.freed == st.pool.freed + done;
  }

  /**
   FDE_WRITE, exactly: a live socket that is drained tells its remote peer to go on
   with one packet and stays; a closing one that is drained, and any that failed, goes
   the way of every close; otherwise it keeps what is left.
   */
  lemma SettledExactly(st: Store, s: Ref, d: Drain)
    requires Valid(st) && IsKind(st, s, LocalKind) && (d.fail ==> d.rest != []) && d.rest == st.heap[s].queue
    ensures var st1 := Settled(st, s, d);
            if d.rest == [] && !st.heap[s].closing then
              && st1.heap == st.heap && st1.live == st.live
              && |st1.pool.sent| == |st.pool.sent| + Flag(HasRemotePeer(st, s))
            else if d.rest == [] then s !in st1.heap && st1.pool.sent == st.pool.sent
            else if d.fail then
              && (s in st1.heap <==> !st.heap[s].closing) && s !in st1.live
              && |st1.pool.sent| == |st.pool.sent| + Flag(HasRemotePeer(st, s))
            else st1 == st
  {
    UnrigValid(st, s, None);
    ClosedExactly(Unrig(st, s), s);
    ClosedViaValid(st, s);
    ClosedFrame(Unrig(st, s), s);
  }

  /** A remote request, exactly: the client's socket lives on without a peer, rigged and bound to the transport. */
  lemma RequestedExactly(st: Store, ss: Ref, t: nat)
    requires Valid(st) && IsKind(st, ss, SmartKind) && st.heap[ss].peer.Some?
    ensures var p := st.heap[ss].peer.value;
            && p in st.heap
            && var st1 := Requested(st, ss, t);
            && ss !in st1.heap && IsLive(st1, p) && p in st1.live
            && st1.heap[p].peer == None && st1.heap[p].close == CloseNotify && st1.heap[p].transport == Some(t)
            && st1.heap[p].queue == st.heap[p].queue
            && st1.pool.sent == st.pool.sent + [st.pool.next]
            && st1.pool.freed == st.pool.freed + st.heap[ss].queue
            && forall r :: r in st.heap && r != p && r != ss ==> r in st1.heap && st1.heap[r] == st.heap[r]
  {
  }

  /** A host request, exactly: the client's socket and the service's are each other's peers, both live and unrigged. */
  lemma HostedExactly(st: Store, ss: Ref, s2: Ref)
    requires Valid(st) && IsKind(st, ss, SmartKind) && st.heap[ss].peer.Some? && s2 !in st.heap
    ensures var p := st.heap[ss].peer.value;
            && p in st.heap
            && var st1 := Hosted(st, ss, s2);
            && ss !in st1.heap && IsLive(st1, p) && IsLive(st1, s2) && s2 in st1.live
            && st1.heap[p].peer == Some(s2) && st1.heap[s2].peer == Some(p)
            && st1.heap[p].close == st1.heap[s2].close == LocalClose
            && st1.pool.sent == st.pool.sent && st1.pool.freed == st.pool.freed + st.heap[ss].queue
            && forall r :: r in st.heap && r != p && r != ss ==> r in st1.heap && st1.heap[r] == st.heap[r]
  {
  }

  /** Collecting a request: the first packet is kept, later ones are added to it and freed, too much is refused. */
  lemma CollectedExactly(st: Store, ss: Ref, p: Pid)
    requires Valid(st) && IsKind(st, ss, SmartKind)
    ensures var q, c := st.heap[ss].queue, Collected(st, ss, p);
            if q == [] then
              && c.Some? && SameBut(st, c.value, ss) && c.value.heap[ss].queue == [p] && c.value.pool == st.pool
            else if LenOf(st, q[0]) + LenOf(st, p) > MAX_PAYLOAD then c == None
            else
              && c.Some? && c.value.heap == st.heap && c.value.live == st.live
              && c.value.pool.freed == st.pool.freed + [p] && c.value.pool.sent == st.pool.sent
              && LenOf(c.value, q[0]) == LenOf(st, q[0]) + LenOf(st, p)
  {
  }

  /** New sockets, exactly: live, unrigged, with empty queues, linked as they should be; all others stay. */
  lemma NewExactly(st: Store, s: Ref, r: Ref, t: nat)
    requires Valid(st) && s !in st.heap && r !in st.heap && s != r
    ensures var st1 := Accepted(st, s, r, t);
            && IsLive(st1, s) && s in st1.live && st1.heap[s].peer == Some(r) && st1.heap[s].queue == []
            && IsKind(st1, r, RemoteKind) && st1.heap[r].peer == Some(s) && st1.heap[r].transport == Some(t)
            && st1.pool == st.pool && forall q :: q in st.heap ==> q in st1.heap && st1.heap[q] == st.heap[q]
    ensures var st1 := Client(st, s, r);
            && IsLive(st1, s) && s in st1.live && st1.heap[s].peer == Some(r) && st1.heap[s].queue == []
            && IsKind(st1, r, SmartKind) && st1.heap[r].peer == Some(s) && st1.heap[r].queue == []
            && st1.pool == st.pool && forall q :: q in st.heap ==> q in st1.heap && st1.heap[q] == st.heap[q]
    ensures var st1 := Forward(st, s, t);
            && IsLive(st1, s) && s in st1.live && st1.heap[s].peer == None && st1.heap[s].transport == Some(t)
            && st1.pool.sent == st.pool.sent + [st.pool.next]
            && forall q :: q in st.heap ==> q in st1.heap && st1.heap[q] == st.heap[q]
  {
  }

  /** The first OKAY, exactly: a peerless socket is unrigged and gets a remote peer; any other stays as it is. */
  lemma BoundExactly(st: Store, s: Ref, r: Ref, t: nat)
    requires Valid(st) && IsLive(st, s) && r !in st.heap
    ensures var st1 := Bound(st, s, r, t);
            if st.heap[s].peer == None then
              && IsLive(st1, s) && st1.heap[s].peer == Some(r) && st1.heap[s].close == LocalClose
              && st1.heap[s].queue == st.heap[s].queue
              && IsKind(st1, r, RemoteKind) && st1.heap[r].peer == Some(s) && st1.heap[r].transport == Some(t)
              && st1.live == st.live && st1.pool == st.pool
              && forall q :: q in st.heap && q != s ==> q in st1.heap && st1.heap[q] == st.heap[q]
            else st1 == st
  {
  }

  /**
   A read event, exactly, up to the end of the file: an empty packet, or one without a
   peer to take it, is freed; a remote peer sends it; a smart one collects it.
   */
  lemma FilledExactly(st: Store, s: Ref, p: Pid, script: Answers, req: Request)
    requires Valid(st) && IsKind(st, s, LocalKind)
    ensures var (st1, res), q := Filled(st, s, p, script, req), st.heap[s].peer;
            if LenOf(st, p) == 0 || q == None then st1 == Put(st, p) && res == 0
            else if IsKind(st, q.value, RemoteKind) then
              && st1.heap == st.heap && st1.pool.sent == st.pool.sent + [p] && st1.pool.freed == st.pool.freed
              && res == 1
            else if IsKind(st, q.value, SmartKind) then (st1, res) == SmartEnqueue(st, q.value, p, req)
            else st1 == Enqueue(st, q.value, p, script).0 && res >= 0
  {
  }

  /** The end of the file takes a reader that is still there off the live list. */
  lemma EofExactly(st: Store, s: Ref, res: int, eof: bool)
    requires Valid(st) && IsKind(st, s, LocalKind)
    ensures var st1 := AfterRead((st, res), s, eof);
            if eof && res >= 0 then
              && s !in st1.live && (s in st1.heap <==> st.heap[s].queue != [] && !st.heap[s].closing)
              && |st1.pool.sent| == |st.pool.sent| + Flag(HasRemotePeer(st, s))
            else st1 == st
  {
    UnrigValid(st, s, None);
    ClosedExactly(Unrig(st, s), s);
    ClosedViaValid(st, s);
    ClosedFrame(Unrig(st, s), s);
  }

  /** A request, exactly, once it is collected. */
  lemma ServedExactly(st: Store, ss: Ref, req: Request)
    requires Valid(st) && IsKind(st, ss, SmartKind) && st.heap[ss].peer.Some?
    requires st.heap[ss].peer.value in st.heap && st.heap[ss].queue != []
    ensures var (st1, res), p := Served(st, ss, req), st.heap[ss].peer.value;
            match req
            case Wait => st1 == st && res == 0
            case Bad => res == -1 && ss !in st1.heap && (p in st1.heap <==> st.heap[p].queue != []) && p !in st1.live
            case Again => res == 0 && st1.heap == st.heap && LenOf(st1, st.heap[ss].queue[0]) == 0
            case Host(s2) => res == 0 && (s2 !in st.heap ==> st1 == Hosted(st, ss, s2))
            case Remote(t) => res == 1 && st1 == Requested(st, ss, t)
  {
    if req.Bad? {
      FarClosedExactly(st, ss);
      FarClosedValid(st, ss);
      FarClosedFrame(st, ss);
    }
  }

  /** After run_transport_disconnects none of the remote sockets on the ring is left. */
  lemma {:induction false} DropAllExactly(st: Store, drop: seq<Ref>)
    requires Valid(st)
    ensures forall r :: IsKind(DropAll(st, drop), r, RemoteKind) ==> IsKind(st, r, RemoteKind) && r !in drop
    decreases |drop|
  {
    if drop != [] {
      var st1 := st;
      if IsKind(st, drop[0], RemoteKind) {
        FarClosedValid(st, drop[0]);
        FarClosedFrame(st, drop[0]);
        st1 := FarClosed(st, drop[0]);
      }
      DropAllExactly(st1, drop[1..]);
    }
  }

  /** After close_all_sockets none of the sockets it found is live. */
  lemma {:induction false} SweepExactly(st: Store, found: seq<Ref>)
    requires Valid(st)
    ensures forall r :: IsLive(Sweep(st, found), r) ==> IsLive(st, r) && r !in found
    decreases |found|
  {
    if found != [] {
      var st1 := st;
      if IsLive(st, found[0]) {
        ClosedValid(st, found[0]);
        ClosedFrame(st, found[0]);
        st1 := Closed(st, found[0]);
      }
      SweepExactly(st1, found[1..]);
    }
  }

  /** How many packets handle_packet itself, or a close it causes, hands to send_packet. */
  lemma HandleSends(w: World, p: Pid, m: Message)
    requires Valid(w.st)
    ensures var n0, n1 := |w.st.pool.sent|, |Handle(w, p, m).st.pool.sent|;
            match m
            case Sync(on, _) => n1 == n0 + 1 + Flag(on && w.host)
            case Cnxn(_) => n1 == n0 + Flag(!w.host)
            case Open(_, _, _, _) => n1 == n0 + Flag(w.online)
            case Okay(_, _, _) => n1 == n0
            case Clse(s) => n1 == n0 + Flag(w.online && IsLive(w.st, s) && HasRemotePeer(w.st, s))
            case Wrte(_, _, _) => n1 <= n0 + 1
    ensures m.Sync? ==> p in Handle(w, p, m).st.pool.sent
    ensures m.Cnxn? || m.Open? || m.Okay? || m.Clse? ==> p in Handle(w, p, m).st.pool.freed
  {
    match m
    case Sync(_, drop) => DropAllSends(w.st, drop);
    case Cnxn(drop) => DropAllSends(w.st, drop);
    case Clse(s) =>
      if IsLive(w.st, s) {
        UnrigValid(w.st, s, None);
        ClosedExactly(Unrig(w.st, s), s);
      }
    case Wrte(s, len, script) =>
      if IsLive(w.st, s) {
        UnrigValid(w.st, s, None);
        ClosedExactly(Unrig(SetLen(w.st, p, len), s), s);
      }
    case _ =>
  }

  lemma {:induction false} DropAllSends(st: Store, drop: seq<Ref>)
    requires Valid(st)
    ensures DropAll(st, drop).pool.sent == st.pool.sent
    decreases |drop|
  {
    if drop != [] {
      var st1 := st;
      if IsKind(st, drop[0], RemoteKind) {
        FarClosedValid(st, drop[0]);
        FarClosedExactly(st, drop[0]);
        st1 := FarClosed(st, drop[0]);
      }
      DropAllSends(st1, drop[1..]);
    }
  }

  // ----- the handlers keep the close invariant

  lemma WithQueueValid(st: Store, s: Ref, q: seq<Pid>)
    requires Valid(st) && s in st.heap
    requires match st.heap[s].kind
             case LocalKind => true
             case RemoteKind => q == []
             case SmartKind => |q| <= 1
    ensures Valid(WithQueue(st, s, q))
  {
  }

  lemma ClosedViaValid(st: Store, s: Ref)
    requires Valid(st) && IsKind(st, s, LocalKind)
    ensures Valid(ClosedVia(st, s))
  {
    UnrigValid(st, s, None);
    ClosedValid(Unrig(st, s), s);
  }

  lemma PlacedValid(st: Store, s: Ref, p: Pid, left: nat, fail: bool)
    requires Valid(st) && IsLive(st, s)
    ensures Valid(Placed(st, s, p, left, fail))
  {
    ClosedViaValid(st, s);
    WithQueueValid(SetLen(st, p, left), s, [p]);
  }

  lemma EnqueueValid(st: Store, s: Ref, p: Pid, script: Answers)
    requires Valid(st) && IsLive(st, s)
    ensures Valid(Enqueue(st, s, p, script).0)
  {
    var len := LenOf(st, p);
    var io := Engine.WriteOutcome(len, script, false);
    WithQueueValid(st, s, st.heap[s].queue + [p]);
    PlacedValid(st, s, p, len - io.k, io.fail);
  }

  lemma AfterDrainValid(st: Store, s: Ref, d: Drain)
    requires Valid(st) && IsKind(st, s, LocalKind) && |d.rest| <= |st.heap[s].queue|
    ensures Valid(AfterDrain(st, s, d))
  {
    WithQueueValid(st, s, d.rest);
  }

  lemma SettledValid(st: Store, s: Ref, d: Drain)
    requires Valid(st) && IsKind(st, s, LocalKind)
    ensures Valid(Settled(st, s, d))
  {
    ClosedViaValid(st, s);
  }

  lemma EventWriteValid(st: Store, s: Ref, script: Answers)
    requires Valid(st) && IsKind(st, s, LocalKind)
    ensures Valid(EventWrite(st, s, script))
  {
    var d := Drained(st.pool, st.heap[s].queue, script);
    AfterDrainValid(st, s, d);
    SettledValid(AfterDrain(st, s, d), s, d);
  }

  lemma HostedValid(st: Store, ss: Ref, s2: Ref)
    requires Valid(st) && IsKind(st, ss, SmartKind) && st.heap[ss].peer.Some? && s2 !in st.heap
    requires st.heap[ss].peer.value in st.heap
    ensures Valid(Hosted(st, ss, s2))
  {
  }

  lemma RequestedValid(st: Store, ss: Ref, t: nat)
    requires Valid(st) && IsKind(st, ss, SmartKind) && st.heap[ss].peer.Some?
    requires st.heap[ss].peer.value in st.heap
    ensures Valid(Requested(st, ss, t))
  {
  }

  lemma CollectedValid(st: Store, ss: Ref, p: Pid)
    requires Valid(st) && IsKind(st, ss, SmartKind) && Collected(st, ss, p).Some?
    ensures var st1 := Collected(st, ss, p).value;
            && Valid(st1) && IsKind(st1, ss, SmartKind) && st1.heap[ss].peer == st.heap[ss].peer
            && st1.heap.Keys == st.heap.Keys && st1.heap[ss].queue != []
  {
    WithQueueValid(st, ss, [p]);
  }

  lemma ServedValid(st: Store, ss: Ref, req: Request)
    requires Valid(st) && IsKind(st, ss, SmartKind) && st.heap[ss].peer.Some?
    requires st.heap[ss].peer.value in st.heap && st.heap[ss].queue != []
    ensures Valid(Served(st, ss, req).0)
  {
    match req
    case Bad => FarClosedValid(st, ss);
    case Host(s2) =>
      if s2 !in st.heap {
        HostedValid(st, ss, s2);
      }
    case Remote(t) => RequestedValid(st, ss, t);
    case _ =>
  }

  lemma SmartEnqueueValid(st: Store, ss: Ref, p: Pid, req: Request)
    requires Valid(st) && IsKind(st, ss, SmartKind) && st.heap[ss].peer.Some?
    requires st.heap[ss].peer.value in st.heap
    ensures Valid(SmartEnqueue(st, ss, p, req).0)
  {
    if Collected(st, ss, p) == None {
      FarClosedValid(Put(st, p), ss);
    } else {
      CollectedValid(st, ss, p);
      ServedValid(Collected(st, ss, p).value, ss, req);
    }
  }

  lemma PassOnValid(st: Store, s: Ref, p: Pid, script: Answers, req: Request)
    requires Valid(st) && IsKind(st, s, LocalKind) && Linked(st, s)
    ensures Valid(PassOn(st, s, p, script, req).0)
  {
    var q := st.heap[s].peer.value;
    match st.heap[q].kind
    case RemoteKind =>
    case SmartKind => SmartEnqueueValid(st, q, p, req);
    case LocalKind => EnqueueValid(st, q, p, script);
  }

  lemma FilledValid(st: Store, s: Ref, p: Pid, script: Answers, req: Request)
    requires Valid(st) && IsKind(st, s, LocalKind)
    ensures Valid(Filled(st, s, p, script, req).0)
  {
    if Linked(st, s) {
      PassOnValid(st, s, p, script, req);
    }
  }

  lemma EventReadValid(st: Store, s: Ref, got: nat, eof: bool, script: Answers, req: Request)
    requires Valid(st) && IsKind(st, s, LocalKind)
    ensures Valid(EventRead(st, s, got, eof, script, req))
  {
    FilledValid(Fill(st, got), s, st.pool.next, script, req);
    var st1 := Filled(Fill(st, got), s, st.pool.next, script, req).0;
    if IsKind(st1, s, LocalKind) {
      ClosedViaValid(st1, s);
    }
  }

  lemma {:induction false} DropAllValid(st: Store, drop: seq<Ref>)
    requires Valid(st)
    ensures Valid(DropAll(st, drop))
    decreases |drop|
  {
    if drop != [] {
      var st1 := st;
      if IsKind(st, drop[0], RemoteKind) {
        FarClosedValid(st, drop[0]);
        st1 := FarClosed(st, drop[0]);
      }
      DropAllValid(st1, drop[1..]);
    }
  }

  lemma {:induction false} SweepValid(st: Store, found: seq<Ref>)
    requires Valid(st)
    ensures Valid(Sweep(st, found))
    decreases |found|
  {
    if found != [] {
      var st1 := st;
      if IsLive(st, found[0]) {
        ClosedValid(st, found[0]);
        st1 := Closed(st, found[0]);
      }
      SweepValid(st1, found[1..]);
    }
  }

  lemma AcceptedValid(st: Store, s: Ref, r: Ref, t: nat)
    requires Valid(st)
    ensures Valid(Accepted(st, s, r, t))
  {
  }

  lemma BoundValid(st: Store, s: Ref, r: Ref, t: nat)
    requires Valid(st) && IsLive(st, s)
    ensures Valid(Bound(st, s, r, t))
  {
  }

  lemma HandleValid(w: World, p: Pid, m: Message)
    requires Valid(w.st)
    ensures Valid(Handle(w, p, m).st)
  {
    var st := w.st;
    match m
    case Sync(on, drop) => DropAllValid(st, drop);
    case Cnxn(drop) => DropAllValid(st, drop);
    case Open(_, s, r, t) => AcceptedValid(st, s, r, t);
    case Okay(s, r, t) =>
      if IsLive(st, s) {
        BoundValid(st, s, r, t);
      }
    case Clse(s) =>
      if IsLive(st, s) {
        ClosedViaValid(st, s);
      }
    case Wrte(s, len, script) =>
      if IsLive(st, s) {
        EnqueueValid(SetLen(st, p, len), s, p, script);
      }
  }

  lemma ClientValid(st: Store, s: Ref, ss: Ref)
    requires Valid(st)
    ensures Valid(Client(st, s, ss))
  {
  }

  lemma ForwardValid(st: Store, s: Ref, t: nat)
    requires Valid(st)
    ensures Valid(Forward(st, s, t))
  {
  }

  /** Every step of a run keeps the close invariant. */
  lemma NextValid(w: World, act: Action)
    requires Valid(w.st)
    ensures Valid(Next(w, act).st)
  {
    match act
    case SweepSockets(found) => SweepValid(w.st, found);
    case HandlePacket(m) =>
      if w.toMain != [] {
        HandleValid(w.(toMain := w.toMain[1..]), w.toMain[0], m);
      }
    case Write(s, script) =>
      if IsKind(w.st, s, LocalKind) {
        EventWriteValid(w.st, s, script);
      }
    case Read(s, got, eof, script, req) =>
      if IsKind(w.st, s, LocalKind) {
        EventReadValid(w.st, s, got, eof, script, req);
      }
    case AcceptClient(s, ss) => ClientValid(w.st, s, ss);
    case AcceptForward(s, t) => ForwardValid(w.st, s, t);
    case _ =>
  }

  lemma {:induction false} RunValid(host: bool, acts: seq<Action>)
    ensures Valid(Run(host, acts).st)
  {
    if acts != [] {
      RunValid(host, acts[..|acts| - 1]);
      NextValid(Run(host, acts[..|acts| - 1]), acts[|acts| - 1]);
    }
  }

  /** The close invariant, spelled out, after every run. */
  lemma CloseInvariant(host: bool, acts: seq<Action>)
    ensures var st := Run(host, acts).st;
            && (forall r :: r in st.heap && st.heap[r].peer.Some? ==>
                  st.heap[r].peer.value in st.heap && st.heap[st.heap[r].peer.value].peer == Some(r))
            && (forall r :: IsKind(st, r, LocalKind) ==> (r in st.live <==> r !in st.closing))
            && (forall r :: IsKind(st, r, LocalKind) ==> (st.heap[r].closing <==> r in st.closing))
            && (forall r :: r in st.closing ==> r in st.heap && st.heap[r].peer == None)
            && (forall r :: r in st.heap && st.heap[r].close == CloseNotify ==> st.heap[r].peer == None)
  {
    RunValid(host, acts);
  }

  // ----- the handlers keep every packet in one place

  lemma PutKeeps(st: Store, p: Pid, x: Pid)
    requires Single(st.heap, x)
    ensures Keeps(st, Put(st, p), x, Flag(x == p))
    ensures Keeps(st, Leak(st, p), x, Flag(x == p))
    ensures Keeps(st, Send(st, p), x, Flag(x == p))
  {
    TimesOne(p, x);
    TimesConcat(st.pool.freed, [p], x);
    TimesConcat(st.pool.leaked, [p], x);
    TimesConcat(st.pool.sent, [p], x);
  }

  lemma SayKeeps(st: Store, x: Pid)
    requires Single(st.heap, x)
    ensures Keeps(st, Say(st), x, 0)
  {
    SendNewLogged(st.pool, x);
  }

  lemma WithQueueKeeps(st: Store, s: Ref, q: seq<Pid>, x: Pid)
    requires s in st.heap && Single(st.heap, x) && Times(q, x) <= 1
    requires x in q ==> x in st.heap[s].queue || !Held(st.heap, x)
    ensures Keeps(st, WithQueue(st, s, q), x, Times(q, x) - Times(st.heap[s].queue, x))
  {
    UpdateHeld(st.heap, s, st.heap[s].(queue := q), x);
  }

  /** Packet p, held by nobody, is queued at s. */
  lemma QueueKeeps(st: Store, s: Ref, p: Pid, x: Pid)
    requires s in st.heap && Single(st.heap, x) && Balance(st, p) == -1
    ensures Keeps(st, WithQueue(st, s, st.heap[s].queue + [p]), x, Flag(x == p))
  {
    var q := st.heap[s].queue;
    TimesConcat(q, [p], x);
    TimesOne(p, x);
    TimesMember(q, x);
    assert p in q ==> Held(st.heap, p);
    WithQueueKeeps(st, s, q + [p], x);
  }

  /** In every branch the packet ends up in exactly one place: freed, leaked or queued. */
  lemma PlacedKeeps(st: Store, s: Ref, p: Pid, left: nat, fail: bool, x: Pid)
    requires Valid(st) && IsLive(st, s) && st.heap[s].queue == [] && Single(st.heap, x) && Balance(st, p) == -1
    ensures Keeps(st, Placed(st, s, p, left, fail), x, Flag(x == p))
  {
    if left == 0 {
      PutKeeps(st, p, x);
    } else if fail {
      ClosedViaKeeps(st, s, None, x);
      PutKeeps(ClosedVia(st, s), p, x);
    } else {
      assert [] + [p] == [p];
      QueueKeeps(SetLen(st, p, left), s, p, x);
    }
  }

  lemma EnqueueKeeps(st: Store, s: Ref, p: Pid, script: Answers, x: Pid)
    requires Valid(st) && IsLive(st, s) && Single(st.heap, x) && Balance(st, p) == -1
    ensures Keeps(st, Enqueue(st, s, p, script).0, x, Flag(x == p))
  {
    if st.heap[s].queue != [] {
      QueueKeeps(st, s, p, x);
    } else {
      var len := LenOf(st, p);
      var io := Engine.WriteOutcome(len, script, false);
      PlacedKeeps(st, s, p, len - io.k, io.fail, x);
    }
  }

  lemma AfterDrainKeeps(st: Store, s: Ref, d: Drain, x: Pid)
    requires s in st.heap && Single(st.heap, x)
    requires var q := st.heap[s].queue; |d.rest| <= |q| && d.rest == q[|q| - |d.rest|..]
    ensures Keeps(st, AfterDrain(st, s, d), x, 0)
  {
    var q := st.heap[s].queue;
    var done := q[..|q| - |d.rest|];
    assert q == done + d.rest;
    TimesConcat(done, d.rest, x);
    TimesConcat(st.pool.freed, done, x);
    WithQueueKeeps(st, s, d.rest, x);
  }

  lemma SettledKeeps(st: Store, s: Ref, d: Drain, x: Pid)
    requires Valid(st) && IsKind(st, s, LocalKind) && Single(st.heap, x)
    ensures Keeps(st, Settled(st, s, d), x, 0)
  {
    SayKeeps(st, x);
    ClosedViaKeeps(st, s, None, x);
  }

  lemma EventWriteKeeps(st: Store, s: Ref, script: Answers, x: Pid)
    requires Valid(st) && IsKind(st, s, LocalKind) && Single(st.heap, x)
    ensures Keeps(st, EventWrite(st, s, script), x, 0)
  {
    var d := Drained(st.pool, st.heap[s].queue, script);
    DrainedSuffix(st.pool, st.heap[s].queue, script);
    AfterDrainValid(st, s, d);
    AfterDrainKeeps(st, s, d, x);
    SettledKeeps(AfterDrain(st, s, d), s, d, x);
  }

  /** The smart socket is freed with its packet, and its peer lives on. */
  lemma DismissKeeps(st: Store, ss: Ref, p: Ref, k: ASocket, x: Pid)
    requires ss in st.heap && p in st.heap && p != ss && Single(st.heap, x) && k.queue == st.heap[p].queue
    ensures Keeps(st, st.(heap := st.heap[p := k] - {ss}, pool := PutAll(st.pool, st.heap[ss].queue)), x, 0)
  {
    RelinkHeld(st.heap, p, k, x);
    RemoveHeld(st.heap[p := k], ss, x);
    TimesConcat(st.pool.freed, st.heap[ss].queue, x);
  }

  lemma HostedKeeps(st: Store, ss: Ref, s2: Ref, x: Pid)
    requires Valid(st) && IsKind(st, ss, SmartKind) && st.heap[ss].peer.Some? && s2 !in st.heap
    requires st.heap[ss].peer.value in st.heap && Single(st.heap, x)
    ensures Keeps(st, Hosted(st, ss, s2), x, 0)
  {
    var p := st.heap[ss].peer.value;
    var k := st.heap[p].(close := LocalClose, peer := Some(s2));
    var st1 := st.(heap := st.heap[p := k] - {ss}, pool := PutAll(st.pool, st.heap[ss].queue));
    DismissKeeps(st, ss, p, k, x);
    RelinkHeld(st1.heap, s2, NewLocal(Some(p), None), x);
    assert Hosted(st, ss, s2).heap == st1.heap[s2 := NewLocal(Some(p), None)];
  }

  lemma RequestedKeeps(st: Store, ss: Ref, t: nat, x: Pid)
    requires Valid(st) && IsKind(st, ss, SmartKind) && st.heap[ss].peer.Some?
    requires st.heap[ss].peer.value in st.heap && Single(st.heap, x)
    ensures Keeps(st, Requested(st, ss, t), x, 0)
  {
    var p := st.heap[ss].peer.value;
    SayKeeps(st, x);
    DismissKeeps(Say(st), ss, p, st.heap[p].(close := CloseNotify, peer := None, transport := Some(t)), x);
  }

  lemma CollectedKeeps(st: Store, ss: Ref, p: Pid, x: Pid)
    requires ss in st.heap && Single(st.heap, x) && Balance(st, p) == -1 && Collected(st, ss, p).Some?
    ensures Keeps(st, Collected(st, ss, p).value, x, Flag(x == p))
  {
    var q := st.heap[ss].queue;
    if q == [] {
      assert q + [p] == [p];
      QueueKeeps(st, ss, p, x);
    } else {
      PutKeeps(SetLen(st, q[0], LenOf(st, q[0]) + LenOf(st, p)), p, x);
    }
  }

  lemma ServedKeeps(st: Store, ss: Ref, req: Request, x: Pid)
    requires Valid(st) && IsKind(st, ss, SmartKind) && st.heap[ss].peer.Some?
    requires st.heap[ss].peer.value in st.heap && st.heap[ss].queue != [] && Single(st.heap, x)
    ensures Keeps(st, Served(st, ss, req).0, x, 0)
  {
    match req
    case Bad => FarClosedKeeps(st, ss, x);
    case Host(s2) =>
      if s2 !in st.heap {
        HostedKeeps(st, ss, s2, x);
      }
    case Remote(t) => RequestedKeeps(st, ss, t, x);
    case _ =>
  }

  lemma SmartEnqueueKeeps(st: Store, ss: Ref, p: Pid, req: Request, x: Pid)
    requires Valid(st) && IsKind(st, ss, SmartKind) && st.heap[ss].peer.Some?
    requires st.heap[ss].peer.value in st.heap && Single(st.heap, x) && Balance(st, p) == -1
    ensures Keeps(st, SmartEnqueue(st, ss, p, req).0, x, Flag(x == p))
  {
    if Collected(st, ss, p) == None {
      PutKeeps(st, p, x);
      FarClosedKeeps(Put(st, p), ss, x);
    } else {
      CollectedValid(st, ss, p);
      CollectedKeeps(st, ss, p, x);
      ServedKeeps(Collected(st, ss, p).value, ss, req, x);
    }
  }

  lemma PassOnKeeps(st: Store, s: Ref, p: Pid, script: Answers, req: Request, x: Pid)
    requires Valid(st) && IsKind(st, s, LocalKind) && Linked(st, s)
    requires Single(st.heap, x) && Balance(st, p) == -1
    ensures Keeps(st, PassOn(st, s, p, script, req).0, x, Flag(x == p))
  {
    var q := st.heap[s].peer.value;
    match st.heap[q].kind
    case RemoteKind => PutKeeps(st, p, x);
    case SmartKind => SmartEnqueueKeeps(st, q, p, req, x);
    case LocalKind => EnqueueKeeps(st, q, p, script, x);
  }

  /** A packet that does not exist yet is nowhere. */
  ghost predicate Fresh(st: Store)
  {
    Balance(st, st.pool.next) == 0
  }

  lemma FillKeeps(st: Store, got: nat, x: Pid)
    requires Single(st.heap, x) && Fresh(st)
    ensures var d: int := Flag(x == st.pool.next);
            Keeps(st, Fill(st, got), x, 0 - d) && Balance(Fill(st, got), st.pool.next) == -1
  {
  }

  lemma FilledKeeps(st: Store, s: Ref, p: Pid, script: Answers, req: Request, x: Pid)
    requires Valid(st) && IsKind(st, s, LocalKind) && Single(st.heap, x) && Balance(st, p) == -1
    ensures Keeps(st, Filled(st, s, p, script, req).0, x, Flag(x == p))
  {
    if LenOf(st, p) == 0 || !Linked(st, s) {
      PutKeeps(st, p, x);
    } else {
      PassOnKeeps(st, s, p, script, req, x);
    }
  }

  lemma EventReadKeeps(st: Store, s: Ref, got: nat, eof: bool, script: Answers, req: Request, x: Pid)
    requires Valid(st) && IsKind(st, s, LocalKind) && Single(st.heap, x) && Fresh(st)
    ensures Keeps(st, EventRead(st, s, got, eof, script, req), x, 0)
  {
    var p, st0 := st.pool.next, Fill(st, got);
    FillKeeps(st, got, x);
    FilledValid(st0, s, p, script, req);
    FilledKeeps(st0, s, p, script, req, x);
    var st1 := Filled(st0, s, p, script, req).0;
    if IsKind(st1, s, LocalKind) {
      ClosedViaKeeps(st1, s, None, x);
    }
  }

  lemma {:induction false} DropAllKeeps(st: Store, drop: seq<Ref>, x: Pid)
    requires Valid(st) && Single(st.heap, x)
    ensures Keeps(st, DropAll(st, drop), x, 0)
    decreases |drop|
  {
    if drop != [] {
      var st1 := st;
      if IsKind(st, drop[0], RemoteKind) {
        FarClosedValid(st, drop[0]);
        FarClosedKeeps(st, drop[0], x);
        st1 := FarClosed(st, drop[0]);
      }
      DropAllKeeps(st1, drop[1..], x);
    }
  }

  lemma {:induction false} SweepKeeps(st: Store, found: seq<Ref>, x: Pid)
    requires Valid(st) && Single(st.heap, x)
    ensures Keeps(st, Sweep(st, found), x, 0)
    decreases |found|
  {
    if found != [] {
      var st1 := st;
      if IsLive(st, found[0]) {
        ClosedValid(st, found[0]);
        ClosedKeeps(st, found[0], None, x);
        st1 := Closed(st, found[0]);
      }
      SweepKeeps(st1, found[1..], x);
    }
  }

  lemma AcceptedKeeps(st: Store, s: Ref, r: Ref, t: nat, x: Pid)
    requires Single(st.heap, x)
    ensures Keeps(st, Accepted(st, s, r, t), x, 0)
  {
    if !(s in st.heap || r in st.heap || s == r) {
      RelinkHeld(st.heap, s, NewLocal(Some(r), None), x);
      RelinkHeld(st.heap[s := NewLocal(Some(r), None)], r, NewRemote(s, t), x);
    }
  }

  lemma BoundKeeps(st: Store, s: Ref, r: Ref, t: nat, x: Pid)
    requires s in st.heap && Single(st.heap, x)
    ensures Keeps(st, Bound(st, s, r, t), x, 0)
  {
    if !(st.heap[s].peer.Some? || r in st.heap) {
      var k := st.heap[s].(close := LocalClose, peer := Some(r));
      RelinkHeld(st.heap, s, k, x);
      RelinkHeld(st.heap[s := k], r, NewRemote(s, t), x);
    }
  }

  /** Whatever it says, packet p of the transport ends up in exactly one place. */
  lemma HandleKeeps(w: World, p: Pid, m: Message, x: Pid)
    requires Valid(w.st) && Single(w.st.heap, x) && Balance(w.st, p) == -1
    ensures Keeps(w.st, Handle(w, p, m).st, x, Flag(x == p))
  {
    var st := w.st;
    match m
    case Sync(on, drop) => SyncKeeps(w, p, on, drop, x);
    case Cnxn(drop) => CnxnKeeps(w, p, drop, x);
    case Open(accept, s, r, t) => OpenKeeps(w, p, m, x);
    case Okay(s, r, t) =>
      if w.online && IsLive(st, s) {
        BoundKeeps(st, s, r, t, x);
        PutKeeps(Bound(st, s, r, t), p, x);
      } else {
        PutKeeps(st, p, x);
      }
    case Clse(s) =>
      if w.online && IsLive(st, s) {
        ClosedViaKeeps(st, s, None, x);
        PutKeeps(ClosedVia(st, s), p, x);
      } else {
        PutKeeps(st, p, x);
      }
    case Wrte(s, len, script) => WrteKeeps(w, p, m, x);
  }

  lemma OpenKeeps(w: World, p: Pid, m: Message, x: Pid)
    requires Single(w.st.heap, x) && m.Open?
    ensures Keeps(w.st, Handle(w, p, m).st, x, Flag(x == p))
  {
    var st := w.st;
    var st1 := if m.accept then Accepted(st, m.s, m.r, m.t) else st;
    AcceptedKeeps(st, m.s, m.r, m.t, x);
    SayKeeps(st1, x);
    PutKeeps(if w.online then Say(st1) else st, p, x);
  }

  lemma WrteKeeps(w: World, p: Pid, m: Message, x: Pid)
    requires Valid(w.st) && Single(w.st.heap, x) && Balance(w.st, p) == -1 && m.Wrte?
    ensures Keeps(w.st, Handle(w, p, m).st, x, Flag(x == p))
  {
    var st := w.st;
    if w.online && IsLive(st, m.s) {
      EnqueueKeeps(SetLen(st, p, m.len), m.s, p, m.script, x);
      SayKeeps(Enqueue(SetLen(st, p, m.len), m.s, p, m.script).0, x);
    } else {
      PutKeeps(st, p, x);
    }
  }

  lemma SyncKeeps(w: World, p: Pid, on: bool, drop: seq<Ref>, x: Pid)
    requires Valid(w.st) && Single(w.st.heap, x)
    ensures Keeps(w.st, Handle(w, p, Sync(on, drop)).st, x, Flag(x == p))
  {
    if on {
      PutKeeps(w.st, p, x);
      SayKeeps(Send(w.st, p), x);
    } else {
      DropAllKeeps(w.st, drop, x);
      PutKeeps(DropAll(w.st, drop), p, x);
    }
  }

  lemma CnxnKeeps(w: World, p: Pid, drop: seq<Ref>, x: Pid)
    requires Valid(w.st) && Single(w.st.heap, x)
    ensures Keeps(w.st, Handle(w, p, Cnxn(drop)).st, x, Flag(x == p))
  {
    DropAllKeeps(w.st, drop, x);
    var st1 := if w.online then DropAll(w.st, drop) else w.st;
    SayKeeps(st1, x);
    PutKeeps(if w.host then st1 else Say(st1), p, x);
  }

  // ----- runs keep every packet in one place

  ghost predicate Owned(w: World, x: Pid)
  {
    Single(w.st.heap, x) && Balance(w.st, x) + Times(w.toMain, x) == 0
  }

  ghost predicate AllOwned(w: World)
  {
    Valid(w.st) && forall x :: Owned(w, x)
  }

  lemma DepartKeeps(st: Store, x: Pid)
    requires Single(st.heap, x) && st.pool.sent != []
    ensures Keeps(st, Put(st.(pool := st.pool.(sent := st.pool.sent[1..])), st.pool.sent[0]), x, 0)
  {
    PutKeeps(st.(pool := st.pool.(sent := st.pool.sent[1..])), st.pool.sent[0], x);
  }

  lemma ArriveOwned(w: World, ok: bool, x: Pid)
    requires Owned(w, x)
    ensures Owned(Next(w, Arrive(ok)), x)
  {
    var p := w.st.pool.next;
    PutKeeps(Alloc(w.st), p, x);
    TimesConcat(w.toMain, [p], x);
    TimesOne(p, x);
  }

  lemma ClientKeeps(st: Store, s: Ref, ss: Ref, x: Pid)
    requires Single(st.heap, x)
    ensures Keeps(st, Client(st, s, ss), x, 0)
  {
    if !(s in st.heap || ss in st.heap || s == ss) {
      RelinkHeld(st.heap, s, NewLocal(Some(ss), None), x);
      RelinkHeld(st.heap[s := NewLocal(Some(ss), None)], ss, NewSmart(s), x);
    }
  }

  lemma ForwardKeeps(st: Store, s: Ref, t: nat, x: Pid)
    requires Single(st.heap, x)
    ensures Keeps(st, Forward(st, s, t), x, 0)
  {
    if s !in st.heap {
      RelinkHeld(st.heap, s, NewLocal(None, Some(t)), x);
      SayKeeps(st.(heap := st.heap[s := NewLocal(None, Some(t))]), x);
    }
  }

  lemma HandleOwned(w: World, m: Message, x: Pid)
    requires AllOwned(w) && w.toMain != []
    ensures Owned(Next(w, HandlePacket(m)), x)
  {
    var p := w.toMain[0];
    assert Owned(w, x) && Owned(w, p);
    assert Balance(w.st, p) == -1 by {
      BalanceBounded(w, p);
    }
    HandleKeeps(w.(toMain := w.toMain[1..]), p, m, x);
  }

  lemma BalanceBounded(w: World, p: Pid)
    requires Owned(w, p) && w.toMain != [] && w.toMain[0] == p
    ensures Balance(w.st, p) == -1
  {
  }

  lemma WriteOwned(w: World, s: Ref, script: Answers, x: Pid)
    requires Valid(w.st) && Owned(w, x) && IsKind(w.st, s, LocalKind)
    ensures Owned(Next(w, Write(s, script)), x)
  {
    EventWriteKeeps(w.st, s, script, x);
    OwnedAfter(w, EventWrite(w.st, s, script), x);
    NextWrite(w, s, script);
  }

  lemma NextWrite(w: World, s: Ref, script: Answers)
    requires IsKind(w.st, s, LocalKind)
    ensures Next(w, Write(s, script)) == w.(st := EventWrite(w.st, s, script))
  {
  }

  lemma OwnedAfter(w: World, st: Store, x: Pid)
    requires Owned(w, x) && Keeps(w.st, st, x, 0)
    ensures Owned(w.(st := st), x)
  {
  }

  lemma ReadOwned(w: World, s: Ref, got: nat, eof: bool, script: Answers, req: Request, x: Pid)
    requires Valid(w.st) && Fresh(w.st) && Owned(w, x) && IsKind(w.st, s, LocalKind)
    ensures Owned(Next(w, Read(s, got, eof, script, req)), x)
  {
    EventReadKeeps(w.st, s, got, eof, script, req, x);
    OwnedAfter(w, EventRead(w.st, s, got, eof, script, req), x);
  }

  lemma NothingNew(w: World)
    requires AllOwned(w)
    ensures Fresh(w.st)
  {
    assert Owned(w, w.st.pool.next);
  }

  lemma NextOwned(w: World, act: Action, x: Pid)
    requires AllOwned(w)
    ensures Owned(Next(w, act), x)
  {
    assert Owned(w, x);
    match act
    case Arrive(ok) => ArriveOwned(w, ok, x);
    case Depart =>
      if w.st.pool.sent != [] {
        DepartKeeps(w.st, x);
      }
    case SweepSockets(found) => SweepKeeps(w.st, found, x);
    case HandlePacket(m) =>
      if w.toMain != [] {
        HandleOwned(w, m, x);
      }
    case AcceptClient(s, ss) => ClientKeeps(w.st, s, ss, x);
    case AcceptForward(s, t) => ForwardKeeps(w.st, s, t, x);
    case Write(s, script) =>
      if IsKind(w.st, s, LocalKind) {
        WriteOwned(w, s, script, x);
      }
    case Read(s, got, eof, script, req) =>
      if IsKind(w.st, s, LocalKind) {
        NothingNew(w);
        ReadOwned(w, s, got, eof, script, req, x);
      }
  }

  lemma {:induction false} RunOwned(host: bool, acts: seq<Action>)
    ensures AllOwned(Run(host, acts))
  {
    if acts != [] {
      RunOwned(host, acts[..|acts| - 1]);
      var w, act := Run(host, acts[..|acts| - 1]), acts[|acts| - 1];
      var w1 := Next(w, act);
      NextValid(w, act);
      forall x
        ensures Owned(w1, x)
      {
        NextOwned(w, act, x);
      }
    }
  }

  /**
   Linear ownership: after every run each packet ever allocated is in exactly one
   place (one position of one socket's queue, one of the two channels of the socket
   pair, freed once, or leaked), and a packet not yet allocated is nowhere.
   */
  lemma PacketOwnership(host: bool, acts: seq<Action>, x: Pid)
    ensures var w := Run(host, acts);
            var m := w.st.pool;
            && Flag(Held(w.st.heap, x)) + Times(w.toMain, x) + Times(m.sent, x) + Times(m.freed, x)
               + Times(m.leaked, x) == Flag(x < m.next)
            && (forall r, q :: r in w.st.heap && q in w.st.heap && x in w.st.heap[r].queue && x in w.st.heap[q].queue
                  ==> r == q)
            && (forall r :: r in w.st.heap ==> Times(w.st.heap[r].queue, x) <= 1)
  {
    RunOwned(host, acts);
    assert Owned(Run(host, acts), x);
  }

  // ----- a reader that loses its socket

  /** A client asks for a host service, which gives its socket a local peer. */
  const HostedClient: seq<Action> := [AcceptClient(1, 2), Read(1, 1, false, [], Host(3))]

  /** The heap after that run. */
  function HostedHeap(): (h: map<Ref, ASocket>)
  {
    map[1 := NewLocal(Some(3), None), 3 := NewLocal(Some(1), None)]
  }

  lemma HostedClientRun(host: bool)
    ensures var w := Run(host, HostedClient); w.st.heap == HostedHeap() && w.st.pool.next == 1
  {
    var acts := HostedClient;
    var w0 := Run(host, []);
    var w1 := Next(w0, acts[0]);
    assert acts[..1][..0] == [] && acts[..2] == acts && acts[..1][0] == acts[0];
    assert Run(host, acts[..1]) == w1;
    assert w1.st.heap == map[1 := NewLocal(Some(2), None), 2 := NewSmart(1)];
    var st := Fill(w1.st, 1);
    assert Collected(st, 2, 0) == Some(WithQueue(st, 2, [0]));
    assert Run(host, acts) == Next(w1, acts[1]);
  }

  /** If the service then breaks, the client's read handler goes on with a freed socket. */
  lemma ReaderLosesSocket(host: bool)
    ensures var st := Run(host, HostedClient).st;
            var broken := [Engine.Broken];
            && IsLive(st, 1) && Undermined(Fill(st, 1), 1, st.pool.next, broken)
            && Filled(Fill(st, 1), 1, st.pool.next, broken, Wait).1 >= 0
            && 1 !in EventRead(st, 1, 1, false, broken, Wait).heap
  {
    HostedClientRun(host);
    RunValid(host, HostedClient);
    var st := Run(host, HostedClient).st;
    ReaderStays(Fill(st, 1), 1, st.pool.next, [Engine.Broken], Wait);
    FilledValid(Fill(st, 1), 1, st.pool.next, [Engine.Broken], Wait);
  }

  // ----- a drain that finds no peer

  /** FDE_WRITE at s drains everything and then calls s->peer->ready through a null pointer. */
  predicate NullPeer(st: Store, s: Ref, script: Answers)
  {
    IsLive(st, s) && st.heap[s].peer == None && st.heap[s].queue != []
    && Drained(st.pool, st.heap[s].queue, script).rest == []
  }

  /** A forwarded connection, then CNXN, then data for it before its first OKAY. */
  const EarlyData: seq<Action> := [
    AcceptForward(1, 0),
    Arrive(true),
    HandlePacket(Cnxn([])),
    Arrive(true),
    HandlePacket(Wrte(1, 1, []))]

  /** The states of that run. */
  function Early(host: bool, k: nat): (w: World)
  {
    var waiting := NewLocal(None, Some(0));
    var forwarded := Store(map[1 := waiting], [1], [], Pool(1, map[], [], [], [0]));
    var answered := if host then Pool(2, map[], [1], [], [0]) else Pool(3, map[], [1], [], [0, 2]);
    var p := answered.next;
    if k == 0 then Run(host, [])
    else if k == 1 then World(host, false, forwarded, [])
    else if k == 2 then World(host, false, forwarded.(pool := forwarded.pool.(next := 2)), [1])
    else if k == 3 then World(host, true, forwarded.(pool := answered), [])
    else if k == 4 then World(host, true, forwarded.(pool := answered.(next := p + 1)), [p])
    else World(host, true,
               Store(map[1 := waiting.(queue := [p])], [1], [], answered.(next := p + 1, len := map[p := 1])), [])
  }

  lemma EarlyArrives(host: bool, k: nat)
    requires k == 0 || k == 1 || k == 3
    ensures Next(Early(host, k), EarlyData[k]) == Early(host, k + 1)
  {
  }

  lemma EarlyCnxn(host: bool)
    ensures Next(Early(host, 2), EarlyData[2]) == Early(host, 3)
  {
    assert Early(host, 2).toMain[1..] == [];
  }

  lemma EarlyWrte(host: bool)
    ensures Next(Early(host, 4), EarlyData[4]) == Early(host, 5)
  {
    assert Early(host, 4).toMain[1..] == [];
    assert Engine.WriteOutcome(1, [], false) == Engine.Io(0, false, []);
  }

  lemma {:induction false} EarlyRun(host: bool, k: nat)
    requires k <= 5
    ensures Run(host, EarlyData[..k]) == Early(host, k)
  {
    if k > 0 {
      EarlyRun(host, k - 1);
      assert EarlyData[..k][..k - 1] == EarlyData[..k - 1];
      match k
      case 3 => EarlyCnxn(host);
      case 5 => EarlyWrte(host);
      case _ => EarlyArrives(host, k - 1);
    }
  }

  lemma EarlyDataCrashes(host: bool)
    ensures NullPeer(Run(host, EarlyData).st, 1, [Engine.Took(1)])
  {
    EarlyRun(host, 5);
    assert EarlyData[..5] == EarlyData;
  }

  /** So does any data that has to be queued for a live socket without a peer. */
  lemma PeerlessDataCrashes(w: World, s: Ref, len: nat)
    requires w.online && w.toMain != [] && IsLive(w.st, s) && w.st.heap[s].peer == None && w.st.heap[s].queue == []
    requires len > 0
    ensures NullPeer(Next(w, HandlePacket(Wrte(s, len, []))).st, s, [Engine.Took(len)])
  {
    var p := w.toMain[0];
    assert Engine.WriteOutcome(len, [], false) == Engine.Io(0, false, []);
    var st := Next(w, HandlePacket(Wrte(s, len, []))).st;
    assert st.heap[s].queue == [p] && LenIn(st.pool, p) == len;
    assert Engine.WriteOutcome(len, [Engine.Took(len)], true).k == len;
    assert [p][1..] == [];
  }

  /** Nothing is queued at a live socket without a peer, or with a smart one. */
  ghost predicate Quiet(h: map<Ref, ASocket>)
  {
    forall r :: r in h && h[r].kind == LocalKind && !h[r].closing ==>
      h[r].queue == [] || (h[r].peer.Some? && h[r].peer.value in h && h[h[r].peer.value].kind != SmartKind)
  }

  /** Every WRTE that finds a live socket finds one with a remote peer. */
  ghost predicate Addressed(w: World, act: Action)
  {
    act.HandlePacket? && act.m.Wrte? && w.online && IsLive(w.st, act.m.s) ==>
      var q := w.st.heap[act.m.s].peer; q.Some? && IsKind(w.st, q.value, RemoteKind)
  }

  lemma ClosedQuiet(st: Store, s: Ref)
    requires Valid(st) && IsKind(st, s, LocalKind) && Quiet(st.heap)
    ensures Quiet(Closed(st, s).heap)
  {
    ClosedFrame(st, s);
  }

  lemma ClosedViaQuiet(st: Store, s: Ref)
    requires Valid(st) && IsKind(st, s, LocalKind) && Quiet(st.heap)
    ensures Quiet(ClosedVia(st, s).heap)
  {
    UnrigValid(st, s, None);
    ClosedQuiet(Unrig(st, s), s);
  }

  lemma FarClosedFrame(st: Store, s: Ref)
    requires Valid(st) && s in st.heap && st.heap[s].kind != LocalKind
    ensures var h, h1 := st.heap, FarClosed(st, s).heap;
            && (forall r :: r in h1 ==> r in h && r != s)
            && (forall r :: r in h && r != s && h[s].peer != Some(r) ==> r in h1 && h1[r] == h[r])
            && (forall r :: r in h1 && h[s].peer == Some(r) ==> h1[r].closing)
  {
    if st.heap[s].peer.Some? {
      var p := st.heap[s].peer.value;
      var st1 := Unrig(Unlink(st, p), p);
      FarClosedIs(st, s);
      RetireFrame(st1, p);
      assert Touches(st1.heap, Retire(st1, p).heap, p);
    }
  }

  lemma FarClosedIs(st: Store, s: Ref)
    requires Valid(st) && s in st.heap && st.heap[s].kind != LocalKind && st.heap[s].peer.Some?
    ensures var p := st.heap[s].peer.value;
            && p in st.heap && p != s && st.heap[p].kind == LocalKind && !st.heap[p].closing
            && FarClosed(st, s).heap == Retire(Unrig(Unlink(st, p), p), p).heap - {s}
  {
  }

  lemma FarClosedQuiet(st: Store, s: Ref)
    requires Valid(st) && s in st.heap && st.heap[s].kind != LocalKind && Quiet(st.heap)
    ensures Quiet(FarClosed(st, s).heap)
  {
    FarClosedFrame(st, s);
  }

  /** Data is queued only where the peer is not a smart socket. */
  lemma EnqueueQuiet(st: Store, s: Ref, p: Pid, script: Answers)
    requires Valid(st) && IsLive(st, s) && Quiet(st.heap)
    requires var q := st.heap[s].peer; q.Some? && q.value in st.heap && st.heap[q.value].kind != SmartKind
    ensures Quiet(Enqueue(st, s, p, script).0.heap)
  {
    ClosedViaQuiet(st, s);
  }

  lemma SmartEnqueueQuiet(st: Store, ss: Ref, p: Pid, req: Request)
    requires Valid(st) && IsKind(st, ss, SmartKind) && st.heap[ss].peer.Some?
    requires st.heap[ss].peer.value in st.heap && Quiet(st.heap)
    ensures Quiet(SmartEnqueue(st, ss, p, req).0.heap)
  {
    if Collected(st, ss, p) == None {
      FarClosedQuiet(Put(st, p), ss);
    } else {
      CollectedValid(st, ss, p);
      ServedQuiet(Collected(st, ss, p).value, ss, req);
    }
  }

  lemma ServedQuiet(st: Store, ss: Ref, req: Request)
    requires Valid(st) && IsKind(st, ss, SmartKind) && st.heap[ss].peer.Some?
    requires st.heap[ss].peer.value in st.heap && st.heap[ss].queue != [] && Quiet(st.heap)
    ensures Quiet(Served(st, ss, req).0.heap)
  {
    if req.Bad? {
      FarClosedQuiet(st, ss);
    }
  }

  lemma EventReadQuiet(st: Store, s: Ref, got: nat, eof: bool, script: Answers, req: Request)
    requires Valid(st) && IsKind(st, s, LocalKind) && Quiet(st.heap)
    ensures Quiet(EventRead(st, s, got, eof, script, req).heap)
  {
    var st0, p := Fill(st, got), st.pool.next;
    FilledValid(st0, s, p, script, req);
    FilledQuiet(st0, s, p, script, req);
    var st1 := Filled(st0, s, p, script, req).0;
    if IsKind(st1, s, LocalKind) {
      ClosedViaQuiet(st1, s);
    }
  }

  lemma FilledQuiet(st: Store, s: Ref, p: Pid, script: Answers, req: Request)
    requires Valid(st) && IsKind(st, s, LocalKind) && Quiet(st.heap)
    ensures Quiet(Filled(st, s, p, script, req).0.heap)
  {
    if Linked(st, s) {
      var q := st.heap[s].peer.value;
      match st.heap[q].kind
      case RemoteKind =>
      case SmartKind => SmartEnqueueQuiet(st, q, p, req);
      case LocalKind => EnqueueQuiet(st, q, p, script);
    }
  }

  lemma EventWriteQuiet(st: Store, s: Ref, script: Answers)
    requires Valid(st) && IsKind(st, s, LocalKind) && Quiet(st.heap)
    ensures Quiet(EventWrite(st, s, script).heap)
  {
    var d := Drained(st.pool, st.heap[s].queue, script);
    AfterDrainValid(st, s, d);
    assert Quiet(AfterDrain(st, s, d).heap);
    ClosedViaQuiet(AfterDrain(st, s, d), s);
  }

  lemma {:induction false} DropAllQuiet(st: Store, drop: seq<Ref>)
    requires Valid(st) && Quiet(st.heap)
    ensures Quiet(DropAll(st, drop).heap)
    decreases |drop|
  {
    if drop != [] {
      var st1 := st;
      if IsKind(st, drop[0], RemoteKind) {
        FarClosedValid(st, drop[0]);
        FarClosedQuiet(st, drop[0]);
        st1 := FarClosed(st, drop[0]);
      }
      DropAllQuiet(st1, drop[1..]);
    }
  }

  lemma {:induction false} SweepQuiet(st: Store, found: seq<Ref>)
    requires Valid(st) && Quiet(st.heap)
    ensures Quiet(Sweep(st, found).heap)
    decreases |found|
  {
    if found != [] {
      var st1 := st;
      if IsLive(st, found[0]) {
        ClosedValid(st, found[0]);
        ClosedQuiet(st, found[0]);
        st1 := Closed(st, found[0]);
      }
      SweepQuiet(st1, found[1..]);
    }
  }

  lemma NewQuiet(st: Store, s: Ref, r: Ref, t: nat)
    requires Valid(st) && Quiet(st.heap)
    ensures Quiet(Accepted(st, s, r, t).heap) && Quiet(Client(st, s, r).heap) && Quiet(Forward(st, s, t).heap)
    ensures IsLive(st, s) ==> Quiet(Bound(st, s, r, t).heap)
  {
  }

  lemma HandleQuiet(w: World, p: Pid, m: Message)
    requires Valid(w.st) && Quiet(w.st.heap) && Addressed(w, HandlePacket(m))
    ensures Quiet(Handle(w, p, m).st.heap)
  {
    var st := w.st;
    match m
    case Sync(on, drop) => DropAllQuiet(st, drop);
    case Cnxn(drop) => DropAllQuiet(st, drop);
    case Open(_, s, r, t) => NewQuiet(st, s, r, t);
    case Okay(s, r, t) => NewQuiet(st, s, r, t);
    case Clse(s) =>
      if IsLive(st, s) {
        ClosedViaQuiet(st, s);
      }
    case Wrte(s, len, script) =>
      if w.online && IsLive(st, s) {
        EnqueueQuiet(SetLen(st, p, len), s, p, script);
      }
  }

  lemma NextQuiet(w: World, act: Action)
    requires Valid(w.st) && Quiet(w.st.heap) && Addressed(w, act)
    ensures Quiet(Next(w, act).st.heap)
  {
    match act
    case SweepSockets(found) => SweepQuiet(w.st, found);
    case HandlePacket(m) =>
      if w.toMain != [] {
        HandleQuiet(w.(toMain := w.toMain[1..]), w.toMain[0], m);
      }
    case AcceptClient(s, ss) => NewQuiet(w.st, s, ss, 0);
    case AcceptForward(s, t) => NewQuiet(w.st, s, s, t);
    case Write(s, script) =>
      if IsKind(w.st, s, LocalKind) {
        EventWriteQuiet(w.st, s, script);
      }
    case Read(s, got, eof, script, req) =>
      if IsKind(w.st, s, LocalKind) {
        EventReadQuiet(w.st, s, got, eof, script, req);
      }
    case _ =>
  }

  lemma {:induction false} RunQuiet(host: bool, acts: seq<Action>)
    requires forall i :: 0 <= i < |acts| ==> Addressed(Run(host, acts[..i]), acts[i])
    ensures Quiet(Run(host, acts).st.heap)
  {
    if acts != [] {
      var front := acts[..|acts| - 1];
      assert forall i :: 0 <= i < |front| ==> front[..i] == acts[..i] && front[i] == acts[i];
      RunQuiet(host, front);
      RunValid(host, front);
      NextQuiet(Run(host, front), acts[|acts| - 1]);
    }
  }

  /** A drain never finds a null peer in a run where every WRTE is for a socket with a remote peer. */
  lemma NoNullPeer(host: bool, acts: seq<Action>, s: Ref, script: Answers)
    requires forall i :: 0 <= i < |acts| ==> Addressed(Run(host, acts[..i]), acts[i])
    ensures !NullPeer(Run(host, acts).st, s, script)
  {
    RunQuiet(host, acts);
  }
}
