/**
 Local, remote and smart sockets as separately allocated objects with peer
 pointers and packet queues, the live and the closing list, the lock that guards
 them, and the packet allocator.
 Closing is re-entrant: closing a socket closes its peer.  References to freed
 sockets are not in the heap, so a method that verifies uses no freed socket;
 acquiring the lock requires that it is not held, so none deadlocks on it.
 */
module SocketTable {
  import opened Basics

  type Ref = nat

  /** The address of a packet. */
  type Pid = nat

  /** Where packets are that no socket holds, and one entry per put_apacket. */
  datatype Pool = Pool(
    next: Pid,                   // the packet get_apacket will return
    len: map<Pid, nat>,          // p->len
    freed: seq<Pid>,
    leaked: seq<Pid>,            // dropped without put_apacket
    sent: seq<Pid>)              // on the socket pair, on their way to the input thread

  datatype Kind = LocalKind | RemoteKind | SmartKind

  /** The function behind s->close. */
  datatype Closer = LocalClose | CloseNotify | RemoteClose | SmartClose

  datatype ASocket = ASocket(
    kind: Kind,
    close: Closer,
    peer: Option<Ref>,
    closing: bool,
    queue: seq<Pid>,             // from pkt_first to pkt_last
    transport: Option<nat>)

  /** Allocated sockets, the two lists, and the packets. */
  datatype Store = Store(heap: map<Ref, ASocket>, live: seq<Ref>, closing: seq<Ref>, pool: Pool)

  // ----- the invariant

  /** Every pointer but d's is answered by its target. */
  ghost predicate Symmetric(h: map<Ref, ASocket>, d: Option<Ref>)
  {
    forall r :: r in h && h[r].peer.Some? && d != Some(r) ==>
      var q := h[r].peer.value;
      q in h && h[q].peer == Some(r) && q != r
  }

  ghost predicate Kinds(k: ASocket)
  {
    match k.kind
    case LocalKind =>
      && (k.close == LocalClose || k.close == CloseNotify)
      && (k.closing ==> k.peer == None)
      && (k.close == CloseNotify ==> k.peer == None)
    case RemoteKind => k.close == RemoteClose && !k.closing && k.queue == []
    case SmartKind => k.close == SmartClose && !k.closing && |k.queue| <= 1
  }

  ghost predicate Peers(h: map<Ref, ASocket>)
  {
    forall r :: r in h && h[r].kind != LocalKind && h[r].peer.Some? ==>
      h[r].peer.value in h ==> h[h[r].peer.value].kind == LocalKind
  }

  ghost predicate Lists(st: Store)
  {
    && NoDup(st.live) && NoDup(st.closing)
    && (forall r :: r in st.live <==> r in st.heap && st.heap[r].kind == LocalKind && !st.heap[r].closing)
    && (forall r :: r in st.closing <==> r in st.heap && st.heap[r].kind == LocalKind && st.heap[r].closing)
  }

  /** The close invariant; d is a socket whose peer has already let go of it. */
  ghost predicate ValidBut(st: Store, d: Option<Ref>)
  {
    && Symmetric(st.heap, d)
    && (forall r :: r in st.heap ==> Kinds(st.heap[r]))
    && Peers(st.heap)
    && Lists(st)
  }

  ghost predicate Valid(st: Store)
  {
    ValidBut(st, None)
  }

  // ----- packets

  /** put_apacket on each packet of q. */
  function PutAll(m: Pool, q: seq<Pid>): (r: Pool)
  {
    m.(freed := m.freed + q)
  }

  /** get_apacket, then send_packet. */
  function SendNew(m: Pool): (r: Pool)
  {
    m.(next := m.next + 1, sent := m.sent + [m.next])
  }

  // ----- what closing means

  /** A local socket without a peer: freed with its queue, or moved to the closing list if data is queued. */
  function Retire(st: Store, s: Ref): (r: Store)
    requires s in st.heap
  {
    if st.heap[s].closing || st.heap[s].queue == [] then
      st.(heap := st.heap - {s}, live := Minus(st.live, s), closing := Minus(st.closing, s),
          pool := PutAll(st.pool, st.heap[s].queue))
    else
      st.(heap := st.heap[s := st.heap[s].(closing := true, peer := None)],
          live := Minus(st.live, s), closing := st.closing + [s])
  }

  /** A remote or smart socket without a peer goes away; a remote one sends CLSE, a smart one frees its packet. */
  function Release(st: Store, p: Ref): (r: Store)
    requires p in st.heap
  {
    st.(heap := st.heap - {p},
        pool := if st.heap[p].kind == RemoteKind then SendNew(st.pool) else PutAll(st.pool, st.heap[p].queue))
  }

  function Unlink(st: Store, s: Ref): (r: Store)
    requires s in st.heap
  {
    st.(heap := st.heap[s := st.heap[s].(peer := None)])
  }

  /** Closing the peer p of a socket that has let go of it. */
  function ClosePeer(st: Store, p: Ref): (r: Store)
    requires p in st.heap
  {
    if st.heap[p].kind == LocalKind then Retire(Unlink(st, p), p) else Release(Unlink(st, p), p)
  }

  /** local_socket_close: the peer first, then the socket itself. */
  function Closed(st: Store, s: Ref): (r: Store)
    requires s in st.heap
  {
    match st.heap[s].peer
    case None => Retire(st, s)
    case Some(p) =>
      if p !in st.heap || p == s then Retire(Unlink(st, s), s)
      else
        var st1 := ClosePeer(st, p);
        Retire(Unlink(st1, s), s)
  }

  // ----- the pieces keep the invariant

  lemma MinusSet(list: seq<Ref>, s: Ref)
    requires NoDup(list)
    ensures NoDup(Minus(list, s)) && forall x :: x in Minus(list, s) <==> x in list && x != s
  {
    MinusNoDup(list, s);
    forall x
      ensures x in Minus(list, s) <==> x in list && x != s
    {
      MinusMember(list, s, x);
    }
  }

  lemma RetireLists(st: Store, s: Ref)
    requires Lists(st) && s in st.heap && st.heap[s].kind == LocalKind
    ensures Lists(Retire(st, s))
  {
    MinusSet(st.live, s);
    MinusSet(st.closing, s);
  }

  lemma RetireValid(st: Store, s: Ref, d: Option<Ref>)
    requires ValidBut(st, d) && s in st.heap && st.heap[s].kind == LocalKind && st.heap[s].peer == None
    requires d != Some(s)
    ensures ValidBut(Retire(st, s), d)
  {
    RetireLists(st, s);
  }

  lemma ReleaseValid(st: Store, p: Ref, d: Option<Ref>)
    requires ValidBut(st, d) && p in st.heap && st.heap[p].kind != LocalKind && st.heap[p].peer == None
    ensures ValidBut(Release(st, p), d)
  {
  }

  /** After p lets go of s, only s still points at someone who does not point back. */
  lemma UnlinkPeer(st: Store, s: Ref, p: Ref)
    requires Valid(st) && s in st.heap && st.heap[s].peer == Some(p)
    ensures p in st.heap && p != s && ValidBut(Unlink(st, p), Some(s))
  {
  }

  lemma UnlinkSelf(st: Store, s: Ref)
    requires ValidBut(st, Some(s)) && s in st.heap
    requires forall r :: r in st.heap && r != s ==> st.heap[r].peer != Some(s)
    ensures Valid(Unlink(st, s))
  {
  }

  class Table {
    var heap: map<Ref, ASocket>
    var live: seq<Ref>
    var closing: seq<Ref>
    var pool: Pool
    var locked: bool        // socket_list_lock is held

    ghost function St(): (r: Store)
      reads this
    {
      Store(heap, live, closing, pool)
    }

    /** The loop of local_socket_destroy that disposes of unwritten data. */
    method Dispose(q: seq<Pid>)
      modifies this`pool
      ensures pool == PutAll(old(pool), q)
    {
      for i := 0 to |q|
        invariant pool == PutAll(old(pool), q[..i])
      {
        pool := pool.(freed := pool.freed + [q[i]]);
        assert q[..i + 1] == q[..i] + [q[i]];
      }
      assert q[..|q|] == q;
    }

    /** local_socket_close_locked; d is the socket on whose behalf s, its former peer, is closed. */
    method CloseLocked(s: Ref, ghost d: Option<Ref>)
      requires locked && s in heap && heap[s].kind == LocalKind
      requires ValidBut(St(), d) && d != Some(s) && (d.Some? ==> heap[s].peer == None)
      modifies this`heap, this`live, this`closing, this`pool
      ensures St() == Closed(old(St()), s) && ValidBut(St(), d)
      decreases Flag(heap[s].peer.Some?), 1
    {
      ghost var st0 := St();
      if heap[s].peer.Some? {
        var p := heap[s].peer.value;
        UnlinkPeer(St(), s, p);
        heap := heap[p := heap[p].(peer := None)];
        if heap[p].close == LocalClose {
          CloseLocked(p, Some(s));
        } else {
          CloseFar(p, s);
        }
        assert St() == ClosePeer(st0, p);
        ClosePeerFrees(st0, s, p);
        UnlinkSelf(St(), s);
        heap := heap[s := heap[s].(peer := None)];
      }
      RetireValid(St(), s, d);
      if heap[s].closing || heap[s].queue == [] {
        Dispose(heap[s].queue);
        heap := heap - {s};
        live, closing := Minus(live, s), Minus(closing, s);
      } else {
        heap := heap[s := heap[s].(closing := true)];
        live, closing := Minus(live, s), closing + [s];
      }
    }

    /** s->peer->close on a peer that is not a plain local socket, with the lock held. */
    method CloseFar(p: Ref, ghost s: Ref)
      requires locked && p in heap && heap[p].peer == None && heap[p].kind != LocalKind
      requires ValidBut(St(), Some(s)) && s != p
      modifies this`heap, this`pool
      ensures St() == Release(old(St()), p) && ValidBut(St(), Some(s))
      decreases 0, 0
    {
      ReleaseValid(St(), p, Some(s));
      if heap[p].kind == RemoteKind {
        pool := SendNew(pool);
      } else {
        Dispose(heap[p].queue);
      }
      heap := heap - {p};
    }

    /** local_socket_close: takes the lock. */
    method LocalSocketClose(s: Ref, ghost d: Option<Ref>)
      requires !locked && s in heap && heap[s].kind == LocalKind
      requires ValidBut(St(), d) && d != Some(s) && (d.Some? ==> heap[s].peer == None)
      modifies this
      ensures !locked && St() == Closed(old(St()), s) && ValidBut(St(), d)
    {
      locked := true;
      CloseLocked(s, d);
      locked := false;
    }

    /** s->close for a local socket, rigged or not. */
    method CloseVia(s: Ref, ghost d: Option<Ref>)
      requires !locked && s in heap && heap[s].kind == LocalKind
      requires ValidBut(St(), d) && d != Some(s) && (d.Some? ==> heap[s].peer == None)
      modifies this
      ensures !locked && ValidBut(St(), d)
      ensures St() == ClosedVia(old(St()), s)
    {
      UnrigValid(St(), s, d);
      heap := heap[s := heap[s].(close := LocalClose)];
      LocalSocketClose(s, d);
    }

    /** remote_socket_disconnect and smart_socket_close: a smart socket's packet, the local peer, then s. */
    method FarClose(s: Ref)
      requires !locked && s in heap && heap[s].kind != LocalKind && Valid(St())
      modifies this
      ensures !locked && Valid(St()) && s !in heap
      ensures St() == FarClosed(old(St()), s)
    {
      Dispose(heap[s].queue);
      if heap[s].peer.Some? {
        var p := heap[s].peer.value;
        UnlinkPeer(St(), s, p);
        heap := heap[p := heap[p].(peer := None)];
        CloseVia(p, Some(s));
      }
      FreeDangling(St(), s);
      heap := heap - {s};
    }

    /** The walk of close_all_sockets up to a socket to close. */
    method FindBoundTo(t: nat) returns (i: nat)
      requires Valid(St())
      ensures i <= |live|
      ensures if i < |live| then BoundTo(heap, live[i], t) else forall r :: r in live ==> !BoundTo(heap, r, t)
    {
      i := 0;
      while i < |live|
        invariant i <= |live| && forall j :: 0 <= j < i ==> !BoundTo(heap, live[j], t)
      {
        var s := live[i];
        if heap[s].transport == Some(t) || (heap[s].peer.Some? && heap[heap[s].peer.value].transport == Some(t)) {
          return;
        }
        i := i + 1;
      }
    }

    /** close_all_sockets: the walk starts again after every socket closed. */
    method CloseAllSockets(t: nat)
      requires !locked && Valid(St())
      modifies this
      ensures !locked && Valid(St())
      ensures forall r :: r in live ==> !BoundTo(heap, r, t)
      ensures Swept(old(St()), St(), t) && Conserved(old(St()), St())
    {
      locked := true;
      ghost var st0 := St();
      var i: nat := FindBoundTo(t);
      while i < |live|
        invariant locked && i <= |live| && Valid(St()) && Swept(st0, St(), t) && Conserved(st0, St())
        invariant if i < |live| then BoundTo(heap, live[i], t) else forall r :: r in live ==> !BoundTo(heap, r, t)
        decreases |live|
      {
        ClosedSweeps(st0, St(), live[i], t);
        CloseLocked(live[i], None);
        i := FindBoundTo(t);
      }
      locked := false;
    }
  }

  function Unrig(st: Store, s: Ref): (r: Store)
    requires s in st.heap
  {
    st.(heap := st.heap[s := st.heap[s].(close := LocalClose)])
  }

  lemma UnrigValid(st: Store, s: Ref, d: Option<Ref>)
    requires ValidBut(st, d) && s in st.heap && st.heap[s].kind == LocalKind
    ensures ValidBut(Unrig(st, s), d)
  {
  }

  /** s->close on a local socket, rigged or not. */
  function ClosedVia(st: Store, s: Ref): (r: Store)
    requires s in st.heap
  {
    Closed(Unrig(st, s), s)
  }

  /** A remote or smart socket is freed together with the local socket it serves. */
  function FarClosed(st: Store, s: Ref): (r: Store)
    requires s in st.heap
  {
    var st0 := st.(pool := PutAll(st.pool, st.heap[s].queue));
    var p := st.heap[s].peer;
    var st1 := if p.Some? && p.value in st.heap then ClosedVia(Unlink(st0, p.value), p.value) else st0;
    st1.(heap := st1.heap - {s})
  }

  lemma FreeDangling(st: Store, s: Ref)
    requires s in st.heap && st.heap[s].kind != LocalKind
    requires ValidBut(st, if st.heap[s].peer.Some? then Some(s) else None)
    requires var p := st.heap[s].peer; p.Some? && p.value in st.heap ==> st.heap[p.value].peer == None
    ensures Valid(st.(heap := st.heap - {s}))
  {
  }

  // ----- teardown of a transport

  predicate BoundTo(h: map<Ref, ASocket>, r: Ref, t: nat)
  {
    r in h &&
    (|| h[r].transport == Some(t)
     || (h[r].peer.Some? && h[r].peer.value in h && h[h[r].peer.value].transport == Some(t)))
  }

  /** Sockets not bound to t are as they were, and still not bound to it. */
  ghost predicate Untouched(st0: Store, st: Store, t: nat)
  {
    forall r :: r in st0.heap && !BoundTo(st0.heap, r, t) ==>
      r in st.heap && st.heap[r] == st0.heap[r] && !BoundTo(st.heap, r, t)
  }

  /** From st0 to st only sockets bound to t were touched: freed, or put on the closing list. */
  ghost predicate Swept(st0: Store, st: Store, t: nat)
  {
    && (forall r :: r in st.heap ==> r in st0.heap)
    && Untouched(st0, st, t)
    && (forall r :: r in st.heap && st.heap[r] != st0.heap[r] ==>
          st.heap[r].closing && st.heap[r].queue == st0.heap[r].queue != [])
    && (forall r :: r in st0.heap && st0.heap[r].kind == LocalKind && st0.heap[r].queue != [] ==> r in st.heap)
  }

  /** Only s changes, and it stays only on the closing list with data queued. */
  ghost predicate Touches(h: map<Ref, ASocket>, h1: map<Ref, ASocket>, s: Ref)
  {
    && (forall r :: r != s ==> (r in h1 <==> r in h))
    && (forall r :: r != s && r in h ==> h1[r] == h[r])
    && (s in h1 ==> s in h && h1[s].closing && h1[s].queue == h[s].queue != [])
  }

  lemma ClosePeerFrame(st: Store, p: Ref)
    requires p in st.heap && (st.heap[p].kind == LocalKind ==> !st.heap[p].closing)
    ensures Touches(st.heap, ClosePeer(st, p).heap, p)
  {
  }

  lemma RetireFrame(st: Store, s: Ref)
    requires s in st.heap
    ensures Touches(st.heap, Retire(st, s).heap, s) && Touches(st.heap, Retire(Unlink(st, s), s).heap, s)
  {
  }

  /** Closing s touches s and its peer only. */
  lemma ClosedFrame(st: Store, s: Ref)
    requires Valid(st) && s in st.heap && st.heap[s].kind == LocalKind
    ensures var st1 := Closed(st, s);
            && (forall r :: r in st1.heap ==> r in st.heap)
            && (forall r :: r in st.heap && r != s && st.heap[s].peer != Some(r) ==>
                  r in st1.heap && st1.heap[r] == st.heap[r])
            && (forall r :: r in st1.heap && (r == s || st.heap[s].peer == Some(r)) ==>
                  st1.heap[r].closing && st1.heap[r].queue == st.heap[r].queue != [])
  {
    if st.heap[s].peer.Some? {
      var p := st.heap[s].peer.value;
      ClosePeerFrame(st, p);
      RetireFrame(ClosePeer(st, p), s);
    } else {
      RetireFrame(st, s);
    }
  }

  /**
   Closing s, exactly: s and a local peer live on, closing, if and only if they have
   data queued; a remote or smart peer is freed; a remote one sends one packet, its
   CLSE, and nothing else is sent; nothing is leaked.
   */
  lemma ClosedExactly(st: Store, s: Ref)
    requires Valid(st) && s in st.heap && st.heap[s].kind == LocalKind
    ensures var st1, p := Closed(st, s), st.heap[s].peer;
            && (s in st1.heap <==> st.heap[s].queue != [] && !st.heap[s].closing)
            && (p.Some? ==> (p.value in st1.heap <==>
                               st.heap[p.value].kind == LocalKind && st.heap[p.value].queue != []))
            && st1.pool.leaked == st.pool.leaked
            && st1.pool.sent == st.pool.sent + if p.Some? && st.heap[p.value].kind == RemoteKind
                                               then [st.pool.next] else []
  {
    if st.heap[s].peer.Some? {
      ClosePeerExactly(st, st.heap[s].peer.value);
    }
  }

  lemma ClosePeerExactly(st: Store, p: Ref)
    requires p in st.heap && (st.heap[p].kind == LocalKind ==> !st.heap[p].closing)
    ensures var st1 := ClosePeer(st, p);
            && (p in st1.heap <==> st.heap[p].kind == LocalKind && st.heap[p].queue != [])
            && st1.pool.leaked == st.pool.leaked
            && st1.pool.sent == st.pool.sent + if st.heap[p].kind == RemoteKind then [st.pool.next] else []
  {
  }

  /** Likewise for a remote or smart socket: its local peer lives on if it has data queued; nothing is sent. */
  lemma FarClosedExactly(st: Store, s: Ref)
    requires Valid(st) && s in st.heap && st.heap[s].kind != LocalKind
    ensures var st1, p := FarClosed(st, s), st.heap[s].peer;
            && s !in st1.heap
            && (p.Some? ==> (p.value in st1.heap <==> st.heap[p.value].queue != []))
            && st1.pool.sent == st.pool.sent && st1.pool.leaked == st.pool.leaked
  {
    if st.heap[s].peer.Some? {
      var p := st.heap[s].peer.value;
      RetireFrame(Unrig(Unlink(st, p), p), p);
    }
  }

  /** st1 is st with s and its peer gone, or closing with data queued. */
  ghost predicate ClosesPair(st: Store, st1: Store, s: Ref)
    requires s in st.heap
  {
    && (forall r :: r in st1.heap ==> r in st.heap)
    && (forall r :: r in st.heap && r != s && st.heap[s].peer != Some(r) ==>
          r in st1.heap && st1.heap[r] == st.heap[r])
    && (forall r :: r in st1.heap && (r == s || st.heap[s].peer == Some(r)) ==>
          st1.heap[r].closing && st1.heap[r].queue == st.heap[r].queue != [])
    && (forall r :: r in st.heap && st.heap[r].kind == LocalKind && st.heap[r].queue != [] ==> r in st1.heap)
  }

  lemma PairSwept(st0: Store, st: Store, st1: Store, s: Ref, t: nat)
    requires Valid(st) && s in st.live && BoundTo(st.heap, s, t) && Swept(st0, st, t) && ClosesPair(st, st1, s)
    ensures Swept(st0, st1, t)
  {
    PairUntouched(st0, st, st1, s, t);
  }

  lemma PairUntouched(st0: Store, st: Store, st1: Store, s: Ref, t: nat)
    requires Valid(st) && s in st.live && BoundTo(st.heap, s, t) && Untouched(st0, st, t) && ClosesPair(st, st1, s)
    ensures Untouched(st0, st1, t)
  {
    forall r | r in st0.heap && !BoundTo(st0.heap, r, t)
      ensures r in st1.heap && st1.heap[r] == st0.heap[r] && !BoundTo(st1.heap, r, t)
    {
      assert r in st.heap && !BoundTo(st.heap, r, t);
      assert r != s && st.heap[s].peer != Some(r);
    }
  }

  lemma ClosedSwept(st0: Store, st: Store, s: Ref, t: nat)
    requires Valid(st) && s in st.live && BoundTo(st.heap, s, t) && Swept(st0, st, t)
    ensures Swept(st0, Closed(st, s), t)
  {
    ClosedPair(st, s);
    PairSwept(st0, st, Closed(st, s), s, t);
  }

  lemma ClosedPair(st: Store, s: Ref)
    requires Valid(st) && s in st.live
    ensures ClosesPair(st, Closed(st, s), s)
  {
    ClosedFrame(st, s);
    ClosedExactly(st, s);
  }

  lemma ClosedSweeps(st0: Store, st: Store, s: Ref, t: nat)
    requires Valid(st) && s in st.live && BoundTo(st.heap, s, t) && Swept(st0, st, t) && Conserved(st0, st)
    ensures Swept(st0, Closed(st, s), t) && Conserved(st0, Closed(st, s)) && |Closed(st, s).live| < |st.live|
  {
    ClosedSwept(st0, st, s, t);
    ClosedConserves(st0, st, s);
    ClosedShrinks(st, s);
  }

  lemma ClosedShrinks(st: Store, s: Ref)
    requires Valid(st) && s in st.live
    ensures |Closed(st, s).live| < |st.live|
  {
    MinusNoDup(st.live, s);
    if st.heap[s].peer.Some? {
      var p := st.heap[s].peer.value;
      MinusNoDup(st.live, p);
      MinusMember(st.live, p, s);
      MinusNoDup(Minus(st.live, p), s);
    }
  }

  /** After closing the peer p of s, s is still allocated and nobody points at it. */
  lemma ClosePeerFrees(st: Store, s: Ref, p: Ref)
    requires Valid(st) && s in st.heap && st.heap[s].kind == LocalKind && st.heap[s].peer == Some(p)
    requires p in st.heap && p != s
    ensures var st1 := ClosePeer(st, p);
            && s in st1.heap && st1.heap[s] == st.heap[s]
            && forall r :: r in st1.heap && r != s ==> st1.heap[r].peer != Some(s)
  {
  }

  lemma ClosePeerValid(st: Store, s: Ref, p: Ref)
    requires Valid(st) && s in st.heap && st.heap[s].peer == Some(p)
    ensures p in st.heap && p != s && ValidBut(ClosePeer(st, p), Some(s))
  {
    UnlinkPeer(st, s, p);
    if st.heap[p].kind == LocalKind {
      RetireValid(Unlink(st, p), p, Some(s));
    } else {
      ReleaseValid(Unlink(st, p), p, Some(s));
    }
  }

  /** Closing a local socket, whatever its peer, keeps the invariant. */
  lemma ClosedValid(st: Store, s: Ref)
    requires Valid(st) && s in st.heap && st.heap[s].kind == LocalKind
    ensures Valid(Closed(st, s))
  {
    if st.heap[s].peer.Some? {
      var p := st.heap[s].peer.value;
      ClosePeerValid(st, s, p);
      ClosePeerFrees(st, s, p);
      UnlinkSelf(ClosePeer(st, p), s);
      RetireValid(Unlink(ClosePeer(st, p), s), s, None);
    } else {
      RetireValid(st, s, None);
    }
  }

  lemma FarClosedValid(st: Store, s: Ref)
    requires Valid(st) && s in st.heap && st.heap[s].kind != LocalKind
    ensures Valid(FarClosed(st, s))
  {
    var st0 := st.(pool := PutAll(st.pool, st.heap[s].queue));
    if st.heap[s].peer.Some? {
      var p := st.heap[s].peer.value;
      UnlinkPeer(st0, s, p);
      var st1 := Unlink(st0, p);
      UnrigValid(st1, p, Some(s));
      RetireValid(Unrig(st1, p), p, Some(s));
      FreeDangling(ClosedVia(st1, p), s);
    } else {
      FreeDangling(st0, s);
    }
  }

  // ----- who owns a packet

  function Times(l: seq<Pid>, x: Pid): (r: nat)
  {
    if l == [] then 0 else Flag(l[0] == x) + Times(l[1..], x)
  }

  lemma {:induction false} TimesConcat(l: seq<Pid>, k: seq<Pid>, x: Pid)
    ensures Times(l + k, x) == Times(l, x) + Times(k, x)
  {
    if l == [] {
      assert l + k == k;
    } else {
      assert (l + k)[1..] == l[1..] + k;
      TimesConcat(l[1..], k, x);
    }
  }

  lemma TimesOne(y: Pid, x: Pid)
    ensures Times([y], x) == Flag(y == x)
  {
    assert [y][1..] == [];
  }

  lemma {:induction false} TimesMember(l: seq<Pid>, x: Pid)
    ensures x in l <==> Times(l, x) > 0
  {
    if l != [] {
      TimesMember(l[1..], x);
    }
  }

  /** Some socket holds packet x. */
  ghost predicate Held(h: map<Ref, ASocket>, x: Pid)
  {
    exists r :: r in h && x in h[r].queue
  }

  /** No two sockets hold packet x, and none twice. */
  ghost predicate Single(h: map<Ref, ASocket>, x: Pid)
  {
    && (forall r :: r in h ==> Times(h[r].queue, x) <= 1)
    && (forall r, q :: r in h && q in h && x in h[r].queue && x in h[q].queue ==> r == q)
  }

  function Logged(m: Pool, x: Pid): (n: nat)
  {
    Times(m.freed, x) + Times(m.leaked, x) + Times(m.sent, x)
  }

  /** How many places packet x is in, less one if it has been allocated. */
  ghost function Balance(st: Store, x: Pid): (n: int)
  {
    Flag(Held(st.heap, x)) + Logged(st.pool, x) - Flag(x < st.pool.next)
  }

  /** From st to st1 packet x gains d places and still no two sockets hold it. */
  ghost predicate Keeps(st: Store, st1: Store, x: Pid, d: int)
  {
    Single(st1.heap, x) && Balance(st1, x) == Balance(st, x) + d
  }

  /** A socket is freed. */
  lemma RemoveHeld(h: map<Ref, ASocket>, s: Ref, x: Pid)
    requires s in h && Single(h, x)
    ensures Single(h - {s}, x)
    ensures Flag(Held(h, x)) == Flag(Held(h - {s}, x)) + Times(h[s].queue, x)
  {
    TimesMember(h[s].queue, x);
    if Held(h, x) {
      var r :| r in h && x in h[r].queue;
      assert r != s ==> r in h - {s} && x in (h - {s})[r].queue;
    }
    if Held(h - {s}, x) {
      var r :| r in h - {s} && x in (h - {s})[r].queue;
      assert r in h && x in h[r].queue;
    }
  }

  function QueueOf(h: map<Ref, ASocket>, s: Ref): (q: seq<Pid>)
  {
    if s in h then h[s].queue else []
  }

  /** A socket is created or changed; what it newly holds nobody held. */
  lemma UpdateHeld(h: map<Ref, ASocket>, s: Ref, k: ASocket, x: Pid)
    requires Single(h, x) && Times(k.queue, x) <= 1
    requires x in k.queue ==> x in QueueOf(h, s) || !Held(h, x)
    ensures Single(h[s := k], x)
    ensures Flag(Held(h[s := k], x)) + Times(QueueOf(h, s), x) == Flag(Held(h, x)) + Times(k.queue, x)
  {
    TimesMember(k.queue, x);
    TimesMember(QueueOf(h, s), x);
    var h1 := h[s := k];
    if Held(h, x) {
      var r :| r in h && x in h[r].queue;
      assert r != s ==> r in h1 && x in h1[r].queue;
    }
    if Held(h1, x) {
      var r :| r in h1 && x in h1[r].queue;
      assert r != s ==> r in h && x in h[r].queue;
    }
    assert x in k.queue ==> s in h1 && x in h1[s].queue;
  }

  /** A socket changes in everything but its queue. */
  lemma RelinkHeld(h: map<Ref, ASocket>, s: Ref, k: ASocket, x: Pid)
    requires Single(h, x) && k.queue == QueueOf(h, s)
    ensures Single(h[s := k], x) && Held(h[s := k], x) == Held(h, x)
  {
    UpdateHeld(h, s, k, x);
  }

  lemma RetireKeeps(st: Store, s: Ref, x: Pid)
    requires s in st.heap && Single(st.heap, x)
    ensures Keeps(st, Retire(st, s), x, 0)
  {
    if st.heap[s].closing || st.heap[s].queue == [] {
      RemoveHeld(st.heap, s, x);
      TimesConcat(st.pool.freed, st.heap[s].queue, x);
    } else {
      RelinkHeld(st.heap, s, st.heap[s].(closing := true, peer := None), x);
    }
  }

  lemma SendNewLogged(m: Pool, x: Pid)
    ensures Logged(SendNew(m), x) == Logged(m, x) + Flag(x == m.next)
  {
    TimesConcat(m.sent, [m.next], x);
    TimesOne(m.next, x);
  }

  lemma ReleaseKeeps(st: Store, p: Ref, x: Pid)
    requires p in st.heap && Single(st.heap, x) && (st.heap[p].kind == RemoteKind ==> st.heap[p].queue == [])
    ensures Keeps(st, Release(st, p), x, 0)
  {
    RemoveHeld(st.heap, p, x);
    TimesConcat(st.pool.freed, st.heap[p].queue, x);
    SendNewLogged(st.pool, x);
  }

  lemma UnlinkKeeps(st: Store, s: Ref, x: Pid)
    requires s in st.heap && Single(st.heap, x)
    ensures Keeps(st, Unlink(st, s), x, 0)
  {
    RelinkHeld(st.heap, s, st.heap[s].(peer := None), x);
  }

  lemma UnrigKeeps(st: Store, s: Ref, x: Pid)
    requires s in st.heap && Single(st.heap, x)
    ensures Keeps(st, Unrig(st, s), x, 0)
  {
    RelinkHeld(st.heap, s, st.heap[s].(close := LocalClose), x);
  }

  /** Closing a local socket and its peer frees each packet they drop exactly once. */
  lemma ClosedKeeps(st: Store, s: Ref, d: Option<Ref>, x: Pid)
    requires ValidBut(st, d) && s in st.heap && Single(st.heap, x) && d != Some(s)
    ensures Keeps(st, Closed(st, s), x, 0)
  {
    if st.heap[s].peer.Some? {
      var p := st.heap[s].peer.value;
      UnlinkKeeps(st, p, x);
      var st1 := Unlink(st, p);
      if st.heap[p].kind == LocalKind {
        RetireKeeps(st1, p, x);
      } else {
        ReleaseKeeps(st1, p, x);
      }
      var st2 := ClosePeer(st, p);
      UnlinkKeeps(st2, s, x);
      RetireKeeps(Unlink(st2, s), s, x);
    } else {
      RetireKeeps(st, s, x);
    }
  }

  lemma ClosedViaKeeps(st: Store, s: Ref, d: Option<Ref>, x: Pid)
    requires ValidBut(st, d) && s in st.heap && st.heap[s].kind == LocalKind && Single(st.heap, x) && d != Some(s)
    ensures Keeps(st, ClosedVia(st, s), x, 0)
  {
    UnrigKeeps(st, s, x);
    UnrigValid(st, s, d);
    ClosedKeeps(Unrig(st, s), s, d, x);
  }

  lemma FarClosedKeeps(st: Store, s: Ref, x: Pid)
    requires Valid(st) && s in st.heap && st.heap[s].kind != LocalKind && Single(st.heap, x)
    ensures Keeps(st, FarClosed(st, s), x, 0)
  {
    var q := st.heap[s].queue;
    var st0 := st.(pool := PutAll(st.pool, q));
    TimesConcat(st.pool.freed, q, x);
    assert Keeps(st, st0, x, Times(q, x));
    if st.heap[s].peer.Some? {
      PeerClosedKeeps(st0, s, x);
      RemoveHeld(ClosedVia(Unlink(st0, st.heap[s].peer.value), st.heap[s].peer.value).heap, s, x);
    } else {
      RemoveHeld(st0.heap, s, x);
    }
  }

  lemma PeerClosedKeeps(st: Store, s: Ref, x: Pid)
    requires Valid(st) && s in st.heap && st.heap[s].kind != LocalKind && Single(st.heap, x)
    requires st.heap[s].peer.Some?
    ensures var p := st.heap[s].peer.value;
            && p in st.heap
            && var st1 := ClosedVia(Unlink(st, p), p);
            && Keeps(st, st1, x, 0) && s in st1.heap && st1.heap[s].queue == st.heap[s].queue
  {
    var p := st.heap[s].peer.value;
    UnlinkPeer(st, s, p);
    UnlinkKeeps(st, p, x);
    ClosedViaKeeps(Unlink(st, p), p, Some(s), x);
    RetireFrame(Unrig(Unlink(st, p), p), p);
  }

  /** Between st0 and st no packet was lost, doubled or freed twice. */
  ghost predicate Conserved(st0: Store, st: Store)
  {
    forall x :: Single(st0.heap, x) ==> Keeps(st0, st, x, 0)
  }

  lemma ClosedConserves(st0: Store, st: Store, s: Ref)
    requires Valid(st) && s in st.heap && Conserved(st0, st)
    ensures Conserved(st0, Closed(st, s))
  {
    forall x | Single(st0.heap, x)
      ensures Keeps(st0, Closed(st, s), x, 0)
    {
      ClosedKeeps(st, s, None, x);
    }
  }
}
