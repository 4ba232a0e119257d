/**
 From fd to fd: the bytes the operating system delivered at one end and took at
 the other, written down as it answers, against what the sockets did with them.
 */
module EndToEnd {
  import opened Basics
  import opened Endpoints
  import opened Streams
  import opened Network
  import opened Guarantees

  // ----- what the operating system answers

  /** The bytes that action act of `me` makes the fd of its bound socket x deliver. */
  function FetchedNow(s: Net, act: Action, x: Id): (r: Bytes)
  {
    if act.Read? && act.x == x && IsLive(s.me, x) && s.me.socks[x].reading && s.me.socks[x].peer != None
       && |act.data| <= MAX_PAYLOAD
    then act.data else []
  }

  /** The payload that act hands to live socket x. */
  function DeliveredNow(s: Net, act: Action, x: Id): (r: Bytes)
  {
    if act.Deliver? && s.toMe != [] && s.toMe[0].Wrte? && s.toMe[0].remote == x && s.me.online && IsLive(s.me, x)
    then s.toMe[0].data else []
  }

  /** The bytes of what x offers to its fd that the fd takes during act. */
  function AcceptedNow(s: Net, act: Action, x: Id): (r: Bytes)
  {
    if act.Deliver? then
      var d := DeliveredNow(s, act, x);
      if d != [] && s.me.socks[x].queue == [] then d[..Min(act.n, |d|)] else []
    else if act.Write? && act.x == x && (IsDraining(s.me, x) || (IsLive(s.me, x) && s.me.socks[x].writing)) then
      var all := Flat(s.me.socks[x].queue);
      all[..Min(act.n, |all|)]
    else []
  }

  /** The answers over a whole run, as seen at one end. */
  function Fetched(evs: seq<Event>, host: bool, x: Id): (r: Bytes)
  {
    if evs == [] then []
    else
      var front, ev := evs[..|evs| - 1], evs[|evs| - 1];
      Fetched(front, host, x) + if ev.mine == host then FetchedNow(Seen(front, host), ev.act, x) else []
  }

  function Delivered(evs: seq<Event>, host: bool, x: Id): (r: Bytes)
  {
    if evs == [] then []
    else
      var front, ev := evs[..|evs| - 1], evs[|evs| - 1];
      Delivered(front, host, x) + if ev.mine == host then DeliveredNow(Seen(front, host), ev.act, x) else []
  }

  function Accepted(evs: seq<Event>, host: bool, x: Id): (r: Bytes)
  {
    if evs == [] then []
    else
      var front, ev := evs[..|evs| - 1], evs[|evs| - 1];
      Accepted(front, host, x) + if ev.mine == host then AcceptedNow(Seen(front, host), ev.act, x) else []
  }

  // ----- what the sockets make of them

  /** k has written w of the bytes d delivered to it; the rest is queued, unless its own fd cut it off. */
  ghost predicate Kept(k: Socket, d: Bytes)
  {
    && k.wrote <= d
    && (k.stage != Gone ==> k.wrote + Flat(k.queue) == d)
    && (k.stage == Gone && !k.cut ==> k.wrote == d)
  }

  /** k1 is k after act: it sent what was fetched, wrote what was accepted, and keeps what was delivered. */
  ghost predicate Accounts(k: Socket, k1: Socket, fetched: Bytes, delivered: Bytes, accepted: Bytes)
  {
    && k1.sent == k.sent + fetched
    && k1.wrote == k.wrote + accepted
    && (forall d :: Kept(k, d) ==> Kept(k1, d + delivered))
  }

  lemma SameAccounts(k: Socket)
    ensures Accounts(k, k, [], [], [])
  {
    assert forall d: Bytes :: d + [] == d;
    assert k.sent + [] == k.sent && k.wrote + [] == k.wrote;
  }

  /** A socket let go by any close still has every byte it had. */
  lemma RetiredAccounts(k: Socket, isCut: bool, byPeer: bool)
    requires k.stage == Live
    ensures Accounts(k, Retired(k.(cut := k.cut || isCut, byPeer := byPeer)), [], [], [])
  {
    SameAccounts(k);
  }

  lemma ReadAccounts(k: Socket, x: Id, data: Bytes, eof: bool)
    requires k.stage == Live
    ensures Accounts(k, OnRead(k, x, data, eof).sock, if k.peer == None then [] else data, [], [])
  {
    SameAccounts(k);
    assert k.sent + [] == k.sent;
  }

  lemma DataAccounts(k: Socket, x: Id, from: Id, data: Bytes, n: nat, fail: bool)
    requires k.stage == Live
    ensures var took := if k.queue == [] then data[..Min(n, |data|)] else [];
            Accounts(k, OnData(k, x, from, data, n, fail).sock, [], data, took)
  {
    var m := Min(n, |data|);
    var k1 := OnData(k, x, from, data, n, fail).sock;
    assert k.sent + [] == k.sent && k.wrote + [] == k.wrote;
    forall d | Kept(k, d)
      ensures Kept(k1, d + data)
    {
      if k.queue != [] {
        FlatAppend(k.queue, data);
        Regroup(k.wrote, Flat(k.queue), data);
      } else {
        assert k.wrote == d;
        assert data == data[..m] + data[m..];
        Regroup(k.wrote, data[..m], data[m..]);
        assert Flat([data[m..]]) == data[m..] by {
          assert [data[m..]][1..] == [];
        }
      }
    }
  }

  lemma {:induction false} FlatAppend(queue: seq<Bytes>, data: Bytes)
    ensures Flat(queue + [data]) == Flat(queue) + data
  {
    if queue == [] {
      assert [data][1..] == [];
    } else {
      assert (queue + [data])[1..] == queue[1..] + [data];
      FlatAppend(queue[1..], data);
      Regroup(queue[0], Flat(queue[1..]), data);
    }
  }

  lemma WriteAccounts(k: Socket, x: Id, n: nat, fail: bool)
    requires k.stage == Live
    ensures var all := Flat(k.queue);
            Accounts(k, OnWrite(k, x, n, fail).sock, [], [], all[..Min(n, |all|)])
  {
    WrittenKeeps(k, Min(n, |Flat(k.queue)|));
    assert k.sent + [] == k.sent;
  }

  lemma FlushAccounts(k: Socket, n: nat, fail: bool)
    requires k.stage == Draining
    ensures var all := Flat(k.queue);
            Accounts(k, OnFlush(k, n, fail), [], [], all[..Min(n, |all|)])
  {
    WrittenKeeps(k, Min(n, |Flat(k.queue)|));
    assert k.sent + [] == k.sent;
  }

  /** What the fd takes leaves the head of the queue. */
  lemma WrittenKeeps(k: Socket, m: nat)
    requires k.stage != Gone && m <= |Flat(k.queue)|
    ensures forall d :: Kept(k, d) ==>
              && d + [] == d && Kept(Written(k, m), d)
              && k.wrote + Flat(k.queue)[..m] <= d && (m == |Flat(k.queue)| ==> k.wrote + Flat(k.queue)[..m] == d)
    ensures m == |Flat(k.queue)| <==> Drain(k.queue, m) == []
  {
    DrainDropsPrefix(k.queue, m);
    var all := Flat(k.queue);
    assert all == all[..m] + all[m..];
    Regroup(k.wrote, all[..m], all[m..]);
    assert m == |all| ==> all[..m] == all;
  }

  /** A socket that changes in nothing that counts here. */
  lemma LikeAccounts(k: Socket, k1: Socket)
    requires k1 == k.(peer := k1.peer, reading := k1.reading, writing := k1.writing, bound := k1.bound)
    ensures Accounts(k, k1, [], [], [])
  {
    SameAccounts(k);
  }

  lemma HangUpAccounts(k: Socket)
    requires k.stage == Draining
    ensures Accounts(k, Destroyed(k, 0, true), [], [], [])
  {
    assert forall d: Bytes :: d + [] == d;
    assert k.sent + [] == k.sent && k.wrote + Flat(k.queue)[..0] == k.wrote + [] == k.wrote;
  }

  // ----- every action, every run

  /** Whatever an end does, each of its sockets accounts for what its fd answered. */
  ghost predicate AllAccount(s: Net, act: Action, x: Id)
  {
    Accounts(At(s.me, x), At(Act(s, act).me, x), FetchedNow(s, act, x), DeliveredNow(s, act, x), AcceptedNow(s, act, x))
  }

  lemma SessionAccounts(s: Net, act: Action, x: Id)
    requires Sound(s.me) && act.Deliver? && s.toMe != [] && (s.toMe[0].Cnxn? || s.toMe[0].Open?)
    ensures AllAccount(s, act, x)
  {
    var k := At(s.me, x);
    SameAccounts(k);
    if s.toMe[0].Open? {
      LikeAccounts(Fresh(None, false), Fresh(Some(s.toMe[0].local), true));
    } else if IsLive(s.me, x) {
      RetiredAccounts(k, false, k.byPeer);
    }
  }

  lemma OkayAccounts(s: Net, act: Action, x: Id)
    requires act.Deliver? && s.toMe != [] && s.toMe[0].Okay?
    ensures AllAccount(s, act, x)
  {
    var k := At(s.me, x);
    SameAccounts(k);
    LikeAccounts(k, k.(peer := Some(s.toMe[0].local), reading := true, bound := true));
    LikeAccounts(k, k.(reading := true));
  }

  lemma ClseAccounts(s: Net, act: Action, x: Id)
    requires act.Deliver? && s.toMe != [] && s.toMe[0].Clse?
    ensures AllAccount(s, act, x)
  {
    var k := At(s.me, x);
    SameAccounts(k);
    if IsLive(s.me, x) {
      RetiredAccounts(k, false, true);
    }
  }

  lemma WrteAccounts(s: Net, act: Action, x: Id)
    requires act.Deliver? && s.toMe != [] && s.toMe[0].Wrte?
    ensures AllAccount(s, act, x)
  {
    var p, k := s.toMe[0], At(s.me, x);
    SameAccounts(k);
    if s.me.online && p.remote == x && IsLive(s.me, x) {
      DataAccounts(k, x, p.local, p.data, act.n, act.fail);
      assert p.data == [] ==> p.data[..Min(act.n, |p.data|)] == [];
    }
  }

  lemma PacketAccounts(s: Net, act: Action, x: Id)
    requires Sound(s.me) && act.Deliver? && s.toMe != []
    ensures AllAccount(s, act, x)
  {
    match s.toMe[0]
    case Okay(_, _) => OkayAccounts(s, act, x);
    case Clse(_, _) => ClseAccounts(s, act, x);
    case Wrte(_, _, _) => WrteAccounts(s, act, x);
    case _ => SessionAccounts(s, act, x);
  }

  lemma EventAccounts(s: Net, act: Action, x: Id)
    requires act.Read? || act.Write? || act.HangUp? || act.GiveUp?
    ensures AllAccount(s, act, x)
  {
    var k := At(s.me, x);
    SameAccounts(k);
    if act.x == x && IsLive(s.me, x) {
      match act
      case Read(_, data, eof) => ReadAccounts(k, x, data, eof);
      case Write(_, n, fail) => WriteAccounts(k, x, n, fail);
      case _ => RetiredAccounts(k, false, k.byPeer);
    } else if act.x == x && IsDraining(s.me, x) {
      if act.Write? {
        FlushAccounts(k, act.n, act.fail);
      }
      HangUpAccounts(k);
    }
  }

  lemma ActAccounts(s: Net, act: Action, x: Id)
    requires Sound(s.me)
    ensures AllAccount(s, act, x)
  {
    var k := At(s.me, x);
    SameAccounts(k);
    match act
    case Deliver(_, _, _) =>
      if s.toMe != [] {
        PacketAccounts(s, act, x);
      }
    case Dial(_) =>
    case Drop(_) =>
      if IsLive(s.me, x) {
        RetiredAccounts(k, false, k.byPeer);
      }
    case Reap =>
      if IsLive(s.me, x) {
        RetiredAccounts(k, false, k.byPeer);
      }
    case _ => EventAccounts(s, act, x);
  }

  /**
   After every run, at either end: a socket has sent exactly the bytes its fd delivered
   while it had a peer, in order, and written exactly those its fd took; what was
   delivered to it is written or queued until it is freed, and all written by then
   unless its own fd failed or hung up.  No close loses queued bytes.
   */
  lemma {:induction false} BytesAccounted(evs: seq<Event>, host: bool, x: Id)
    ensures var k := At(Seen(evs, host).me, x);
            && k.sent == Fetched(evs, host, x) && k.wrote == Accepted(evs, host, x)
            && Kept(k, Delivered(evs, host, x))
  {
    if evs != [] {
      var front, ev := evs[..|evs| - 1], evs[|evs| - 1];
      BytesAccounted(front, host, x);
      SeenNext(evs, host);
      SeenInv(front, host);
      var s := Seen(front, host);
      HoldsFrame(Good, Waits, s);
      if ev.mine == host {
        ActAccounts(s, ev.act, x);
      } else {
        ActCounts(Flip(s), ev.act);
        assert Fetched(front, host, x) + [] == Fetched(front, host, x);
        assert Delivered(front, host, x) + [] == Delivered(front, host, x);
        assert Accepted(front, host, x) + [] == Accepted(front, host, x);
      }
    }
  }

  /**
   From fd to fd, for every stream and direction: what the receiver's fd took is the
   beginning of what the sender's fd delivered; with what is queued and in flight it
   is all of it while both ends are up and the receiver is open; and a receiver that
   was closed by its peer and not cut off by its own fd got all of it.
   */
  lemma FdToFd(evs: seq<Event>, host: bool, a: Id)
    ensures var s := Seen(evs, host);
            a in s.mates ==>
              var b := s.mates[a];
              var y, taken, given := At(s.you, b), Accepted(evs, !host, b), Fetched(evs, host, a);
              && taken <= given
              && (y.stage == Live && s.me.online && s.you.online ==>
                    taken + Flat(y.queue) + Payload(Proj(s.toYou, b)) == given)
              && (y.stage == Gone && y.byPeer && !y.cut ==> taken == given)
  {
    var s := Seen(evs, host);
    if a in s.mates {
      OrderedDelivery(evs, host, a);
      BytesAccounted(evs, host, a);
      BytesAccounted(evs, !host, s.mates[a]);
      SeenFlip(evs, host);
    }
  }

  /** A dialled destination goes out in an OPEN under an id nobody has used. */
  lemma DialExactly(s: Net, dest: Bytes)
    requires Sound(s.me) && s.me.online
    ensures var s1, x := Act(s, Dial(dest)), s.me.nextId;
            && s1.toYou == s.toYou + [Open(x, dest)] && x !in s.me.socks && IsLive(s1.me, x)
            && s1.me.socks[x].peer == None && s1.me.nextId == x + 1
            && forall z :: z != x ==> At(s1.me, z) == At(s.me, z)
  {
  }
}
