/**
 Two endpoints running the same code, joined by two reliable FIFO channels that
 multiplex every stream.  A run is any sequence of actions by either end; the
 theorems at the end hold of the state after every run.
 */
module Network {
  import opened Basics
  import opened Endpoints
  import opened Streams

  /** mates and backs are history: which socket was created for which OPEN. */
  datatype Net = Net(
    me: Endpoint,
    you: Endpoint,
    toYou: seq<Packet>,
    toMe: seq<Packet>,
    mates: map<Id, Id>,
    backs: map<Id, Id>)

  /** What one end can do; the parameters are the operating system's answers. */
  datatype Action =
    | Deliver(accept: bool, n: nat, fail: bool)
    | Dial(dest: Bytes)
    | Read(x: Id, data: Bytes, eof: bool)
    | Write(x: Id, n: nat, fail: bool)
    | HangUp(x: Id)
    | GiveUp(x: Id)
    | Drop(keep: nat)
    | Reap

  function Flip(s: Net): (r: Net)
  {
    Net(s.you, s.me, s.toMe, s.toYou, s.backs, s.mates)
  }

  function Emit(s: Net, o: Outcome): (r: Net)
  {
    s.(me := o.end, toYou := s.toYou + o.out)
  }

  /** One atomic handler invocation at `me`; an action that is not enabled changes nothing. */
  function Act(s: Net, act: Action): (r: Net)
  {
    match act
    case Deliver(accept, n, fail) =>
      if s.toMe == [] then s else Receive(s, accept, n, fail)
    case Dial(dest) =>
      if s.me.online then Emit(s, Connect(s.me, dest)) else s
    case Read(x, data, eof) =>
      if IsLive(s.me, x) && s.me.socks[x].reading && |data| <= MAX_PAYLOAD
      then Emit(s, Apply(s.me, x, OnRead(s.me.socks[x], x, data, eof))) else s
    case Write(x, n, fail) =>
      if IsLive(s.me, x) && s.me.socks[x].writing then
        Emit(s, Apply(s.me, x, OnWrite(s.me.socks[x], x, n, fail)))
      else if IsDraining(s.me, x) then s.(me := Put(s.me, x, OnFlush(s.me.socks[x], n, fail)))
      else s
    case HangUp(x) =>
      if IsDraining(s.me, x) then s.(me := Put(s.me, x, Destroyed(s.me.socks[x], 0, true))) else s
    case GiveUp(x) =>
      if IsLive(s.me, x) then Emit(s, Apply(s.me, x, OnClose(s.me.socks[x]))) else s
    case Drop(keep) =>
      if s.me.online then s.(me := GoOffline(s.me), toYou := s.toYou[..Min(keep, |s.toYou|)]) else s
    case Reap =>
      if s.me.online then s else s.(me := Sweep(s.me))
  }

  function Receive(s: Net, accept: bool, n: nat, fail: bool): (r: Net)
    requires s.toMe != []
  {
    var p := s.toMe[0];
    var s1 := Emit(s, HandlePacket(s.me, p, accept, n, fail)).(toMe := s.toMe[1..]);
    if p.Open? && s.me.online && accept
    then s1.(mates := s.mates[s.me.nextId := p.local], backs := s.backs[p.local := s.me.nextId])
    else s1
  }

  /** A step of either end. */
  datatype Event = Event(mine: bool, act: Action)

  function Next(s: Net, ev: Event): (r: Net)
  {
    if ev.mine then Act(s, ev.act) else Flip(Act(Flip(s), ev.act))
  }

  function Run(s: Net, evs: seq<Event>): (r: Net)
  {
    if evs == [] then s else Next(Run(s, evs[..|evs| - 1]), evs[|evs| - 1])
  }

  function Init(): (r: Net)
  {
    Net(Start(true), Start(false), [], [], map[], map[])
  }

  // ----- demultiplexing

  predicate To(p: Packet, d: Id)
  {
    !p.Cnxn? && !p.Open? && p.remote == d
  }

  /** The packets of c that find_local_socket will route to socket d. */
  function Proj(c: seq<Packet>, d: Id): (r: seq<Packet>)
  {
    if c == [] then [] else (if To(c[0], d) then [c[0]] else []) + Proj(c[1..], d)
  }

  /** How many OPENs for socket a are in c. */
  function Opens(c: seq<Packet>, a: Id): (r: nat)
  {
    if c == [] then 0 else Flag(c[0].Open? && c[0].local == a) + Opens(c[1..], a)
  }

  lemma {:induction false} OpensAppend(c: seq<Packet>, k: Packet, d: Id)
    ensures Opens(c + [k], d) == Opens(c, d) + Flag(k.Open? && k.local == d)
  {
    if c == [] {
      assert [k][1..] == [];
    } else {
      assert (c + [k])[1..] == c[1..] + [k];
      OpensAppend(c[1..], k, d);
    }
  }

  lemma {:induction false} RoutedAppend(c: seq<Packet>, k: Packet, d: Id)
    ensures Proj(c + [k], d) == Proj(c, d) + if To(k, d) then [k] else []
  {
    if c == [] {
      assert [k][1..] == [];
    } else {
      assert (c + [k])[1..] == c[1..] + [k];
      RoutedAppend(c[1..], k, d);
      Regroup(if To(c[0], d) then [c[0]] else [], Proj(c[1..], d), if To(k, d) then [k] else []);
    }
  }

  lemma ProjAppend(c: seq<Packet>, k: Packet, d: Id)
    ensures Proj(c + [k], d) == Proj(c, d) + if To(k, d) then [k] else []
    ensures Opens(c + [k], d) == Opens(c, d) + Flag(k.Open? && k.local == d)
  {
    RoutedAppend(c, k, d);
    OpensAppend(c, k, d);
  }

  lemma {:induction false} ProjPrefix(c: seq<Packet>, n: nat, d: Id) returns (m: nat)
    requires n <= |c|
    ensures m <= |Proj(c, d)| && Proj(c[..n], d) == Proj(c, d)[..m]
    ensures Opens(c[..n], d) <= Opens(c, d)
  {
    if n == 0 {
      m := 0;
    } else {
      assert c[..n][1..] == c[1..][..n - 1];
      var m1 := ProjPrefix(c[1..], n - 1, d);
      m := m1 + Flag(To(c[0], d));
    }
  }

  lemma {:induction false} ProjMember(c: seq<Packet>, i: nat, d: Id)
    requires i < |c| && To(c[i], d)
    ensures c[i] in Proj(c, d)
  {
    if i != 0 {
      ProjMember(c[1..], i - 1, d);
    }
  }

  // ----- what multiplexing preserves

  /** Socket x of e; a meaningless record if there never was one. */
  function At(e: Endpoint, x: Id): (r: Socket)
  {
    if x in e.socks then e.socks[x] else Fresh(None, false)
  }

  /** Everything about a socket of `me` for which no stream exists (yet). */
  datatype Opening = Opening(x: Socket, opens: nat, q: seq<Packet>, a: Id, xOn: bool, yOn: bool)

  function View(s: Net, a: Id): (r: Stream)
    requires a in s.mates
  {
    var b := s.mates[a];
    Stream(At(s.me, a), At(s.you, b), Proj(s.toYou, b), Proj(s.toMe, a),
           a, b, s.me.online, s.you.online)
  }

  function OpeningView(s: Net, a: Id): (r: Opening)
  {
    Opening(At(s.me, a), Opens(s.toYou, a), Proj(s.toMe, a), a, s.me.online, s.you.online)
  }

  ghost predicate WireOk(k: Packet, s: Net)
  {
    match k
    case Cnxn => false
    case Open(l, _) => 0 < l < s.me.nextId && l !in s.mates
    case Okay(l, r) => l in s.mates && s.mates[l] == r
    case Wrte(l, r, _) => l in s.mates && s.mates[l] == r
    case Clse(l, r) => l == 0 && 0 < r < s.you.nextId
  }

  ghost predicate Bijection(m: map<Id, Id>, w: map<Id, Id>)
  {
    && (forall a :: a in m ==> m[a] in w && w[m[a]] == a)
    && (forall b :: b in w ==> w[b] in m && m[w[b]] == b)
  }

  /** What `me` and its outgoing channel owe; Flip gives the same for the other end. */
  ghost predicate End(W: Opening -> bool, s: Net)
  {
    && Sound(s.me)
    && (forall a :: a in s.mates ==> 0 < a < s.me.nextId)
    && (forall i :: 0 <= i < |s.toYou| ==> WireOk(s.toYou[i], s))
    && (forall a :: 0 < a < s.me.nextId && a !in s.mates ==> W(OpeningView(s, a)))
  }

  /** P holds of every established stream and W of every other socket. */
  ghost predicate Holds(P: Stream -> bool, W: Opening -> bool, s: Net)
  {
    && End(W, s) && End(W, Flip(s))
    && Bijection(s.mates, s.backs)
    && (forall a :: a in s.mates ==> P(View(s, a)))
  }

  // ----- a step is felt by one socket at each end at most

  /** Packet k, sent by the end that owns x, concerns socket x there or y at the far end. */
  predicate Concerns(k: Packet, x: Id, y: Id)
  {
    To(k, y) || (k.Open? && k.local == x)
  }

  /** s1 is s after x did something about y: it sent `out`, and took the first packet if `pop`. */
  ghost predicate Near(s: Net, s1: Net, x: Id, y: Id, out: seq<Packet>, pop: bool)
  {
    && s1.you == s.you && s1.me.online == s.me.online && s.me.nextId <= s1.me.nextId
    && s1.toYou == s.toYou + out
    && (forall i :: 0 <= i < |out| ==> Concerns(out[i], x, y))
    && (pop ==> s.toMe != [] && Concerns(s.toMe[0], y, x))
    && s1.toMe == (if pop then s.toMe[1..] else s.toMe)
    && (forall z :: z != x ==> At(s1.me, z) == At(s.me, z))
  }

  lemma {:induction false} ProjConcat(c: seq<Packet>, out: seq<Packet>, x: Id, y: Id, d: Id)
    requires forall i :: 0 <= i < |out| ==> Concerns(out[i], x, y)
    ensures d != y ==> Proj(c + out, d) == Proj(c, d)
    ensures d != x ==> Opens(c + out, d) == Opens(c, d)
    decreases |out|
  {
    if out == [] {
      assert c + out == c;
    } else {
      var k, rest := out[|out| - 1], out[..|out| - 1];
      assert c + out == (c + rest) + [k];
      ProjConcat(c, rest, x, y, d);
      ProjAppend(c + rest, k, d);
    }
  }

  lemma NearProj(s: Net, s1: Net, x: Id, y: Id, out: seq<Packet>, pop: bool, d: Id)
    requires Near(s, s1, x, y, out, pop)
    ensures d != y ==> Proj(s1.toYou, d) == Proj(s.toYou, d)
    ensures d != x ==> Opens(s1.toYou, d) == Opens(s.toYou, d)
    ensures d != x ==> Proj(s1.toMe, d) == Proj(s.toMe, d)
    ensures d != y ==> Opens(s1.toMe, d) == Opens(s.toMe, d)
  {
    ProjConcat(s.toYou, out, x, y, d);
  }

  /** Every other stream and every other opener is exactly as before. */
  lemma NearViews(s: Net, s1: Net, x: Id, y: Id, out: seq<Packet>, pop: bool)
    requires Near(s, s1, x, y, out, pop)
    ensures forall a ::
              (a in s.mates && a in s1.mates && s1.mates[a] == s.mates[a] && a != x && s.mates[a] != y)
              ==> View(s1, a) == View(s, a)
    ensures forall a :: a != x ==> OpeningView(s1, a) == OpeningView(s, a)
    ensures forall b :: b != y ==> OpeningView(Flip(s1), b) == OpeningView(Flip(s), b)
  {
    forall a | a in s.mates && a in s1.mates && s1.mates[a] == s.mates[a] && a != x && s.mates[a] != y
      ensures View(s1, a) == View(s, a)
    {
      NearProj(s, s1, x, y, out, pop, a);
      NearProj(s, s1, x, y, out, pop, s.mates[a]);
    }
    forall a | a != x
      ensures OpeningView(s1, a) == OpeningView(s, a)
    {
      NearProj(s, s1, x, y, out, pop, a);
    }
    forall b | b != y
      ensures OpeningView(Flip(s1), b) == OpeningView(Flip(s), b)
    {
      NearProj(s, s1, x, y, out, pop, b);
    }
  }

  /** The streams of s1 are those of s, except possibly the one of x and y. */
  ghost predicate SameMates(s: Net, s1: Net, x: Id, y: Id)
  {
    && (forall a :: a in s1.mates && a != x ==> a in s.mates && s1.mates[a] == s.mates[a] != y)
    && (forall a :: a !in s1.mates && a != x ==> a !in s.mates)
    && (forall b :: b !in s1.backs && b != y ==> b !in s.backs)
  }

  /** What does not depend on P and W. */
  ghost predicate Frame(s: Net)
  {
    && Sound(s.me) && Sound(s.you) && Bijection(s.mates, s.backs)
    && (forall a :: a in s.mates ==> 0 < a < s.me.nextId)
    && (forall b :: b in s.backs ==> 0 < b < s.you.nextId)
    && (forall i :: 0 <= i < |s.toYou| ==> WireOk(s.toYou[i], s))
    && (forall i :: 0 <= i < |s.toMe| ==> WireOk(s.toMe[i], Flip(s)))
  }

  /** If P or W still holds of x and y, the whole state still satisfies P and W. */
  lemma NearHolds(P: Stream -> bool, W: Opening -> bool,
                  s: Net, s1: Net, x: Id, y: Id, out: seq<Packet>, pop: bool)
    requires Holds(P, W, s) && Frame(s1)
    requires Near(s, s1, x, y, out, pop) && SameMates(s, s1, x, y)
    requires s1.me.nextId == s.me.nextId || (s1.me.nextId == s.me.nextId + 1 && x == s.me.nextId)
    requires if x in s1.mates then P(View(s1, x)) else 0 < x < s1.me.nextId ==> W(OpeningView(s1, x))
    requires y !in s1.backs && 0 < y < s1.you.nextId ==> W(OpeningView(Flip(s1), y))
    ensures Holds(P, W, s1)
  {
    NearViews(s, s1, x, y, out, pop);
    forall a | a in s1.mates
      ensures P(View(s1, a))
    {
      assert a != x ==> View(s1, a) == View(s, a);
    }
    NearEnds(W, s, s1, x, y, out, pop);
  }

  lemma NearEnds(W: Opening -> bool,
                 s: Net, s1: Net, x: Id, y: Id, out: seq<Packet>, pop: bool)
    requires End(W, s) && End(W, Flip(s)) && Frame(s1)
    requires Near(s, s1, x, y, out, pop) && SameMates(s, s1, x, y)
    requires s1.me.nextId == s.me.nextId || (s1.me.nextId == s.me.nextId + 1 && x == s.me.nextId)
    requires x !in s1.mates && 0 < x < s1.me.nextId ==> W(OpeningView(s1, x))
    requires y !in s1.backs && 0 < y < s1.you.nextId ==> W(OpeningView(Flip(s1), y))
    ensures End(W, s1) && End(W, Flip(s1))
  {
    NearViews(s, s1, x, y, out, pop);
    forall a | 0 < a < s1.me.nextId && a !in s1.mates
      ensures W(OpeningView(s1, a))
    {
      assert a != x ==> OpeningView(s1, a) == OpeningView(s, a);
    }
    forall b | 0 < b < s1.you.nextId && b !in s1.backs
      ensures W(OpeningView(Flip(s1), b))
    {
      assert b != y ==> OpeningView(Flip(s1), b) == OpeningView(Flip(s), b);
    }
  }

  lemma HoldsFrame(P: Stream -> bool, W: Opening -> bool, s: Net)
    requires Holds(P, W, s)
    ensures Frame(s)
  {
  }

  /** Packets already in flight stay legitimate; the new ones are given to be. */
  lemma WireStays(s: Net, s1: Net, x: Id, y: Id, out: seq<Packet>, pop: bool)
    requires Frame(s) && Near(s, s1, x, y, out, pop)
    requires s1.mates == s.mates && s1.backs == s.backs
    requires forall i :: 0 <= i < |out| ==> WireOk(out[i], s1)
    ensures forall i :: 0 <= i < |s1.toYou| ==> WireOk(s1.toYou[i], s1)
    ensures forall i :: 0 <= i < |s1.toMe| ==> WireOk(s1.toMe[i], Flip(s1))
  {
  }

  // ----- the invariant of the whole system

  /** An opener that no one has answered yet, that was refused, or that has closed without waiting. */
  ghost predicate Waits(o: Opening)
  {
    && (o.x == Fresh(None, false) || o.x == Fresh(None, false).(stage := Gone, byPeer := o.x.byPeer))
    && (o.q == [] || o.q == [Clse(0, o.a)])
    && o.opens + |o.q| <= 1
    && (o.x.stage == Live && o.xOn && o.yOn ==> o.opens + |o.q| == 1)
    && (o.opens > 0 ==> !o.x.byPeer)
  }

  ghost predicate Inv(s: Net)
  {
    Holds(Good, Waits, s)
  }

  lemma FlipInv(s: Net)
    requires Inv(s)
    ensures Inv(Flip(s)) && Flip(Flip(s)) == s
  {
    forall b | b in s.backs
      ensures Good(View(Flip(s), b))
    {
      var a := s.backs[b];
      GoodMirror(View(s, a));
      assert View(Flip(s), b) == Mirror(View(s, a));
    }
  }

  // ----- steps of established streams

  /** Socket x of `me` has had a mate. */
  ghost predicate Connected(s: Net, x: Id)
  {
    && Sound(s.me) && x in s.me.socks
    && x in s.mates && 0 < s.mates[x] < s.you.nextId
  }

  /** A socket that is doing anything at all belongs to an established stream. */
  lemma BusyIsConnected(s: Net, x: Id)
    requires Inv(s) && x in s.me.socks
    requires x in s.mates || s.me.socks[x].stage == Draining || s.me.socks[x].reading || s.me.socks[x].writing
    ensures Connected(s, x) && Good(View(s, x))
  {
    assert x !in s.mates ==> Waits(OpeningView(s, x));
    assert s.mates[x] in s.backs;
  }

  lemma BusyFacts(s: Net, x: Id)
    requires Inv(s) && IsLive(s.me, x) && (s.me.socks[x].reading || s.me.socks[x].writing)
    ensures Connected(s, x) && s.me.socks[x].peer == Some(s.mates[x])
    ensures s.me.socks[x].writing ==> s.me.socks[x].queue != []
  {
    BusyIsConnected(s, x);
    assert HalfFlow(View(s, x));
  }

  /** The packets one socket may send at once. */
  ghost predicate OneStream(out: seq<Packet>, x: Id, y: Id)
  {
    forall i :: 0 <= i < |out| ==>
      out[i] == Okay(x, y) || out[i] == Clse(0, y) || (out[i].Wrte? && out[i] == Wrte(x, y, out[i].data))
  }

  /** s1 is s after x answered with r, taking a packet if `pop`. */
  ghost predicate Answers(s: Net, s1: Net, x: Id, r: Reply, pop: bool)
  {
    && (pop ==> s.toMe != [] && To(s.toMe[0], x))
    && s1.me == s.me.(socks := s.me.socks[x := r.sock], closes := s1.me.closes, binds := s1.me.binds)
    && s1 == s.(me := s1.me, toYou := s.toYou + r.out, toMe := if pop then s.toMe[1..] else s.toMe)
  }

  /** s1 is s after socket x answered with r and so made the moves ms. */
  ghost predicate Moved(s: Net, s1: Net, x: Id, r: Reply, pop: bool, ms: seq<Move>)
  {
    && Connected(s, x) && Answers(s, s1, x, r, pop) && OneStream(r.out, x, s.mates[x])
    && Moves(View(s, x), ms, View(s1, x))
  }

  lemma {:induction false} ProjOneStream(c: seq<Packet>, out: seq<Packet>, x: Id, y: Id)
    requires OneStream(out, x, y)
    ensures Proj(c + out, y) == Proj(c, y) + out
    decreases |out|
  {
    if out == [] {
      assert c + out == c;
    } else {
      var k, rest := out[|out| - 1], out[..|out| - 1];
      assert c + out == (c + rest) + [k] && out == rest + [k];
      ProjOneStream(c, rest, x, y);
      ProjAppend(c + rest, k, y);
    }
  }

  lemma AnswersView(s: Net, s1: Net, x: Id, r: Reply, pop: bool)
    requires Connected(s, x) && Answers(s, s1, x, r, pop) && OneStream(r.out, x, s.mates[x])
    ensures pop ==> View(s, x).q != [] && View(s, x).q[0] == s.toMe[0]
    ensures View(s1, x) == Answered(View(s, x), r).(q := if pop then View(s, x).q[1..] else View(s, x).q)
  {
    ProjOneStream(s.toYou, r.out, x, s.mates[x]);
  }

  lemma AnswersNear(s: Net, s1: Net, x: Id, r: Reply, pop: bool)
    requires Frame(s) && Connected(s, x)
    requires Answers(s, s1, x, r, pop) && OneStream(r.out, x, s.mates[x])
    ensures Near(s, s1, x, s.mates[x], r.out, pop) && SameMates(s, s1, x, s.mates[x]) && Frame(s1)
  {
    WireStays(s, s1, x, s.mates[x], r.out, pop);
  }

  /** A step of one stream keeps the invariant. */
  lemma MovedInv(s: Net, s1: Net, x: Id, r: Reply, pop: bool, ms: seq<Move>)
    requires Inv(s) && Moved(s, s1, x, r, pop, ms)
    ensures Inv(s1)
  {
    HoldsFrame(Good, Waits, s);
    AnswersNear(s, s1, x, r, pop);
    GoodMoves(View(s, x), ms, View(s1, x));
    NearHolds(Good, Waits, s, s1, x, s.mates[x], r.out, pop);
  }

  /** ... and moves no other stream. */
  lemma MovedViews(s: Net, s1: Net, x: Id, r: Reply, pop: bool, ms: seq<Move>)
    requires Frame(s) && Moved(s, s1, x, r, pop, ms)
    ensures forall a :: a in s.mates && a != x ==> View(s1, a) == View(s, a)
  {
    AnswersNear(s, s1, x, r, pop);
    NearViews(s, s1, x, s.mates[x], r.out, pop);
  }

  lemma ReadMoved(s: Net, x: Id, data: Bytes, eof: bool) returns (r: Reply, ms: seq<Move>)
    requires Connected(s, x) && IsLive(s.me, x) && s.me.socks[x].reading
    requires s.me.socks[x].peer == Some(s.mates[x]) && |data| <= MAX_PAYLOAD
    ensures Moved(s, Act(s, Read(x, data, eof)), x, r, false, ms)
  {
    r := OnRead(s.me.socks[x], x, data, eof);
    ms := ReadIsMoves(View(s, x), data, eof);
    AnswersView(s, Act(s, Read(x, data, eof)), x, r, false);
  }

  lemma GiveUpMoved(s: Net, x: Id) returns (r: Reply, ms: seq<Move>)
    requires Connected(s, x) && IsLive(s.me, x) && Flow(View(s, x))
    ensures Moved(s, Act(s, GiveUp(x)), x, r, false, ms)
  {
    var v := View(s, x);
    assert Bound(v);
    r := OnClose(v.x);
    ms := GiveUpIsMoves(v);
    AnswersView(s, Act(s, GiveUp(x)), x, r, false);
  }

  lemma WriteMoved(s: Net, x: Id, n: nat, fail: bool) returns (r: Reply, ms: seq<Move>)
    requires Connected(s, x) && IsLive(s.me, x) && s.me.socks[x].writing && s.me.socks[x].queue != []
    requires s.me.socks[x].peer == Some(s.mates[x])
    ensures Moved(s, Act(s, Write(x, n, fail)), x, r, false, ms)
  {
    r := OnWrite(s.me.socks[x], x, n, fail);
    ms := WriteIsMoves(View(s, x), n, fail);
    AnswersView(s, Act(s, Write(x, n, fail)), x, r, false);
  }

  lemma DrainingMoved(s: Net, x: Id, act: Action) returns (r: Reply, ms: seq<Move>)
    requires Connected(s, x) && IsDraining(s.me, x)
    requires act == HangUp(x) || (act.Write? && act.x == x)
    ensures Moved(s, Act(s, act), x, r, false, ms)
  {
    var v := View(s, x);
    assert v.p + [] == v.p && s.toYou + [] == s.toYou;
    if act.HangUp? {
      r, ms := Reply(Destroyed(v.x, 0, true), []), [Finish(0, true)];
      OneMove(v, Finish(0, true));
    } else {
      r := Reply(OnFlush(v.x, act.n, act.fail), []);
      ms := FlushIsMoves(v, act.n, act.fail);
    }
    AnswersView(s, Act(s, act), x, r, false);
  }

  lemma TakeMoved(s: Net, x: Id, accept: bool, n: nat, fail: bool) returns (r: Reply, ms: seq<Move>)
    requires Connected(s, x) && Flow(View(s, x))
    requires s.toMe != [] && To(s.toMe[0], x)
    ensures Moved(s, Act(s, Deliver(accept, n, fail)), x, r, true, ms)
  {
    var v := View(s, x);
    assert v.q != [] && v.q[0] == s.toMe[0];
    r := Handled(v, n, fail);
    HandledStays(v, n, fail);
    ms := TakeIsMoves(v, n, fail);
    HandledIsHandlePacket(s, x, accept, n, fail);
    AnswersView(s, Act(s, Deliver(accept, n, fail)), x, r, true);
  }

  /** A handler answers within its own stream. */
  lemma HandledStays(v: Stream, n: nat, fail: bool)
    requires Flow(v) && v.q != []
    ensures OneStream(Handled(v, n, fail).out, v.a, v.b)
  {
    assert v.x.stage == Live ==> Bound(v);
  }

  lemma HandledIsHandlePacket(s: Net, x: Id, accept: bool, n: nat, fail: bool)
    requires Connected(s, x) && s.toMe != [] && To(s.toMe[0], x)
    requires View(s, x).q != [] && View(s, x).q[0] == s.toMe[0]
    ensures Answers(s, Act(s, Deliver(accept, n, fail)), x, Handled(View(s, x), n, fail), true)
  {
    if s.toMe[0].Wrte? {
      HandledData(s, x, accept, n, fail);
    } else {
      HandledControl(s, x, accept, n, fail);
    }
  }

  lemma HandledData(s: Net, x: Id, accept: bool, n: nat, fail: bool)
    requires Connected(s, x) && s.toMe != [] && To(s.toMe[0], x) && s.toMe[0].Wrte?
    requires View(s, x).q != [] && View(s, x).q[0] == s.toMe[0]
    ensures Answers(s, Act(s, Deliver(accept, n, fail)), x, Handled(View(s, x), n, fail), true)
  {
    var k := Handled(View(s, x), n, fail).sock;
    assert k == s.me.socks[x] ==> s.me.socks[x := k] == s.me.socks;
    assert s.toYou + [] == s.toYou;
  }

  lemma HandledControl(s: Net, x: Id, accept: bool, n: nat, fail: bool)
    requires Connected(s, x) && s.toMe != [] && To(s.toMe[0], x) && !s.toMe[0].Wrte?
    requires View(s, x).q != [] && View(s, x).q[0] == s.toMe[0]
    ensures Answers(s, Act(s, Deliver(accept, n, fail)), x, Handled(View(s, x), n, fail), true)
  {
    var k := Handled(View(s, x), n, fail).sock;
    assert k == s.me.socks[x] ==> s.me.socks[x := k] == s.me.socks;
    assert s.toYou + [] == s.toYou;
  }

  // ----- steps outside established streams

  lemma {:induction false} ProjNone(c: seq<Packet>, d: Id)
    requires forall i :: 0 <= i < |c| ==> !To(c[i], d)
    ensures Proj(c, d) == []
  {
    if c != [] {
      ProjNone(c[1..], d);
    }
  }

  lemma {:induction false} OpensNone(c: seq<Packet>, a: Id)
    ensures Opens(c, a) == 0 <==> forall i :: 0 <= i < |c| ==> !(c[i].Open? && c[i].local == a)
  {
    if c != [] {
      OpensNone(c[1..], a);
      assert forall i :: 0 < i < |c| ==> c[i] == c[1..][i - 1];
    }
  }

  /** Nothing in flight concerns an id that has not been handed out. */
  lemma UnusedId(s: Net)
    requires Frame(s)
    ensures Proj(s.toMe, s.me.nextId) == [] && Opens(s.toYou, s.me.nextId) == 0
  {
    forall i | 0 <= i < |s.toMe|
      ensures !To(s.toMe[i], s.me.nextId)
    {
      assert WireOk(s.toMe[i], Flip(s));
    }
    ProjNone(s.toMe, s.me.nextId);
    forall i | 0 <= i < |s.toYou|
      ensures !(s.toYou[i].Open? && s.toYou[i].local == s.me.nextId)
    {
      assert WireOk(s.toYou[i], s);
    }
    OpensNone(s.toYou, s.me.nextId);
  }

  /** A new client: a fresh id and one OPEN. */
  lemma DialNear(s: Net, dest: Bytes)
    requires Frame(s) && s.me.online
    ensures var s1, x := Act(s, Dial(dest)), s.me.nextId;
            && Near(s, s1, x, 0, [Open(x, dest)], false) && SameMates(s, s1, x, 0) && Frame(s1)
            && OpeningView(s1, x) == Opening(Fresh(None, false), 1, [], x, true, s.you.online)
  {
    var s1, x := Act(s, Dial(dest)), s.me.nextId;
    UnusedId(s);
    ProjAppend(s.toYou, Open(x, dest), x);
    WireStays(s, s1, x, 0, [Open(x, dest)], false);
  }

  lemma DialInv(s: Net, dest: Bytes)
    requires Inv(s) && s.me.online
    ensures Inv(Act(s, Dial(dest)))
    ensures forall a :: a in s.mates ==> a in Act(s, Dial(dest)).mates && View(Act(s, Dial(dest)), a) == View(s, a)
  {
    var s1, x := Act(s, Dial(dest)), s.me.nextId;
    HoldsFrame(Good, Waits, s);
    DialNear(s, dest);
    NearViews(s, s1, x, 0, [Open(x, dest)], false);
    NearHolds(Good, Waits, s, s1, x, 0, [Open(x, dest)], false);
  }

  /** An OPEN is refused: a CLSE goes back to a socket that never had a peer. */
  lemma RefuseNear(s: Net, act: Action)
    requires Frame(s) && s.me.online && act.Deliver? && !act.accept
    requires s.toMe != [] && s.toMe[0].Open?
    ensures var s1, y := Act(s, act), s.toMe[0].local;
            var o := OpeningView(Flip(s), y);
            && 0 < y < s.you.nextId && y !in s.backs && o.opens > 0
            && Near(s, s1, 0, y, [Clse(0, y)], true) && SameMates(s, s1, 0, y) && Frame(s1)
            && OpeningView(Flip(s1), y) == o.(opens := o.opens - 1, q := o.q + [Clse(0, y)])
  {
    var s1, y := Act(s, act), s.toMe[0].local;
    assert WireOk(s.toMe[0], Flip(s));
    ProjAppend(s.toYou, Clse(0, y), y);
    WireStays(s, s1, 0, y, [Clse(0, y)], true);
  }

  lemma RefuseInv(s: Net, act: Action)
    requires Inv(s) && s.me.online && act.Deliver? && !act.accept
    requires s.toMe != [] && s.toMe[0].Open?
    ensures Inv(Act(s, act))
    ensures forall a :: a in s.mates ==> a in Act(s, act).mates && View(Act(s, act), a) == View(s, a)
  {
    var s1, y := Act(s, act), s.toMe[0].local;
    HoldsFrame(Good, Waits, s);
    RefuseNear(s, act);
    assert Waits(OpeningView(Flip(s), y));
    NearViews(s, s1, 0, y, [Clse(0, y)], true);
    NearHolds(Good, Waits, s, s1, 0, y, [Clse(0, y)], true);
  }

  /** A packet is dropped at an endpoint that is offline, or an OPEN there goes unanswered. */
  lemma IgnoreNear(s: Net, act: Action)
    requires Frame(s) && !s.me.online && act.Deliver? && s.toMe != [] && s.toMe[0].Open?
    ensures var s1, y := Act(s, act), s.toMe[0].local;
            var o := OpeningView(Flip(s), y);
            && 0 < y < s.you.nextId && y !in s.backs && o.opens > 0
            && Near(s, s1, 0, y, [], true) && SameMates(s, s1, 0, y) && Frame(s1)
            && OpeningView(Flip(s1), y) == o.(opens := o.opens - 1)
  {
    var s1, y := Act(s, act), s.toMe[0].local;
    assert WireOk(s.toMe[0], Flip(s));
    assert s.toYou + [] == s.toYou;
    WireStays(s, s1, 0, y, [], true);
  }

  lemma IgnoreInv(s: Net, act: Action)
    requires Inv(s) && !s.me.online && act.Deliver? && s.toMe != [] && s.toMe[0].Open?
    ensures Inv(Act(s, act))
    ensures forall a :: a in s.mates ==> a in Act(s, act).mates && View(Act(s, act), a) == View(s, a)
  {
    var s1, y := Act(s, act), s.toMe[0].local;
    HoldsFrame(Good, Waits, s);
    IgnoreNear(s, act);
    assert Waits(OpeningView(Flip(s), y));
    NearViews(s, s1, 0, y, [], true);
    NearHolds(Good, Waits, s, s1, 0, y, [], true);
  }

  /** An opener after the first packet for it, a CLSE. */
  function AfterRefusal(o: Opening): (r: Opening)
    requires o.q != []
  {
    o.(q := o.q[1..], x := if o.x.stage == Live && o.xOn then Retired(o.x.(byPeer := true)) else o.x)
  }

  lemma WaitsAfterRefusal(o: Opening)
    requires Waits(o) && o.q != []
    ensures Waits(AfterRefusal(o))
  {
  }

  /** A CLSE reaches a socket whose OPEN was refused. */
  lemma RefusedNear(s: Net, act: Action)
    requires Frame(s) && act.Deliver? && s.toMe != []
    requires s.toMe[0].Clse? && s.toMe[0].remote !in s.mates
    requires At(s.me, s.toMe[0].remote).peer == None
    ensures var s1, x := Act(s, act), s.toMe[0].remote;
            var o := OpeningView(s, x);
            && 0 < x < s.me.nextId && o.q != []
            && Near(s, s1, x, 0, [], true) && SameMates(s, s1, x, 0) && Frame(s1)
            && OpeningView(s1, x) == AfterRefusal(o)
  {
    var s1, x := Act(s, act), s.toMe[0].remote;
    assert WireOk(s.toMe[0], Flip(s));
    assert s.toYou + [] == s.toYou;
    WireStays(s, s1, x, 0, [], true);
  }

  lemma RefusedFacts(s: Net)
    requires Inv(s) && s.toMe != [] && s.toMe[0].Clse? && s.toMe[0].remote !in s.mates
    ensures Frame(s) && Waits(OpeningView(s, s.toMe[0].remote))
  {
    HoldsFrame(Good, Waits, s);
    assert WireOk(s.toMe[0], Flip(s));
  }

  lemma RefusedHolds(P: Stream -> bool, W: Opening -> bool, s: Net, act: Action)
    requires Holds(P, W, s) && act.Deliver? && s.toMe != []
    requires s.toMe[0].Clse? && s.toMe[0].remote !in s.mates
    requires var o := OpeningView(s, s.toMe[0].remote);
             o.x.peer == None && (o.q != [] ==> W(AfterRefusal(o)))
    ensures Holds(P, W, Act(s, act))
    ensures forall a :: a in s.mates ==> a in Act(s, act).mates && View(Act(s, act), a) == View(s, a)
  {
    var s1, x := Act(s, act), s.toMe[0].remote;
    HoldsFrame(P, W, s);
    RefusedNear(s, act);
    NearViews(s, s1, x, 0, [], true);
    NearHolds(P, W, s, s1, x, 0, [], true);
  }

  lemma RefusedInv(s: Net, act: Action)
    requires Inv(s) && act.Deliver? && s.toMe != []
    requires s.toMe[0].Clse? && s.toMe[0].remote !in s.mates
    ensures Inv(Act(s, act))
    ensures forall a :: a in s.mates ==> a in Act(s, act).mates && View(Act(s, act), a) == View(s, a)
  {
    RefusedFacts(s);
    var o := OpeningView(s, s.toMe[0].remote);
    if o.q != [] {
      WaitsAfterRefusal(o);
    }
    RefusedHolds(Good, Waits, s, act);
  }

  /** A socket without a stream closes on its own account; its OPEN stays in flight. */
  lemma LeaveNear(s: Net, x: Id)
    requires Frame(s) && IsLive(s.me, x) && x !in s.mates && s.me.socks[x].peer == None
    ensures var s1, o := Act(s, GiveUp(x)), OpeningView(s, x);
            && Near(s, s1, x, 0, [], false) && SameMates(s, s1, x, 0) && Frame(s1)
            && OpeningView(s1, x) == o.(x := Retired(o.x))
  {
    assert s.toYou + [] == s.toYou;
    WireStays(s, Act(s, GiveUp(x)), x, 0, [], false);
  }

  lemma LeaveHolds(P: Stream -> bool, W: Opening -> bool, s: Net, x: Id)
    requires Holds(P, W, s) && IsLive(s.me, x) && x !in s.mates && s.me.socks[x].peer == None
    requires var o := OpeningView(s, x); W(o.(x := Retired(o.x)))
    ensures Holds(P, W, Act(s, GiveUp(x)))
    ensures forall a :: a in s.mates ==> a in Act(s, GiveUp(x)).mates && View(Act(s, GiveUp(x)), a) == View(s, a)
  {
    var s1 := Act(s, GiveUp(x));
    HoldsFrame(P, W, s);
    LeaveNear(s, x);
    NearViews(s, s1, x, 0, [], false);
    NearHolds(P, W, s, s1, x, 0, [], false);
  }

  lemma OpenerWaits(s: Net, x: Id)
    requires Inv(s) && IsLive(s.me, x) && x !in s.mates
    ensures Waits(OpeningView(s, x)) && OpeningView(s, x).x == s.me.socks[x]
  {
    HoldsFrame(Good, Waits, s);
  }

  lemma LeaveWaits(o: Opening)
    requires Waits(o) && o.x.stage == Live
    ensures o.x.peer == None && Waits(o.(x := Retired(o.x)))
  {
  }

  lemma LeaveInv(s: Net, x: Id)
    requires Inv(s) && IsLive(s.me, x) && x !in s.mates
    ensures Inv(Act(s, GiveUp(x)))
    ensures forall a :: a in s.mates ==> a in Act(s, GiveUp(x)).mates && View(Act(s, GiveUp(x)), a) == View(s, a)
  {
    OpenerWaits(s, x);
    LeaveWaits(OpeningView(s, x));
    LeaveHolds(Good, Waits, s, x);
  }

  lemma GiveUpInv(s: Net, x: Id)
    requires Inv(s) && IsLive(s.me, x)
    ensures Inv(Act(s, GiveUp(x)))
  {
    if x in s.mates {
      BusyIsConnected(s, x);
      var r, ms := GiveUpMoved(s, x);
      MovedInv(s, Act(s, GiveUp(x)), x, r, false, ms);
    } else {
      LeaveInv(s, x);
    }
  }

  /** An OPEN is accepted: a fresh socket, bound to the opener, answers OKAY. */
  lemma AcceptNear(s: Net, act: Action)
    requires Frame(s) && s.me.online && act.Deliver? && act.accept
    requires s.toMe != [] && s.toMe[0].Open?
    requires OpeningView(Flip(s), s.toMe[0].local).opens <= 1
    ensures var s1, x, y := Act(s, act), s.me.nextId, s.toMe[0].local;
            var o := OpeningView(Flip(s), y);
            && 0 < y < s.you.nextId && y !in s.backs && o.opens > 0
            && Near(s, s1, x, y, [Okay(x, y)], true) && SameMates(s, s1, x, y) && Frame(s1)
            && x in s1.mates
            && View(s1, x) == Stream(Fresh(Some(y), true), o.x, o.q + [Okay(x, y)], [], x, y, true, o.xOn)
  {
    assert WireOk(s.toMe[0], Flip(s));
    AcceptView(s, act);
    AcceptFrame(s, act);
  }

  lemma AcceptView(s: Net, act: Action)
    requires Frame(s) && s.me.online && act.Deliver? && act.accept
    requires s.toMe != [] && s.toMe[0].Open?
    ensures var s1, x, y := Act(s, act), s.me.nextId, s.toMe[0].local;
            var o := OpeningView(Flip(s), y);
            && x in s1.mates
            && View(s1, x) == Stream(Fresh(Some(y), true), o.x, o.q + [Okay(x, y)], [], x, y, true, o.xOn)
  {
    UnusedId(s);
    ProjAppend(s.toYou, Okay(s.me.nextId, s.toMe[0].local), s.toMe[0].local);
  }

  lemma AcceptFrame(s: Net, act: Action)
    requires Frame(s) && s.me.online && act.Deliver? && act.accept
    requires s.toMe != [] && s.toMe[0].Open?
    requires OpeningView(Flip(s), s.toMe[0].local).opens <= 1
    ensures Frame(Act(s, act))
  {
    assert WireOk(s.toMe[0], Flip(s));
    AcceptWireOut(s, act);
    AcceptWireIn(s, act);
  }

  lemma AcceptWireOut(s: Net, act: Action)
    requires Frame(s) && s.me.online && act.Deliver? && act.accept
    requires s.toMe != [] && s.toMe[0].Open?
    ensures var s1 := Act(s, act); forall i :: 0 <= i < |s1.toYou| ==> WireOk(s1.toYou[i], s1)
  {
  }

  lemma AcceptWireIn(s: Net, act: Action)
    requires Frame(s) && s.me.online && act.Deliver? && act.accept
    requires s.toMe != [] && s.toMe[0].Open?
    requires OpeningView(Flip(s), s.toMe[0].local).opens <= 1
    ensures var s1 := Act(s, act); forall i :: 0 <= i < |s1.toMe| ==> WireOk(s1.toMe[i], Flip(s1))
  {
    var s1, y := Act(s, act), s.toMe[0].local;
    OpensNone(s.toMe[1..], y);
    forall i | 0 <= i < |s1.toMe|
      ensures WireOk(s1.toMe[i], Flip(s1))
    {
      assert WireOk(s.toMe[i + 1], Flip(s));
      assert s1.toMe[i] == s.toMe[1..][i];
    }
  }

  lemma AcceptInv(s: Net, act: Action)
    requires Inv(s) && s.me.online && act.Deliver? && act.accept
    requires s.toMe != [] && s.toMe[0].Open?
    ensures Inv(Act(s, act))
    ensures forall a :: a in s.mates ==> a in Act(s, act).mates && View(Act(s, act), a) == View(s, a)
  {
    var s1, x, y := Act(s, act), s.me.nextId, s.toMe[0].local;
    HoldsFrame(Good, Waits, s);
    assert WireOk(s.toMe[0], Flip(s));
    var o := OpeningView(Flip(s), y);
    assert Waits(o);
    AcceptNear(s, act);
    assert o.q + [Okay(x, y)] == [Okay(x, y)];
    GoodAccepted(o.x, y, x, o.xOn);
    GoodMirror(Stream(o.x, Fresh(Some(y), true), [], [Okay(x, y)], y, x, o.xOn, true));
    NearViews(s, s1, x, y, [Okay(x, y)], true);
    NearHolds(Good, Waits, s, s1, x, y, [Okay(x, y)], true);
  }

  // ----- the transport of one end goes away

  lemma DropFrame(s: Net, keep: nat)
    requires Frame(s) && s.me.online
    ensures Frame(Act(s, Drop(keep)))
  {
  }

  lemma DropMoves(s: Net, keep: nat, a: Id) returns (ms: seq<Move>)
    requires s.me.online && a in s.mates && a in s.me.socks
    ensures Moves(View(s, a), ms, View(Act(s, Drop(keep)), a))
  {
    var v, s1 := View(s, a), Act(s, Drop(keep));
    var m := ProjPrefix(s.toYou, Min(keep, |s.toYou|), s.mates[a]);
    ms := [Lose, Forget(m)];
    TwoMoves(v, Lose, Forget(m));
    assert View(s1, a) == Step(Step(v, Lose), Forget(m));
  }

  lemma DropWaits(s: Net, keep: nat, a: Id)
    requires s.me.online && a in s.me.socks && Waits(OpeningView(s, a))
    ensures Waits(OpeningView(Act(s, Drop(keep)), a))
  {
    var m := ProjPrefix(s.toYou, Min(keep, |s.toYou|), a);
  }

  lemma DropWaitsYou(s: Net, keep: nat, b: Id)
    requires s.me.online && Waits(OpeningView(Flip(s), b))
    ensures Waits(OpeningView(Flip(Act(s, Drop(keep))), b))
  {
    var m := ProjPrefix(s.toYou, Min(keep, |s.toYou|), b);
  }

  lemma DropInv(s: Net, keep: nat)
    requires Inv(s) && s.me.online
    ensures Inv(Act(s, Drop(keep)))
  {
    var s1 := Act(s, Drop(keep));
    HoldsFrame(Good, Waits, s);
    DropFrame(s, keep);
    forall a | a in s1.mates
      ensures Good(View(s1, a))
    {
      var ms := DropMoves(s, keep, a);
      GoodMoves(View(s, a), ms, View(s1, a));
    }
    forall a | 0 < a < s1.me.nextId && a !in s1.mates
      ensures Waits(OpeningView(s1, a))
    {
      DropWaits(s, keep, a);
    }
    forall b | 0 < b < s1.you.nextId && b !in s1.backs
      ensures Waits(OpeningView(Flip(s1), b))
    {
      DropWaitsYou(s, keep, b);
    }
  }

  lemma ReapMoves(s: Net, a: Id) returns (ms: seq<Move>)
    requires !s.me.online && a in s.mates && a in s.me.socks
    ensures Moves(View(s, a), ms, View(Act(s, Reap), a))
  {
    var v := View(s, a);
    if v.x.stage == Live {
      ms := [Collect];
      OneMove(v, Collect);
    } else {
      ms := [];
    }
  }

  lemma ReapGood(s: Net, a: Id)
    requires !s.me.online && a in s.mates && a in s.me.socks && Good(View(s, a))
    ensures Good(View(Act(s, Reap), a))
  {
    var ms := ReapMoves(s, a);
    GoodMoves(View(s, a), ms, View(Act(s, Reap), a));
  }

  lemma ReapInv(s: Net)
    requires Inv(s) && !s.me.online
    ensures Inv(Act(s, Reap))
  {
    ReapHolds(Good, Waits, s);
  }

  lemma ReapHolds(P: Stream -> bool, W: Opening -> bool, s: Net)
    requires Holds(P, W, s) && !s.me.online
    requires forall v :: P(v) <==> Good(v)
    requires forall o :: W(o) <==> Waits(o)
    ensures Holds(P, W, Act(s, Reap))
  {
    var s1 := Act(s, Reap);
    HoldsFrame(P, W, s);
    ReapFrame(s);
    forall a | a in s1.mates
      ensures P(View(s1, a))
    {
      assert P(View(s, a));
      ReapGood(s, a);
    }
    forall a | 0 < a < s1.me.nextId && a !in s1.mates
      ensures W(OpeningView(s1, a))
    {
      assert W(OpeningView(s, a));
      ReapWaits(s, a);
    }
    forall b | 0 < b < s1.you.nextId && b !in s1.backs
      ensures W(OpeningView(Flip(s1), b))
    {
      assert OpeningView(Flip(s1), b) == OpeningView(Flip(s), b);
    }
  }

  lemma ReapWaits(s: Net, a: Id)
    requires !s.me.online && a in s.me.socks && Waits(OpeningView(s, a))
    ensures Waits(OpeningView(Act(s, Reap), a))
  {
  }

  lemma ReapFrame(s: Net)
    requires Frame(s) && !s.me.online
    ensures Frame(Act(s, Reap))
  {
  }

  // ----- every action keeps the invariant, and is a move of every stream

  lemma DeliverMoved(s: Net, act: Action) returns (r: Reply, ms: seq<Move>)
    requires Inv(s) && act.Deliver? && s.toMe != []
    requires !s.toMe[0].Cnxn? && !s.toMe[0].Open? && s.toMe[0].remote in s.mates
    ensures Moved(s, Act(s, act), s.toMe[0].remote, r, true, ms)
  {
    HoldsFrame(Good, Waits, s);
    BusyIsConnected(s, s.toMe[0].remote);
    r, ms := TakeMoved(s, s.toMe[0].remote, act.accept, act.n, act.fail);
  }

  lemma DeliverInv(s: Net, act: Action)
    requires Inv(s) && act.Deliver? && s.toMe != []
    ensures Inv(Act(s, act))
  {
    HoldsFrame(Good, Waits, s);
    var k := s.toMe[0];
    assert WireOk(k, Flip(s));
    if k.Open? {
      if !s.me.online {
        IgnoreInv(s, act);
      } else if act.accept {
        AcceptInv(s, act);
      } else {
        RefuseInv(s, act);
      }
    } else if k.remote in s.mates {
      var r, ms := DeliverMoved(s, act);
      MovedInv(s, Act(s, act), k.remote, r, true, ms);
    } else {
      RefusedInv(s, act);
    }
  }

  /** An fd event is a step of one stream, or nothing. */
  lemma SocketMoved(s: Net, act: Action) returns (r: Reply, ms: seq<Move>)
    requires Inv(s) && (act.Read? || act.Write? || act.HangUp?)
    ensures Act(s, act) == s || Moved(s, Act(s, act), act.x, r, false, ms)
  {
    var x := act.x;
    r, ms := Reply(Fresh(None, false), []), [];
    if act.Read? && IsLive(s.me, x) && s.me.socks[x].reading && |act.data| <= MAX_PAYLOAD {
      BusyFacts(s, x);
      r, ms := ReadMoved(s, x, act.data, act.eof);
    } else if act.Write? && IsLive(s.me, x) && s.me.socks[x].writing {
      BusyFacts(s, x);
      r, ms := WriteMoved(s, x, act.n, act.fail);
    } else if !act.Read? && IsDraining(s.me, x) {
      BusyIsConnected(s, x);
      r, ms := DrainingMoved(s, x, act);
    }
  }

  lemma ActInv(s: Net, act: Action)
    requires Inv(s)
    ensures Inv(Act(s, act))
  {
    match act
    case Deliver(_, _, _) =>
      if s.toMe != [] {
        DeliverInv(s, act);
      }
    case Dial(dest) =>
      if s.me.online {
        DialInv(s, dest);
      }
    case Drop(keep) =>
      if s.me.online {
        DropInv(s, keep);
      }
    case Reap =>
      if !s.me.online {
        ReapInv(s);
      }
    case GiveUp(x) =>
      if IsLive(s.me, x) {
        GiveUpInv(s, x);
      }
    case _ =>
      var r, ms := SocketMoved(s, act);
      if Act(s, act) != s {
        MovedInv(s, Act(s, act), act.x, r, false, ms);
      }
  }

  lemma NextInv(s: Net, ev: Event)
    requires Inv(s)
    ensures Inv(Next(s, ev))
  {
    if ev.mine {
      ActInv(s, ev.act);
    } else {
      FlipInv(s);
      ActInv(Flip(s), ev.act);
      FlipInv(Act(Flip(s), ev.act));
    }
  }

  /** The invariant holds after every run. */
  lemma {:induction false} RunInv(evs: seq<Event>)
    ensures Inv(Run(Init(), evs))
  {
    if evs != [] {
      RunInv(evs[..|evs| - 1]);
      NextInv(Run(Init(), evs[..|evs| - 1]), evs[|evs| - 1]);
    }
  }
}
