/**
 What the stream layer promises, for the state after every run of the two
 endpoints: multiplexing is invisible, one packet of credit per direction,
 in-order delivery, no cross-talk, bounded CLSE traffic; and exactly when a
 stream is half-open, which is when its opener closed before it had a peer.
 */
module Guarantees {
  import opened Basics
  import opened Endpoints
  import opened Streams
  import opened Network

  // ----- multiplexing is invisible

  /** A move of either socket of a stream. */
  datatype Turn = Turn(mine: bool, move: Move)

  ghost predicate CanPlay(v: Stream, t: Turn)
  {
    Enabled(if t.mine then v else Mirror(v), t.move)
  }

  ghost function Play(v: Stream, t: Turn): (r: Stream)
  {
    if !CanPlay(v, t) then v
    else if t.mine then Step(v, t.move)
    else Mirror(Step(Mirror(v), t.move))
  }

  /** v becomes v1 by turns, each possible when it is taken. */
  ghost predicate Chain<S(!new), T>(can: (S, T) -> bool, next: (S, T) -> S, v: S, ts: seq<T>, v1: S)
    decreases |ts|
  {
    if ts == [] then v1 == v
    else can(v, ts[0]) && Chain(can, next, next(v, ts[0]), ts[1..], v1)
  }

  lemma {:induction false} ChainConcat<S(!new), T>(can: (S, T) -> bool, next: (S, T) -> S,
                                                   v: S, ts: seq<T>, v1: S, us: seq<T>, v2: S)
    requires Chain(can, next, v, ts, v1) && Chain(can, next, v1, us, v2)
    ensures Chain(can, next, v, ts + us, v2)
    decreases |ts|
  {
    if ts == [] {
      assert ts + us == us;
    } else {
      ChainConcat(can, next, next(v, ts[0]), ts[1..], v1, us, v2);
      assert (ts + us)[1..] == ts[1..] + us;
    }
  }

  /** ... none of which involves any other stream. */
  ghost predicate Plays(v: Stream, ts: seq<Turn>, v1: Stream)
  {
    Chain(CanPlay, Play, v, ts, v1)
  }

  lemma PlaysConcat(v: Stream, ts: seq<Turn>, v1: Stream, us: seq<Turn>, v2: Stream)
    requires Plays(v, ts, v1) && Plays(v1, us, v2)
    ensures Plays(v, ts + us, v2)
  {
    ChainConcat(CanPlay, Play, v, ts, v1, us, v2);
  }

  lemma {:induction false} MovesArePlays(v: Stream, ms: seq<Move>, v1: Stream, mine: bool) returns (ts: seq<Turn>)
    requires Moves(if mine then v else Mirror(v), ms, if mine then v1 else Mirror(v1))
    ensures Plays(v, ts, v1)
    decreases |ms|
  {
    var w := if mine then v else Mirror(v);
    assert Mirror(Mirror(v)) == v && Mirror(Mirror(v1)) == v1;
    if ms == [] {
      ts := [];
    } else {
      var t := Turn(mine, ms[0]);
      var w1 := Step(w, ms[0]);
      assert Mirror(Mirror(w1)) == w1;
      var us := MovesArePlays(Play(v, t), ms[1..], v1, mine);
      ts := [t] + us;
      assert ts[1..] == us;
    }
  }

  lemma MovedRefines(s: Net, s1: Net, x: Id, r: Reply, pop: bool, ms1: seq<Move>, a: Id) returns (ms: seq<Move>)
    requires Frame(s) && Moved(s, s1, x, r, pop, ms1) && a in s.mates
    ensures a in s1.mates && Moves(View(s, a), ms, View(s1, a))
  {
    MovedViews(s, s1, x, r, pop, ms1);
    ms := if x == a then ms1 else [];
  }

  lemma DeliverRefines(s: Net, act: Action, a: Id) returns (ms: seq<Move>)
    requires Inv(s) && a in s.mates && act.Deliver? && s.toMe != []
    ensures a in Act(s, act).mates && Moves(View(s, a), ms, View(Act(s, act), a))
  {
    HoldsFrame(Good, Waits, s);
    var k := s.toMe[0];
    assert WireOk(k, Flip(s));
    ms := [];
    if k.Open? {
      if !s.me.online {
        IgnoreInv(s, act);
      } else if act.accept {
        AcceptInv(s, act);
      } else {
        RefuseInv(s, act);
      }
    } else if k.remote in s.mates {
      var r, ms1 := DeliverMoved(s, act);
      ms := MovedRefines(s, Act(s, act), k.remote, r, true, ms1, a);
    } else {
      RefusedInv(s, act);
    }
  }

  lemma CloseRefines(s: Net, x: Id, a: Id) returns (ms: seq<Move>)
    requires Inv(s) && a in s.mates && IsLive(s.me, x) && x in s.mates
    ensures a in Act(s, GiveUp(x)).mates && Moves(View(s, a), ms, View(Act(s, GiveUp(x)), a))
  {
    HoldsFrame(Good, Waits, s);
    BusyIsConnected(s, x);
    var r, ms1 := GiveUpMoved(s, x);
    ms := MovedRefines(s, Act(s, GiveUp(x)), x, r, false, ms1, a);
  }

  lemma EventRefines(s: Net, act: Action, a: Id) returns (ms: seq<Move>)
    requires Inv(s) && a in s.mates && (act.Read? || act.Write? || act.HangUp?)
    ensures a in Act(s, act).mates && Moves(View(s, a), ms, View(Act(s, act), a))
  {
    HoldsFrame(Good, Waits, s);
    var r, ms1 := SocketMoved(s, act);
    ms := [];
    if Act(s, act) != s {
      ms := MovedRefines(s, Act(s, act), act.x, r, false, ms1, a);
    }
  }

  lemma DropRefines(s: Net, keep: nat, a: Id) returns (ms: seq<Move>)
    requires Frame(s) && a in s.mates && s.me.online
    ensures a in Act(s, Drop(keep)).mates && Moves(View(s, a), ms, View(Act(s, Drop(keep)), a))
  {
    ms := DropMoves(s, keep, a);
  }

  lemma ReapRefines(s: Net, a: Id) returns (ms: seq<Move>)
    requires Frame(s) && a in s.mates && !s.me.online
    ensures a in Act(s, Reap).mates && Moves(View(s, a), ms, View(Act(s, Reap), a))
  {
    ms := ReapMoves(s, a);
  }

  lemma DialRefines(s: Net, dest: Bytes, a: Id)
    requires Inv(s) && a in s.mates && s.me.online
    ensures a in Act(s, Dial(dest)).mates && Moves(View(s, a), [], View(Act(s, Dial(dest)), a))
  {
    DialInv(s, dest);
  }

  /** Whatever an end does is, for each stream, a few moves of that stream alone. */
  lemma ActRefines(s: Net, act: Action, a: Id) returns (ms: seq<Move>)
    requires Inv(s) && a in s.mates
    ensures a in Act(s, act).mates && Moves(View(s, a), ms, View(Act(s, act), a))
  {
    ms := [];
    if act.Deliver? {
      if s.toMe != [] {
        ms := DeliverRefines(s, act, a);
      }
    } else if act.GiveUp? {
      if IsLive(s.me, act.x) {
        if act.x in s.mates {
          ms := CloseRefines(s, act.x, a);
        } else {
          LeaveInv(s, act.x);
        }
      }
    } else if act.Dial? {
      if s.me.online {
        DialRefines(s, act.dest, a);
      }
    } else if act.Drop? {
      HoldsFrame(Good, Waits, s);
      if s.me.online {
        ms := DropRefines(s, act.keep, a);
      }
    } else if act.Reap? {
      HoldsFrame(Good, Waits, s);
      if !s.me.online {
        ms := ReapRefines(s, a);
      }
    } else {
      ms := EventRefines(s, act, a);
    }
  }

  lemma FlipView(s: Net, a: Id)
    requires Bijection(s.mates, s.backs) && a in s.mates
    ensures s.mates[a] in s.backs && View(Flip(s), s.mates[a]) == Mirror(View(s, a))
  {
  }

  /** A stream keeps its two sockets for good. */
  lemma MatesStay(s: Net, act: Action, a: Id)
    requires Frame(s) && a in s.mates
    ensures a in Act(s, act).mates && Act(s, act).mates[a] == s.mates[a]
    ensures s.mates[a] in Act(s, act).backs && Act(s, act).backs[s.mates[a]] == a
  {
  }

  lemma TheirsRefines(s: Net, act: Action, a: Id) returns (ms: seq<Move>)
    requires Inv(s) && a in s.mates
    ensures var s1 := Flip(Act(Flip(s), act));
            a in s1.mates && Moves(Mirror(View(s, a)), ms, Mirror(View(s1, a)))
  {
    FlipInv(s);
    HoldsFrame(Good, Waits, s);
    FlipView(s, a);
    var t, b := Flip(s), s.mates[a];
    ms := ActRefines(t, act, b);
    HoldsFrame(Good, Waits, t);
    MatesStay(t, act, b);
    ActInv(t, act);
    HoldsFrame(Good, Waits, Act(t, act));
    FlipView(Act(t, act), b);
  }

  lemma NextRefines(s: Net, ev: Event, a: Id) returns (ts: seq<Turn>)
    requires Inv(s) && a in s.mates
    ensures a in Next(s, ev).mates && Plays(View(s, a), ts, View(Next(s, ev), a))
  {
    var ms;
    if ev.mine {
      ms := ActRefines(s, ev.act, a);
    } else {
      ms := TheirsRefines(s, ev.act, a);
    }
    ts := MovesArePlays(View(s, a), ms, View(Next(s, ev), a), ev.mine);
  }

  /**
   The multiplexed system refines independent streams: what any run does to an
   established stream is a run of that stream on its own.
   */
  lemma {:induction false} RunRefines(s: Net, evs: seq<Event>, a: Id) returns (ts: seq<Turn>)
    requires Inv(s) && a in s.mates
    ensures Inv(Run(s, evs)) && a in Run(s, evs).mates
    ensures Plays(View(s, a), ts, View(Run(s, evs), a))
    decreases |evs|
  {
    if evs == [] {
      ts := [];
    } else {
      var front, ev := evs[..|evs| - 1], evs[|evs| - 1];
      var ts0 := RunRefines(s, front, a);
      var s1 := Run(s, front);
      var ts1 := NextRefines(s1, ev, a);
      NextInv(s1, ev);
      PlaysConcat(View(s, a), ts0, View(s1, a), ts1, View(Next(s1, ev), a));
      ts := ts0 + ts1;
    }
  }

  // ----- what holds after every run

  /** The state after a run, as one end or the other sees it. */
  function Seen(evs: seq<Event>, host: bool): (s: Net)
  {
    if host then Run(Init(), evs) else Flip(Run(Init(), evs))
  }

  lemma SeenInv(evs: seq<Event>, host: bool)
    ensures Inv(Seen(evs, host))
  {
    RunInv(evs);
    FlipInv(Run(Init(), evs));
  }

  /**
   Credit, in the direction out of either end: while both ends of a stream are
   open, exactly one of these four may let the next WRTE be sent; while it closes,
   at most one.
   */
  lemma CreditConservation(evs: seq<Event>, host: bool, a: Id)
    ensures var s := Seen(evs, host);
            a in s.mates ==>
              var b := s.mates[a];
              var x, y := At(s.me, a), At(s.you, b);
              var credits := Flag(x.stage == Live && x.reading) + Writes(Proj(s.toYou, b))
                             + Flag(y.stage == Live && y.queue != []) + Readies(Proj(s.toMe, a));
              && credits <= 1
              && (x.stage == Live && y.stage == Live && s.me.online && s.you.online ==> credits == 1)
              && |y.queue| <= 1
              && (y.stage == Live && Writes(Proj(s.toYou, b)) > 0 ==> y.queue == [])
  {
    SeenInv(evs, host);
    var s := Seen(evs, host);
    if a in s.mates {
      assert Flow(View(s, a));
    }
  }

  /**
   Order: written bytes, then queued bytes, then payloads in flight are exactly
   the bytes sent, as long as the receiver is open and the sender's transport is
   up; what was written is always a prefix of what was sent; and a socket closed
   by its peer that was not cut off by its own fd ends up with all of it.
   */
  lemma OrderedDelivery(evs: seq<Event>, host: bool, a: Id)
    ensures var s := Seen(evs, host);
            a in s.mates ==>
              var b := s.mates[a];
              var x, y := At(s.me, a), At(s.you, b);
              && y.wrote <= x.sent
              && (y.stage == Live && s.me.online && s.you.online ==>
                    y.wrote + Flat(y.queue) + Payload(Proj(s.toYou, b)) == x.sent)
              && (y.stage == Draining && y.byPeer ==> y.wrote + Flat(y.queue) == x.sent)
              && (y.stage == Gone && y.byPeer && !y.cut ==> y.wrote == x.sent)
  {
    SeenInv(evs, host);
    var s := Seen(evs, host);
    if a in s.mates {
      assert Ordered(View(s, a));
      var y := At(s.you, s.mates[a]);
      assert y.wrote <= y.wrote + Flat(y.queue);
    }
  }

  /**
   Half-open streams, exactly: a live socket whose mate has closed has that mate's
   CLSE on its way if and only if the mate ever had a remote socket to send it.  If
   it had none, nothing of it is or ever was on its way, and no CLSE closes the live one.
   */
  lemma HalfOpenExactly(evs: seq<Event>, host: bool, a: Id)
    ensures var s := Seen(evs, host);
            (&& a in s.mates && s.me.online && s.you.online
             && At(s.me, a).stage != Live && At(s.you, s.mates[a]).stage == Live)
            ==> (Clse(0, s.mates[a]) in s.toYou <==> At(s.me, a).bound)
    ensures var s := Seen(evs, host);
            a in s.mates && !At(s.me, a).bound ==>
              Proj(s.toYou, s.mates[a]) == [] && At(s.me, a).sent == [] && !At(s.you, s.mates[a]).byPeer
  {
    SeenInv(evs, host);
    var s := Seen(evs, host);
    if a in s.mates {
      ClseInFlight(s, s.mates[a]);
      ClseIfBound(View(s, a));
    }
  }

  /** A CLSE for d is in flight exactly if one is among the packets routed to d. */
  lemma ClseInFlight(s: Net, d: Id)
    ensures Clse(0, d) in s.toYou <==> Clse(0, d) in Proj(s.toYou, d)
  {
    if Clse(0, d) in s.toYou {
      var i :| 0 <= i < |s.toYou| && s.toYou[i] == Clse(0, d);
      ProjMember(s.toYou, i, d);
    }
    if Clse(0, d) in Proj(s.toYou, d) {
      var i :| 0 <= i < |Proj(s.toYou, d)| && Proj(s.toYou, d)[i] == Clse(0, d);
      ProjSound(s.toYou, d, i);
    }
  }

  lemma ClseIfBound(v: Stream)
    requires Good(v)
    ensures v.xOn && v.yOn && v.x.stage != Live && v.y.stage == Live ==> (Clse(0, v.b) in v.p <==> v.x.bound)
    ensures !v.x.bound ==> v.p == [] && v.x.sent == [] && !v.y.byPeer
  {
    assert HalfFlow(v);
    if HasClse(v.p) {
      ShapeLast(v.p, v.a, v.b);
    }
  }

  /** Between two ends that both run this code, whoever has data to drain has a peer to tell about it. */
  lemma DrainHasPeer(evs: seq<Event>, host: bool, x: Id)
    ensures var e := Seen(evs, host).me;
            IsLive(e, x) && (e.socks[x].writing || e.socks[x].queue != []) ==> e.socks[x].peer != None
  {
    SeenInv(evs, host);
    var s := Seen(evs, host);
    if IsLive(s.me, x) {
      if x in s.mates {
        assert HalfFlow(View(s, x));
      } else {
        OpenerWaits(s, x);
      }
    }
  }

  /** A client that hangs up right after its request: OPEN, close, accept, OKAY. */
  const HastyClient: seq<Event> := [
    Event(true, Dial([])),
    Event(true, GiveUp(1)),
    Event(false, Deliver(true, 0, false)),
    Event(true, Deliver(false, 0, false))]

  /** The states of that run. */
  function Hasty(k: nat): (s: Net)
  {
    var waiting := Fresh(None, false);
    var host, device := Start(true), Start(false);
    if k == 0 then Init()
    else if k == 1 then
      Net(host.(nextId := 2, socks := map[1 := waiting]), device, [Open(1, [])], [], map[], map[])
    else
      var closed := host.(nextId := 2, socks := map[1 := Retired(waiting)]);
      if k == 2 then Net(closed, device, [Open(1, [])], [], map[], map[])
      else
        var serving := device.(nextId := 2, socks := map[1 := Fresh(Some(1), true)], binds := 1, opens := 1);
        Net(closed, serving, [], if k == 3 then [Okay(1, 1)] else [], map[1 := 1], map[1 := 1])
  }

  lemma HastyStep(k: nat)
    requires k < 4
    ensures Next(Hasty(k), HastyClient[k]) == Hasty(k + 1)
  {
    assert Clses([]) == 0;
    match k
    case 0 => assert [] + [Open(1, [])] == [Open(1, [])];
    case 1 => assert [Open(1, [])] + [] == [Open(1, [])];
    case 2 => assert [Open(1, [])][1..] == [] && [] + [Okay(1, 1)] == [Okay(1, 1)];
    case _ => assert [Okay(1, 1)][1..] == [];
  }

  lemma {:induction false} HastyRun(k: nat)
    requires k <= 4
    ensures Run(Init(), HastyClient[..k]) == Hasty(k)
  {
    if k > 0 {
      HastyRun(k - 1);
      HastyStep(k - 1);
      assert HastyClient[..k][..k - 1] == HastyClient[..k - 1];
    }
  }

  /** That run leaves a live service socket whose mate is gone, with nothing in flight either way. */
  lemma HastyClientStrands()
    ensures var s := Run(Init(), HastyClient);
            && s.me.online && s.you.online && s.toYou == [] && s.toMe == []
            && 1 in s.mates && At(s.me, 1).stage == Gone && At(s.you, s.mates[1]).stage == Live
  {
    HastyRun(4);
    assert HastyClient[..4] == HastyClient;
  }

  lemma {:induction false} ShapeLast(p: seq<Packet>, a: Id, b: Id)
    requires Shape(p, a, b) && HasClse(p)
    ensures p[|p| - 1] == Clse(0, b)
  {
    if |p| > 1 {
      ShapeLast(p[1..], a, b);
    }
  }

  lemma {:induction false} ProjSound(c: seq<Packet>, d: Id, i: nat)
    requires i < |Proj(c, d)|
    ensures Proj(c, d)[i] in c && To(Proj(c, d)[i], d)
  {
    if c != [] {
      var n := Flag(To(c[0], d));
      if i >= n {
        ProjSound(c[1..], d, i - n);
      }
    }
  }

  /**
   No cross-talk: every OKAY and WRTE in flight was sent by the mate of the socket
   it is routed to, every CLSE for an established stream by a mate that has
   closed, and a live bound socket is bound to its mate.
   */
  lemma NoCrossTalk(evs: seq<Event>, host: bool, i: nat)
    ensures var s := Seen(evs, host);
            i < |s.toMe| ==>
              match s.toMe[i]
              case Cnxn => false
              case Open(l, _) => l !in s.backs
              case Okay(l, x) => x in s.mates && s.mates[x] == l
              case Wrte(l, x, _) => x in s.mates && s.mates[x] == l
              case Clse(_, x) => x in s.mates ==> At(s.you, s.mates[x]).stage != Live
    ensures var s := Seen(evs, host);
            forall x :: IsLive(s.me, x) && s.me.socks[x].peer != None ==>
              x in s.mates && s.me.socks[x].peer == Some(s.mates[x])
  {
    SeenInv(evs, host);
    var s := Seen(evs, host);
    if i < |s.toMe| {
      assert WireOk(s.toMe[i], Flip(s));
      if s.toMe[i].Clse? && s.toMe[i].remote in s.mates {
        ClseMeansClosed(s, i);
      }
    }
    forall x | IsLive(s.me, x) && s.me.socks[x].peer != None
      ensures x in s.mates && s.me.socks[x].peer == Some(s.mates[x])
    {
      PeerIsMate(s, x);
    }
  }

  lemma PeerIsMate(s: Net, x: Id)
    requires Inv(s) && IsLive(s.me, x) && s.me.socks[x].peer != None
    ensures x in s.mates && s.me.socks[x].peer == Some(s.mates[x])
  {
  }

  lemma ClseMeansClosed(s: Net, i: nat)
    requires Inv(s) && i < |s.toMe| && s.toMe[i].Clse? && s.toMe[i].remote in s.mates
    ensures At(s.you, s.mates[s.toMe[i].remote]).stage != Live
  {
    var x := s.toMe[i].remote;
    ProjMember(s.toMe, i, x);
    assert HalfFlow(Mirror(View(s, x)));
    ClseCloses(Mirror(View(s, x)), s.toMe[i]);
  }

  lemma ClseCloses(v: Stream, k: Packet)
    requires HalfFlow(v) && k in v.p && k.Clse?
    ensures v.x.stage != Live
  {
    var j :| 0 <= j < |v.p| && v.p[j] == k;
    ShapeClse(v.p, v.a, v.b, j);
  }

  lemma {:induction false} ShapeClse(p: seq<Packet>, a: Id, b: Id, j: nat)
    requires Shape(p, a, b) && j < |p| && p[j].Clse?
    ensures j == |p| - 1
  {
    if j > 0 {
      ShapeClse(p[1..], a, b, j - 1);
    }
  }

  // ----- CLSE traffic is bounded, whatever the far end sends

  predicate OwnsRemote(k: Socket)
  {
    k.stage == Live && k.peer != None
  }

  ghost function BoundIds(e: Endpoint): (r: set<Id>)
  {
    set x | x in e.socks && OwnsRemote(e.socks[x])
  }

  /** Every CLSE is paid for by a remote socket that is gone or by a received OPEN. */
  ghost predicate Paid(e: Endpoint)
  {
    e.closes + |BoundIds(e)| <= e.binds + e.opens
  }

  lemma BoundCount(e: Endpoint, e1: Endpoint, x: Id, k: Socket)
    requires e1.socks == e.socks[x := k]
    ensures |BoundIds(e1)| + Flag(x in BoundIds(e)) == |BoundIds(e)| + Flag(OwnsRemote(k))
  {
    var rest := BoundIds(e) - {x};
    assert BoundIds(e1) == if OwnsRemote(k) then rest + {x} else rest;
    assert x in BoundIds(e) ==> BoundIds(e) == rest + {x};
    assert x !in BoundIds(e) ==> BoundIds(e) == rest;
  }

  /** A socket's answer holds at most one CLSE, sent by retiring its remote socket. */
  ghost predicate Frugal(s: Socket, r: Reply)
  {
    Clses(r.out) + Flag(OwnsRemote(r.sock)) <= Flag(OwnsRemote(s))
  }

  lemma ClsesOne(k: Packet)
    ensures Clses([k]) == Flag(k.Clse?) && Clses([]) == 0
  {
    assert [k][1..] == [];
  }

  lemma CloseIsFrugal(s: Socket)
    requires s.stage == Live
    ensures Frugal(s, OnClose(s)) && Frugal(s, OnClose(s.(byPeer := true)))
  {
    if s.peer != None {
      ClsesOne(Clse(0, s.peer.value));
    }
  }

  lemma ReadIsFrugal(s: Socket, x: Id, data: Bytes, eof: bool)
    requires s.stage == Live
    ensures Frugal(s, OnRead(s, x, data, eof))
  {
    CloseIsFrugal(s);
    if s.peer != None {
      var w, c := Wrte(x, s.peer.value, data), Clse(0, s.peer.value);
      ClsesOne(w);
      ClsesOne(c);
      ClsesConcat([w], [c]);
    }
  }

  lemma DataIsFrugal(s: Socket, x: Id, from: Id, data: Bytes, n: nat, fail: bool)
    requires s.stage == Live
    ensures Frugal(s, OnData(s, x, from, data, n, fail))
  {
    ClsesOne(Okay(x, from));
    CloseIsFrugal(s.(wrote := s.wrote + data[..Min(n, |data|)], cut := true));
  }

  lemma WriteIsFrugal(s: Socket, x: Id, n: nat, fail: bool)
    requires s.stage == Live
    ensures Frugal(s, OnWrite(s, x, n, fail))
  {
    CloseIsFrugal(Written(s, Min(n, |Flat(s.queue)|)).(cut := true));
    if s.peer != None {
      ClsesOne(Okay(x, s.peer.value));
    }
  }

  lemma AnswersAreFrugal(s: Socket, x: Id, from: Id, data: Bytes, eof: bool, n: nat, fail: bool)
    requires s.stage == Live
    ensures Frugal(s, OnClose(s)) && Frugal(s, OnClose(s.(byPeer := true)))
    ensures Frugal(s, OnData(s, x, from, data, n, fail))
    ensures Frugal(s, OnRead(s, x, data, eof))
    ensures Frugal(s, OnWrite(s, x, n, fail))
  {
    CloseIsFrugal(s);
    DataIsFrugal(s, x, from, data, n, fail);
    ReadIsFrugal(s, x, data, eof);
    WriteIsFrugal(s, x, n, fail);
  }

  lemma ApplyPaid(e: Endpoint, x: Id, r: Reply)
    requires Paid(e) && IsLive(e, x) && Frugal(e.socks[x], r)
    ensures Paid(Apply(e, x, r).end)
  {
    BoundCount(e, Apply(e, x, r).end, x, r.sock);
  }

  lemma ShrinkPaid(e: Endpoint, e1: Endpoint)
    requires Paid(e) && BoundIds(e1) <= BoundIds(e)
    requires e1.closes == e.closes && e1.binds == e.binds && e1.opens == e.opens
    ensures Paid(e1)
  {
    SubsetSize(BoundIds(e1), BoundIds(e));
  }

  lemma {:induction false} SubsetSize(a: set<Id>, b: set<Id>)
    requires a <= b
    ensures |a| <= |b|
  {
    if a != {} {
      var x :| x in a;
      SubsetSize(a - {x}, b - {x});
    }
  }

  /** Any packet at all: at most one CLSE in reply, and only by retiring a live socket or refusing an OPEN. */
  lemma PacketPaid(e: Endpoint, p: Packet, accept: bool, n: nat, fail: bool)
    requires Paid(e)
    ensures var o := HandlePacket(e, p, accept, n, fail);
            && Paid(o.end)
            && Clses(o.out) <= 1
            && o.end.closes == e.closes + Clses(o.out)
            && (Clses(o.out) == 1 && p.Clse? ==> IsLive(e, p.remote) && !IsLive(o.end, p.remote))
  {
    var o := HandlePacket(e, p, accept, n, fail);
    match p
    case Cnxn =>
      ShrinkPaid(e, o.end);
      assert e.host || [Cnxn][1..] == [];
    case Open(l, _) =>
      assert [Clse(0, l)][1..] == [] && [Okay(e.nextId, l)][1..] == [];
      if e.online && accept {
        BoundCount(e, o.end, e.nextId, Fresh(Some(l), true));
      } else {
        assert BoundIds(o.end) == BoundIds(e);
      }
    case Okay(l, x) =>
      if e.online && IsLive(e, x) {
        BoundCount(e, o.end, x, o.end.socks[x]);
      }
    case Clse(_, x) =>
      if e.online && IsLive(e, x) {
        AnswersAreFrugal(e.socks[x], x, 0, [], false, 0, false);
        ApplyPaid(e, x, OnClose(e.socks[x].(byPeer := true)));
      }
    case Wrte(l, x, data) =>
      if e.online && IsLive(e, x) {
        AnswersAreFrugal(e.socks[x], x, l, data, false, n, fail);
        ApplyPaid(e, x, OnData(e.socks[x], x, l, data, n, fail));
      }
  }

  lemma SocketPaid(e: Endpoint, x: Id, data: Bytes, eof: bool, n: nat, fail: bool)
    requires Paid(e) && IsLive(e, x)
    ensures Paid(Apply(e, x, OnRead(e.socks[x], x, data, eof)).end)
    ensures Paid(Apply(e, x, OnWrite(e.socks[x], x, n, fail)).end)
  {
    AnswersAreFrugal(e.socks[x], x, 0, data, eof, n, fail);
    ApplyPaid(e, x, OnRead(e.socks[x], x, data, eof));
    ApplyPaid(e, x, OnWrite(e.socks[x], x, n, fail));
  }

  lemma QuietPaid(s: Net, act: Action)
    requires Paid(s.me)
    requires act.HangUp? || act.Drop? || act.Reap? || (act.Write? && !IsLive(s.me, act.x))
    ensures Paid(Act(s, act).me)
  {
    ShrinkPaid(s.me, Act(s, act).me);
  }

  lemma ActPaid(s: Net, act: Action)
    requires Paid(s.me)
    ensures Paid(Act(s, act).me) && Act(s, act).you == s.you
  {
    var e := s.me;
    match act
    case Deliver(accept, n, fail) =>
      if s.toMe != [] {
        PacketPaid(e, s.toMe[0], accept, n, fail);
      }
    case Dial(_) =>
      BoundCount(e, Put(e, e.nextId, Fresh(None, false)), e.nextId, Fresh(None, false));
      assert e.online ==> BoundIds(Act(s, act).me) == BoundIds(Put(e, e.nextId, Fresh(None, false)));
    case Read(x, data, eof) =>
      if IsLive(e, x) {
        SocketPaid(e, x, data, eof, 0, false);
      }
    case Write(x, n, fail) =>
      if IsLive(e, x) {
        SocketPaid(e, x, [], false, n, fail);
      } else {
        QuietPaid(s, act);
      }
    case GiveUp(x) =>
      if IsLive(e, x) {
        AnswersAreFrugal(e.socks[x], x, 0, [], false, 0, false);
        ApplyPaid(e, x, OnClose(e.socks[x]));
      }
    case _ => QuietPaid(s, act);
  }

  lemma {:induction false} RunPaid(evs: seq<Event>)
    ensures var s := Run(Init(), evs); Paid(s.me) && Paid(s.you)
  {
    if evs == [] {
      assert BoundIds(Start(true)) == {} && BoundIds(Start(false)) == {};
    } else {
      var front, ev := evs[..|evs| - 1], evs[|evs| - 1];
      RunPaid(front);
      var s := Run(Init(), front);
      ActPaid(if ev.mine then s else Flip(s), ev.act);
    }
  }

  // ----- what goes over the channels

  /** What the step from s to s1 appended to the outgoing channel. */
  function Added(s: Net, s1: Net): (out: seq<Packet>)
  {
    if s.toYou <= s1.toYou then s1.toYou[|s.toYou|..] else []
  }

  /** All packets one end has put on its channel in a run. */
  function Emitted(evs: seq<Event>, host: bool): (out: seq<Packet>)
  {
    if evs == [] then []
    else
      var front := evs[..|evs| - 1];
      Emitted(front, host)
      + if evs[|evs| - 1].mine == host then Added(Seen(front, host), Seen(evs, host)) else []
  }

  /** All packets one end has taken off its channel. */
  function Taken(evs: seq<Event>, host: bool): (out: seq<Packet>)
  {
    if evs == [] then []
    else
      var front, ev := evs[..|evs| - 1], evs[|evs| - 1];
      var c := Seen(front, host).toMe;
      Taken(front, host) + if ev.mine == host && ev.act.Deliver? && c != [] then [c[0]] else []
  }

  lemma SeenNext(evs: seq<Event>, host: bool)
    requires evs != []
    ensures var s, ev := Seen(evs[..|evs| - 1], host), evs[|evs| - 1];
            Seen(evs, host) == if ev.mine == host then Act(s, ev.act) else Flip(Act(Flip(s), ev.act))
  {
  }

  lemma SeenFlip(evs: seq<Event>, host: bool)
    ensures Seen(evs, host) == Flip(Seen(evs, !host))
  {
  }

  lemma {:induction false} ClsesConcat(a: seq<Packet>, b: seq<Packet>)
    ensures Clses(a + b) == Clses(a) + Clses(b)
  {
    if a == [] {
      assert a + b == b;
    } else {
      assert (a + b)[1..] == a[1..] + b;
      ClsesConcat(a[1..], b);
    }
  }

  lemma AddedIs(s: Net, s1: Net, out: seq<Packet>)
    requires s1.toYou == s.toYou + out
    ensures Added(s, s1) == out
  {
  }

  /** The counter of CLSE packets counts those put on the channel. */
  lemma ActCounts(s: Net, act: Action)
    ensures Act(s, act).me.closes == s.me.closes + Clses(Added(s, Act(s, act)))
    ensures Act(s, act).you == s.you
  {
    var s1 := Act(s, act);
    match act
    case Deliver(accept, n, fail) =>
      if s.toMe != [] {
        HandleCounts(s.me, s.toMe[0], accept, n, fail);
        AddedIs(s, s1, HandlePacket(s.me, s.toMe[0], accept, n, fail).out);
      } else {
        AddedIs(s, s1, []);
      }
    case Dial(dest) =>
      if s.me.online {
        assert [Open(s.me.nextId, dest)][1..] == [];
        AddedIs(s, s1, [Open(s.me.nextId, dest)]);
      } else {
        AddedIs(s, s1, []);
      }
    case Drop(keep) =>
    case Reap => AddedIs(s, s1, []);
    case _ => EventCounts(s, act);
  }

  lemma HandleCounts(e: Endpoint, p: Packet, accept: bool, n: nat, fail: bool)
    ensures var o := HandlePacket(e, p, accept, n, fail); o.end.closes == e.closes + Clses(o.out)
  {
    assert [Cnxn][1..] == [];
    if p.Open? {
      assert [Clse(0, p.local)][1..] == [] && [Okay(e.nextId, p.local)][1..] == [];
    }
  }

  lemma EventCounts(s: Net, act: Action)
    requires act.Read? || act.Write? || act.HangUp? || act.GiveUp?
    ensures Act(s, act).me.closes == s.me.closes + Clses(Added(s, Act(s, act)))
  {
    var s1 := Act(s, act);
    if IsLive(s.me, act.x) && s1 != s {
      var k := s.me.socks[act.x];
      match act
      case Read(x, data, eof) => AddedIs(s, s1, OnRead(k, x, data, eof).out);
      case Write(x, n, fail) => AddedIs(s, s1, OnWrite(k, x, n, fail).out);
      case _ => AddedIs(s, s1, OnClose(k).out);
    } else {
      AddedIs(s, s1, []);
    }
  }

  lemma {:induction false} ClosesAreEmitted(evs: seq<Event>, host: bool)
    ensures Seen(evs, host).me.closes == Clses(Emitted(evs, host))
  {
    if evs != [] {
      var front, ev := evs[..|evs| - 1], evs[|evs| - 1];
      var s := Seen(front, host);
      ClosesAreEmitted(front, host);
      SeenNext(evs, host);
      if ev.mine == host {
        ActCounts(s, ev.act);
        ClsesConcat(Emitted(front, host), Added(s, Seen(evs, host)));
      } else {
        ActCounts(Flip(s), ev.act);
        assert Emitted(front, host) + [] == Emitted(front, host);
      }
    }
  }

  /** Once its transport is gone, an end sends nothing. */
  lemma OfflineSilent(s: Net, act: Action)
    requires Inv(s) && !s.me.online
    ensures Act(s, act).toYou == s.toYou && !Act(s, act).me.online
  {
    HoldsFrame(Good, Waits, s);
    if act.Deliver? {
      if s.toMe != [] {
        assert WireOk(s.toMe[0], Flip(s));
        assert s.toYou + [] == s.toYou;
      }
    } else if (act.Read? || act.Write? || act.GiveUp?) && IsLive(s.me, act.x) {
      OfflinePeerless(s, act.x);
      assert s.toYou + [] == s.toYou;
    }
  }

  lemma OfflinePeerless(s: Net, x: Id)
    requires Inv(s) && !s.me.online && IsLive(s.me, x)
    ensures var k := s.me.socks[x]; k.peer == None && !k.reading && !k.writing
  {
    if x in s.mates {
      assert HalfFlow(View(s, x));
    } else {
      HoldsFrame(Good, Waits, s);
      assert Waits(OpeningView(s, x));
    }
  }

  /** What one action of the sender does to the channel, if the sender is up. */
  lemma ChannelGrows(s: Net, act: Action)
    ensures if act.Drop? then Act(s, act).toYou <= s.toYou && !Act(s, act).me.online
            else Act(s, act).toYou == s.toYou + Added(s, Act(s, act))
    ensures Act(s, act).toMe == if act.Deliver? && s.toMe != [] then s.toMe[1..] else s.toMe
  {
  }

  /**
   The channels are FIFO queues that may lose an end with the sender's transport:
   what an end has taken, then what is on its way, are the first packets the other
   end sent, and all of them while the sender is online.
   */
  lemma {:induction false} ChannelIsFifo(evs: seq<Event>, host: bool)
    ensures var got := Taken(evs, host) + Seen(evs, host).toMe;
            && got <= Emitted(evs, !host)
            && (Seen(evs, host).you.online ==> got == Emitted(evs, !host))
  {
    if evs != [] {
      var front, ev := evs[..|evs| - 1], evs[|evs| - 1];
      ChannelIsFifo(front, host);
      SeenNext(evs, host);
      SeenNext(evs, !host);
      SeenFlip(front, host);
      SeenFlip(evs, host);
      if ev.mine == host {
        TakerStep(evs, host);
      } else {
        SenderStep(evs, host);
      }
    }
  }

  lemma TakerStep(evs: seq<Event>, host: bool)
    requires evs != [] && evs[|evs| - 1].mine == host
    ensures var front := evs[..|evs| - 1];
            && Taken(evs, host) + Seen(evs, host).toMe == Taken(front, host) + Seen(front, host).toMe
            && Emitted(evs, !host) == Emitted(front, !host)
            && Seen(evs, host).you == Seen(front, host).you
  {
    var front, ev := evs[..|evs| - 1], evs[|evs| - 1];
    var s := Seen(front, host);
    SeenNext(evs, host);
    ChannelGrows(s, ev.act);
    ActCounts(s, ev.act);
    var first, rest := if ev.act.Deliver? && s.toMe != [] then [s.toMe[0]] else [], Act(s, ev.act).toMe;
    assert first + rest == s.toMe;
    Regroup(Taken(front, host), first, rest);
    assert Taken(evs, host) == Taken(front, host) + first;
    assert Emitted(front, !host) + [] == Emitted(front, !host);
  }

  lemma SenderStep(evs: seq<Event>, host: bool)
    requires evs != [] && evs[|evs| - 1].mine != host
    requires var front := evs[..|evs| - 1];
             var got := Taken(front, host) + Seen(front, host).toMe;
             && got <= Emitted(front, !host)
             && (Seen(front, host).you.online ==> got == Emitted(front, !host))
    ensures var got := Taken(evs, host) + Seen(evs, host).toMe;
            && got <= Emitted(evs, !host)
            && (Seen(evs, host).you.online ==> got == Emitted(evs, !host))
  {
    var front, ev := evs[..|evs| - 1], evs[|evs| - 1];
    var s := Seen(front, !host);
    SeenFlip(front, host);
    SeenFlip(evs, host);
    SeenNext(evs, !host);
    ChannelGrows(s, ev.act);
    assert Taken(evs, host) == Taken(front, host);
    var more := Added(s, Act(s, ev.act));
    assert Emitted(evs, !host) == Emitted(front, !host) + more;
    if s.me.online && !ev.act.Drop? {
      Regroup(Taken(front, host), s.toYou, more);
    } else if !s.me.online {
      SeenInv(front, !host);
      OfflineSilent(s, ev.act);
    }
  }

  /** The number of CLSE packets either end ever sends is bounded by remote sockets and OPENs. */
  lemma CloseQuiescence(evs: seq<Event>, host: bool)
    ensures var e := Seen(evs, host).me; Clses(Emitted(evs, host)) <= e.binds + e.opens
  {
    RunPaid(evs);
    ClosesAreEmitted(evs, host);
  }
}
