/**
 One transport and the three threads that share it: the output thread reads
 packets from the remote end and passes them to the main loop, the main loop
 handles them and passes its own to the input thread, and the input thread
 writes those to the remote end.  Each action is one atomic step of one thread;
 a run is any interleaving.
 */
module Threads {
  import opened Basics
  import opened Endpoints

  /** SYNC(1, token), SYNC(0, 0), and the messages for the far end. */
  datatype Body = SyncOn(token: nat) | SyncOff | Plain(p: Packet)

  /** Progress through kick_transport: unlocked test, locked test-and-set, call. */
  datatype Kick = Test | Set | Fire | Passed

  datatype OutPc = Starting | Pumping | Ending | OutKick(k: Kick) | OutUnref | OutDone

  datatype InPc = Looping | Sweeping | InKick(k: Kick) | InUnref | InDone

  /** The fields of the transport that the shutdown is about, and where each thread is. */
  datatype Life = Life(
    out: OutPc,
    inp: InPc,
    other: Kick,             // a third caller of kick_transport
    kicked: bool,
    kicks: nat,              // calls of t->kick
    refs: int,
    posts: nat)              // removal messages posted

  datatype T = T(
    host: bool,
    life: Life,
    toMain: seq<Body>,       // one direction of the socket pair
    toInput: seq<Body>,      // the other direction
    token: nat,
    online: bool,            // connection_state is not CS_OFFLINE
    active: bool,            // the input thread has seen its SYNC
    // history
    wire: seq<Packet>,       // handed to write_to_remote
    said: seq<Packet>,       // handed to send_packet by the main loop, except SYNC
    synced: bool,            // the main loop has handled SYNC(1, token)
    shut: bool,              // the main loop has handled SYNC(0, 0)
    ended: bool)             // the input thread left its loop on SYNC(0, 0)

  datatype OutAction = OutSync(ok: bool) | OutPacket(p: Packet, ok: bool) | OutEof | OutSyncOff(ok: bool)

  datatype MainAction = Take(replies: seq<Packet>) | Send(p: Packet)

  datatype InAction = InTake | InFail | InSweep(clses: seq<Packet>)

  datatype LifeAction = OutKickStep | OutUnrefStep | InKickStep | InUnrefStep | OtherKick

  /** One step of the output thread, the main loop, the input thread, or the shutdown. */
  datatype Action = Out(o: OutAction) | Main(m: MainAction) | In(i: InAction) | Shutdown(l: LifeAction)

  function Init(host: bool): (r: T)
  {
    T(host, Life(Starting, Looping, Passed, false, 0, 2, 0),
      [], [], 1, false, false, [], [], false, false, false)
  }

  // ----- steps

  /** A packet goes to the main loop and the thread goes on at pc, or gives up if the write fails. */
  function ToMain(s: T, body: Body, ok: bool, pc: OutPc): (r: T)
  {
    if ok then s.(toMain := s.toMain + [body], life := s.life.(out := pc))
    else s.(life := s.life.(out := OutKick(Test)))
  }

  /** send_packet. */
  function Say(s: T, p: Packet): (r: T)
  {
    s.(toInput := s.toInput + [Plain(p)], said := s.said + [p])
  }

  function SayAll(s: T, ps: seq<Packet>): (r: T)
    ensures r == s.(toInput := r.toInput, said := r.said)
  {
    if ps == [] then s else Say(SayAll(s, ps[..|ps| - 1]), ps[|ps| - 1])
  }

  /** kick_transport, one step: kicked is tested without the lock, then tested and set with it. */
  function KickNext(l: Life, k: Kick): (r: (Life, Kick))
  {
    match k
    case Test => (l, if l.kicked then Passed else Set)
    case Set => (l.(kicked := true), if l.kicked then Passed else Fire)
    case Fire => (l.(kicks := l.kicks + 1), Passed)
    case Passed => (l, Passed)
  }

  /** transport_unref, under the lock. */
  function Unref(l: Life): (r: Life)
  {
    var l1 := l.(refs := l.refs - 1);
    if l1.refs != 0 then l1
    else
      var l2 := if l1.kicked then l1 else l1.(kicked := true, kicks := l1.kicks + 1);
      l2.(posts := l2.posts + 1)
  }

  /** The steps that only concern the shutdown. */
  function LifeNext(l: Life, act: LifeAction): (r: Life)
  {
    match act
    case OutKickStep =>
      if !l.out.OutKick? then l
      else
        var (l1, k) := KickNext(l, l.out.k);
        l1.(out := if k == Passed then OutUnref else OutKick(k))
    case OutUnrefStep => if l.out == OutUnref then Unref(l).(out := OutDone) else l
    case InKickStep =>
      if !l.inp.InKick? then l
      else
        var (l1, k) := KickNext(l, l.inp.k);
        l1.(inp := if k == Passed then InUnref else InKick(k))
    case InUnrefStep => if l.inp == InUnref then Unref(l).(inp := InDone) else l
    case OtherKick =>
      if l.other == Passed then (if l.posts == 0 then l.(other := Test) else l)
      else
        var (l1, k) := KickNext(l, l.other);
        l1.(other := k)
  }

  /** handle_packet on the first packet of the socket pair. */
  function Handle(s: T, b: Body, replies: seq<Packet>): (r: T)
  {
    match b
    case SyncOn(_) =>
      var s1 := s.(toInput := s.toInput + [b], synced := true);
      if s.host then Say(s1, Cnxn) else s1
    case SyncOff =>
      s.(toInput := s.toInput + [b], shut := true, online := false)
    case Plain(p) =>
      if p.Cnxn? then
        var s1 := s.(online := true);
        if s.host then s1 else Say(s1, Cnxn)
      else if s.online then SayAll(s, replies)
      else s
  }

  /** The input thread's loop body. */
  function InputStep(s: T, b: Body): (r: T)
  {
    match b
    case SyncOff => s.(life := s.life.(inp := Sweeping), ended := true)
    case SyncOn(token) => if token == s.token then s.(active := true) else s
    case Plain(p) => if s.active then s.(wire := s.wire + [p]) else s
  }

  function OutNext(s: T, act: OutAction): (r: T)
  {
    match act
    case OutSync(ok) =>
      if s.life.out != Starting then s
      else ToMain(s.(token := s.token + 1), SyncOn(s.token + 1), ok, Pumping)
    case OutPacket(p, ok) =>
      if s.life.out != Pumping then s else ToMain(s, Plain(p), ok, Pumping)
    case OutEof =>
      if s.life.out != Pumping then s else s.(life := s.life.(out := Ending))
    case OutSyncOff(ok) =>
      if s.life.out != Ending then s else ToMain(s, SyncOff, ok, OutKick(Test))
  }

  function MainNext(s: T, act: MainAction): (r: T)
  {
    match act
    case Take(replies) =>
      if s.toMain == [] then s else Handle(s.(toMain := s.toMain[1..]), s.toMain[0], replies)
    case Send(p) => if s.online then Say(s, p) else s
  }

  function InNext(s: T, act: InAction): (r: T)
  {
    match act
    case InTake =>
      if s.life.inp != Looping || s.toInput == [] then s
      else InputStep(s.(toInput := s.toInput[1..]), s.toInput[0])
    case InFail =>
      if s.life.inp != Looping then s else s.(life := s.life.(inp := Sweeping))
    case InSweep(clses) =>
      if s.life.inp != Sweeping then s
      else (if s.online then SayAll(s, clses) else s).(life := s.life.(inp := InKick(Test)))
  }

  function Next(s: T, act: Action): (r: T)
  {
    match act
    case Out(o) => OutNext(s, o)
    case Main(m) => MainNext(s, m)
    case In(i) => InNext(s, i)
    case Shutdown(l) => s.(life := LifeNext(s.life, l))
  }

  function Run(host: bool, acts: seq<Action>): (r: T)
  {
    if acts == [] then Init(host) else Next(Run(host, acts[..|acts| - 1]), acts[|acts| - 1])
  }

  // ----- shutdown

  /** How many callers have won the test-and-set but not yet called t->kick. */
  function Winners(l: Life): (r: nat)
  {
    Flag(l.out == OutKick(Fire)) + Flag(l.inp == InKick(Fire)) + Flag(l.other == Fire)
  }

  ghost predicate Orderly(l: Life)
  {
    && l.out != OutKick(Passed) && l.inp != InKick(Passed)
    && l.kicks + Winners(l) == Flag(l.kicked)
    && l.refs == 2 - Flag(l.out == OutDone) - Flag(l.inp == InDone)
    && l.posts == Flag(l.refs == 0)
    && (l.out == OutUnref || l.out == OutDone || l.inp == InUnref || l.inp == InDone ==> l.kicked)
  }

  lemma OrderlyLife(l: Life, act: LifeAction)
    requires Orderly(l)
    ensures Orderly(LifeNext(l, act))
  {
  }

  predicate OutFree(pc: OutPc)
  {
    pc == Starting || pc == Pumping || pc == Ending || pc == OutKick(Test)
  }

  predicate InFree(pc: InPc)
  {
    pc == Looping || pc == Sweeping || pc == InKick(Test)
  }

  /** Up to its kick, a thread may move on freely. */
  lemma OrderlyGoes(l: Life, o: OutPc, i: InPc)
    requires Orderly(l)
    requires o == l.out || (OutFree(l.out) && OutFree(o))
    requires i == l.inp || (InFree(l.inp) && InFree(i))
    ensures Orderly(l.(out := o, inp := i))
  {
  }

  lemma OrderlyToMain(s: T, body: Body, ok: bool, pc: OutPc)
    requires Orderly(s.life) && OutFree(s.life.out) && OutFree(pc)
    ensures Orderly(ToMain(s, body, ok, pc).life)
  {
    OrderlyGoes(s.life, if ok then pc else OutKick(Test), s.life.inp);
  }

  lemma OrderlyOut(s: T, act: OutAction)
    requires Orderly(s.life)
    ensures Orderly(OutNext(s, act).life)
  {
    match act
    case OutSync(ok) =>
      if s.life.out == Starting {
        OrderlyToMain(s.(token := s.token + 1), SyncOn(s.token + 1), ok, Pumping);
      }
    case OutPacket(p, ok) =>
      if s.life.out == Pumping {
        OrderlyToMain(s, Plain(p), ok, Pumping);
      }
    case OutEof =>
      if s.life.out == Pumping {
        OrderlyGoes(s.life, Ending, s.life.inp);
      }
    case OutSyncOff(ok) =>
      if s.life.out == Ending {
        OrderlyToMain(s, SyncOff, ok, OutKick(Test));
      }
  }

  lemma OrderlyIn(s: T, act: InAction)
    requires Orderly(s.life)
    ensures Orderly(InNext(s, act).life)
  {
    var l := s.life;
    if InFree(l.inp) {
      OrderlyGoes(l, l.out, Sweeping);
      OrderlyGoes(l, l.out, InKick(Test));
    }
  }

  lemma MainStays(s: T, act: MainAction)
    ensures MainNext(s, act).life == s.life
  {
  }

  lemma OrderlyNext(s: T, act: Action)
    requires Orderly(s.life)
    ensures Orderly(Next(s, act).life)
  {
    var l := s.life;
    match act
    case Out(o) => OrderlyOut(s, o);
    case Main(m) => MainStays(s, m);
    case In(i) => OrderlyIn(s, i);
    case Shutdown(a) => OrderlyLife(l, a);
  }

  lemma {:induction false} RunOrderly(host: bool, acts: seq<Action>)
    ensures Orderly(Run(host, acts).life)
  {
    if acts != [] {
      RunOrderly(host, acts[..|acts| - 1]);
      OrderlyNext(Run(host, acts[..|acts| - 1]), acts[|acts| - 1]);
    }
  }

  /**
   Over all interleavings: t->kick runs at most once, the removal is posted at most
   once, exactly when both threads have made their last access, and by then the
   transport has been kicked unless a third caller is just about to.
   */
  lemma ShutdownOnce(host: bool, acts: seq<Action>)
    ensures var l := Run(host, acts).life;
            && l.kicks <= 1 && l.posts <= 1
            && (l.posts == 1 <==> l.out == OutDone && l.inp == InDone)
            && (l.posts == 1 && l.other != Fire ==> l.kicks == 1)
  {
    RunOrderly(host, acts);
  }

  // ----- the handshake

  /** The messages of a channel that are not SYNC. */
  function Talk(c: seq<Body>): (r: seq<Packet>)
  {
    if c == [] then [] else Word(c[0]) + Talk(c[1..])
  }

  function Word(b: Body): (r: seq<Packet>)
  {
    if b.Plain? then [b.p] else []
  }

  lemma {:induction false} TalkAppend(c: seq<Body>, b: Body)
    ensures Talk(c + [b]) == Talk(c) + Word(b)
  {
    if c == [] {
      assert [b][1..] == [];
    } else {
      assert (c + [b])[1..] == c[1..] + [b];
      TalkAppend(c[1..], b);
      Regroup(Word(c[0]), Talk(c[1..]), Word(b));
    }
  }

  /** The output thread has written its last packet. */
  predicate PastEnd(pc: OutPc)
  {
    pc.OutKick? || pc == OutUnref || pc == OutDone
  }

  /** SYNC(1, token) comes first to the main loop and SYNC(0, 0) last. */
  ghost predicate MainChannel(s: T)
  {
    && (forall i :: 0 <= i < |s.toMain| && s.toMain[i].SyncOn? ==>
          i == 0 && !s.synced && s.toMain[i].token == s.token)
    && (!s.synced && s.toMain != [] ==> s.toMain[0].SyncOn?)
    && (forall i :: 0 <= i < |s.toMain| && s.toMain[i].SyncOff? ==>
          i == |s.toMain| - 1 && PastEnd(s.life.out))
    && (s.life.out == Starting ==> s.toMain == [] && !s.synced)
    && (s.life.out == Pumping || s.life.out == Ending ==> s.synced || s.toMain != [])
    && (s.shut ==> s.toMain == [] && PastEnd(s.life.out) && !s.online && s.synced)
  }

  /** ... and likewise to the input thread. */
  ghost predicate InputChannel(s: T)
  {
    && (forall i :: 0 <= i < |s.toInput| && s.toInput[i].SyncOn? ==>
          i == 0 && !s.active && s.toInput[i].token == s.token)
    && (s.synced && !s.active && s.life.inp == Looping ==> s.toInput != [] && s.toInput[0].SyncOn?)
    && (forall i :: 0 <= i < |s.toInput| && s.toInput[i].SyncOff? ==> i == |s.toInput| - 1 && s.shut)
  }

  /** What was written is what the main loop said, up to what is still on its way. */
  ghost predicate Spoken(s: T)
  {
    && s.wire <= s.said
    && (s.life.inp == Looping ==> s.wire + Talk(s.toInput) == s.said)
    && (s.ended ==> s.shut && s.wire == s.said && s.life.inp != Looping)
    && (s.said != [] ==> s.said[0] == Cnxn)
    && (s.online || (s.host && s.synced) ==> s.said != [])
    && (!s.synced ==> s.toInput == [] && !s.active && !s.online && s.said == [] && !s.shut)
  }

  ghost predicate Handshake(s: T)
  {
    MainChannel(s) && InputChannel(s) && Spoken(s)
  }

  /** send_packet, with the transport up. */
  lemma HandshakeSay(s: T, p: Packet)
    requires Handshake(s) && s.synced && !s.shut
    requires p == Cnxn || s.said != []
    ensures Handshake(Say(s, p)) && Say(s, p).said != []
  {
    TalkAppend(s.toInput, Plain(p));
    Regroup(s.wire, Talk(s.toInput), [p]);
    assert s.wire <= s.said + [p];
  }

  lemma {:induction false} HandshakeSayAll(s: T, ps: seq<Packet>)
    requires Handshake(s) && s.synced && !s.shut && s.said != []
    ensures Handshake(SayAll(s, ps)) && SayAll(s, ps).said != []
  {
    if ps != [] {
      HandshakeSayAll(s, ps[..|ps| - 1]);
      HandshakeSay(SayAll(s, ps[..|ps| - 1]), ps[|ps| - 1]);
    }
  }

  /** A thread past its loop moving on does not matter here. */
  lemma HandshakeSame(s: T, s1: T)
    requires Handshake(s) && s1 == s.(life := s1.life)
    requires s1.life.out == s.life.out || (PastEnd(s.life.out) && PastEnd(s1.life.out))
    requires s1.life.inp == s.life.inp || s1.life.inp != Looping
    ensures Handshake(s1)
  {
  }

  lemma HandshakeOutSync(s: T, ok: bool)
    requires Handshake(s) && s.life.out == Starting
    ensures Handshake(OutNext(s, OutSync(ok)))
  {
  }

  lemma HandshakeOutPacket(s: T, p: Packet, ok: bool)
    requires Handshake(s) && s.life.out == Pumping
    ensures Handshake(OutNext(s, OutPacket(p, ok)))
  {
  }

  lemma HandshakeOutEof(s: T)
    requires Handshake(s) && s.life.out == Pumping
    ensures Handshake(OutNext(s, OutEof))
  {
  }

  lemma HandshakeOutSyncOff(s: T, ok: bool)
    requires Handshake(s) && s.life.out == Ending
    ensures Handshake(OutNext(s, OutSyncOff(ok)))
  {
  }

  lemma HandshakeSyncOn(s: T, replies: seq<Packet>)
    requires Handshake(s) && s.toMain != [] && s.toMain[0].SyncOn?
    ensures Handshake(MainNext(s, Take(replies)))
  {
    var b := s.toMain[0];
    assert s.toInput == [] && s.said == [];
    TalkAppend([], b);
    assert [] + [b] == [b];
    TalkAppend([b], Plain(Cnxn));
  }

  lemma HandshakeSyncOff(s: T, replies: seq<Packet>)
    requires Handshake(s) && s.toMain != [] && s.toMain[0].SyncOff?
    ensures Handshake(MainNext(s, Take(replies)))
  {
    TalkAppend(s.toInput, s.toMain[0]);
  }

  /** The main loop takes a packet that is not SYNC: it has seen SYNC(1, token) before. */
  lemma HandshakePop(s: T, on: bool)
    requires Handshake(s) && s.toMain != [] && s.toMain[0].Plain?
    requires on == s.online || (on && s.host)
    ensures s.synced && !s.shut
    ensures Handshake(s.(toMain := s.toMain[1..], online := on))
  {
  }

  lemma HandshakeTake(s: T, replies: seq<Packet>)
    requires Handshake(s) && s.toMain != []
    ensures Handshake(MainNext(s, Take(replies)))
  {
    match s.toMain[0]
    case SyncOn(_) => HandshakeSyncOn(s, replies);
    case SyncOff => HandshakeSyncOff(s, replies);
    case Plain(p) =>
      if p.Cnxn? {
        HandshakeHello(s, replies);
      } else {
        HandshakePop(s, s.online);
        if s.online {
          HandshakeSayAll(s.(toMain := s.toMain[1..]), replies);
        }
      }
  }

  lemma HandshakeHello(s: T, replies: seq<Packet>)
    requires Handshake(s) && s.toMain != [] && s.toMain[0] == Plain(Cnxn)
    ensures Handshake(MainNext(s, Take(replies)))
  {
    var s1 := s.(toMain := s.toMain[1..]);
    if s.host {
      HandshakePop(s, true);
    } else {
      HandshakePop(s, s.online);
      HandshakeSay(s1, Cnxn);
      HandshakeOnline(Say(s1, Cnxn));
    }
  }

  lemma HandshakeOnline(s: T)
    requires Handshake(s) && s.synced && !s.shut && s.said != []
    ensures Handshake(s.(online := true))
  {
  }

  /** The input thread takes a packet: none is ignored for want of a SYNC. */
  lemma HandshakeInput(s: T)
    requires Handshake(s) && s.life.inp == Looping && s.toInput != []
    ensures Handshake(InNext(s, InTake))
    ensures s.toInput[0].SyncOn? ==> s.toInput[0].token == s.token
    ensures s.toInput[0].Plain? ==> s.active
  {
    assert s.synced;
    match s.toInput[0]
    case SyncOn(_) => HandshakeInputOn(s);
    case SyncOff => HandshakeInputOff(s);
    case Plain(_) => HandshakeInputTalk(s);
  }

  lemma HandshakeInputOn(s: T)
    requires Handshake(s) && s.life.inp == Looping && s.toInput != [] && s.synced
    requires s.toInput[0].SyncOn?
    ensures Handshake(InNext(s, InTake))
  {
    assert Talk(s.toInput) == Talk(s.toInput[1..]);
  }

  lemma HandshakeInputOff(s: T)
    requires Handshake(s) && s.life.inp == Looping && s.toInput != [] && s.synced
    requires s.toInput[0].SyncOff?
    ensures Handshake(InNext(s, InTake))
  {
    assert s.toInput[1..] == [] && Talk(s.toInput) == [];
  }

  lemma HandshakeInputTalk(s: T)
    requires Handshake(s) && s.life.inp == Looping && s.toInput != [] && s.synced
    requires s.toInput[0].Plain?
    ensures Handshake(InNext(s, InTake))
  {
    var p, rest := s.toInput[0].p, Talk(s.toInput[1..]);
    assert s.active;
    Regroup(s.wire, [p], rest);
    assert s.wire + [p] <= (s.wire + [p]) + rest;
  }

  lemma HandshakeOut(s: T, act: OutAction)
    requires Handshake(s)
    ensures Handshake(OutNext(s, act))
  {
    match act
    case OutSync(ok) =>
      if s.life.out == Starting {
        HandshakeOutSync(s, ok);
      }
    case OutPacket(p, ok) =>
      if s.life.out == Pumping {
        HandshakeOutPacket(s, p, ok);
      }
    case OutEof =>
      if s.life.out == Pumping {
        HandshakeOutEof(s);
      }
    case OutSyncOff(ok) =>
      if s.life.out == Ending {
        HandshakeOutSyncOff(s, ok);
      }
  }

  lemma HandshakeMain(s: T, act: MainAction)
    requires Handshake(s)
    ensures Handshake(MainNext(s, act))
  {
    match act
    case Take(replies) =>
      if s.toMain != [] {
        HandshakeTake(s, replies);
      }
    case Send(p) =>
      if s.online {
        HandshakeSay(s, p);
      }
  }

  lemma HandshakeIn(s: T, act: InAction)
    requires Handshake(s)
    ensures Handshake(InNext(s, act))
  {
    match act
    case InTake =>
      if s.life.inp == Looping && s.toInput != [] {
        HandshakeInput(s);
      }
    case InFail => HandshakeSame(s, InNext(s, act));
    case InSweep(clses) =>
      if s.life.inp == Sweeping && s.online {
        HandshakeSayAll(s, clses);
        HandshakeSame(SayAll(s, clses), InNext(s, act));
      } else {
        HandshakeSame(s, InNext(s, act));
      }
  }

  lemma HandshakeNext(s: T, act: Action)
    requires Handshake(s)
    ensures Handshake(Next(s, act))
  {
    match act
    case Out(o) => HandshakeOut(s, o);
    case Main(m) => HandshakeMain(s, m);
    case In(i) => HandshakeIn(s, i);
    case Shutdown(_) => HandshakeSame(s, Next(s, act));
  }

  lemma {:induction false} RunHandshake(host: bool, acts: seq<Action>)
    ensures Handshake(Run(host, acts))
  {
    if acts != [] {
      RunHandshake(host, acts[..|acts| - 1]);
      HandshakeNext(Run(host, acts[..|acts| - 1]), acts[|acts| - 1]);
    }
  }

  /**
   Over all interleavings: CNXN is the first message written; what is written is a
   prefix of what the main loop sent, and all of it if the input thread stopped on
   SYNC(0, 0); and the next packet of the input thread is never dropped for want of
   the matching SYNC.
   */
  lemma HandshakeSafety(host: bool, acts: seq<Action>)
    ensures var s := Run(host, acts);
            && (s.wire != [] ==> s.wire[0] == Cnxn && s.synced)
            && s.wire <= s.said
            && (s.ended ==> s.wire == s.said && s.shut)
            && (s.life.inp == Looping && s.toInput != [] ==>
                  match s.toInput[0]
                  case SyncOn(token) => token == s.token && !s.active
                  case SyncOff => |s.toInput| == 1
                  case _ => s.active)
  {
    RunHandshake(host, acts);
    var s := Run(host, acts);
    if s.life.inp == Looping && s.toInput != [] {
      HandshakeInput(s);
    }
  }

  // ----- what comes in

  /** The packet that a step of the output thread reads from the far end. */
  function HeardNow(s: T, act: Action): (r: seq<Packet>)
  {
    if act.Out? && act.o.OutPacket? && s.life.out == Pumping then [act.o.p] else []
  }

  /** The packet that a step of the main loop takes, SYNC aside. */
  function TakenNow(s: T, act: Action): (r: seq<Packet>)
  {
    if act.Main? && act.m.Take? && s.toMain != [] then Word(s.toMain[0]) else []
  }

  /** What a step of the main loop, or the sweep, has to say. */
  function SpokenNow(s: T, act: Action): (r: seq<Packet>)
  {
    match act
    case Main(Send(p)) => if s.online then [p] else []
    case Main(Take(replies)) =>
      if s.toMain == [] then []
      else if s.toMain[0].SyncOn? then if s.host then [Cnxn] else []
      else if s.toMain[0] == Plain(Cnxn) then if s.host then [] else [Cnxn]
      else if s.toMain[0].Plain? && s.online then replies else []
    case In(InSweep(clses)) => if s.life.inp == Sweeping && s.online then clses else []
    case _ => []
  }

  function Heard(host: bool, acts: seq<Action>): (r: seq<Packet>)
  {
    if acts == [] then []
    else
      var front := acts[..|acts| - 1];
      Heard(host, front) + HeardNow(Run(host, front), acts[|acts| - 1])
  }

  function TakenUp(host: bool, acts: seq<Action>): (r: seq<Packet>)
  {
    if acts == [] then []
    else
      var front := acts[..|acts| - 1];
      TakenUp(host, front) + TakenNow(Run(host, front), acts[|acts| - 1])
  }

  function Spoke(host: bool, acts: seq<Action>): (r: seq<Packet>)
  {
    if acts == [] then []
    else
      var front := acts[..|acts| - 1];
      Spoke(host, front) + SpokenNow(Run(host, front), acts[|acts| - 1])
  }

  /** Some packet was read but could not be handed to the main loop. */
  ghost predicate Dropped(host: bool, acts: seq<Action>)
  {
    exists i :: 0 <= i < |acts| && LostNow(Run(host, acts[..i]), acts[i]) != []
  }

  /** The packet that a step of the output thread fails to pass on. */
  function LostNow(s: T, act: Action): (r: seq<Packet>)
  {
    if HeardNow(s, act) != [] && !act.o.ok then HeardNow(s, act) else []
  }

  /** One step: what is read goes to the end of the channel unless the write fails; what is taken leaves its head. */
  lemma ChannelStep(s: T, act: Action)
    ensures TakenNow(s, act) + Talk(Next(s, act).toMain)
            == Talk(s.toMain) + (if LostNow(s, act) == [] then HeardNow(s, act) else [])
  {
    match act
    case Out(o) =>
      OutChannelStep(s, o);
    case Main(m) =>
      MainTakes(s, m);
      assert Talk(s.toMain) + [] == Talk(s.toMain);
    case In(i) =>
      InputKeeps(s, i);
      assert Talk(s.toMain) + [] == Talk(s.toMain);
    case Shutdown(_) =>
      assert Talk(s.toMain) + [] == Talk(s.toMain);
  }

  lemma InputKeeps(s: T, i: InAction)
    ensures InNext(s, i).toMain == s.toMain && InNext(s, i).life.out == s.life.out
  {
    match i
    case InTake =>
      if s.toInput != [] {
        InputStepKeeps(s.(toInput := s.toInput[1..]), s.toInput[0]);
      }
    case InFail =>
    case InSweep(clses) => assert SayAll(s, clses).toMain == s.toMain;
  }

  lemma InputStepKeeps(s: T, b: Body)
    ensures InputStep(s, b).toMain == s.toMain && InputStep(s, b).life.out == s.life.out
  {
  }

  lemma OutChannelStep(s: T, o: OutAction)
    ensures Talk(OutNext(s, o).toMain)
            == Talk(s.toMain) + (if LostNow(s, Out(o)) == [] then HeardNow(s, Out(o)) else [])
  {
    Unchanged(Talk(s.toMain));
    match o
    case OutSync(ok) => ToMainTalk(s.(token := s.token + 1), SyncOn(s.token + 1), ok, Pumping);
    case OutPacket(p, ok) => ToMainTalk(s, Plain(p), ok, Pumping);
    case OutEof =>
    case OutSyncOff(ok) => ToMainTalk(s, SyncOff, ok, OutKick(Test));
  }

  lemma Unchanged(ps: seq<Packet>)
    ensures ps + [] == ps
  {
  }

  lemma ToMainTalk(s: T, body: Body, ok: bool, pc: OutPc)
    ensures Talk(ToMain(s, body, ok, pc).toMain) == Talk(s.toMain) + if ok then Word(body) else []
  {
    TalkAppend(s.toMain, body);
    assert Talk(s.toMain) + [] == Talk(s.toMain);
  }

  predicate StillReads(pc: OutPc)
  {
    pc == Starting || pc == Pumping
  }

  /** A failed write ends the reading, and it does not start again. */
  lemma ReadingEnds(s: T, act: Action)
    ensures StillReads(Next(s, act).life.out) ==> StillReads(s.life.out) && LostNow(s, act) == []
  {
    match act
    case Out(_) =>
    case Main(m) => MainStays(s, m);
    case In(i) => InputKeeps(s, i);
    case Shutdown(_) =>
  }

  lemma MainTakes(s: T, m: MainAction)
    ensures MainNext(s, m).toMain == if m.Take? && s.toMain != [] then s.toMain[1..] else s.toMain
  {
    if m.Take? && s.toMain != [] {
      HandleKeepsMain(s.(toMain := s.toMain[1..]), s.toMain[0], m.replies);
    }
  }

  lemma HandleKeepsMain(s: T, b: Body, replies: seq<Packet>)
    ensures Handle(s, b, replies).toMain == s.toMain
  {
    match b
    case SyncOn(_) =>
    case SyncOff =>
    case Plain(p) => assert SayAll(s, replies).toMain == s.toMain;
  }

  /**
   The incoming direction, over all interleavings: what the main loop has taken, then
   what is on its way, are the packets read from the far end, in order; all of them
   unless a write to the main loop failed, and then all but the last.
   */
  lemma {:induction false} HeardInOrder(host: bool, acts: seq<Action>)
    ensures var s := Run(host, acts);
            var got := TakenUp(host, acts) + Talk(s.toMain);
            && got <= Heard(host, acts)
            && |Heard(host, acts)| <= |got| + 1
            && (StillReads(s.life.out) ==> got == Heard(host, acts))
            && (!Dropped(host, acts) ==> got == Heard(host, acts))
  {
    if acts != [] {
      var front, act := acts[..|acts| - 1], acts[|acts| - 1];
      var s := Run(host, front);
      HeardInOrder(host, front);
      ChannelStep(s, act);
      ReadingEnds(s, act);
      Regroup(TakenUp(host, front), TakenNow(s, act), Talk(Next(s, act).toMain));
      Regroup(TakenUp(host, front), Talk(s.toMain), if LostNow(s, act) == [] then HeardNow(s, act) else []);
      assert Heard(host, front) + [] == Heard(host, front);
      DroppedGrows(host, acts);
    }
  }

  lemma DroppedGrows(host: bool, acts: seq<Action>)
    requires acts != []
    ensures var front, act := acts[..|acts| - 1], acts[|acts| - 1];
            Dropped(host, acts) <==> Dropped(host, front) || LostNow(Run(host, front), act) != []
  {
    var front := acts[..|acts| - 1];
    assert forall i :: 0 <= i < |front| ==> front[..i] == acts[..i] && front[i] == acts[i];
    if Dropped(host, front) {
      var i :| 0 <= i < |front| && LostNow(Run(host, front[..i]), front[i]) != [];
      assert LostNow(Run(host, acts[..i]), acts[i]) != [];
    }
  }

  /** Everything there was to say was handed to send_packet, in order. */
  lemma {:induction false} SaidExactly(host: bool, acts: seq<Action>)
    ensures Run(host, acts).said == Spoke(host, acts)
  {
    if acts != [] {
      var front, act := acts[..|acts| - 1], acts[|acts| - 1];
      SaidExactly(host, front);
      SaidStep(Run(host, front), act);
    }
  }

  lemma {:induction false} SayAllSaid(s: T, ps: seq<Packet>)
    ensures SayAll(s, ps).said == s.said + ps
  {
    if ps != [] {
      SayAllSaid(s, ps[..|ps| - 1]);
      assert ps == ps[..|ps| - 1] + [ps[|ps| - 1]];
    }
  }

  lemma TakeSaid(s: T, replies: seq<Packet>)
    requires s.toMain != []
    ensures MainNext(s, Take(replies)).said == s.said + SpokenNow(s, Main(Take(replies)))
  {
    SayAllSaid(s.(toMain := s.toMain[1..]), replies);
    assert s.said + [] == s.said;
  }

  lemma SaidStep(s: T, act: Action)
    ensures Next(s, act).said == s.said + SpokenNow(s, act)
  {
    assert s.said + [] == s.said;
    match act
    case Out(o) => OutSaysNothing(s, o);
    case Main(m) =>
      if m.Take? && s.toMain != [] {
        TakeSaid(s, m.replies);
      }
    case In(i) => SweepSaid(s, i);
    case Shutdown(_) =>
  }

  lemma OutSaysNothing(s: T, o: OutAction)
    ensures OutNext(s, o).said == s.said
  {
    match o
    case OutSync(ok) =>
    case OutPacket(p, ok) =>
    case OutEof =>
    case OutSyncOff(ok) =>
  }

  lemma SweepSaid(s: T, i: InAction)
    ensures InNext(s, i).said == s.said + SpokenNow(s, In(i))
  {
    assert s.said + [] == s.said;
    if i.InSweep? {
      SayAllSaid(s, i.clses);
    }
  }

  // ----- the shutdown completes

  /** The last four steps of each thread, from its kick on. */
  function OutWinds(l: Life): (r: Life)
  {
    LifeNext(LifeNext(LifeNext(LifeNext(l, OutKickStep), OutKickStep), OutKickStep), OutUnrefStep)
  }

  function InWinds(l: Life): (r: Life)
  {
    LifeNext(LifeNext(LifeNext(LifeNext(l, InKickStep), InKickStep), InKickStep), InUnrefStep)
  }

  lemma OutWindsUp(l: Life)
    requires Orderly(l) && PastEnd(l.out)
    ensures OutWinds(l).out == OutDone && OutWinds(l).inp == l.inp && Orderly(OutWinds(l))
    ensures OutWinds(l).other == l.other
  {
    var l1 := LifeNext(l, OutKickStep);
    OrderlyLife(l, OutKickStep);
    var l2 := LifeNext(l1, OutKickStep);
    OrderlyLife(l1, OutKickStep);
    OrderlyLife(l2, OutKickStep);
    OrderlyLife(LifeNext(l2, OutKickStep), OutUnrefStep);
  }

  lemma InWindsUp(l: Life)
    requires Orderly(l) && (l.inp.InKick? || l.inp == InUnref || l.inp == InDone)
    ensures InWinds(l).inp == InDone && InWinds(l).out == l.out && Orderly(InWinds(l))
    ensures InWinds(l).other == l.other
  {
    var l1 := LifeNext(l, InKickStep);
    OrderlyLife(l, InKickStep);
    var l2 := LifeNext(l1, InKickStep);
    OrderlyLife(l1, InKickStep);
    OrderlyLife(l2, InKickStep);
    OrderlyLife(LifeNext(l2, InKickStep), InUnrefStep);
  }

  /** After every run: once both threads have left their loops, their own last steps get the removal posted. */
  lemma ShutdownCompletes(host: bool, acts: seq<Action>)
    ensures var l := Run(host, acts).life;
            PastEnd(l.out) && (l.inp.InKick? || l.inp == InUnref || l.inp == InDone) ==>
              var l1 := InWinds(OutWinds(l));
              l1.posts == 1 && l1.refs == 0 && l1.kicked && (l.other != Fire ==> l1.kicks == 1)
  {
    RunOrderly(host, acts);
    var l := Run(host, acts).life;
    if PastEnd(l.out) && (l.inp.InKick? || l.inp == InUnref || l.inp == InDone) {
      OutWindsUp(l);
      InWindsUp(OutWinds(l));
    }
  }
}
