/**
 One stream in isolation: a socket at each end and the packets of this stream
 in flight each way.  The moves are what the left socket can do; Mirror gives
 those of the right one.  `Flow` (who may send) and `Order` (which bytes are
 where) are the invariants of this protocol.
 */
module Streams {
  import opened Basics
  import opened Endpoints

  /** Sockets x (id a) and y (id b), packets p from x to y and q from y to x. */
  datatype Stream = Stream(x: Socket, y: Socket, p: seq<Packet>, q: seq<Packet>,
                           a: Id, b: Id, xOn: bool, yOn: bool)

  function Mirror(v: Stream): (r: Stream)
  {
    Stream(v.y, v.x, v.q, v.p, v.b, v.a, v.yOn, v.xOn)
  }

  // ----- moves of x

  datatype Move =
    | Send(data: Bytes)                    // FDE_READ: one WRTE
    | Shut(isCut: bool)                    // x closes on its own account
    | Leave                                // x closes before it has a peer: no CLSE
    | Push(k: nat)                         // FDE_WRITE: k bytes, then the fd blocks
    | Empty                                // FDE_WRITE: everything
    | Finish(k: nat, isCut: bool)          // a closing socket is freed
    | Take(k: nat, fail: bool)             // the first packet of q is handled
    | Lose                                 // the transport of x goes offline
    | Forget(n: nat)                       // only n of x's packets still arrive
    | Collect                              // close_all_sockets at x

  ghost predicate Enabled(v: Stream, m: Move)
  {
    var x := v.x;
    match m
    case Send(_) => x.stage == Live && x.reading
    case Shut(_) => x.stage == Live && x.peer == Some(v.b)
    case Leave => x.stage == Live && x.peer == None
    case Push(k) => x.stage != Gone && k < |Flat(x.queue)|
    case Empty => x.stage == Live && x.queue != []
    case Finish(k, isCut) =>
      x.stage == Draining && k <= |Flat(x.queue)| && (isCut || k == |Flat(x.queue)|)
    case Take(k, _) =>
      && v.q != []
      && (v.q[0].Wrte? ==> k <= |v.q[0].data|)
    case Lose => true
    case Forget(n) => !v.xOn && n <= |v.p|
    case Collect => !v.xOn && x.stage == Live
  }

  /** x after a WRTE of which its fd took k bytes, and its answer. */
  function TakeWrte(v: Stream, data: Bytes, k: nat, fail: bool): (r: Stream)
    requires k <= |data|
  {
    var x1 := v.x.(wrote := v.x.wrote + data[..k]);
    if k == |data| then v.(x := x1, p := v.p + [Okay(v.a, v.b)])
    else if fail then v.(x := Retired(x1.(cut := true)), p := v.p + [Clse(0, v.b)])
    else v.(x := x1.(queue := [data[k..]], writing := true))
  }

  function Step(v: Stream, m: Move): (r: Stream)
    requires Enabled(v, m)
  {
    var x := v.x;
    match m
    case Send(data) =>
      v.(x := x.(reading := false, sent := x.sent + data), p := v.p + [Wrte(v.a, v.b, data)])
    case Shut(isCut) =>
      v.(x := Retired(x.(cut := x.cut || isCut)), p := v.p + [Clse(0, v.b)])
    case Leave => v.(x := Retired(x))
    case Push(k) => v.(x := Written(x, k))
    case Empty =>
      v.(x := Written(x, |Flat(x.queue)|).(writing := false), p := v.p + [Okay(v.a, v.b)])
    case Finish(k, isCut) => v.(x := Destroyed(x, k, isCut))
    case Take(k, fail) =>
      var v1 := v.(q := v.q[1..]);
      if x.stage != Live || !v.xOn then v1
      else
        (match v.q[0]
         case Okay(_, _) => v1.(x := x.(peer := Some(v.b), reading := true, bound := true))
         case Clse(_, _) => v1.(x := Retired(x.(byPeer := true)), p := v.p + [Clse(0, v.b)])
         case Wrte(_, _, data) => TakeWrte(v1, data, k, fail)
         case _ => v1)
    case Lose =>
      v.(x := if x.stage == Live && x.peer != None then Retired(x) else x, xOn := false)
    case Forget(n) => v.(p := v.p[..n])
    case Collect => v.(x := Retired(x))
  }

  // ----- packets of one stream in flight

  function Writes(p: seq<Packet>): (r: nat)
  {
    if p == [] then 0 else Flag(p[0].Wrte?) + Writes(p[1..])
  }

  function Readies(p: seq<Packet>): (r: nat)
  {
    if p == [] then 0 else Flag(p[0].Okay?) + Readies(p[1..])
  }

  function Payload(p: seq<Packet>): (r: Bytes)
  {
    if p == [] then [] else (if p[0].Wrte? then p[0].data else []) + Payload(p[1..])
  }

  predicate HasClse(p: seq<Packet>)
  {
    p != [] && p[|p| - 1].Clse?
  }

  lemma {:induction false} TallyAppend(p: seq<Packet>, k: Packet)
    ensures Writes(p + [k]) == Writes(p) + Flag(k.Wrte?)
    ensures Readies(p + [k]) == Readies(p) + Flag(k.Okay?)
    ensures Payload(p + [k]) == Payload(p) + if k.Wrte? then k.data else []
    ensures HasClse(p + [k]) == k.Clse?
  {
    if p == [] {
      assert [k][1..] == [];
    } else {
      assert (p + [k])[1..] == p[1..] + [k];
      TallyAppend(p[1..], k);
    }
  }

  lemma {:induction false} TallyPrefix(p: seq<Packet>, n: nat)
    requires n <= |p|
    ensures Writes(p[..n]) <= Writes(p)
    ensures Readies(p[..n]) <= Readies(p)
    ensures Payload(p[..n]) <= Payload(p)
  {
    if n != 0 {
      assert p[..n][1..] == p[1..][..n - 1];
      TallyPrefix(p[1..], n - 1);
    }
  }

  // ----- flow control and closing

  /** Packets from socket a to socket b; a CLSE is the last one. */
  ghost predicate Shape(p: seq<Packet>, a: Id, b: Id)
  {
    p == [] ||
    (&& Shape(p[1..], a, b)
     && match p[0]
        case Okay(l, r) => l == a && r == b
        case Wrte(l, r, _) => l == a && r == b
        case Clse(l, r) => l == 0 && r == b && |p| == 1
        case _ => false)
  }

  lemma {:induction false} ShapeAppend(p: seq<Packet>, k: Packet, a: Id, b: Id)
    requires Shape(p, a, b) && !HasClse(p) && Shape([k], a, b)
    ensures Shape(p + [k], a, b)
  {
    if p != [] {
      assert (p + [k])[1..] == p[1..] + [k];
      ShapeAppend(p[1..], k, a, b);
    } else {
      assert p + [k] == [k];
    }
  }

  lemma {:induction false} ShapePrefix(p: seq<Packet>, n: nat, a: Id, b: Id)
    requires Shape(p, a, b) && n <= |p|
    ensures Shape(p[..n], a, b)
    ensures HasClse(p[..n]) ==> p[..n] == p
  {
    if n != 0 {
      assert p[..n][1..] == p[1..][..n - 1];
      ShapePrefix(p[1..], n - 1, a, b);
    }
  }

  /** Who may let x send the next WRTE: x itself, a WRTE, y's queue, or an OKAY. */
  ghost function Credit(v: Stream): (r: nat)
  {
    Flag(v.x.stage == Live && v.x.reading) + Writes(v.p)
    + Flag(v.y.stage == Live && v.y.queue != []) + Readies(v.q)
  }

  /** A live socket without a peer is still waiting for the OKAY of its OPEN. */
  ghost predicate Bound(v: Stream)
  {
    if v.x.peer == None then
      && !v.x.bound && v.x.queue == [] && !v.x.reading
      && (v.xOn && v.yOn ==> v.q != [])
      && (v.xOn && v.q != [] ==> v.q[0] == Okay(v.b, v.a))
    else v.x.bound && v.x.peer == Some(v.b) && v.xOn
  }

  ghost predicate HalfFlow(v: Stream)
  {
    && Shape(v.p, v.a, v.b)
    && (HasClse(v.p) ==> v.x.stage != Live)
    && |v.x.queue| <= 1
    && (v.x.stage == Live ==>
          (v.x.writing <==> v.x.queue != []) && !v.x.byPeer && !v.x.cut && Bound(v))
    && Credit(v) <= 1
    && (v.x.stage == Live && v.y.stage == Live && v.xOn && v.yOn ==> Credit(v) == 1)
    && (v.y.byPeer ==> v.x.stage != Live && v.x.bound)
    && (!v.x.bound ==> v.p == [] && v.x.sent == [])
    && (v.x.bound && v.x.stage != Live && v.y.stage == Live && v.xOn && v.yOn ==> HasClse(v.p))
  }

  ghost predicate Flow(v: Stream)
  {
    HalfFlow(v) && HalfFlow(Mirror(v))
  }

  lemma FlowTakeOkay(v: Stream, k: nat, fail: bool)
    requires Flow(v) && v.q != [] && v.q[0].Okay? && v.x.stage == Live && v.xOn
    ensures Flow(Step(v, Take(k, fail)))
  {
  }

  lemma FlowTakeClse(v: Stream, k: nat, fail: bool)
    requires Flow(v) && v.q != [] && v.q[0].Clse? && v.x.stage == Live && v.xOn
    ensures v.x.peer == Some(v.b)
    ensures Flow(Step(v, Take(k, fail)))
  {
    TallyAppend(v.p, Clse(0, v.b));
    ShapeAppend(v.p, Clse(0, v.b), v.a, v.b);
  }

  /** A WRTE finds an empty queue at its receiver. */
  lemma FlowWrteFits(v: Stream)
    requires Flow(v) && v.q != [] && v.q[0].Wrte? && v.x.stage == Live && v.xOn
    ensures v.q[0].local == v.b && v.x.queue == [] && v.x.peer == Some(v.b)
  {
  }

  /** The fd took the whole payload: an OKAY goes back. */
  lemma FlowAnswer(v: Stream, k: nat, fail: bool)
    requires Flow(v) && v.q != [] && v.q[0].Wrte? && v.x.stage == Live && v.xOn
    requires k <= |v.q[0].data| && k == |v.q[0].data|
    ensures Flow(Step(v, Take(k, fail)))
  {
    FlowWrteFits(v);
    TallyAppend(v.p, Okay(v.a, v.b));
    ShapeAppend(v.p, Okay(v.a, v.b), v.a, v.b);
  }

  /** The fd failed: the socket closes. */
  lemma FlowCut(v: Stream, k: nat, fail: bool)
    requires Flow(v) && v.q != [] && v.q[0].Wrte? && v.x.stage == Live && v.xOn
    requires k <= |v.q[0].data| && k < |v.q[0].data| && fail
    ensures Flow(Step(v, Take(k, fail)))
  {
    FlowWrteFits(v);
    TallyAppend(v.p, Clse(0, v.b));
    ShapeAppend(v.p, Clse(0, v.b), v.a, v.b);
  }

  /** The fd blocked: the rest is queued. */
  lemma FlowBacklog(v: Stream, k: nat, fail: bool)
    requires Flow(v) && v.q != [] && v.q[0].Wrte? && v.x.stage == Live && v.xOn
    requires k <= |v.q[0].data| && k < |v.q[0].data| && !fail
    ensures Flow(Step(v, Take(k, fail)))
  {
  }

  lemma FlowIgnore(v: Stream, k: nat, fail: bool)
    requires Flow(v) && Enabled(v, Take(k, fail)) && (v.x.stage != Live || !v.xOn)
    ensures Flow(Step(v, Take(k, fail)))
  {
  }

  lemma FlowSend(v: Stream, data: Bytes)
    requires Flow(v) && Enabled(v, Send(data))
    ensures Flow(Step(v, Send(data)))
  {
    TallyAppend(v.p, Wrte(v.a, v.b, data));
    ShapeAppend(v.p, Wrte(v.a, v.b, data), v.a, v.b);
  }

  lemma FlowShut(v: Stream, isCut: bool)
    requires Flow(v) && Enabled(v, Shut(isCut))
    ensures Flow(Step(v, Shut(isCut)))
  {
    TallyAppend(v.p, Clse(0, v.b));
    ShapeAppend(v.p, Clse(0, v.b), v.a, v.b);
  }

  lemma FlowEmpty(v: Stream)
    requires Flow(v) && Enabled(v, Empty)
    ensures v.x.peer == Some(v.b)
    ensures Flow(Step(v, Empty))
  {
    TallyAppend(v.p, Okay(v.a, v.b));
    ShapeAppend(v.p, Okay(v.a, v.b), v.a, v.b);
    DrainDropsPrefix(v.x.queue, |Flat(v.x.queue)|);
  }

  lemma FlowPush(v: Stream, k: nat)
    requires Flow(v) && Enabled(v, Push(k))
    ensures Flow(Step(v, Push(k)))
  {
    DrainDropsPrefix(v.x.queue, k);
  }

  lemma FlowForget(v: Stream, n: nat)
    requires Flow(v) && Enabled(v, Forget(n))
    ensures Flow(Step(v, Forget(n)))
  {
    TallyPrefix(v.p, n);
    ShapePrefix(v.p, n, v.a, v.b);
  }

  lemma FlowLose(v: Stream)
    requires Flow(v)
    ensures Flow(Step(v, Lose))
  {
  }

  /** x goes away without a packet. */
  lemma FlowGone(v: Stream, m: Move)
    requires Flow(v) && Enabled(v, m) && (m.Leave? || m.Finish? || m.Collect?)
    ensures Flow(Step(v, m))
  {
  }

  /** Flow control survives every move. */
  lemma FlowStep(v: Stream, m: Move)
    requires Flow(v) && Enabled(v, m)
    ensures Flow(Step(v, m))
  {
    match m
    case Send(data) => FlowSend(v, data);
    case Shut(isCut) => FlowShut(v, isCut);
    case Empty => FlowEmpty(v);
    case Take(k, fail) =>
      if v.x.stage != Live || !v.xOn {
        FlowIgnore(v, k, fail);
      } else if v.q[0].Okay? {
        FlowTakeOkay(v, k, fail);
      } else if v.q[0].Clse? {
        FlowTakeClse(v, k, fail);
      } else if k == |v.q[0].data| {
        FlowAnswer(v, k, fail);
      } else if fail {
        FlowCut(v, k, fail);
      } else {
        FlowBacklog(v, k, fail);
      }
    case Push(k) => FlowPush(v, k);
    case Forget(n) => FlowForget(v, n);
    case Lose => FlowLose(v);
    case _ => FlowGone(v, m);
  }

  // ----- the bytes of one direction

  /**
   y against the bytes sent to it, of which pay is in flight.  on: y still takes
   packets; exact: none of the sent bytes was lost with the sender's transport.
   */
  ghost predicate Ledger(y: Socket, sent: Bytes, pay: Bytes, on: bool, exact: bool)
  {
    var got := y.wrote + Flat(y.queue);
    match y.stage
    case Live =>
      && got <= sent
      && (on ==> got + pay <= sent)
      && (on && exact ==> got + pay == sent)
    case Draining => got <= sent && (y.byPeer ==> got == sent)
    case Gone => y.wrote <= sent && (y.byPeer && !y.cut ==> y.wrote == sent)
  }

  ghost predicate Ordered(v: Stream)
  {
    Ledger(v.y, v.x.sent, Payload(v.p), v.yOn, v.xOn || HasClse(v.p))
  }

  ghost predicate Order(v: Stream)
  {
    Ordered(v) && Ordered(Mirror(v))
  }

  lemma LedgerSend(y: Socket, sent: Bytes, pay: Bytes, on: bool, data: Bytes)
    requires Ledger(y, sent, pay, on, true) && !y.byPeer
    ensures Ledger(y, sent + data, pay + data, on, true)
  {
  }

  lemma LedgerLose(y: Socket, sent: Bytes, pay: Bytes, rest: Bytes, on: bool, exact: bool, exact1: bool)
    requires Ledger(y, sent, pay, on, exact) && rest <= pay
    requires exact1 ==> exact && rest == pay
    ensures Ledger(y, sent, rest, on, exact1)
  {
  }

  lemma LedgerWritten(y: Socket, sent: Bytes, pay: Bytes, on: bool, exact: bool, k: nat)
    requires Ledger(y, sent, pay, on, exact) && k <= |Flat(y.queue)| && y.stage != Gone
    ensures Ledger(Written(y, k), sent, pay, on, exact)
  {
    DrainDropsPrefix(y.queue, k);
    assert Written(y, k).wrote + Flat(Written(y, k).queue) == y.wrote + Flat(y.queue);
  }

  lemma LedgerDestroyed(y: Socket, sent: Bytes, pay: Bytes, on: bool, exact: bool, k: nat, isCut: bool)
    requires Ledger(y, sent, pay, on, exact) && y.stage == Draining
    requires k <= |Flat(y.queue)| && (isCut || k == |Flat(y.queue)|)
    ensures Ledger(Destroyed(y, k, isCut), sent, pay, on, exact)
  {
  }

  lemma LedgerRetired(y: Socket, sent: Bytes, pay: Bytes, on: bool, exact: bool, rest: Bytes)
    requires Ledger(y, sent, pay, on, exact) && y.stage == Live
    requires y.byPeer ==> on && exact && pay == []
    ensures Ledger(Retired(y), sent, rest, on, exact)
  {
  }

  lemma LedgerTake(y: Socket, sent: Bytes, data: Bytes, rest: Bytes, on: bool, exact: bool, k: nat)
    requires Ledger(y, sent, data + rest, on, exact) && y.stage == Live && on && y.queue == []
    requires k <= |data|
    ensures var y1 := y.(wrote := y.wrote + data[..k]);
            && Ledger(y1.(queue := [data[k..]], writing := true), sent, rest, on, exact)
            && (k == |data| ==> Ledger(y1, sent, rest, on, exact))
            && (!y.byPeer ==> Ledger(Retired(y1.(cut := true)), sent, rest, on, exact))
  {
  }

  // Outgoing bytes: x's own moves extend x.sent and p alike.

  lemma OutSend(v: Stream, data: Bytes)
    requires Ordered(v) && v.xOn && !v.y.byPeer && Enabled(v, Send(data))
    ensures Ordered(Step(v, Send(data)))
  {
    TallyAppend(v.p, Wrte(v.a, v.b, data));
    LedgerSend(v.y, v.x.sent, Payload(v.p), v.yOn, data);
  }

  lemma OutEmit(v: Stream, v1: Stream, k: Packet)
    requires Ordered(v) && v.xOn && !k.Wrte?
    requires v1 == v.(x := v1.x, p := v.p + [k], q := v1.q) && v1.x.sent == v.x.sent
    ensures Ordered(v1)
  {
    TallyAppend(v.p, k);
    assert Payload(v1.p) == Payload(v.p);
  }

  lemma OutKeep(v: Stream, v1: Stream)
    requires Ordered(v)
    requires v1 == v.(x := v1.x, q := v1.q, xOn := v1.xOn) && v1.x.sent == v.x.sent
    requires v1.xOn ==> v.xOn
    ensures Ordered(v1)
  {
  }

  lemma OutForget(v: Stream, n: nat)
    requires Ordered(v) && Shape(v.p, v.a, v.b) && Enabled(v, Forget(n))
    ensures Ordered(Step(v, Forget(n)))
  {
    TallyPrefix(v.p, n);
    ShapePrefix(v.p, n, v.a, v.b);
    LedgerLose(v.y, v.x.sent, Payload(v.p), Payload(v.p[..n]), v.yOn, HasClse(v.p), HasClse(v.p[..n]));
  }

  lemma OrderedOut(v: Stream, m: Move)
    requires Flow(v) && Ordered(v) && Enabled(v, m)
    ensures Ordered(Step(v, m))
  {
    var v1 := Step(v, m);
    match m
    case Send(data) => OutSend(v, data);
    case Shut(_) => OutEmit(v, v1, Clse(0, v.b));
    case Empty => OutEmit(v, v1, Okay(v.a, v.b));
    case Take(k, fail) =>
      if v1.p == v.p {
        OutKeep(v, v1);
      } else {
        OutEmit(v, v1, if v.q[0].Wrte? && k == |v.q[0].data| then Okay(v.a, v.b) else Clse(0, v.b));
      }
    case Forget(n) => OutForget(v, n);
    case _ => OutKeep(v, v1);
  }

  // Incoming bytes: what x takes from q it writes or queues, in order.

  lemma InRetire(v: Stream, x1: Socket, on: bool)
    requires Ordered(Mirror(v)) && v.x.stage == Live && !v.x.byPeer
    requires x1 == Retired(v.x) || x1 == Retired(v.x.(cut := true))
    requires on ==> v.xOn
    ensures Ledger(x1, v.y.sent, Payload(v.q), on, v.yOn || HasClse(v.q))
  {
  }

  lemma InWrite(v: Stream, m: Move)
    requires Ordered(Mirror(v)) && Enabled(v, m) && (m.Push? || m.Empty? || m.Finish?)
    ensures Ordered(Mirror(Step(v, m)))
  {
    var pay, exact := Payload(v.q), v.yOn || HasClse(v.q);
    if m.Finish? {
      LedgerDestroyed(v.x, v.y.sent, pay, v.xOn, exact, m.k, m.isCut);
    } else {
      LedgerWritten(v.x, v.y.sent, pay, v.xOn, exact, if m.Push? then m.k else |Flat(v.x.queue)|);
    }
  }

  lemma InOwn(v: Stream, m: Move)
    requires Ordered(Mirror(v)) && Enabled(v, m) && !m.Take?
    requires v.x.stage == Live ==> !v.x.byPeer && !v.x.cut
    ensures Ordered(Mirror(Step(v, m)))
  {
    var v1 := Step(v, m);
    match m
    case Push(_) => InWrite(v, m);
    case Empty => InWrite(v, m);
    case Finish(_, _) => InWrite(v, m);
    case Shut(_) => InRetire(v, v1.x, v1.xOn);
    case Leave => InRetire(v, v1.x, v1.xOn);
    case Collect => InRetire(v, v1.x, v1.xOn);
    case Lose =>
      if v1.x != v.x {
        InRetire(v, v1.x, v1.xOn);
      }
    case _ =>
  }

  lemma InIgnore(v: Stream, k: nat, fail: bool)
    requires Ordered(Mirror(v)) && Enabled(v, Take(k, fail))
    requires v.x.stage != Live || !v.xOn
    ensures Ordered(Mirror(Step(v, Take(k, fail))))
  {
  }

  lemma InOkay(v: Stream, k: nat, fail: bool)
    requires Ordered(Mirror(v)) && v.q != [] && v.q[0].Okay?
    requires HasClse(v.q[1..]) == HasClse(v.q)
    ensures Ordered(Mirror(Step(v, Take(k, fail))))
  {
    assert Payload(v.q) == Payload(v.q[1..]);
  }

  lemma InWrte(v: Stream, k: nat, fail: bool)
    requires Ordered(Mirror(v)) && Enabled(v, Take(k, fail)) && v.q[0].Wrte?
    requires v.x.stage == Live && v.xOn && !v.x.byPeer && v.x.queue == []
    requires HasClse(v.q[1..]) == HasClse(v.q)
    ensures Ordered(Mirror(Step(v, Take(k, fail))))
  {
    LedgerTake(v.x, v.y.sent, v.q[0].data, Payload(v.q[1..]), v.xOn, v.yOn || HasClse(v.q), k);
  }

  lemma InClse(v: Stream, k: nat, fail: bool)
    requires Ordered(Mirror(v)) && v.q != [] && v.q[0].Clse? && |v.q| == 1
    requires v.x.stage == Live && v.xOn && !v.x.byPeer
    ensures Ordered(Mirror(Step(v, Take(k, fail))))
  {
    assert Payload(v.q) == [];
    assert Ledger(v.x.(byPeer := true), v.y.sent, [], v.xOn, true);
    LedgerRetired(v.x.(byPeer := true), v.y.sent, [], v.xOn, true, []);
  }

  lemma OrderedIn(v: Stream, m: Move)
    requires Flow(v) && Ordered(Mirror(v)) && Enabled(v, m)
    ensures Ordered(Mirror(Step(v, m)))
  {
    match m
    case Take(k, fail) =>
      if v.x.stage != Live || !v.xOn {
        InIgnore(v, k, fail);
      } else if v.q[0].Wrte? {
        FlowWrteFits(v);
        InWrte(v, k, fail);
      } else if v.q[0].Clse? {
        InClse(v, k, fail);
      } else {
        InOkay(v, k, fail);
      }
    case _ => InOwn(v, m);
  }

  /** The bytes stay in order through every move. */
  lemma OrderStep(v: Stream, m: Move)
    requires Flow(v) && Order(v) && Enabled(v, m)
    ensures Order(Step(v, m))
  {
    OrderedOut(v, m);
    OrderedIn(v, m);
  }

  // ----- runs of one stream

  ghost predicate Good(v: Stream)
  {
    Flow(v) && Order(v)
  }

  /** v becomes v1 by the moves ms, each enabled when it is made. */
  ghost predicate Moves(v: Stream, ms: seq<Move>, v1: Stream)
    decreases |ms|
  {
    if ms == [] then v1 == v
    else Enabled(v, ms[0]) && Moves(Step(v, ms[0]), ms[1..], v1)
  }

  lemma OneMove(v: Stream, m: Move)
    requires Enabled(v, m)
    ensures Moves(v, [m], Step(v, m))
  {
  }

  lemma TwoMoves(v: Stream, m: Move, m1: Move)
    requires Enabled(v, m) && Enabled(Step(v, m), m1)
    ensures Moves(v, [m, m1], Step(Step(v, m), m1))
  {
  }

  lemma {:induction false} GoodMoves(v: Stream, ms: seq<Move>, v1: Stream)
    requires Good(v) && Moves(v, ms, v1)
    ensures Good(v1)
    decreases |ms|
  {
    if ms != [] {
      FlowStep(v, ms[0]);
      OrderStep(v, ms[0]);
      GoodMoves(Step(v, ms[0]), ms[1..], v1);
    }
  }

  lemma GoodMirror(v: Stream)
    requires Good(v)
    ensures Good(Mirror(v)) && Mirror(Mirror(v)) == v
  {
  }

  /** A freshly accepted stream: x asked for it, y has just answered OKAY. */
  lemma GoodAccepted(x: Socket, a: Id, b: Id, xOn: bool)
    requires x == Fresh(None, false) || x == Fresh(None, false).(stage := Gone)
    ensures Good(Stream(x, Fresh(Some(a), true), [], [Okay(b, a)], a, b, xOn, true))
  {
    TallyAppend([], Okay(b, a));
    assert [] + [Okay(b, a)] == [Okay(b, a)];
  }

  // ----- the handlers are moves

  /** v after x answered with r. */
  function Answered(v: Stream, r: Reply): (v1: Stream)
  {
    v.(x := r.sock, p := v.p + r.out)
  }

  lemma ReadIsMoves(v: Stream, data: Bytes, eof: bool) returns (ms: seq<Move>)
    requires v.x.stage == Live && v.x.reading && v.x.peer == Some(v.b)
    ensures Moves(v, ms, Answered(v, OnRead(v.x, v.a, data, eof)))
  {
    if data == [] && !eof {
      ms := [];
      assert v.p + [] == v.p;
    } else if data == [] {
      ms := [Shut(false)];
      OneMove(v, Shut(false));
    } else if !eof {
      ms := [Send(data)];
      OneMove(v, Send(data));
    } else {
      ms := [Send(data), Shut(false)];
      var w, c := Wrte(v.a, v.b, data), Clse(0, v.b);
      assert v.p + ([w] + [c]) == v.p + [w] + [c];
      TwoMoves(v, Send(data), Shut(false));
    }
  }

  /** Packet w if there is data, then packet c if the file has ended. */
  lemma OneOrTwo(w: Packet, c: Packet, some: bool, eof: bool, out: seq<Packet>)
    requires w.Wrte? && c.Clse? && out == (if some then [w] else []) + (if eof then [c] else [])
    ensures Payload(out) == (if some then w.data else []) && Writes(out) == Flag(some) && Readies(out) == 0
    ensures |out| == Flag(some) + Flag(eof) && (eof <==> HasClse(out))
  {
    TallyAppend([], w);
    TallyAppend([], c);
    TallyAppend([w], c);
    assert [] + [w] == [w] && [] + [c] == [c];
  }

  /**
   A read event on a bound socket sends every byte the fd delivered, in one WRTE and
   before anything else; then a CLSE exactly if the file has ended.
   */
  lemma ReadExactly(s: Socket, x: Id, data: Bytes, eof: bool)
    requires s.stage == Live && s.peer != None
    ensures var r := OnRead(s, x, data, eof);
            && Payload(r.out) == data && Writes(r.out) == Flag(data != []) && Readies(r.out) == 0
            && |r.out| == Flag(data != []) + Flag(eof)
            && (eof <==> HasClse(r.out)) && (eof <==> r.sock.stage != Live)
            && r.sock.queue == s.queue && r.sock.wrote == s.wrote
            && (!eof ==> r.sock.reading == (s.reading && data == []))
  {
    var y := s.peer.value;
    OneOrTwo(Wrte(x, y, data), Clse(0, y), data != [], eof, OnRead(s, x, data, eof).out);
  }

  /**
   A WRTE, exactly: behind a backlog it is queued; else a live socket answers OKAY if
   and only if its fd takes the whole payload, closes with CLSE if and only if a write
   fails before that, and otherwise keeps the rest without an answer.
   */
  lemma DataExactly(s: Socket, x: Id, from: Id, data: Bytes, n: nat, fail: bool)
    requires s.stage == Live && s.peer != None
    ensures var r := OnData(s, x, from, data, n, fail);
            var whole, broken := s.queue == [] && n >= |data|, s.queue == [] && n < |data| && fail;
            && r.out == (if whole then [Okay(x, from)] else if broken then [Clse(0, s.peer.value)] else [])
            && (r.sock.stage == Live <==> !broken) && (broken ==> r.sock.stage == Gone && r.sock.cut)
            && (!whole && !broken ==> r.sock.writing && r.sock.queue != [])
            && r.sock.sent == s.sent
  {
  }

  /**
   FDE_WRITE, exactly: a live socket answers OKAY if and only if its queue is drained,
   closes with CLSE if and only if a write fails before that; a closing one is freed
   in either case.
   */
  lemma DrainExactly(s: Socket, x: Id, n: nat, fail: bool)
    requires s.stage == Live && s.peer != None
    ensures var r, left := OnWrite(s, x, n, fail), n < |Flat(s.queue)|;
            && r.out == (if !left then [Okay(x, s.peer.value)] else if fail then [Clse(0, s.peer.value)] else [])
            && (r.sock.stage == Live <==> !(left && fail)) && (left <==> r.sock.queue != [])
            && (r.sock.stage != Live ==> r.sock.stage == Draining && r.sock.cut)
            && (!left ==> !r.sock.writing) && r.sock.sent == s.sent
  {
    DrainDropsPrefix(s.queue, Min(n, |Flat(s.queue)|));
  }

  lemma FlushExactly(s: Socket, n: nat, fail: bool)
    requires s.stage == Draining
    ensures var t, left := OnFlush(s, n, fail), n < |Flat(s.queue)|;
            && (t.stage == Gone <==> !left || fail) && (t.stage == Gone ==> t.queue == [])
            && (t.stage != Gone ==> t.stage == Draining && t.queue != [] && t.cut == s.cut)
            && (t.stage == Gone ==> t.cut == (s.cut || (left && fail)))
  {
    DrainDropsPrefix(s.queue, Min(n, |Flat(s.queue)|));
  }

  lemma GiveUpIsMoves(v: Stream) returns (ms: seq<Move>)
    requires v.x.stage == Live && (v.x.peer == None || v.x.peer == Some(v.b))
    ensures Moves(v, ms, Answered(v, OnClose(v.x)))
  {
    var m := if v.x.peer == None then Leave else Shut(false);
    ms := [m];
    assert v.p + [] == v.p;
    OneMove(v, m);
  }

  lemma WriteIsMoves(v: Stream, n: nat, fail: bool) returns (ms: seq<Move>)
    requires v.x.stage == Live && v.x.queue != [] && v.x.peer == Some(v.b)
    ensures Moves(v, ms, Answered(v, OnWrite(v.x, v.a, n, fail)))
  {
    var all := Flat(v.x.queue);
    var k := Min(n, |all|);
    if k == |all| {
      ms := [Empty];
      OneMove(v, Empty);
    } else if !fail {
      ms := [Push(k)];
      assert v.p + [] == v.p;
      OneMove(v, Push(k));
    } else {
      ms := [Push(k), Shut(true)];
      TwoMoves(v, Push(k), Shut(true));
    }
  }

  lemma FlushIsMoves(v: Stream, n: nat, fail: bool) returns (ms: seq<Move>)
    requires v.x.stage == Draining
    ensures Moves(v, ms, v.(x := OnFlush(v.x, n, fail)))
  {
    var all := Flat(v.x.queue);
    var k := Min(n, |all|);
    var m := if k == |all| then Finish(k, false) else if fail then Finish(k, true) else Push(k);
    ms := [m];
    OneMove(v, m);
  }

  /** x after handling the first packet of q as HandlePacket does. */
  function Handled(v: Stream, n: nat, fail: bool): (r: Reply)
    requires v.q != []
  {
    if v.x.stage != Live || !v.xOn then Reply(v.x, [])
    else
      match v.q[0]
      case Okay(l, _) =>
        Reply(if v.x.peer == None then v.x.(peer := Some(l), reading := true, bound := true)
              else v.x.(reading := true), [])
      case Clse(_, _) => OnClose(v.x.(byPeer := true))
      case Wrte(l, _, data) => OnData(v.x, v.a, l, data, n, fail)
      case _ => Reply(v.x, [])
  }

  lemma TakeIsMoves(v: Stream, n: nat, fail: bool) returns (ms: seq<Move>)
    requires Flow(v) && v.q != []
    ensures Moves(v, ms, Answered(v, Handled(v, n, fail)).(q := v.q[1..]))
  {
    var k := if v.q[0].Wrte? then Min(n, |v.q[0].data|) else 0;
    var m := Take(k, fail);
    if v.x.stage == Live && v.xOn && v.q[0].Wrte? {
      FlowWrteFits(v);
    }
    assert v.p + [] == v.p;
    ms := [m];
    OneMove(v, m);
  }
}
