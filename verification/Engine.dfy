/**
 The socket code as it runs: one process with a live and a closing list, loops
 over partial writes and reads, and packets handed to the transport.  Every
 method is proved to do to the lists exactly what the handler of the same name
 in Endpoints does to the endpoint value.
 */
module Engine {
  import opened Basics
  import opened Endpoints

  /** One answer of adb_write: bytes taken, EAGAIN, EINTR, or an error or 0. */
  datatype WriteResult = Took(n: nat) | WouldBlock | Interrupted | Broken

  /** One answer of adb_read. */
  datatype ReadResult = Got(data: Bytes) | NoData | Retry | EndOfFile

  /** A list entry. */
  datatype Local = Local(id: Id, sock: Socket)

  // ----- partial writes

  /** How a write loop ends: bytes taken, whether it failed, and the answers not used. */
  datatype Io = Io(k: nat, fail: bool, rest: seq<WriteResult>)

  /** Writing len bytes; retry says whether EINTR is retried.  No answer left means EAGAIN. */
  function WriteOutcome(len: nat, script: seq<WriteResult>, retry: bool): (r: Io)
    ensures r.k <= len && (r.fail ==> r.k < len) && |r.rest| <= |script|
    decreases |script|
  {
    if len == 0 || script == [] then Io(0, false, script)
    else
      match script[0]
      case Took(n) =>
        if n == 0 then Io(0, true, script[1..])
        else
          var m := Min(n, len);
          var w := WriteOutcome(len - m, script[1..], retry);
          w.(k := m + w.k)
      case WouldBlock => Io(0, false, script[1..])
      case Interrupted => if retry then WriteOutcome(len, script[1..], retry) else Io(0, true, script[1..])
      case Broken => Io(0, true, script[1..])
  }

  // ----- what the answers do

  /** After this answer the loop asks again. */
  predicate GoesOn(w: WriteResult, retry: bool)
  {
    (w.Took? && w.n > 0) || (w.Interrupted? && retry)
  }

  /** Answers 0 to j all let the loop go on; j is the end of them or an answer that stops it. */
  ghost predicate StopsAt(script: seq<WriteResult>, retry: bool, j: nat)
  {
    && j <= |script| && (forall i :: 0 <= i < j ==> GoesOn(script[i], retry))
    && (j < |script| ==> !GoesOn(script[j], retry))
  }

  /** The bytes the answers took, and how many of them took any. */
  function TookSum(script: seq<WriteResult>): (n: nat)
  {
    if script == [] then 0 else (if script[0].Took? then script[0].n else 0) + TookSum(script[1..])
  }

  function TookCount(script: seq<WriteResult>): (n: nat)
  {
    if script == [] then 0 else Flag(script[0].Took?) + TookCount(script[1..])
  }

  lemma StopsLater(script: seq<WriteResult>, retry: bool, j: nat)
    requires StopsAt(script, retry, j) && j > 0
    ensures script != [] && StopsAt(script[1..], retry, j - 1)
    ensures script[..j][1..] == script[1..][..j - 1]
  {
    assert forall i :: 0 <= i < j - 1 ==> script[1..][i] == script[i + 1];
  }

  /**
   Writing len bytes, exactly: the fd takes what the answers before the one that
   stops the loop took, up to len; the loop fails if and only if bytes are left and
   that answer is an error, 0, or EINTR without a retry.  So EAGAIN never fails.
   */
  lemma {:induction false} WriteExactly(len: nat, script: seq<WriteResult>, retry: bool, j: nat)
    requires StopsAt(script, retry, j)
    ensures var w := WriteOutcome(len, script, retry);
            && w.k == Min(len, TookSum(script[..j]))
            && (w.fail <==> w.k < len && j < |script| && !script[j].WouldBlock?)
    decreases |script|
  {
    if len > 0 && j > 0 {
      StopsLater(script, retry, j);
      WriteExactly(len - (if script[0].Took? then Min(script[0].n, len) else 0), script[1..], retry, j - 1);
    }
  }

  /** The first u answers, one later. */
  lemma OneLater(script: seq<WriteResult>, u: nat)
    requires script != [] && u < |script|
    ensures script[1..][u..] == script[u + 1..]
    ensures TookSum(script[..u + 1]) == (if script[0].Took? then script[0].n else 0) + TookSum(script[1..][..u])
  {
    assert script[..u + 1][1..] == script[1..][..u];
  }

  /** The first u answers are used up: to the one that stopped the loop, or those that moved the last byte. */
  ghost predicate Uses(len: nat, script: seq<WriteResult>, retry: bool, j: nat, u: nat)
  {
    var w := WriteOutcome(len, script, retry);
    && u <= |script| && w.rest == script[u..]
    && (w.k < len ==> u == Min(j + 1, |script|))
    && (w.k == len ==> u <= j && TookSum(script[..u]) >= len)
    && (w.k == len && u > 0 ==> TookSum(script[..u - 1]) < len)
  }

  lemma {:induction false} WriteUses(len: nat, script: seq<WriteResult>, retry: bool, j: nat) returns (u: nat)
    requires StopsAt(script, retry, j)
    ensures Uses(len, script, retry, j, u)
    decreases |script|
  {
    if len == 0 || j == 0 {
      u := if len == 0 then 0 else Min(1, |script|);
      UsesAtOnce(len, script, retry, j);
    } else {
      StopsLater(script, retry, j);
      var n := if script[0].Took? then Min(script[0].n, len) else 0;
      var u1 := WriteUses(len - n, script[1..], retry, j - 1);
      u := u1 + 1;
      UsesLater(len, script, retry, j, u1);
    }
  }

  lemma UsesAtOnce(len: nat, script: seq<WriteResult>, retry: bool, j: nat)
    requires StopsAt(script, retry, j) && (len == 0 || j == 0)
    ensures Uses(len, script, retry, j, if len == 0 then 0 else Min(1, |script|))
  {
  }

  lemma UsesLater(len: nat, script: seq<WriteResult>, retry: bool, j: nat, u: nat)
    requires len > 0 && j > 0 && StopsAt(script, retry, j)
    requires Uses(len - (if script[0].Took? then Min(script[0].n, len) else 0), script[1..], retry, j - 1, u)
    ensures Uses(len, script, retry, j, u + 1)
  {
    OneLater(script, u);
    if u > 0 {
      OneLater(script, u - 1);
    }
  }

  // ----- EINTR

  /** Writing len bytes meets EINTR before they are out and before anything else ends the loop. */
  predicate MeetsEintr(len: nat, script: seq<WriteResult>)
    decreases |script|
  {
    len > 0 && script != [] &&
    match script[0]
    case Took(n) => n > 0 && MeetsEintr(len - Min(n, len), script[1..])
    case Interrupted => true
    case _ => false
  }

  /** The loop that does not retry fails exactly where the other one does, and on every EINTR it meets. */
  lemma {:induction false} EintrFails(len: nat, script: seq<WriteResult>)
    ensures WriteOutcome(len, script, false).fail
            <==> MeetsEintr(len, script) || WriteOutcome(len, script, true).fail
    ensures !MeetsEintr(len, script) ==> WriteOutcome(len, script, false) == WriteOutcome(len, script, true)
    decreases |script|
  {
    if len > 0 && script != [] && script[0].Took? && script[0].n > 0 {
      EintrFails(len - Min(script[0].n, len), script[1..]);
    }
  }

  /** One EINTR closes a stream in local_socket_enqueue; the drain loop takes the same answer and goes on. */
  lemma EintrCloses(s: Socket, id: Id, from: Id, data: Bytes)
    requires s.stage == Live && s.queue == [] && data != []
    ensures var now, later := WriteOutcome(|data|, [Interrupted], false), WriteOutcome(|data|, [Interrupted], true);
            && OnData(s, id, from, data, now.k, now.fail).sock.stage == Gone
            && OnData(s, id, from, data, later.k, later.fail).sock.stage == Live
  {
    assert [Interrupted][1..] == [];
  }

  /** Writing a whole queue, packet by packet. */
  function DrainOutcome(queue: seq<Bytes>, script: seq<WriteResult>): (r: Io)
    ensures r.k <= |Flat(queue)| && (r.fail ==> r.k < |Flat(queue)|)
    decreases |queue|
  {
    if queue == [] then Io(0, false, script)
    else
      var w := WriteOutcome(|queue[0]|, script, true);
      if w.k < |queue[0]| then w
      else
        var d := DrainOutcome(queue[1..], w.rest);
        d.(k := w.k + d.k)
  }

  lemma {:induction false} TookConcat(a: seq<WriteResult>, b: seq<WriteResult>)
    ensures TookCount(a + b) == TookCount(a) + TookCount(b)
  {
    if a == [] {
      assert a + b == b;
    } else {
      assert (a + b)[1..] == a[1..] + b;
      TookConcat(a[1..], b);
    }
  }

  lemma {:induction false} CountBelowSum(script: seq<WriteResult>)
    requires forall i :: 0 <= i < |script| ==> GoesOn(script[i], true)
    ensures TookCount(script) <= TookSum(script)
  {
    if script != [] {
      CountBelowSum(script[1..]);
    }
  }

  /** At most len answers are used up by writing len bytes: each but the last left something to do. */
  lemma UsedCount(len: nat, script: seq<WriteResult>, u: nat)
    requires u <= |script| && (forall i :: 0 <= i < u ==> GoesOn(script[i], true))
    requires u > 0 ==> TookSum(script[..u - 1]) < len
    ensures TookCount(script[..u]) <= len
  {
    if u > 0 {
      CountBelowSum(script[..u - 1]);
      assert script[..u] == script[..u - 1] + [script[u - 1]];
      TookConcat(script[..u - 1], [script[u - 1]]);
      assert [script[u - 1]][1..] == [];
    }
  }

  /**
   Draining a queue, exactly: it fails if and only if bytes are left and the answer
   that stops it is an error or 0; and every answer before that which took anything
   moves at least one byte, across packets too.
   */
  lemma {:induction false} DrainExactly(queue: seq<Bytes>, script: seq<WriteResult>, j: nat)
    requires StopsAt(script, true, j)
    ensures var d := DrainOutcome(queue, script);
            && (d.fail <==> d.k < |Flat(queue)| && j < |script| && !script[j].WouldBlock?)
            && d.k >= Min(|Flat(queue)|, TookCount(script[..j]))
    decreases |queue|
  {
    if queue != [] {
      var len := |queue[0]|;
      WriteExactly(len, script, true, j);
      CountBelowSum(script[..j]);
      if WriteOutcome(len, script, true).k == len {
        var u := WriteUses(len, script, true, j);
        DrainExactly(queue[1..], script[u..], j - u);
        CountSplit(len, script, j, u);
      }
    }
  }

  lemma CountSplit(len: nat, script: seq<WriteResult>, j: nat, u: nat)
    requires StopsAt(script, true, j) && u <= j && (u > 0 ==> TookSum(script[..u - 1]) < len)
    ensures TookCount(script[..j]) <= len + TookCount(script[u..][..j - u])
  {
    UsedCount(len, script, u);
    assert script[..j] == script[..u] + script[u..][..j - u];
    TookConcat(script[..u], script[u..][..j - u]);
  }

  // ----- the lists

  /** list holds exactly the sockets of the given stage, each once. */
  ghost predicate Listed(list: seq<Local>, socks: map<Id, Socket>, stage: Stage)
  {
    && (forall i :: 0 <= i < |list| ==>
          list[i].id in socks && socks[list[i].id] == list[i].sock && list[i].sock.stage == stage)
    && (forall i, j :: 0 <= i < j < |list| ==> list[i].id != list[j].id)
    && (forall x :: x in socks && socks[x].stage == stage ==> exists i :: 0 <= i < |list| && list[i].id == x)
  }

  /** Changing, appending or removing an entry, seen in the map. */
  lemma ListedUpdate(list: seq<Local>, socks: map<Id, Socket>, stage: Stage, i: nat, s: Socket)
    requires Listed(list, socks, stage) && i < |list| && s.stage == stage
    ensures Listed(list[i := Local(list[i].id, s)], socks[list[i].id := s], stage)
  {
    var l1, m1 := list[i := Local(list[i].id, s)], socks[list[i].id := s];
    forall x | x in m1 && m1[x].stage == stage
      ensures exists k :: 0 <= k < |l1| && l1[k].id == x
    {
      var k :| 0 <= k < |list| && list[k].id == x;
      assert l1[k].id == x;
    }
  }

  lemma ListedAppend(list: seq<Local>, socks: map<Id, Socket>, stage: Stage, x: Id, s: Socket)
    requires Listed(list, socks, stage) && s.stage == stage
    requires x in socks ==> socks[x].stage != stage
    ensures Listed(list + [Local(x, s)], socks[x := s], stage)
  {
    var l1, m1 := list + [Local(x, s)], socks[x := s];
    forall z | z in m1 && m1[z].stage == stage
      ensures exists k :: 0 <= k < |l1| && l1[k].id == z
    {
      if z == x {
        assert l1[|list|].id == z;
      } else {
        var k :| 0 <= k < |list| && list[k].id == z;
        assert l1[k].id == z;
      }
    }
  }

  lemma ListedRemove(list: seq<Local>, socks: map<Id, Socket>, stage: Stage, i: nat, s: Socket)
    requires Listed(list, socks, stage) && i < |list| && s.stage != stage
    ensures Listed(list[..i] + list[i + 1..], socks[list[i].id := s], stage)
  {
    var l1, m1 := list[..i] + list[i + 1..], socks[list[i].id := s];
    forall z | z in m1 && m1[z].stage == stage
      ensures exists k :: 0 <= k < |l1| && l1[k].id == z
    {
      var k :| 0 <= k < |list| && list[k].id == z;
      assert l1[if k < i then k else k - 1].id == z;
    }
  }

  /** A change to a socket that is, and stays, on another list. */
  lemma ListedOther(list: seq<Local>, socks: map<Id, Socket>, stage: Stage, x: Id, s: Socket)
    requires Listed(list, socks, stage) && s.stage != stage
    requires x in socks ==> socks[x].stage != stage
    ensures Listed(list, socks[x := s], stage)
  {
  }

  /** The two lists hold exactly the live and the closing sockets of e. */
  ghost predicate Mirrors(live: seq<Local>, closing: seq<Local>, e: Endpoint)
  {
    Sound(e) && Listed(live, e.socks, Live) && Listed(closing, e.socks, Draining)
  }

  function Without(list: seq<Local>, i: nat): (r: seq<Local>)
    requires i < |list|
  {
    list[..i] + list[i + 1..]
  }

  lemma MirrorsStore(live: seq<Local>, closing: seq<Local>, e: Endpoint, i: nat, s: Socket)
    requires Mirrors(live, closing, e) && i < |live| && s.stage == Live
    ensures Mirrors(live[i := Local(live[i].id, s)], closing, Put(e, live[i].id, s))
  {
    ListedUpdate(live, e.socks, Live, i, s);
    ListedOther(closing, e.socks, Draining, live[i].id, s);
  }

  lemma MirrorsClose(live: seq<Local>, closing: seq<Local>, e: Endpoint, i: nat, s: Socket)
    requires Mirrors(live, closing, e) && i < |live|
    ensures Mirrors(Without(live, i),
                    if s.queue == [] then closing else closing + [Local(live[i].id, Retired(s))],
                    Apply(e, live[i].id, OnClose(s)).end)
  {
    ListedRemove(live, e.socks, Live, i, Retired(s));
    if s.queue == [] {
      ListedOther(closing, e.socks, Draining, live[i].id, Retired(s));
    } else {
      ListedAppend(closing, e.socks, Draining, live[i].id, Retired(s));
    }
  }

  lemma MirrorsNew(live: seq<Local>, closing: seq<Local>, e: Endpoint, s: Socket)
    requires Mirrors(live, closing, e) && s.stage == Live
    ensures Mirrors(live + [Local(e.nextId, s)], closing, Put(e, e.nextId, s).(nextId := e.nextId + 1))
  {
    ListedAppend(live, e.socks, Live, e.nextId, s);
    ListedOther(closing, e.socks, Draining, e.nextId, s);
  }

  lemma MirrorsFlush(live: seq<Local>, closing: seq<Local>, e: Endpoint, i: nat, s: Socket)
    requires Mirrors(live, closing, e) && i < |closing| && s.stage != Live
    ensures Mirrors(live,
                    if s.stage == Draining then closing[i := Local(closing[i].id, s)] else Without(closing, i),
                    Put(e, closing[i].id, s))
  {
    ListedOther(live, e.socks, Live, closing[i].id, s);
    if s.stage == Draining {
      ListedUpdate(closing, e.socks, Draining, i, s);
    } else {
      ListedRemove(closing, e.socks, Draining, i, s);
    }
  }

  lemma MirrorsSame(live: seq<Local>, closing: seq<Local>, e: Endpoint, e1: Endpoint)
    requires Mirrors(live, closing, e) && e1.socks == e.socks && e1.nextId == e.nextId
    ensures Mirrors(live, closing, e1)
  {
  }

  /** Some of the bound sockets of e0 have been closed in e, nothing else changed. */
  ghost predicate PartlyOffline(e0: Endpoint, e: Endpoint)
  {
    && e.socks.Keys == e0.socks.Keys
    && forall x :: x in e0.socks ==>
         || e.socks[x] == e0.socks[x]
         || (e0.socks[x].stage == Live && e0.socks[x].peer != None && e.socks[x] == Retired(e0.socks[x]))
  }

  lemma PartlyOfflineStep(e0: Endpoint, e: Endpoint, x: Id)
    requires PartlyOffline(e0, e) && IsLive(e, x) && e.socks[x].peer != None
    ensures PartlyOffline(e0, Put(e, x, Retired(e.socks[x])))
  {
  }

  lemma PartlyOfflineDone(e0: Endpoint, e: Endpoint)
    requires PartlyOffline(e0, e)
    requires forall x :: IsLive(e, x) ==> e.socks[x].peer == None
    ensures e.socks == GoOffline(e0).socks
  {
  }

  /** FindBound found i: entry i has a remote peer, or i is past the end and no entry has one. */
  ghost predicate FoundBound(live: seq<Local>, i: nat)
  {
    if i < |live| then live[i].sock.peer != None
    else forall j :: 0 <= j < |live| ==> live[j].sock.peer == None
  }

  lemma AllPeerless(live: seq<Local>, closing: seq<Local>, e: Endpoint)
    requires Mirrors(live, closing, e) && forall j :: 0 <= j < |live| ==> live[j].sock.peer == None
    ensures forall x :: IsLive(e, x) ==> e.socks[x].peer == None
  {
    assert forall x :: IsLive(e, x) ==> exists j :: 0 <= j < |live| && live[j].id == x;
  }

  lemma OneClse(k: Packet)
    ensures Clses([k]) == Flag(k.Clse?)
  {
    assert [k][1..] == [];
  }

  /** The loop of adb_write calls on one buffer. */
  method WriteLoop(len: nat, script: seq<WriteResult>, retry: bool) returns (k: nat, fail: bool, j: nat)
    ensures j <= |script| && Io(k, fail, script[j..]) == WriteOutcome(len, script, retry)
  {
    k, j, fail := 0, 0, false;
    while k < len && j < |script|
      invariant k <= len && j <= |script| && !fail
      invariant var w := WriteOutcome(len - k, script[j..], retry);
                WriteOutcome(len, script, retry) == w.(k := k + w.k)
      decreases |script| - j
    {
      var w := script[j];
      assert script[j..][1..] == script[j + 1..];
      j := j + 1;
      if w.Took? && w.n > 0 {
        k := k + Min(w.n, len - k);
      } else if w.Interrupted? && retry {
        continue;
      } else {
        fail := !w.WouldBlock?;
        return;
      }
    }
  }

  /** Draining past the first c packets. */
  lemma {:induction false} DrainSkip(queue: seq<Bytes>, c: nat, n: nat)
    requires c <= |queue|
    ensures Drain(queue, |Flat(queue[..c])| + n) == Drain(queue[c..], n)
  {
    if c != 0 {
      assert queue[..c][1..] == queue[1..][..c - 1];
      DrainSkip(queue[1..], c - 1, n);
      assert queue[1..][c - 1..] == queue[c..];
    } else {
      assert queue[c..] == queue;
    }
  }

  lemma {:induction false} FlatSnoc(queue: seq<Bytes>, c: nat)
    requires c < |queue|
    ensures |Flat(queue[..c + 1])| == |Flat(queue[..c])| + |queue[c]|
  {
    if c != 0 {
      assert queue[..c][1..] == queue[1..][..c - 1] && queue[..c + 1][1..] == queue[1..][..c];
      FlatSnoc(queue[1..], c - 1);
    } else {
      assert queue[..1][1..] == [];
    }
  }

  /** The loop over a packet queue: a packet is unlinked once all of it is written. */
  method DrainLoop(queue: seq<Bytes>, script: seq<WriteResult>) returns (rest: seq<Bytes>, k: nat, fail: bool)
    ensures k == DrainOutcome(queue, script).k && fail == DrainOutcome(queue, script).fail
    ensures rest == Drain(queue, k)
  {
    var c, j := 0, 0;
    rest, k, fail := queue, 0, false;
    while rest != []
      invariant c <= |queue| && rest == queue[c..] && k == |Flat(queue[..c])|
      invariant j <= |script| && !fail
      invariant DrainOutcome(queue, script).k == k + DrainOutcome(rest, script[j..]).k
      invariant DrainOutcome(queue, script).fail == DrainOutcome(rest, script[j..]).fail
      decreases |rest|
    {
      var n, f, j1 := WriteLoop(|rest[0]|, script[j..], true);
      if n < |rest[0]| {
        DrainSkip(queue, c, n);
        rest, k, fail := [rest[0][n..]] + rest[1..], k + n, f;
        return;
      }
      assert script[j..][j1..] == script[j + j1..];
      FlatSnoc(queue, c);
      rest, k, c, j := rest[1..], k + n, c + 1, j + j1;
    }
    DrainSkip(queue, c, 0);
  }

  /** e after its socket id became s, or closed as s. */
  ghost function Concluded(e: Endpoint, id: Id, s: Socket, shut: bool): (r: Endpoint)
  {
    if shut then Apply(e, id, OnClose(s)).end else Put(e, id, s)
  }

  lemma QuietReply(e: Endpoint, id: Id, r: Reply)
    requires Clses(r.out) == 0
    ensures Apply(e, id, r).end == Concluded(e, id, r.sock, false)
  {
  }

  /** s after local_socket_enqueue: data goes behind what is queued, else its fd took k bytes of it. */
  function Absorbed(s: Socket, data: Bytes, k: nat, fail: bool): (t: Socket)
    requires k <= |data|
  {
    var t := s.(wrote := s.wrote + data[..k]);
    if s.queue != [] then s.(queue := s.queue + [data], writing := true)
    else if k == |data| then t
    else if fail then t.(cut := true)
    else t.(queue := [data[k..]], writing := true)
  }

  lemma OnDataConcludes(e: Endpoint, s: Socket, id: Id, from: Id, data: Bytes, k: nat, fail: bool)
    requires k <= |data| && (fail ==> k < |data|)
    ensures var r, t, shut := OnData(s, id, from, data, k, fail), Absorbed(s, data, k, fail), s.queue == [] && fail;
            && Apply(e, id, r).end == Concluded(e, id, t, shut)
            && (s.queue != [] || k < |data| ==> r.out == if shut then OnClose(t).out else [])
  {
    OneClse(Okay(id, from));
    if s.queue != [] || !fail {
      QuietReply(e, id, OnData(s, id, from, data, k, fail));
    }
  }

  /** The three ways a drain ends on a live socket. */
  lemma OnWriteCases(s: Socket, id: Id, k: nat, fail: bool)
    requires k <= |Flat(s.queue)| && (fail ==> k < |Flat(s.queue)|)
    ensures var r, t := OnWrite(s, id, k, fail), Written(s, k);
            if t.queue == [] then
              && r == Reply(t.(writing := false), if s.peer == None then [] else [Okay(id, s.peer.value)])
              && Clses(r.out) == 0 && !fail
            else if fail then r == OnClose(t.(cut := true))
            else r == Reply(t, [])
  {
    DrainDropsPrefix(s.queue, k);
    if s.peer != None {
      OneClse(Okay(id, s.peer.value));
    }
  }

  /** s after its queue shrank to rest, its fd having taken k bytes. */
  function Drained(s: Socket, rest: seq<Bytes>, k: nat, fail: bool): (t: Socket)
    requires k <= |Flat(s.queue)|
  {
    var t := s.(queue := rest, wrote := s.wrote + Flat(s.queue)[..k]);
    if rest == [] then t.(writing := false) else if fail then t.(cut := true) else t
  }

  lemma OnWriteConcludes(e: Endpoint, s: Socket, id: Id, k: nat, fail: bool)
    requires k <= |Flat(s.queue)| && (fail ==> k < |Flat(s.queue)|)
    ensures var r, rest := OnWrite(s, id, k, fail), Drain(s.queue, k);
            var t := Drained(s, rest, k, fail);
            && Apply(e, id, r).end == Concluded(e, id, t, fail)
            && (rest == [] ==> !fail)
            && r.out == (if rest == [] && s.peer != None then [Okay(id, s.peer.value)] else [])
                        + if fail then OnClose(t).out else []
  {
    OnWriteCases(s, id, k, fail);
    if !fail {
      QuietReply(e, id, OnWrite(s, id, k, fail));
    }
  }

  /** A closing socket after its queue shrank to rest: it goes once that is empty or its fd has failed. */
  function Flushed(s: Socket, rest: seq<Bytes>, k: nat, fail: bool): (t: Socket)
    requires k <= |Flat(s.queue)|
  {
    var t := s.(queue := rest, wrote := s.wrote + Flat(s.queue)[..k]);
    if rest == [] || fail then t.(stage := Gone, queue := [], writing := false, cut := s.cut || fail) else t
  }

  lemma FlushedIs(s: Socket, k: nat, fail: bool)
    requires k <= |Flat(s.queue)| && (fail ==> k < |Flat(s.queue)|)
    ensures Flushed(s, Drain(s.queue, k), k, fail) == OnFlush(s, k, fail)
  {
    DrainDropsPrefix(s.queue, k);
  }

  class Process {
    const host: bool
    var online: bool
    var nextId: Id
    var live: seq<Local>
    var closing: seq<Local>
    var wire: seq<Packet>      // everything handed to send_packet
    ghost var e: Endpoint      // the same state as a value

    ghost predicate Valid()
      reads this
    {
      && e.host == host && e.online == online && e.nextId == nextId
      && Mirrors(live, closing, e)
    }

    constructor (isHost: bool)
      ensures Valid() && e == Start(isHost) && wire == []
    {
      host, online, nextId := isHost, true, 1;
      live, closing, wire := [], [], [];
      e := Start(isHost);
    }

    /** find_local_socket: the entry with this id, or |live|. */
    method FindLocalSocket(id: Id) returns (i: nat)
      requires Valid()
      ensures i <= |live|
      ensures i < |live| ==> live[i].id == id && IsLive(e, id) && e.socks[id] == live[i].sock
      ensures i == |live| ==> !IsLive(e, id)
    {
      i := 0;
      while i < |live|
        invariant i <= |live|
        invariant forall j :: 0 <= j < i ==> live[j].id != id
      {
        if live[i].id == id {
          return;
        }
        i := i + 1;
      }
    }

    /** Stores s as the new state of live socket i. */
    method Store(i: nat, s: Socket)
      requires Valid() && i < |live| && s.stage == Live
      modifies this`live, this`e
      ensures Valid() && e == Put(old(e), old(live)[i].id, s)
    {
      MirrorsStore(live, closing, e, i, s);
      e := Put(e, live[i].id, s);
      live := live[i := Local(live[i].id, s)];
    }

    /** local_socket_close of live socket i, last seen as s: CLSE to its peer, then off the live list. */
    method CloseSocket(i: nat, s: Socket)
      requires Valid() && i < |live| && s.stage == Live
      modifies this`live, this`closing, this`wire, this`e
      ensures Valid() && e == Apply(old(e), old(live)[i].id, OnClose(s)).end
      ensures wire == old(wire) + OnClose(s).out
    {
      if s.peer.Some? {
        wire := wire + [Clse(0, s.peer.value)];
      }
      Unlist(i, s);
    }

    /** Off the live list, onto the closing list if data is queued. */
    method Unlist(i: nat, s: Socket)
      requires Valid() && i < |live|
      modifies this`live, this`closing, this`e
      ensures Valid() && e == Apply(old(e), old(live)[i].id, OnClose(s)).end
    {
      MirrorsClose(live, closing, e, i, s);
      e := Apply(e, live[i].id, OnClose(s)).end;
      closing := if s.queue == [] then closing else closing + [Local(live[i].id, Retired(s))];
      live := Without(live, i);
    }

    /** Live socket i becomes s, or closes as s. */
    method Conclude(i: nat, s: Socket, shut: bool)
      requires Valid() && i < |live| && s.stage == Live
      modifies this`live, this`closing, this`wire, this`e
      ensures Valid() && e == Concluded(old(e), old(live)[i].id, s, shut)
      ensures wire == old(wire) + if shut then OnClose(s).out else []
    {
      if shut {
        CloseSocket(i, s);
      } else {
        Store(i, s);
      }
    }

    /** local_socket_enqueue: write at once what the fd takes, queue or give up on the rest. */
    method Enqueue(i: nat, from: Id, data: Bytes, script: seq<WriteResult>) returns (ready: bool)
      requires Valid() && i < |live|
      modifies this`live, this`closing, this`wire, this`e
      ensures Valid()
      ensures ready == (old(live)[i].sock.queue == [] && WriteOutcome(|data|, script, false).k == |data|)
      ensures var id, s, io := old(live)[i].id, old(live)[i].sock, WriteOutcome(|data|, script, false);
              var r := OnData(s, id, from, data, io.k, io.fail);
              && e == Apply(old(e), id, r).end
              && wire == old(wire) + if ready then [] else r.out
    {
      var s, k, fail := live[i].sock, 0, false;
      if s.queue == [] {
        var n, broken, _ := WriteLoop(|data|, script, false);
        k, fail := n, broken;
      }
      ready := s.queue == [] && k == |data|;
      ghost var io := WriteOutcome(|data|, script, false);
      OnDataConcludes(e, s, live[i].id, from, data, io.k, io.fail);
      Conclude(i, Absorbed(s, data, k, fail), fail);
    }

    /** FDE_READ: fill one packet until the fd has no more, then hand it to the peer. */
    method EventRead(i: nat, script: seq<ReadResult>)
      requires Valid() && i < |live|
      modifies this`live, this`closing, this`wire, this`e
      ensures Valid()
      ensures var id, s, rd := old(live)[i].id, old(live)[i].sock, ReadOutcome(MAX_PAYLOAD, script);
              var r := OnRead(s, id, rd.0, rd.1);
              e == Apply(old(e), id, r).end && wire == old(wire) + r.out
    {
      var id, s := live[i].id, live[i].sock;
      var data, eof := ReadLoop(script);
      if data != [] && s.peer.Some? {
        wire := wire + [Wrte(id, s.peer.value, data)];
        OneClse(Wrte(id, s.peer.value, data));
        s := s.(reading := false, sent := s.sent + data);
      }
      if eof {
        CloseSocket(i, s);
      } else {
        Store(i, s);
      }
    }

    /** FDE_WRITE on a live socket: drain the queue; once empty, tell the peer to go on. */
    method EventWrite(i: nat, script: seq<WriteResult>)
      requires Valid() && i < |live|
      modifies this`live, this`closing, this`wire, this`e
      ensures Valid()
      ensures var id, s := old(live)[i].id, old(live)[i].sock;
              var io := DrainOutcome(s.queue, script);
              var r := OnWrite(s, id, io.k, io.fail);
              e == Apply(old(e), id, r).end && wire == old(wire) + r.out
    {
      var id, s := live[i].id, live[i].sock;
      var rest, k, fail := DrainLoop(s.queue, script);
      OnWriteConcludes(e, s, id, k, fail);
      var out := if rest == [] && s.peer != None then [Okay(id, s.peer.value)] else [];
      wire := wire + out;
      Regroup(old(wire), out, if fail then OnClose(Drained(s, rest, k, fail)).out else []);
      Conclude(i, Drained(s, rest, k, fail), fail);
    }

    /** FDE_WRITE on a closing socket: drain the queue; once empty or broken, free it. */
    method EventFlush(i: nat, script: seq<WriteResult>)
      requires Valid() && i < |closing|
      modifies this`closing, this`e
      ensures Valid()
      ensures var id, s := old(closing)[i].id, old(closing)[i].sock;
              var io := DrainOutcome(s.queue, script);
              e == Put(old(e), id, OnFlush(s, io.k, io.fail))
    {
      var id, s := closing[i].id, closing[i].sock;
      var rest, k, fail := DrainLoop(s.queue, script);
      FlushedIs(s, k, fail);
      Refile(i, Flushed(s, rest, k, fail));
    }

    /** Closing socket i becomes t, or is freed as t. */
    method Refile(i: nat, t: Socket)
      requires Valid() && i < |closing| && t.stage != Live
      modifies this`closing, this`e
      ensures Valid() && e == Put(old(e), old(closing)[i].id, t)
    {
      MirrorsFlush(live, closing, e, i, t);
      e := Put(e, closing[i].id, t);
      closing := if t.stage == Gone then Without(closing, i) else closing[i := Local(closing[i].id, t)];
    }

    /** FDE_READ on a closing socket: what it reads is dropped, the end of the file frees it. */
    method EventHangUp(i: nat, script: seq<ReadResult>)
      requires Valid() && i < |closing|
      modifies this`closing, this`e
      ensures Valid()
      ensures var id, s := old(closing)[i].id, old(closing)[i].sock;
              e == if ReadOutcome(MAX_PAYLOAD, script).1 then Put(old(e), id, Destroyed(s, 0, true)) else old(e)
    {
      var _, eof := ReadLoop(script);
      if eof {
        Refile(i, Destroyed(closing[i].sock, 0, true));
      }
    }

    /** A new socket on the live list under the next id. */
    method Install(s: Socket) returns (id: Id)
      requires Valid() && s.stage == Live
      modifies this`live, this`nextId, this`e
      ensures Valid() && id == old(nextId)
      ensures e == Put(old(e), id, s).(nextId := id + 1)
    {
      id := nextId;
      MirrorsNew(live, closing, e, s);
      e := Put(e, id, s).(nextId := id + 1);
      live := live + [Local(id, s)];
      nextId := nextId + 1;
    }

    /** connect_to_remote for a new client. */
    method ConnectToRemote(dest: Bytes)
      requires Valid()
      modifies this`live, this`nextId, this`wire, this`e
      ensures Valid() && e == Connect(old(e), dest).end
      ensures wire == old(wire) + Connect(old(e), dest).out
    {
      var id := Install(Fresh(None, false));
      wire := wire + [Open(id, dest)];
    }

    /** run_transport_disconnects: close the local peer of every remote socket, sending nothing. */
    method Disconnect()
      requires Valid()
      modifies this`online, this`live, this`closing, this`e
      ensures Valid() && e == GoOffline(old(e))
    {
      ghost var e0 := e;
      online := false;
      e := e.(online := false);
      var i: nat := FindBound();
      while i < |live|
        invariant Valid() && i <= |live| && !online
        invariant e == e0.(online := false, socks := e.socks) && PartlyOffline(e0, e)
        invariant FoundBound(live, i)
        decreases |live|
      {
        PartlyOfflineStep(e0, e, live[i].id);
        DisconnectOne(i);
        i := FindBound();
      }
      AllPeerless(live, closing, e);
      PartlyOfflineDone(e0, e);
    }

    /** The next live socket with a remote peer. */
    method FindBound() returns (i: nat)
      ensures i <= |live|
      ensures FoundBound(live, i)
    {
      i := 0;
      while i < |live| && live[i].sock.peer == None
        invariant i <= |live| && forall j :: 0 <= j < i ==> live[j].sock.peer == None
      {
        i := i + 1;
      }
    }

    /** remote_socket_disconnect of the peer of live socket i. */
    method DisconnectOne(i: nat)
      requires Valid() && i < |live|
      modifies this`live, this`closing, this`e
      ensures Valid() && live == Without(old(live), i)
      ensures e == Put(old(e), old(live)[i].id, Retired(old(live)[i].sock))
    {
      var id, s := live[i].id, live[i].sock;
      MirrorsClose(live, closing, e, i, s);
      ghost var e1 := Apply(e, id, OnClose(s)).end;
      e := Put(e, id, Retired(s));
      live, closing := Without(live, i), if s.queue == [] then closing else closing + [Local(id, Retired(s))];
      MirrorsSame(live, closing, e1, e);
    }

    /** OKAY for live socket i: the first one gives it a remote socket. */
    method TakeOkay(i: nat, l: Id)
      requires Valid() && i < |live|
      modifies this`live, this`e
      ensures Valid()
      ensures var id, s := old(live)[i].id, old(live)[i].sock;
              e == if s.peer == None
                   then Put(old(e), id, s.(peer := Some(l), reading := true, bound := true))
                        .(binds := old(e).binds + 1)
                   else Put(old(e), id, s.(reading := true))
    {
      var s := live[i].sock;
      if s.peer != None {
        Store(i, s.(reading := true));
      } else {
        Store(i, s.(peer := Some(l), reading := true, bound := true));
        ghost var e1 := e.(binds := e.binds + 1);
        MirrorsSame(live, closing, e, e1);
        e := e1;
      }
    }

    /** handle_packet for one packet from the wire. */
    method HandleStreamPacket(p: Packet, script: seq<WriteResult>)
      requires Valid() && (p.Okay? || p.Clse? || p.Wrte?)
      modifies this`live, this`closing, this`wire, this`e
      ensures Valid()
      ensures var io := WriteOutcome(if p.Wrte? then |p.data| else 0, script, false);
              var o := HandlePacket(old(e), p, false, io.k, io.fail);
              e == o.end && wire == old(wire) + o.out
    {
      if !online {
        return;
      }
      var i := FindLocalSocket(p.remote);
      if i == |live| {
        return;
      }
      var id, s := live[i].id, live[i].sock;
      match p
      case Okay(l, _) => TakeOkay(i, l);
      case Clse(_, _) => CloseSocket(i, s.(byPeer := true));
      case Wrte(l, _, data) =>
        var ready := Enqueue(i, l, data, script);
        if ready {
          wire := wire + [Okay(id, l)];
        }
    }

    /** handle_packet for OPEN and CNXN, the packets that create or tear down sockets. */
    method HandleSessionPacket(p: Packet, accept: bool)
      requires Valid() && (p.Open? || p.Cnxn?)
      modifies this`online, this`nextId, this`live, this`closing, this`wire, this`e
      ensures Valid()
      ensures var o := HandlePacket(old(e), p, accept, 0, false);
              e == o.end && wire == old(wire) + o.out
    {
      if p.Cnxn? {
        if online {
          Disconnect();
        }
        online := true;
        ghost var e1 := e.(online := true);
        MirrorsSame(live, closing, e, e1);
        e := e1;
        wire := wire + if host then [] else [Cnxn];
      } else if online {
        ghost var e0 := e;
        if accept {
          var id := Install(Fresh(Some(p.local), true));
          wire := wire + [Okay(id, p.local)];
          ghost var e1 := e.(opens := e.opens + 1, binds := e.binds + 1);
          MirrorsSame(live, closing, e, e1);
          e := e1;
        } else {
          wire := wire + [Clse(0, p.local)];
          ghost var e1 := e.(opens := e.opens + 1, closes := e.closes + 1);
          MirrorsSame(live, closing, e, e1);
          e := e1;
        }
      }
    }
  }

  /** Reading at most avail bytes; no answer left means EAGAIN. */
  function ReadOutcome(avail: nat, script: seq<ReadResult>): (r: (Bytes, bool))
    ensures |r.0| <= avail
    decreases |script|
  {
    if avail == 0 || script == [] then ([], false)
    else
      match script[0]
      case Got(d) =>
        var d1 := d[..Min(|d|, avail)];
        if d1 == [] then ([], true)
        else
          Prefixed(d1, ReadOutcome(avail - |d1|, script[1..]))
      case NoData => ([], false)
      case Retry => ReadOutcome(avail, script[1..])
      case EndOfFile => ([], true)
  }

  predicate ReadsOn(w: ReadResult)
  {
    w.Retry? || (w.Got? && w.data != [])
  }

  function GotBytes(script: seq<ReadResult>): (r: Bytes)
  {
    if script == [] then [] else (if script[0].Got? then script[0].data else []) + GotBytes(script[1..])
  }

  /**
   Filling a packet, exactly: it holds what the answers before the one that stops the
   loop delivered, in order, up to its size; the file has ended if and only if there
   is room left and that answer is an error, 0 bytes or the end.
   */
  lemma {:induction false} FillExactly(avail: nat, script: seq<ReadResult>, j: nat)
    requires j <= |script| && (forall i :: 0 <= i < j ==> ReadsOn(script[i]))
    requires j < |script| ==> !ReadsOn(script[j])
    ensures var (data, eof), all := ReadOutcome(avail, script), GotBytes(script[..j]);
            && data == all[..Min(avail, |all|)]
            && (eof <==> |data| < avail && j < |script| && !script[j].NoData?)
    decreases |script|
  {
    if avail > 0 && j > 0 {
      assert script[..j][1..] == script[1..][..j - 1];
      assert forall i :: 0 <= i < j - 1 ==> script[1..][i] == script[i + 1];
      var d := if script[0].Got? then script[0].data else [];
      var m := Min(|d|, avail);
      FillExactly(avail - m, script[1..], j - 1);
      CutConcat(d, GotBytes(script[1..][..j - 1]), avail);
    }
  }

  lemma CutConcat(a: Bytes, b: Bytes, n: nat)
    ensures var m := Min(|a|, n);
            (a + b)[..Min(n, |a + b|)] == a[..m] + b[..Min(n - m, |b|)]
  {
  }

  method ReadLoop(script: seq<ReadResult>) returns (data: Bytes, eof: bool)
    ensures (data, eof) == ReadOutcome(MAX_PAYLOAD, script)
  {
    data, eof := [], false;
    var j := 0;
    PrefixedNone([], ReadOutcome(MAX_PAYLOAD, script));
    while |data| < MAX_PAYLOAD && j < |script|
      invariant |data| <= MAX_PAYLOAD && j <= |script| && !eof
      invariant ReadOutcome(MAX_PAYLOAD, script) == Prefixed(data, ReadOutcome(MAX_PAYLOAD - |data|, script[j..]))
      decreases |script| - j
    {
      var w, avail := script[j], MAX_PAYLOAD - |data|;
      assert script[j..][0] == w && script[j..][1..] == script[j + 1..];
      if w.Retry? {
        j := j + 1;
        continue;
      }
      if !w.Got? || w.data == [] {
        PrefixedNone(data, ([], !w.NoData?));
        return data, !w.NoData?;
      }
      var d := w.data[..Min(|w.data|, avail)];
      PrefixedTwice(data, d, ReadOutcome(avail - |d|, script[j + 1..]));
      data, j := data + d, j + 1;
    }
    PrefixedNone(data, ([], false));
  }

  function Prefixed(data: Bytes, r: (Bytes, bool)): (r1: (Bytes, bool))
  {
    (data + r.0, r.1)
  }

  lemma PrefixedNone(data: Bytes, r: (Bytes, bool))
    ensures Prefixed([], r) == r
    ensures r.0 == [] ==> Prefixed(data, r) == (data, r.1)
  {
    assert [] + r.0 == r.0 && data + [] == data;
  }

  lemma PrefixedTwice(a: Bytes, b: Bytes, r: (Bytes, bool))
    ensures Prefixed(a, Prefixed(b, r)) == Prefixed(a + b, r)
  {
    Regroup(a, b, r.0);
  }
}
