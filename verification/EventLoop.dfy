/**
 The select-based event loop: the fd table, the three select sets, select_n and
 the list of pending events, kept consistent while callbacks install, change and
 remove fdevents.  Loop values are the specification; the class has the loops.
 */
module EventLoop {
  import opened Basics

  type Ref = nat
  type Fd = nat

  /** The bits of FDE_EVENTMASK. */
  datatype Event = Read | Write | Error | Timeout | DontClose

  /** An fdevent: the low byte of its state, two state flags, and its pending events. */
  datatype Fde = Fde(fd: Fd, wanted: set<Event>, active: bool, pending: bool, events: set<Event>)

  datatype Loop = Loop(
    fdes: map<Ref, Fde>,
    table: seq<Option<Ref>>,    // fd_table, of length fd_table_max
    rfds: set<Fd>,
    wfds: set<Fd>,
    efds: set<Fd>,
    selectN: nat,
    pending: seq<Ref>)

  // ----- consistency

  predicate Registered(l: Loop, x: Fd)
  {
    x < |l.table| && l.table[x].Some? && l.table[x].value in l.fdes
  }

  /** The select set of one event bit holds exactly the registered fds that want it. */
  ghost predicate SetMatches(l: Loop, s: set<Fd>, bit: Event)
  {
    forall x: Fd :: x in s <==> Registered(l, x) && bit in l.fdes[l.table[x].value].wanted
  }

  ghost predicate TableOk(l: Loop)
  {
    && l.selectN <= |l.table|
    && (forall x: Fd :: x < |l.table| && l.table[x].Some? ==>
          x < l.selectN && l.table[x].value in l.fdes
          && l.fdes[l.table[x].value].active && l.fdes[l.table[x].value].fd == x)
    && (forall r :: r in l.fdes && l.fdes[r].active ==>
          l.fdes[r].fd < |l.table| && l.table[l.fdes[r].fd] == Some(r))
  }

  /** Linked in the pending list iff marked pending iff there are events; and only active ones. */
  ghost predicate PendingOk(fdes: map<Ref, Fde>, pending: seq<Ref>)
  {
    && NoDup(pending)
    && (forall r :: r in pending <==> r in fdes && fdes[r].pending)
    && (forall r :: r in fdes ==> (fdes[r].pending <==> fdes[r].events != {}) && (fdes[r].pending ==> fdes[r].active))
  }

  ghost predicate Valid(l: Loop)
  {
    && TableOk(l)
    && SetMatches(l, l.rfds, Read) && SetMatches(l, l.wfds, Write) && SetMatches(l, l.efds, Error)
    && PendingOk(l.fdes, l.pending)
  }

  // ----- installing, changing and removing

  function Bit(s: set<Fd>, x: Fd, on: bool): (r: set<Fd>)
  {
    if on then s + {x} else s - {x}
  }

  /** fd_table_max after doubling from at least 256 until fd fits. */
  function Grown(size: nat, fd: Fd): (r: nat)
    requires size > 0
    ensures r > fd && r >= size && (r == size || r <= 2 * fd)
    decreases fd + 1 - size
  {
    if fd < size then size else Grown(2 * size, fd)
  }

  function Enlarged(table: seq<Option<Ref>>, fd: Fd): (r: seq<Option<Ref>>)
    ensures |r| > fd && |r| >= |table|
    ensures forall i :: 0 <= i < |r| ==> r[i] == if i < |table| then table[i] else None
  {
    if fd < |table| then table
    else
      var size := Grown(if |table| == 0 then 256 else |table|, fd);
      table + seq(size - |table|, _ => None)
  }

  /** fdevent_install on a freed or never used fdevent r, for an fd that is not registered. */
  function Installed(l: Loop, r: Ref, fd: Fd): (m: Loop)
  {
    var t := Enlarged(l.table, fd);
    l.(fdes := l.fdes[r := Fde(fd, {}, true, false, {})],
       table := t[fd := Some(r)],
       selectN := if fd >= l.selectN then fd + 1 else l.selectN)
  }

  /** The highest registered fd below n, or 0. */
  function Highest(table: seq<Option<Ref>>, n: nat): (r: nat)
    requires n <= |table|
    ensures forall x :: r < x < n ==> table[x] == None
    ensures r == 0 || (r < n && table[r].Some?)
  {
    if n == 0 then 0
    else if table[n - 1].Some? then n - 1
    else Highest(table, n - 1)
  }

  /** fdevent_remove on an active fdevent; select_n is recomputed before r leaves the table. */
  function Removed(l: Loop, r: Ref): (m: Loop)
    requires r in l.fdes && l.fdes[r].fd < |l.table| && l.selectN <= |l.table|
  {
    var x := l.fdes[r].fd;
    l.(fdes := l.fdes[r := l.fdes[r].(wanted := {}, active := false, pending := false, events := {})],
       table := l.table[x := None],
       rfds := l.rfds - {x}, wfds := l.wfds - {x}, efds := l.efds - {x},
       selectN := Highest(l.table, l.selectN) + 1,
       pending := Minus(l.pending, r))
  }

  /** fdevent_set: the select sets follow if the fdevent is active; pending events that are now wanted are dropped. */
  function Changed(l: Loop, r: Ref, events: set<Event>): (m: Loop)
    requires r in l.fdes
  {
    var f := l.fdes[r];
    if f.wanted == events then l
    else
      var x := f.fd;
      var left := if f.pending then f.events - events else f.events;
      l.(fdes := l.fdes[r := f.(wanted := events, events := left, pending := f.pending && left != {})],
         rfds := if f.active then Bit(l.rfds, x, Read in events) else l.rfds,
         wfds := if f.active then Bit(l.wfds, x, Write in events) else l.wfds,
         efds := if f.active then Bit(l.efds, x, Error in events) else l.efds,
         pending := if f.pending && left == {} then Minus(l.pending, r) else l.pending)
  }

  /**
   The comment in fdevent_set promises that no event is signalled that is no longer
   wanted.  It clears the wanted ones instead, so the promise is kept exactly when
   everything pending is wanted afterwards, and then nothing stays pending.
   */
  lemma UnwantedKept(l: Loop, r: Ref, events: set<Event>)
    requires r in l.fdes && l.fdes[r].pending && l.fdes[r].wanted != events
    ensures Changed(l, r, events).fdes[r].events <= events <==> l.fdes[r].events <= events
    ensures l.fdes[r].events <= events ==> Changed(l, r, events).fdes[r].events == {}
  {
  }

  /** Giving up Write with both bits pending: Write is signalled after all, Read is not. */
  lemma UnwantedSignalled(l: Loop, r: Ref)
    requires r in l.fdes && l.fdes[r] == Fde(l.fdes[r].fd, {Read, Write}, true, true, {Read, Write})
    ensures Changed(l, r, {Read}).fdes[r].events == {Write}
  {
  }

  /** The head of the pending list is unlinked, unmarked and about to be called. */
  function Dequeued(l: Loop): (m: Loop)
    requires l.pending != [] && l.pending[0] in l.fdes
  {
    var r := l.pending[0];
    l.(fdes := l.fdes[r := l.fdes[r].(pending := false, events := {})], pending := l.pending[1..])
  }

  // ----- what the operations do, fdevent by fdevent

  /** From l to m no fdevent but r changes, in itself or in the select sets. */
  ghost predicate OnlyTouches(l: Loop, m: Loop, r: Ref)
  {
    && (forall q :: q != r ==> (q in m.fdes <==> q in l.fdes))
    && (forall q :: q != r && q in l.fdes ==> m.fdes[q] == l.fdes[q])
    && (forall q :: q != r && q in l.fdes && l.fdes[q].active ==>
          var x := l.fdes[q].fd;
          (x in m.rfds <==> x in l.rfds) && (x in m.wfds <==> x in l.wfds) && (x in m.efds <==> x in l.efds))
  }

  /** Installed, r is active on its fd and wants nothing; the pending list and all others stay. */
  lemma InstalledExactly(l: Loop, r: Ref, fd: Fd)
    requires Valid(l) && (r in l.fdes ==> !l.fdes[r].active) && (fd < |l.table| ==> l.table[fd] == None)
    ensures var m := Installed(l, r, fd);
            && r in m.fdes && m.fdes[r] == Fde(fd, {}, true, false, {})
            && Registered(m, fd) && m.table[fd] == Some(r) && fd < m.selectN
            && fd !in m.rfds + m.wfds + m.efds
            && m.pending == l.pending && OnlyTouches(l, m, r)
  {
    InstalledValid(l, r, fd);
    var m := Installed(l, r, fd);
    assert SetMatches(m, m.rfds, Read) && SetMatches(m, m.wfds, Write) && SetMatches(m, m.efds, Error);
  }

  /** Removed, r is inactive with nothing pending, its fd is in no set and not registered, and all others stay. */
  lemma RemovedExactly(l: Loop, r: Ref)
    requires Valid(l) && r in l.fdes && l.fdes[r].active
    ensures var m, x := Removed(l, r), l.fdes[r].fd;
            && Idle(m, r) && m.fdes[r].events == {} && r !in m.pending
            && !Registered(m, x) && x !in m.rfds + m.wfds + m.efds
            && m.pending == Minus(l.pending, r) && OnlyTouches(l, m, r)
  {
    MinusMember(l.pending, r, r);
  }

  /** Set on an active fdevent, its fd is in each select set exactly if it wants that event now; all others stay. */
  lemma ChangedExactly(l: Loop, r: Ref, events: set<Event>)
    requires Valid(l) && r in l.fdes && l.fdes[r].active
    ensures var m, x := Changed(l, r, events), l.fdes[r].fd;
            && r in m.fdes && m.fdes[r].wanted == events && m.fdes[r].active && m.fdes[r].fd == x
            && (x in m.rfds <==> Read in events) && (x in m.wfds <==> Write in events)
            && (x in m.efds <==> Error in events)
            && m.table == l.table && m.selectN == l.selectN && OnlyTouches(l, m, r)
  {
    ChangedValid(l, r, events);
    var m := Changed(l, r, events);
    assert Registered(m, l.fdes[r].fd);
  }

  /** The callback about to run is off the list, with no events left; the rest of the list and all others stay. */
  lemma DequeuedExactly(l: Loop)
    requires Valid(l) && l.pending != []
    ensures var m, r := Dequeued(l), l.pending[0];
            && m.pending == l.pending[1..] && r !in m.pending
            && m.fdes[r] == l.fdes[r].(events := {}, pending := false) && OnlyTouches(l, m, r)
            && m.table == l.table && m.selectN == l.selectN
  {
  }

  lemma InstalledTable(l: Loop, r: Ref, fd: Fd)
    requires Valid(l) && (r in l.fdes ==> !l.fdes[r].active)
    requires fd < |l.table| ==> l.table[fd] == None
    ensures TableOk(Installed(l, r, fd)) && PendingOk(Installed(l, r, fd).fdes, l.pending)
  {
  }

  lemma InstalledSets(l: Loop, r: Ref, fd: Fd, s: set<Fd>, bit: Event)
    requires TableOk(l) && SetMatches(l, s, bit) && (r in l.fdes ==> !l.fdes[r].active)
    requires fd < |l.table| ==> l.table[fd] == None
    ensures SetMatches(Installed(l, r, fd), s, bit)
  {
  }

  lemma InstalledValid(l: Loop, r: Ref, fd: Fd)
    requires Valid(l) && (r in l.fdes ==> !l.fdes[r].active)
    requires fd < |l.table| ==> l.table[fd] == None
    ensures Valid(Installed(l, r, fd))
  {
    InstalledTable(l, r, fd);
    InstalledSets(l, r, fd, l.rfds, Read);
    InstalledSets(l, r, fd, l.wfds, Write);
    InstalledSets(l, r, fd, l.efds, Error);
  }

  lemma RemovedTable(l: Loop, r: Ref)
    requires TableOk(l) && r in l.fdes && l.fdes[r].active
    ensures TableOk(Removed(l, r))
  {
  }

  lemma RemovedSets(l: Loop, r: Ref, s: set<Fd>, bit: Event)
    requires TableOk(l) && SetMatches(l, s, bit) && r in l.fdes && l.fdes[r].active
    ensures SetMatches(Removed(l, r), s - {l.fdes[r].fd}, bit)
  {
  }

  lemma UnlinkPending(fdes: map<Ref, Fde>, pending: seq<Ref>, r: Ref, f: Fde)
    requires PendingOk(fdes, pending) && r in fdes && !f.pending && f.events == {}
    ensures PendingOk(fdes[r := f], Minus(pending, r))
  {
    MinusNoDup(pending, r);
    forall x
      ensures x in Minus(pending, r) <==> x in pending && x != r
    {
      MinusMember(pending, r, x);
    }
  }

  lemma RemovedValid(l: Loop, r: Ref)
    requires Valid(l) && r in l.fdes && l.fdes[r].active
    ensures Valid(Removed(l, r))
  {
    RemovedTable(l, r);
    RemovedSets(l, r, l.rfds, Read);
    RemovedSets(l, r, l.wfds, Write);
    RemovedSets(l, r, l.efds, Error);
    UnlinkPending(l.fdes, l.pending, r, Removed(l, r).fdes[r]);
  }

  lemma ChangedSets(l: Loop, r: Ref, events: set<Event>, s: set<Fd>, bit: Event)
    requires TableOk(l) && SetMatches(l, s, bit) && r in l.fdes
    ensures var f := l.fdes[r];
            SetMatches(Changed(l, r, events),
                       if f.wanted == events || !f.active then s else Bit(s, f.fd, bit in events), bit)
  {
  }

  lemma ChangedPending(l: Loop, r: Ref, events: set<Event>)
    requires PendingOk(l.fdes, l.pending) && r in l.fdes
    ensures PendingOk(Changed(l, r, events).fdes, Changed(l, r, events).pending)
  {
    var f := l.fdes[r];
    if f.wanted != events && f.pending && f.events - events == {} {
      UnlinkPending(l.fdes, l.pending, r, Changed(l, r, events).fdes[r]);
    }
  }

  lemma ChangedValid(l: Loop, r: Ref, events: set<Event>)
    requires Valid(l) && r in l.fdes
    ensures Valid(Changed(l, r, events))
  {
    ChangedSets(l, r, events, l.rfds, Read);
    ChangedSets(l, r, events, l.wfds, Write);
    ChangedSets(l, r, events, l.efds, Error);
    ChangedPending(l, r, events);
  }

  /** The callback about to run belongs to an active fdevent with events. */
  lemma DequeuedValid(l: Loop)
    requires Valid(l) && l.pending != []
    ensures l.pending[0] in l.fdes && l.fdes[l.pending[0]].active && l.fdes[l.pending[0]].events != {}
    ensures Valid(Dequeued(l))
  {
    var r, m := l.pending[0], Dequeued(l);
    DequeuedSets(l, l.rfds, Read);
    DequeuedSets(l, l.wfds, Write);
    DequeuedSets(l, l.efds, Error);
  }

  lemma DequeuedSets(l: Loop, s: set<Fd>, bit: Event)
    requires SetMatches(l, s, bit) && l.pending != [] && l.pending[0] in l.fdes
    ensures SetMatches(Dequeued(l), s, bit)
  {
  }

  // ----- collecting what select found

  /** The three sets as select, or the fd check after a failure, leaves them. */
  datatype Ready = Ready(r: set<Fd>, w: set<Fd>, e: set<Fd>)

  function Found(q: Ready, x: Fd): (ev: set<Event>)
  {
    (if x in q.r then {Read} else {}) + (if x in q.w then {Write} else {}) + (if x in q.e then {Error} else {})
  }

  lemma FoundExactly(q: Ready, x: Fd)
    ensures var ev := Found(q, x);
            && (Read in ev <==> x in q.r) && (Write in ev <==> x in q.w) && (Error in ev <==> x in q.e)
            && Timeout !in ev && DontClose !in ev
  {
  }

  /** One turn of the scan: fd x. */
  function ScanOne(l: Loop, q: Ready, x: Fd): (m: Loop)
  {
    if Found(q, x) == {} || !Registered(l, x) then l
    else
      var r := l.table[x].value;
      var f := l.fdes[r];
      l.(fdes := l.fdes[r := f.(events := f.events + Found(q, x), pending := true)],
         pending := if f.pending then l.pending else l.pending + [r])
  }

  /** The scan of all fds from i up to n. */
  function Scan(l: Loop, q: Ready, i: nat, n: nat): (m: Loop)
    decreases n - i
  {
    if i >= n then l else Scan(ScanOne(l, q, i), q, i + 1, n)
  }

  lemma ScanOneSets(l: Loop, q: Ready, x: Fd, s: set<Fd>, bit: Event)
    requires SetMatches(l, s, bit)
    ensures SetMatches(ScanOne(l, q, x), s, bit)
  {
  }

  lemma ScanOneValid(l: Loop, q: Ready, x: Fd)
    requires Valid(l)
    ensures Valid(ScanOne(l, q, x))
  {
    ScanOneSets(l, q, x, l.rfds, Read);
    ScanOneSets(l, q, x, l.wfds, Write);
    ScanOneSets(l, q, x, l.efds, Error);
  }

  lemma {:induction false} ScanValid(l: Loop, q: Ready, i: nat, n: nat)
    requires Valid(l)
    ensures Valid(Scan(l, q, i, n))
    decreases n - i
  {
    if i < n {
      ScanOneValid(l, q, i);
      ScanValid(ScanOne(l, q, i), q, i + 1, n);
    }
  }

  /** Fdevent f after the bits ev were delivered to it. */
  function Given(f: Fde, ev: set<Event>): (g: Fde)
  {
    f.(events := f.events + ev, pending := f.pending || ev != {})
  }

  lemma ScanOneDelivers(l: Loop, q: Ready, x: Fd, r: Ref)
    requires Valid(l) && r in l.fdes && l.fdes[r].active
    ensures var m, f := ScanOne(l, q, x), l.fdes[r];
            && r in m.fdes && m.fdes[r] == (if f.fd == x then Given(f, Found(q, x)) else f)
            && m.table == l.table && m.selectN == l.selectN
  {
  }

  /** What a full scan delivers to fdevent r: exactly its own bits, nothing else changes. */
  lemma {:induction false} ScanDelivers(l: Loop, q: Ready, i: nat, n: nat, r: Ref)
    requires Valid(l) && r in l.fdes && l.fdes[r].active
    ensures var m, f := Scan(l, q, i, n), l.fdes[r];
            && r in m.fdes && m.fdes[r] == (if i <= f.fd < n then Given(f, Found(q, f.fd)) else f)
            && m.table == l.table && m.selectN == l.selectN
    decreases n - i
  {
    if i < n {
      ScanOneValid(l, q, i);
      ScanOneDelivers(l, q, i, r);
      ScanDelivers(ScanOne(l, q, i), q, i + 1, n, r);
    }
  }

  /** The fdevents that a scan from i to n puts on the pending list, in the order of their fds. */
  function Additions(l: Loop, q: Ready, i: nat, n: nat): (rs: seq<Ref>)
    decreases n - i
  {
    if i >= n then []
    else
      (if Found(q, i) != {} && Registered(l, i) && !l.fdes[l.table[i].value].pending
       then [l.table[i].value] else [])
      + Additions(l, q, i + 1, n)
  }

  /** The additions from i on do not depend on fds below i. */
  lemma {:induction false} AdditionsSame(l: Loop, m: Loop, q: Ready, i: nat, n: nat)
    requires m.table == l.table
    requires forall x :: i <= x < n ==> (Registered(l, x) <==> Registered(m, x))
    requires forall x :: i <= x < n && Registered(l, x) && Registered(m, x) ==>
               m.fdes[m.table[x].value].pending == l.fdes[l.table[x].value].pending
    ensures Additions(m, q, i, n) == Additions(l, q, i, n)
    decreases n - i
  {
    if i < n {
      AdditionsSame(l, m, q, i + 1, n);
    }
  }

  lemma {:induction false} ScanAppends(l: Loop, q: Ready, i: nat, n: nat)
    requires Valid(l)
    ensures Scan(l, q, i, n).pending == l.pending + Additions(l, q, i, n)
    decreases n - i
  {
    if i < n {
      var m := ScanOne(l, q, i);
      ScanOneValid(l, q, i);
      ScanAppends(m, q, i + 1, n);
      AdditionsSame(l, m, q, i + 1, n);
      var first := if m.pending == l.pending then [] else [l.table[i].value];
      assert m.pending == l.pending + first;
      Regroup(l.pending, first, Additions(l, q, i + 1, n));
    }
  }

  /** Additions are the active fdevents with a bit and not yet pending, by increasing fd. */
  lemma {:induction false} AdditionsExactly(l: Loop, q: Ready, i: nat, n: nat)
    requires Valid(l)
    ensures var rs := Additions(l, q, i, n);
            && (forall r :: r in rs <==>
                  r in l.fdes && l.fdes[r].active && i <= l.fdes[r].fd < n && !l.fdes[r].pending
                  && Found(q, l.fdes[r].fd) != {})
            && (forall j, k :: 0 <= j < k < |rs| ==>
                  rs[j] in l.fdes && rs[k] in l.fdes && l.fdes[rs[j]].fd < l.fdes[rs[k]].fd)
    decreases n - i
  {
    if i < n {
      AdditionsExactly(l, q, i + 1, n);
    }
  }

  // ----- counting down

  /** How many fds in [i, n) are in s. */
  function Bits(s: set<Fd>, i: nat, n: nat): (c: nat)
    decreases n - i
  {
    if i >= n then 0 else Flag(i in s) + Bits(s, i + 1, n)
  }

  function AllBits(q: Ready, i: nat, n: nat): (c: nat)
  {
    Bits(q.r, i, n) + Bits(q.w, i, n) + Bits(q.e, i, n)
  }

  /** Once no bit is left, the rest of the scan does nothing. */
  lemma {:induction false} ScanNothing(l: Loop, q: Ready, i: nat, n: nat)
    requires AllBits(q, i, n) == 0
    ensures Scan(l, q, i, n) == l
    decreases n - i
  {
    if i < n {
      ScanNothing(l, q, i + 1, n);
    }
  }

  // ----- the loop itself

  /** How select returns: with the sets it leaves, or with an error. */
  datatype Select = Selected(q: Ready) | Interrupted | BadFd | OtherError

  /** The registered fds that fcntl rejects. */
  function BadOnes(l: Loop, bad: set<Fd>, n: nat): (s: set<Fd>)
    ensures forall x :: x in s <==> x in bad && x < n && Registered(l, x)
  {
    set x | x in bad && x < n && Registered(l, x)
  }

  /** fdevent_process, as a full scan of what there is to deliver. */
  function Processed(l: Loop, sel: Select, bad: set<Fd>): (m: Loop)
  {
    match sel
    case Interrupted => l
    case OtherError => l
    case BadFd => Scan(l, Ready(BadOnes(l, bad, l.selectN), {}, {}), 0, l.selectN)
    case Selected(q) =>
      if AllBits(q, 0, l.selectN) > 0 then Scan(l, q, 0, l.selectN)
      else Scan(l, q.(r := q.r + BadOnes(l, bad, l.selectN)), 0, l.selectN)
  }

  /** select reports only fds it was asked about. */
  ghost predicate Asked(l: Loop, sel: Select)
  {
    sel.Selected? ==> sel.q.r <= l.rfds && sel.q.w <= l.wfds && sel.q.e <= l.efds
  }

  lemma ProcessedValid(l: Loop, sel: Select, bad: set<Fd>)
    requires Valid(l)
    ensures Valid(Processed(l, sel, bad))
  {
    var bads := BadOnes(l, bad, l.selectN);
    ScanValid(l, Ready(bads, {}, {}), 0, l.selectN);
    if sel.Selected? {
      ScanValid(l, sel.q, 0, l.selectN);
      ScanValid(l, sel.q.(r := sel.q.r + bads), 0, l.selectN);
    }
  }

  /** The events that fdevent_process owes an fdevent on fd x. */
  function Owed(sel: Select, bad: set<Fd>, x: Fd): (ev: set<Event>)
  {
    match sel
    case Interrupted => {}
    case OtherError => {}
    case BadFd => if x in bad then {Read} else {}
    case Selected(q) =>
      if q.r + q.w + q.e != {} then Found(q, x)
      else if x in bad then {Read} else {}
  }

  /** What Processed scans for. */
  function Sought(l: Loop, sel: Select, bad: set<Fd>): (q: Ready)
  {
    match sel
    case Selected(q) =>
      if AllBits(q, 0, l.selectN) > 0 then q else q.(r := q.r + BadOnes(l, bad, l.selectN))
    case BadFd => Ready(BadOnes(l, bad, l.selectN), {}, {})
    case _ => Ready({}, {}, {})
  }

  lemma {:induction false} SomeBits(s: set<Fd>, i: nat, n: nat, x: Fd)
    requires x in s && i <= x < n
    ensures Bits(s, i, n) > 0
    decreases n - i
  {
    if x != i {
      SomeBits(s, i + 1, n, x);
    }
  }

  /** Select found something exactly if a bit below select_n is set. */
  lemma FoundSomething(l: Loop, q: Ready)
    requires Valid(l) && Asked(l, Selected(q))
    ensures AllBits(q, 0, l.selectN) > 0 <==> q.r + q.w + q.e != {}
  {
    if q.r + q.w + q.e != {} {
      var x :| x in q.r + q.w + q.e;
      assert Registered(l, x);
      if x in q.r {
        SomeBits(q.r, 0, l.selectN, x);
      } else if x in q.w {
        SomeBits(q.w, 0, l.selectN, x);
      } else {
        SomeBits(q.e, 0, l.selectN, x);
      }
    } else {
      BitsOfNone(0, l.selectN);
      assert q.r == {} && q.w == {} && q.e == {};
    }
  }

  lemma SoughtIsOwed(l: Loop, sel: Select, bad: set<Fd>, x: Fd)
    requires Valid(l) && Asked(l, sel) && Registered(l, x)
    ensures Found(Sought(l, sel, bad), x) == Owed(sel, bad, x)
  {
    if sel.Selected? {
      FoundSomething(l, sel.q);
    }
  }

  lemma ProcessedIsScan(l: Loop, sel: Select, bad: set<Fd>)
    ensures Processed(l, sel, bad) == Scan(l, Sought(l, sel, bad), 0, l.selectN)
  {
    if sel.Interrupted? || sel.OtherError? {
      BitsOfNone(0, l.selectN);
      ScanNothing(l, Ready({}, {}, {}), 0, l.selectN);
    }
  }

  /**
   fdevent_process, exactly: every active fdevent gets the events it is owed on top of
   those it had, and nothing else about it changes; it is pending if and only if it
   has events, and then once in the list.
   */
  lemma ProcessDelivers(l: Loop, sel: Select, bad: set<Fd>, r: Ref)
    requires Valid(l) && Asked(l, sel) && r in l.fdes && l.fdes[r].active
    ensures var m, f := Processed(l, sel, bad), l.fdes[r];
            && r in m.fdes && m.fdes[r] == Given(f, Owed(sel, bad, f.fd))
            && (r in m.pending <==> m.fdes[r].events != {}) && NoDup(m.pending)
            && m.table == l.table && m.selectN == l.selectN
  {
    var x := l.fdes[r].fd;
    assert Registered(l, x) && x < l.selectN;
    ProcessedIsScan(l, sel, bad);
    SoughtIsOwed(l, sel, bad, x);
    ScanDelivers(l, Sought(l, sel, bad), 0, l.selectN, r);
    ProcessedValid(l, sel, bad);
  }

  /** What was pending keeps its place; behind it come the fdevents with new events, by increasing fd. */
  lemma ProcessOrders(l: Loop, sel: Select, bad: set<Fd>) returns (rs: seq<Ref>)
    requires Valid(l) && Asked(l, sel)
    ensures Processed(l, sel, bad).pending == l.pending + rs
    ensures forall r :: r in rs <==>
              r in l.fdes && l.fdes[r].active && !l.fdes[r].pending && Owed(sel, bad, l.fdes[r].fd) != {}
    ensures forall j, k :: 0 <= j < k < |rs| ==>
              rs[j] in l.fdes && rs[k] in l.fdes && l.fdes[rs[j]].fd < l.fdes[rs[k]].fd
  {
    var q := Sought(l, sel, bad);
    ProcessedIsScan(l, sel, bad);
    ScanAppends(l, q, 0, l.selectN);
    AdditionsExactly(l, q, 0, l.selectN);
    rs := Additions(l, q, 0, l.selectN);
    forall r | r in l.fdes && l.fdes[r].active
      ensures Found(q, l.fdes[r].fd) == Owed(sel, bad, l.fdes[r].fd) && l.fdes[r].fd < l.selectN
    {
      assert Registered(l, l.fdes[r].fd);
      SoughtIsOwed(l, sel, bad, l.fdes[r].fd);
    }
  }

  class Poller {
    var fdes: map<Ref, Fde>
    var table: seq<Option<Ref>>
    var rfds: set<Fd>
    var wfds: set<Fd>
    var efds: set<Fd>
    var selectN: nat
    var pending: seq<Ref>

    ghost function St(): (l: Loop)
      reads this
    {
      Loop(fdes, table, rfds, wfds, efds, selectN, pending)
    }

    constructor ()
      ensures Valid(St()) && St() == Loop(map[], [], {}, {}, {}, 0, [])
    {
      fdes, table, selectN, pending := map[], [], 0, [];
      rfds, wfds, efds := {}, {}, {};
    }

    /** The growing part of fdevent_register. */
    method GrowTable(fd: Fd)
      modifies this`table
      ensures table == Enlarged(old(table), fd)
    {
      if fd >= |table| {
        var size := if |table| == 0 then 256 else |table|;
        while size <= fd
          invariant 0 < size && |table| <= size
          invariant Grown(if |table| == 0 then 256 else |table|, fd) == Grown(size, fd)
          decreases fd + 1 - size
        {
          size := 2 * size;
        }
        table := table + seq(size - |table|, _ => None);
      }
    }

    /** fdevent_install: grow the table by doubling, register, and raise select_n. */
    method Install(r: Ref, fd: Fd)
      requires Valid(St()) && (r in fdes ==> !fdes[r].active)
      requires if fd < |table| then table[fd] == None else fd <= 32000
      modifies this`fdes, this`table, this`selectN
      ensures Valid(St()) && St() == Installed(old(St()), r, fd)
    {
      InstalledValid(St(), r, fd);
      fdes := fdes[r := Fde(fd, {}, true, false, {})];
      GrowTable(fd);
      table := table[fd := Some(r)];
      if fd >= selectN {
        selectN := fd + 1;
      }
    }

    /** The loop of fdevent_disconnect over the table. */
    method HighestFd() returns (n: nat)
      requires selectN <= |table|
      ensures n == Highest(table, selectN)
    {
      n := 0;
      var i := 0;
      while i < selectN
        invariant i <= selectN && n == Highest(table, i)
      {
        if table[i].Some? {
          n := i;
        }
        i := i + 1;
      }
    }

    /** fdevent_remove on an active fdevent. */
    method Remove(r: Ref)
      requires Valid(St()) && r in fdes && fdes[r].active
      modifies this
      ensures Valid(St()) && St() == Removed(old(St()), r)
    {
      RemovedValid(St(), r);
      var f := fdes[r];
      Unpend(r);
      rfds, wfds, efds := rfds - {f.fd}, wfds - {f.fd}, efds - {f.fd};
      var n := HighestFd();
      selectN := n + 1;
      table := table[f.fd := None];
      fdes := fdes[r := f.(wanted := {}, active := false, pending := false, events := {})];
    }

    /** fdevent_plist_remove, if r is pending. */
    method Unpend(r: Ref)
      requires r in fdes && (r in pending ==> fdes[r].pending)
      modifies this`pending
      ensures pending == Minus(old(pending), r)
    {
      MinusAbsent(pending, r);
      if fdes[r].pending {
        pending := Minus(pending, r);
      }
    }

    /** fdevent_set. */
    method Set(r: Ref, events: set<Event>)
      requires Valid(St()) && r in fdes
      modifies this
      ensures Valid(St()) && St() == Changed(old(St()), r, events)
    {
      ChangedValid(St(), r, events);
      var f := fdes[r];
      if f.wanted == events {
        return;
      }
      if f.active {
        rfds := Bit(rfds, f.fd, Read in events);
        wfds := Bit(wfds, f.fd, Write in events);
        efds := Bit(efds, f.fd, Error in events);
      }
      f := f.(wanted := events);
      if f.pending {
        f := f.(events := f.events - events);
        if f.events == {} {
          pending := Minus(pending, r);
          f := f.(pending := false);
        }
      }
      fdes := fdes[r := f];
    }

    /** fdevent_fd_check: mark the registered fds that are bad, and count them. */
    method FdCheck(bad: set<Fd>, rfd: set<Fd>) returns (marked: set<Fd>, n: nat)
      requires Valid(St())
      ensures marked == rfd + BadOnes(St(), bad, selectN)
      ensures n == Bits(BadOnes(St(), bad, selectN), 0, selectN)
    {
      marked, n := rfd, 0;
      ghost var all := BadOnes(St(), bad, selectN);
      var i := 0;
      while i < selectN
        invariant i <= selectN
        invariant forall x :: x in marked <==> x in rfd || (x in all && x < i)
        invariant n + Bits(all, i, selectN) == Bits(all, 0, selectN)
      {
        if table[i].Some? && i in bad {
          marked := marked + {i};
          n := n + 1;
        }
        i := i + 1;
      }
    }

    /** One turn of the scan: the events of fd x are queued; seen counts its bits. */
    method CollectOne(q: Ready, x: Fd) returns (seen: nat)
      requires Valid(St()) && (Found(q, x) != {} ==> Registered(St(), x))
      modifies this`fdes, this`pending
      ensures St() == ScanOne(old(St()), q, x)
      ensures seen == Flag(x in q.r) + Flag(x in q.w) + Flag(x in q.e)
    {
      var events := {};
      seen := 0;
      if x in q.r {
        events, seen := events + {Read}, seen + 1;
      }
      if x in q.w {
        events, seen := events + {Write}, seen + 1;
      }
      if x in q.e {
        events, seen := events + {Error}, seen + 1;
      }
      assert events == Found(q, x);
      if events != {} {
        assert table[x].Some?;
        var r := table[x].value;
        var f := fdes[r];
        fdes := fdes[r := f.(events := f.events + events, pending := true)];
        if !f.pending {
          pending := pending + [r];
        }
      }
    }

    /** The scan that stops as soon as n bits have been seen. */
    method Collect(q: Ready, count: nat)
      requires Valid(St()) && count == AllBits(q, 0, selectN)
      requires forall x :: x in q.r + q.w + q.e ==> Registered(St(), x)
      modifies this`fdes, this`pending
      ensures Valid(St()) && St() == Scan(old(St()), q, 0, selectN)
    {
      ScanValid(St(), q, 0, selectN);
      var n, i := count, 0;
      ghost var goal := Scan(St(), q, 0, selectN);
      while i < selectN && n > 0
        invariant i <= selectN && Valid(St()) && n == AllBits(q, i, selectN)
        invariant forall x :: x in q.r + q.w + q.e ==> Registered(St(), x)
        invariant goal == Scan(St(), q, i, selectN)
      {
        ScanOneValid(St(), q, i);
        var seen := CollectOne(q, i);
        n, i := n - seen, i + 1;
      }
      if i < selectN {
        ScanNothing(St(), q, i, selectN);
      }
    }

    /** fdevent_plist_dequeue and fdevent_call_fdfunc: whose callback runs, and with which events. */
    method CallNext() returns (r: Option<Ref>, events: set<Event>)
      requires Valid(St())
      modifies this`fdes, this`pending
      ensures Valid(St())
      ensures old(pending) == [] ==> r == None && St() == old(St())
      ensures old(pending) != [] ==>
                && r == Some(old(pending)[0]) && r.value in old(fdes) && old(fdes)[r.value].active
                && events == old(fdes)[r.value].events && events != {}
                && St() == Dequeued(old(St()))
    {
      if pending == [] {
        return None, {};
      }
      DequeuedValid(St());
      var node := pending[0];
      pending := pending[1..];
      var f := fdes[node];
      r, events := Some(node), f.events;
      fdes := fdes[node := f.(events := {}, pending := false)];
    }

    /** fdevent_process: select, recover from its failure, and queue what it found. */
    method Process(sel: Select, bad: set<Fd>)
      requires Valid(St()) && Asked(St(), sel)
      modifies this`fdes, this`pending
      ensures Valid(St()) && St() == Processed(old(St()), sel, bad)
    {
      if sel.Interrupted? || sel.OtherError? {
        return;
      }
      var q := if sel.Selected? then sel.q else Ready({}, {}, {});
      var n := if sel.Selected? then AllBits(q, 0, selectN) else 0;
      if n == 0 {
        BitsOfNone(0, selectN);
        NothingFound(St(), q);
        var marked, m := FdCheck(bad, q.r);
        assert marked == BadOnes(St(), bad, selectN);
        q, n := q.(r := marked), m;
      }
      Collect(q, n);
    }
  }

  lemma {:induction false} MinusAbsent(list: seq<Ref>, r: Ref)
    ensures r !in list ==> Minus(list, r) == list
  {
    if list != [] {
      MinusAbsent(list[1..], r);
    }
  }

  lemma {:induction false} NoBits(s: set<Fd>, i: nat, n: nat, x: Fd)
    requires Bits(s, i, n) == 0 && i <= x < n
    ensures x !in s
    decreases n - i
  {
    if x != i {
      NoBits(s, i + 1, n, x);
    }
  }

  lemma {:induction false} BitsOfNone(i: nat, n: nat)
    ensures Bits({}, i, n) == 0
    decreases n - i
  {
    if i < n {
      BitsOfNone(i + 1, n);
    }
  }

  lemma NothingFound(l: Loop, q: Ready)
    requires Valid(l) && Asked(l, Selected(q)) && AllBits(q, 0, l.selectN) == 0
    ensures q == Ready({}, {}, {})
  {
    forall x | x in q.r || x in q.w || x in q.e
      ensures false
    {
      assert Registered(l, x);
      if x in q.r {
        NoBits(q.r, 0, l.selectN, x);
      } else if x in q.w {
        NoBits(q.w, 0, l.selectN, x);
      } else {
        NoBits(q.e, 0, l.selectN, x);
      }
    }
  }

  // ----- callbacks

  /** What happens between two calls of select: the loop calls the next callback, and callbacks act. */
  datatype Op =
    | CallNext
    | InstallFde(r: Ref, fd: Fd)
    | SetFde(r: Ref, events: set<Event>)
    | RemoveFde(r: Ref)

  function Perform(l: Loop, op: Op): (m: Loop)
  {
    match op
    case CallNext => if l.pending != [] && l.pending[0] in l.fdes then Dequeued(l) else l
    case InstallFde(r, fd) =>
      if (r in l.fdes && l.fdes[r].active) || (fd < |l.table| && l.table[fd].Some?) then l
      else Installed(l, r, fd)
    case SetFde(r, events) =>
      if r in l.fdes then Changed(l, r, events) else l
    case RemoveFde(r) =>
      if r in l.fdes && l.fdes[r].active && l.fdes[r].fd < |l.table| && l.selectN <= |l.table|
      then Removed(l, r) else l
  }

  function Round(l: Loop, ops: seq<Op>): (m: Loop)
  {
    if ops == [] then l else Perform(Round(l, ops[..|ops| - 1]), ops[|ops| - 1])
  }

  /** The callbacks that ran, in order. */
  function Called(l: Loop, ops: seq<Op>): (r: seq<Ref>)
  {
    if ops == [] then []
    else
      var before := Round(l, ops[..|ops| - 1]);
      Called(l, ops[..|ops| - 1])
      + if ops[|ops| - 1] == CallNext && before.pending != [] then [before.pending[0]] else []
  }

  lemma PerformValid(l: Loop, op: Op)
    requires Valid(l)
    ensures Valid(Perform(l, op))
  {
    match op
    case CallNext =>
      if l.pending != [] {
        DequeuedValid(l);
      }
    case InstallFde(r, fd) =>
      if !((r in l.fdes && l.fdes[r].active) || (fd < |l.table| && l.table[fd].Some?)) {
        InstalledValid(l, r, fd);
      }
    case SetFde(r, events) =>
      if r in l.fdes {
        ChangedValid(l, r, events);
      }
    case RemoveFde(r) =>
      if r in l.fdes && l.fdes[r].active {
        RemovedValid(l, r);
      }
  }

  lemma {:induction false} RoundValid(l: Loop, ops: seq<Op>)
    requires Valid(l)
    ensures Valid(Round(l, ops))
  {
    if ops != [] {
      RoundValid(l, ops[..|ops| - 1]);
      PerformValid(Round(l, ops[..|ops| - 1]), ops[|ops| - 1]);
    }
  }

  /** Whole runs: rounds of callbacks separated by calls of select. */
  datatype Turn = Turn(sel: Select, bad: set<Fd>, ops: seq<Op>)

  /** The loop after some turns, from l on. */
  function SpinFrom(l: Loop, turns: seq<Turn>): (m: Loop)
  {
    if turns == [] then l
    else
      var t := turns[|turns| - 1];
      Round(Processed(SpinFrom(l, turns[..|turns| - 1]), t.sel, t.bad), t.ops)
  }

  /** The callbacks that ran in those turns. */
  function CalledIn(l: Loop, turns: seq<Turn>): (r: seq<Ref>)
  {
    if turns == [] then []
    else
      var t := turns[|turns| - 1];
      CalledIn(l, turns[..|turns| - 1])
      + Called(Processed(SpinFrom(l, turns[..|turns| - 1]), t.sel, t.bad), t.ops)
  }

  function Spin(turns: seq<Turn>): (m: Loop)
  {
    SpinFrom(Loop(map[], [], {}, {}, {}, 0, []), turns)
  }

  // ----- a removed fdevent stays silent

  /** r is not installed. */
  predicate Idle(l: Loop, r: Ref)
  {
    r in l.fdes ==> !l.fdes[r].active
  }

  predicate Reinstalls(ops: seq<Op>, r: Ref)
  {
    exists i :: 0 <= i < |ops| && ops[i].InstallFde? && ops[i].r == r
  }

  lemma PerformIdle(l: Loop, op: Op, r: Ref)
    requires Valid(l) && Idle(l, r) && !(op.InstallFde? && op.r == r)
    ensures Idle(Perform(l, op), r) && (l.pending != [] ==> l.pending[0] != r)
  {
  }

  lemma {:induction false} RoundIdle(l: Loop, ops: seq<Op>, r: Ref)
    requires Valid(l) && Idle(l, r) && !Reinstalls(ops, r)
    ensures Idle(Round(l, ops), r) && r !in Called(l, ops)
  {
    if ops != [] {
      var front, op := ops[..|ops| - 1], ops[|ops| - 1];
      assert !Reinstalls(front, r) by {
        assert forall i :: 0 <= i < |front| ==> front[i] == ops[i];
      }
      RoundIdle(l, front, r);
      RoundValid(l, front);
      PerformIdle(Round(l, front), op, r);
    }
  }

  lemma {:induction false} ScanIdle(l: Loop, q: Ready, i: nat, n: nat, r: Ref)
    requires Valid(l) && Idle(l, r)
    ensures Idle(Scan(l, q, i, n), r)
    decreases n - i
  {
    if i < n {
      ScanOneValid(l, q, i);
      ScanIdle(ScanOne(l, q, i), q, i + 1, n, r);
    }
  }

  lemma ProcessedIdle(l: Loop, sel: Select, bad: set<Fd>, r: Ref)
    requires Valid(l) && Idle(l, r)
    ensures Idle(Processed(l, sel, bad), r)
  {
    var bads := BadOnes(l, bad, l.selectN);
    ScanIdle(l, Ready(bads, {}, {}), 0, l.selectN, r);
    if sel.Selected? {
      ScanIdle(l, sel.q, 0, l.selectN, r);
      ScanIdle(l, sel.q.(r := sel.q.r + bads), 0, l.selectN, r);
    }
  }

  lemma {:induction false} SpinIdle(l: Loop, turns: seq<Turn>, r: Ref)
    requires Valid(l) && Idle(l, r)
    requires forall i :: 0 <= i < |turns| ==> !Reinstalls(turns[i].ops, r)
    ensures Valid(SpinFrom(l, turns)) && Idle(SpinFrom(l, turns), r) && r !in CalledIn(l, turns)
  {
    if turns != [] {
      var front, t := turns[..|turns| - 1], turns[|turns| - 1];
      SpinIdle(l, front, r);
      var m := SpinFrom(l, front);
      ProcessedValid(m, t.sel, t.bad);
      ProcessedIdle(m, t.sel, t.bad, r);
      RoundIdle(Processed(m, t.sel, t.bad), t.ops, r);
      RoundValid(Processed(m, t.sel, t.bad), t.ops);
    }
  }

  /**
   Once removed, even by another callback of the same round, its own callback does
   not run: not in the rest of that round nor in any later turn, until it is
   installed again.
   */
  lemma RemovedNeverCalled(l: Loop, r: Ref, ops: seq<Op>, turns: seq<Turn>)
    requires Valid(l) && r in l.fdes && l.fdes[r].active && !Reinstalls(ops, r)
    requires forall i :: 0 <= i < |turns| ==> !Reinstalls(turns[i].ops, r)
    ensures var m := Removed(l, r); r !in Called(m, ops) && r !in CalledIn(Round(m, ops), turns)
  {
    RemovedValid(l, r);
    IdleNeverCalled(Removed(l, r), r, ops, turns);
  }

  lemma IdleNeverCalled(l: Loop, r: Ref, ops: seq<Op>, turns: seq<Turn>)
    requires Valid(l) && Idle(l, r) && !Reinstalls(ops, r)
    requires forall i :: 0 <= i < |turns| ==> !Reinstalls(turns[i].ops, r)
    ensures r !in Called(l, ops) && r !in CalledIn(Round(l, ops), turns)
  {
    RoundIdle(l, ops, r);
    RoundValid(l, ops);
    SpinIdle(Round(l, ops), turns, r);
  }

  /** The loop is consistent after every run, so every fd that select can report is in the table. */
  lemma LoopConsistent(turns: seq<Turn>)
    ensures var l := Spin(turns);
            && Valid(l)
            && (forall x :: x in l.rfds + l.wfds + l.efds ==> Registered(l, x) && x < l.selectN <= |l.table|)
            && (forall r :: r in l.pending ==> r in l.fdes && l.fdes[r].active && l.fdes[r].events != {})
  {
    SpinValid(turns);
  }

  lemma {:induction false} SpinValid(turns: seq<Turn>)
    ensures Valid(Spin(turns))
  {
    if turns != [] {
      var front, t := turns[..|turns| - 1], turns[|turns| - 1];
      SpinValid(front);
      ProcessedValid(Spin(front), t.sel, t.bad);
      RoundValid(Processed(Spin(front), t.sel, t.bad), t.ops);
    }
  }
}
