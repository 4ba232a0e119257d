/**
 Client requests: a service name behind a four-digit hexadecimal length, gathered
 from arbitrary chunks by the smart socket, and the host-request syntax that the
 command line prints and the smart socket takes apart again.
 */
module Requests {
  import opened Basics

  const MAX_SERVICE := 1024

  // ----- hexadecimal lengths

  function HexDigit(n: nat): (c: char)
    requires n < 16
  {
    "0123456789abcdef"[n]
  }

  /** The %04x prefix of a length below 2^16. */
  function Hex4(n: nat): (s: string)
    requires n < 0x1_0000
    ensures |s| == 4
  {
    [HexDigit(n / 16 / 16 / 16), HexDigit(n / 16 / 16 % 16), HexDigit(n / 16 % 16), HexDigit(n % 16)]
  }

  /** The value of one digit of either case, or None. */
  function DigitValue(c: char): (r: Option<nat>)
    ensures r.Some? ==> r.value < 16
  {
    if '0' <= c <= '9' then Some((c - '0') as nat)
    else if 'a' <= c <= 'f' then Some((c - 'a') as nat + 10)
    else if 'A' <= c <= 'F' then Some((c - 'A') as nat + 10)
    else None
  }

  const NOT_HEX := 0xffff_ffff

  /** The digits of s appended to n, or NOT_HEX. */
  function HexValue(s: string, n: nat): (r: nat)
  {
    if s == [] then n
    else if DigitValue(s[0]) == None then NOT_HEX
    else HexValue(s[1..], (16 * n + DigitValue(s[0]).value) % 0x1_0000_0000)
  }

  /** unhex, in 32-bit arithmetic. */
  method Unhex(s: string) returns (n: nat)
    ensures n == HexValue(s, 0)
  {
    n := 0;
    for i := 0 to |s|
      invariant HexValue(s, 0) == HexValue(s[i..], n)
    {
      var d := DigitValue(s[i]);
      if d == None {
        return NOT_HEX;
      }
      n := (16 * n + d.value) % 0x1_0000_0000;
    }
  }

  lemma DigitRoundTrip(n: nat)
    requires n < 16
    ensures DigitValue(HexDigit(n)) == Some(n)
  {
  }

  /** One more digit, while the value is small. */
  lemma NextDigit(s: string, n: nat, d: nat)
    requires s != [] && DigitValue(s[0]) == Some(d) && n < 0x1000
    ensures d < 16 && HexValue(s, n) == HexValue(s[1..], 16 * n + d)
  {
  }

  lemma FourDigits(s: string, a: nat, b: nat, c: nat, d: nat)
    requires |s| == 4
    requires DigitValue(s[0]) == Some(a) && DigitValue(s[1]) == Some(b)
    requires DigitValue(s[2]) == Some(c) && DigitValue(s[3]) == Some(d)
    ensures HexValue(s, 0) == 16 * (16 * (16 * a + b) + c) + d
  {
    var s1, s2, s3 := s[1..], s[2..], s[3..];
    assert s1[1..] == s2 && s2[1..] == s3 && s3[1..] == [];
    NextDigit(s, 0, a);
    NextDigit(s1, a, b);
    NextDigit(s2, 16 * a + b, c);
    NextDigit(s3, 16 * (16 * a + b) + c, d);
  }

  lemma HexRoundTrip(n: nat)
    requires n < 0x1_0000
    ensures HexValue(Hex4(n), 0) == n
  {
    var a, b, c, d := n / 16 / 16 / 16, n / 16 / 16 % 16, n / 16 % 16, n % 16;
    DigitRoundTrip(a);
    DigitRoundTrip(b);
    DigitRoundTrip(c);
    DigitRoundTrip(d);
    FourDigits(Hex4(n), a, b, c, d);
  }

  // ----- gathering a request

  /** What the smart socket makes of the bytes it has: wait, give up, or act on a service. */
  datatype Verdict = Wait | Fail | Act(service: string)

  /** A C string ends at its first NUL. */
  function CString(s: string): (r: string)
  {
    if s == [] || s[0] == '\0' then [] else [s[0]] + CString(s[1..])
  }

  function Judge(buf: string): (v: Verdict)
  {
    if |buf| < 4 then Wait
    else
      var n := HexValue(buf[..4], 0);
      if n < 1 || n > MAX_SERVICE then Fail
      else if n + 4 > |buf| then Wait
      else Act(CString(buf[4..n + 4]))
  }

  /** A string with a character that is not a digit is not a number. */
  lemma {:induction false} NotHex(s: string, n: nat, i: nat)
    requires i < |s| && DigitValue(s[i]) == None
    ensures HexValue(s, n) == NOT_HEX
  {
    if DigitValue(s[0]) != None {
      NotHex(s[1..], (16 * n + DigitValue(s[0]).value) % 0x1_0000_0000, i - 1);
    }
  }

  /** A C string is the text before the first NUL. */
  lemma {:induction false} CStringExactly(s: string)
    ensures var r := CString(s); r <= s && '\0' !in r && (|r| < |s| ==> s[|r|] == '\0')
  {
    if s != [] && s[0] != '\0' {
      CStringExactly(s[1..]);
    }
  }

  /**
   The verdict, exactly: wait for four characters; give up if they are not all
   hexadecimal digits or say 0 or more than 1024; else wait for that many more, and
   act on them up to the first NUL.
   */
  lemma JudgeExactly(buf: string)
    ensures if |buf| < 4 then Judge(buf) == Wait
            else if exists i :: 0 <= i < 4 && DigitValue(buf[i]) == None then Judge(buf) == Fail
            else
              var a, b, c, d := DigitValue(buf[0]).value, DigitValue(buf[1]).value,
                                DigitValue(buf[2]).value, DigitValue(buf[3]).value;
              var n := 4096 * a + 256 * b + 16 * c + d;
              if n == 0 || n > 1024 then Judge(buf) == Fail
              else if |buf| < n + 4 then Judge(buf) == Wait
              else Judge(buf).Act? && Judge(buf).service == CString(buf[4..n + 4])
  {
    if |buf| >= 4 {
      var s := buf[..4];
      if exists i :: 0 <= i < 4 && DigitValue(buf[i]) == None {
        var i :| 0 <= i < 4 && DigitValue(buf[i]) == None;
        NotHex(s, 0, i);
      } else {
        FourDigits(s, DigitValue(buf[0]).value, DigitValue(buf[1]).value,
                   DigitValue(buf[2]).value, DigitValue(buf[3]).value);
      }
    }
  }

  class SmartSocket {
    var started: bool     // pkt_first is not null
    var buf: string       // its contents

    ghost predicate Valid()
      reads this
    {
      |buf| <= MAX_PAYLOAD && (!started ==> buf == [])
    }

    constructor ()
      ensures Valid() && !started && buf == []
    {
      started, buf := false, [];
    }

    /** smart_socket_enqueue up to the point where it acts on a complete request. */
    method Enqueue(chunk: string) returns (v: Verdict)
      requires Valid() && |chunk| <= MAX_PAYLOAD
      modifies this
      ensures Valid()
      ensures |old(buf)| + |chunk| > MAX_PAYLOAD ==> v == Fail && buf == old(buf)
      ensures |old(buf)| + |chunk| <= MAX_PAYLOAD ==> buf == old(buf) + chunk && v == Judge(buf)
    {
      if !started {
        started, buf := true, chunk;
      } else {
        if |buf| + |chunk| > MAX_PAYLOAD {
          return Fail;
        }
        buf := buf + chunk;
      }
      if |buf| < 4 {
        return Wait;
      }
      var n := Unhex(buf[..4]);
      if n < 1 || n > MAX_SERVICE {
        return Fail;
      }
      if n + 4 > |buf| {
        return Wait;
      }
      return Act(CString(buf[4..n + 4]));
    }

    /** A handled `transport` request empties the packet and keeps it. */
    method Reset()
      requires Valid()
      modifies this
      ensures Valid() && buf == [] && started == old(started)
    {
      buf := [];
    }
  }

  /** The verdicts on successive chunks, up to and including the first that is not Wait. */
  function Feed(buf: string, chunks: seq<string>): (r: seq<Verdict>)
    decreases |chunks|
  {
    if chunks == [] then []
    else
      var next := buf + chunks[0];
      var v := if |next| > MAX_PAYLOAD then Fail else Judge(next);
      if v == Wait then [v] + Feed(next, chunks[1..]) else [v]
  }

  /** Chunks reach the object one by one until it does something other than wait. */
  method FeedAll(ss: SmartSocket, chunks: seq<string>) returns (vs: seq<Verdict>)
    requires ss.Valid() && forall i :: 0 <= i < |chunks| ==> |chunks[i]| <= MAX_PAYLOAD
    modifies ss
    ensures ss.Valid() && vs == Feed(old(ss.buf), chunks)
  {
    vs := [];
    var i := 0;
    while i < |chunks|
      invariant i <= |chunks| && ss.Valid()
      invariant vs + Feed(ss.buf, chunks[i..]) == Feed(old(ss.buf), chunks)
    {
      ghost var before := ss.buf;
      var v := ss.Enqueue(chunks[i]);
      assert chunks[i..][0] == chunks[i] && chunks[i..][1..] == chunks[i + 1..];
      assert Feed(before, chunks[i..]) == if v == Wait then [v] + Feed(ss.buf, chunks[i + 1..]) else [v];
      Regroup(vs, [v], Feed(ss.buf, chunks[i + 1..]));
      vs := vs + [v];
      if v != Wait {
        return;
      }
      i := i + 1;
    }
    assert chunks[i..] == [];
  }

  function Concat(chunks: seq<string>): (r: string)
  {
    if chunks == [] then [] else chunks[0] + Concat(chunks[1..])
  }

  predicate NulFree(s: string)
  {
    '\0' !in s
  }

  lemma {:induction false} CStringWhole(s: string)
    requires NulFree(s)
    ensures CString(s) == s
  {
    if s != [] {
      CStringWhole(s[1..]);
    }
  }

  /** The bytes a client sends for a service. */
  function Framed(service: string): (r: string)
    requires 1 <= |service| <= MAX_SERVICE
  {
    Hex4(|service|) + service
  }

  /** A proper prefix of a framed request is never acted on, the whole always is. */
  lemma PrefixWaits(service: string, k: nat)
    requires 1 <= |service| <= MAX_SERVICE && NulFree(service) && k <= |service| + 4
    ensures Judge(Framed(service)[..k]) == if k < |service| + 4 then Wait else Act(service)
  {
    var f := Framed(service);
    if k >= 4 {
      assert f[..k][..4] == Hex4(|service|);
      HexRoundTrip(|service|);
      if k == |f| {
        assert f[..k][4..|service| + 4] == service;
        CStringWhole(service);
      }
    }
  }

  function Waits(n: nat): (r: seq<Verdict>)
  {
    seq(n, _ => Wait)
  }

  lemma {:induction false} FeedFrom(service: string, buf: string, chunks: seq<string>)
    requires 1 <= |service| <= MAX_SERVICE && NulFree(service)
    requires buf + Concat(chunks) == Framed(service) && |buf| < |service| + 4
    requires forall i :: 0 <= i < |chunks| ==> chunks[i] != []
    ensures chunks != [] && Feed(buf, chunks) == Waits(|chunks| - 1) + [Act(service)]
    decreases |chunks|
  {
    if chunks == [] {
      assert false;
    } else {
      var next, f := buf + chunks[0], Framed(service);
      assert f == next + Concat(chunks[1..]);
      assert next == f[..|next|];
      PrefixWaits(service, |next|);
      if |next| == |f| {
        ConcatEmpty(chunks[1..]);
        assert Waits(0) + [Act(service)] == [Act(service)];
      } else {
        FeedFrom(service, next, chunks[1..]);
        assert Waits(|chunks| - 1) == [Wait] + Waits(|chunks| - 2);
      }
    }
  }

  lemma {:induction false} ConcatEmpty(chunks: seq<string>)
    requires Concat(chunks) == [] && forall i :: 0 <= i < |chunks| ==> chunks[i] != []
    ensures chunks == []
  {
  }

  /**
   However the bytes of one request are cut into non-empty chunks, the smart socket
   waits on all but the last and acts on that one, with the same service.
   */
  lemma ChunkIndependence(service: string, chunks: seq<string>)
    requires 1 <= |service| <= MAX_SERVICE && NulFree(service)
    requires Concat(chunks) == Framed(service)
    requires forall i :: 0 <= i < |chunks| ==> chunks[i] != []
    ensures chunks != [] && Feed([], chunks) == Waits(|chunks| - 1) + [Act(service)]
  {
    assert [] + Concat(chunks) == Framed(service);
    FeedFrom(service, [], chunks);
  }

  // ----- host requests

  datatype TransportType = Usb | Local | Any | Host

  /** format_host_command. */
  function FormatHostCommand(command: string, ttype: TransportType, serial: Option<string>): (r: string)
  {
    match serial
    case Some(s) => "host-serial:" + s + ":" + command
    case None =>
      (match ttype
       case Usb => "host-usb"
       case Local => "host-local"
       case _ => "host") + ":" + command
  }

  predicate IsDigit(c: char)
  {
    '0' <= c <= '9'
  }

  /** The first position at or after i that is not a digit. */
  function DigitRun(s: string, i: nat): (r: nat)
    requires i <= |s|
    ensures i <= r <= |s|
    ensures forall k :: i <= k < r ==> IsDigit(s[k])
    ensures r < |s| ==> !IsDigit(s[r])
    decreases |s| - i
  {
    if i < |s| && IsDigit(s[i]) then DigitRun(s, i + 1) else i
  }

  /** The first position at or after i that holds a colon, or |s|. */
  function ColonAt(s: string, i: nat): (r: nat)
    requires i <= |s|
    ensures i <= r <= |s|
    ensures forall k :: i <= k < r ==> s[k] != ':'
    ensures r < |s| ==> s[r] == ':'
    decreases |s| - i
  {
    if i < |s| && s[i] != ':' then ColonAt(s, i + 1) else i
  }

  /** skip_host_serial: where the serial ends; digits between two colons belong to it. */
  function SerialEnd(s: string): (r: Option<nat>)
    ensures r.Some? ==> r.value < |s| && s[r.value] == ':'
    ensures r == None <==> ':' !in s
  {
    var c := ColonAt(s, 0);
    if c == |s| then None
    else
      var e := DigitRun(s, c + 1);
      if e > c + 1 && e < |s| && s[e] == ':' then Some(e) else Some(c)
  }

  /** The loops of skip_host_serial. */
  method SkipHostSerial(s: string) returns (r: Option<nat>)
    ensures r == SerialEnd(s)
  {
    var c := 0;
    while c < |s| && s[c] != ':'
      invariant c <= |s| && ColonAt(s, 0) == ColonAt(s, c)
    {
      c := c + 1;
    }
    if c == |s| {
      return None;
    }
    var e := c;
    if c + 1 < |s| && IsDigit(s[c + 1]) {
      e := e + 1;
      while e < |s| && IsDigit(s[e])
        invariant c < e <= |s| && DigitRun(s, c + 1) == DigitRun(s, e)
        invariant e == c + 1 ==> IsDigit(s[e])
      {
        e := e + 1;
      }
      if e == |s| || s[e] != ':' {
        e := c;
      }
    }
    return Some(e);
  }

  /** What the smart socket passes on: serial, transport type and command. */
  datatype HostRequest = HostRequest(serial: Option<string>, ttype: TransportType, command: string)

  predicate StartsWith(s: string, p: string)
  {
    p <= s
  }

  /** The host-request part of smart_socket_enqueue; None if the request is not one. */
  function ParseHostRequest(service: string): (r: Option<HostRequest>)
  {
    if StartsWith(service, "host-serial:") then
      var s := service[|"host-serial:"|..];
      match SerialEnd(s)
      case Some(e) => Some(HostRequest(Some(s[..e]), Any, s[e + 1..]))
      case None => Some(HostRequest(None, Any, s))
    else if StartsWith(service, "host-usb:") then
      Some(HostRequest(None, Usb, service[|"host-usb:"|..]))
    else if StartsWith(service, "host-local:") then
      Some(HostRequest(None, Local, service[|"host-local:"|..]))
    else if StartsWith(service, "host:") then
      Some(HostRequest(None, Any, service[|"host:"|..]))
    else None
  }

  /** s begins with digits and a colon. */
  /** Only the four prefixes make a host request; in particular a host-serial one always is, colon or not. */
  lemma HostRequestExactly(service: string)
    ensures ParseHostRequest(service) != None
            <==> || StartsWith(service, "host-serial:") || StartsWith(service, "host-usb:")
                 || StartsWith(service, "host-local:") || StartsWith(service, "host:")
  {
  }

  predicate DigitsColon(s: string)
  {
    var e := DigitRun(s, 0);
    0 < e < |s| && s[e] == ':'
  }

  /** s is a name without colons, a colon, and at least one digit and nothing else. */
  predicate NamePort(s: string)
  {
    var c := ColonAt(s, 0);
    c + 1 < |s| && DigitRun(s, c + 1) == |s|
  }

  lemma {:induction false} ColonAtConcat(s: string, t: string, i: nat)
    requires i <= |s|
    ensures ColonAt(s + t, i) == if ColonAt(s, i) < |s| then ColonAt(s, i) else |s| + ColonAt(t, 0)
    decreases |s| - i
  {
    if i < |s| && s[i] != ':' {
      ColonAtConcat(s, t, i + 1);
    } else if i == |s| {
      ColonAtShift(s, t, 0);
    }
  }

  lemma {:induction false} ColonAtShift(s: string, t: string, i: nat)
    requires i <= |t|
    ensures ColonAt(s + t, |s| + i) == |s| + ColonAt(t, i)
    decreases |t| - i
  {
    if i < |t| && t[i] != ':' {
      ColonAtShift(s, t, i + 1);
    }
  }

  lemma {:induction false} DigitRunShift(s: string, t: string, i: nat)
    requires i <= |t|
    ensures DigitRun(s + t, |s| + i) == |s| + DigitRun(t, i)
    decreases |t| - i
  {
    if i < |t| && IsDigit(t[i]) {
      DigitRunShift(s, t, i + 1);
    }
  }

  lemma {:induction false} DigitRunConcat(s: string, t: string, i: nat)
    requires i <= |s|
    ensures DigitRun(s + t, i) == if DigitRun(s, i) < |s| then DigitRun(s, i) else |s| + DigitRun(t, 0)
    decreases |s| - i
  {
    if i < |s| && IsDigit(s[i]) {
      DigitRunConcat(s, t, i + 1);
    } else if i == |s| {
      DigitRunShift(s, t, 0);
    }
  }

  /** Exactly when the serial is cut off where the printer ended it. */
  lemma SerialEndExact(serial: string, command: string)
    ensures SerialEnd(serial + ":" + command) == Some(|serial|)
            <==> (if ':' !in serial then !DigitsColon(command) else NamePort(serial))
  {
    var t := ":" + command;
    var s := serial + t;
    assert serial + ":" + command == s;
    ColonAtConcat(serial, t, 0);
    assert ColonAt(t, 0) == 0;
    var c := ColonAt(serial, 0);
    if ':' !in serial {
      DigitRunShift(serial + ":", command, 0);
      assert s == (serial + ":") + command;
    } else {
      DigitRunConcat(serial, t, c + 1);
      assert DigitRun(t, 0) == 0;
    }
  }

  /**
   Printing a host request and taking it apart again gives back a serial exactly
   when it is colon-free and the command does not begin with digits and a colon, or
   it is a name and a port.
   */
  lemma SerialRoundTrip(serial: string, command: string, ttype: TransportType)
    ensures ParseHostRequest(FormatHostCommand(command, ttype, Some(serial)))
            == Some(HostRequest(Some(serial), Any, command))
            <==> (if ':' !in serial then !DigitsColon(command) else NamePort(serial))
  {
    var body := serial + ":" + command;
    var service := FormatHostCommand(command, ttype, Some(serial));
    assert service == "host-serial:" + body;
    assert service[|"host-serial:"|..] == body;
    SerialEndExact(serial, command);
    var e := SerialEnd(body).value;
    if e == |serial| {
      assert body[..e] == serial && body[e + 1..] == command;
    } else {
      assert |body[..e]| != |serial|;
    }
  }

  /** Without a serial the transport type comes back exactly when the syntax can express it. */
  lemma TypeRoundTrip(command: string, ttype: TransportType)
    ensures (ParseHostRequest(FormatHostCommand(command, ttype, None)) == Some(HostRequest(None, ttype, command)))
            <==> ttype != Host
  {
    var service := FormatHostCommand(command, ttype, None);
    match ttype
    case Usb =>
      assert service == "host-usb:" + command && service[5] == 'u';
      assert service[|"host-usb:"|..] == command;
    case Local =>
      assert service == "host-local:" + command && service[5] == 'l';
      assert service[|"host-local:"|..] == command;
    case _ =>
      assert service == "host:" + command && service[4] == ':';
      assert service[|"host:"|..] == command;
  }

  /** From the client's bytes, in any chunks, to the request the server acts on. */
  lemma RequestDelivered(command: string, ttype: TransportType, serial: Option<string>, chunks: seq<string>)
    requires var f := FormatHostCommand(command, ttype, serial);
             |f| <= MAX_SERVICE && NulFree(f) && Concat(chunks) == Framed(f)
    requires forall i :: 0 <= i < |chunks| ==> chunks[i] != []
    requires match serial
             case Some(s) => if ':' !in s then !DigitsColon(command) else NamePort(s)
             case None => ttype != Host
    ensures chunks != []
    ensures var verdicts := Feed([], chunks);
            && |verdicts| == |chunks|
            && verdicts[|chunks| - 1].Act?
            && ParseHostRequest(verdicts[|chunks| - 1].service)
               == Some(HostRequest(serial, if serial.Some? then Any else ttype, command))
  {
    ChunkIndependence(FormatHostCommand(command, ttype, serial), chunks);
    match serial
    case Some(s) => SerialRoundTrip(s, command, ttype);
    case None => TypeRoundTrip(command, ttype);
  }
}
