/**
 What reaches the native layer and what is reported back: every address given to libuv is an IP literal of the
 family given with it and fits the C buffer, and every settled send reports its own size or 0.
 */
module Boundary {
  import N = Native
  import opened Strings
  import opened Ip
  import opened IpForm
  import opened IpRegex
  import opened IpAddress
  import opened IpValue
  import opened Protocol

  // The addresses the socket fills in itself

  lemma {:induction false} ByteLengthBounds(s: string)
    ensures |s| <= ByteLength(s) <= 4 * |s|
    ensures AllChars(s, Ascii) ==> ByteLength(s) == |s|
  {
    if s != "" {
      ByteLengthBounds(s[..|s| - 1]);
    }
  }

  lemma QuadFamily(a: nat, b: nat, c: nat, d: nat)
    requires a < 256 && b < 256 && c < 256 && d < 256
    ensures Family(Quad(a, b, c, d)) == 4
  {
    QuadIsQuad(a, b, c, d);
  }

  lemma FormFamily(f: Form)
    requires Valid(f)
    ensures Family(Text(f)) == 6
  {
    TextIsIPv6(f);
    FamilyIsIP(Text(f));
  }

  lemma DefaultQuadTexts()
    ensures Quad(0, 0, 0, 0) == "0.0.0.0" && Quad(127, 0, 0, 1) == "127.0.0.1"
  {
  }

  lemma DefaultQuads()
    ensures Family("0.0.0.0") == 4 && Family("127.0.0.1") == 4
  {
    hide Family, Quad;
    DefaultQuadTexts();
    QuadFamily(0, 0, 0, 0);
    QuadFamily(127, 0, 0, 1);
  }

  lemma DefaultGroups()
    ensures Family("::") == 6 && Family("::1") == 6
  {
    var none, one := Elided([], []), Elided([], ["1"]);
    assert IsGroup("1");
    WidthOfGroups([]);
    WidthOfGroups(["1"]);
    assert Text(none) == "::" && Text(one) == "::1";
    FormFamily(none);
    FormFamily(one);
  }

  /**
   The wildcard and the loopback address are literals of the socket's family, so an implicit bind never waits for a
   lookup.
   */
  lemma DefaultsAreLiterals(s: State)
    ensures Family(Wildcard(s)) == (if s.family == 6 then 6 else 4) && HostOk(Wildcard(s))
    ensures Family(Loopback(s)) == (if s.family == 6 then 6 else 4) && HostOk(Loopback(s))
  {
    DefaultQuads();
    DefaultGroups();
    ByteLengthBounds(Wildcard(s));
    ByteLengthBounds(Loopback(s));
  }

  /** They are the addresses they are meant to be: all zeros, and 127.0.0.1 or one. */
  lemma DefaultsMean(s: State)
    ensures if s.family == 6 then
              && ParseIPv6(Wildcard(s)) == Some(Zeros(8))
              && ParseIPv6(Loopback(s)) == Some(Zeros(7) + [1])
            else
              && ParseIPv4(Wildcard(s)) == Some([0, 0, 0, 0])
              && ParseIPv4(Loopback(s)) == Some([127, 0, 0, 1])
  {
    hide ParseIPv4, ParseIPv6, IsIP, Quad, Zeros;
    DefaultQuadValues();
    DefaultGroupValues();
  }

  lemma DefaultGroupValues()
    ensures ParseIPv6("::") == Some(Zeros(8)) && ParseIPv6("::1") == Some(Zeros(7) + [1])
  {
    hide ParseIPv6;
    WrittenElided(Zeros(8), 8, "::");
    WrittenElided(Zeros(7) + [1], 7, "::1");
  }

  lemma DefaultQuadValues()
    ensures ParseIPv4("0.0.0.0") == Some([0, 0, 0, 0]) && ParseIPv4("127.0.0.1") == Some([127, 0, 0, 1])
  {
    hide ParseIPv4, IsIP, Quad;
    DefaultQuadTexts();
    IPv4RoundTrip(0, 0, 0, 0);
    IPv4RoundTrip(127, 0, 0, 1);
  }

  lemma WrittenElided(v: seq<int>, to: nat, text: string)
    requires CanWrite(v, Notation(true, 0, to, false)) && text == "::" + Join(Hex(v[to..]), ':')
    ensures ParseIPv6(text) == Some(v)
  {
    hide ParseIPv6, IsIP, Family, Digits;
    var how := Notation(true, 0, to, false);
    IPv6RoundTrip(v, how, "");
    assert Write(v, how) == Elided([], Hex(v[to..]));
    assert Text(Write(v, how)) + "" == text;
  }

  // What waits and what was handed over

  predicate ReqOk(req: Req) {
    req.size == Total(req.list) && HostOk(req.address)
  }

  predicate WorkOk(w: Work) {
    match w
    case SendWork(req) => ReqOk(req) && !req.connected
    case ConnectWork(_, host) => HostOk(host)
    case ResumeWork => true
  }

  predicate LookupReqOk(l: Lookup) {
    l.cont.ForSend? ==> ReqOk(l.cont.req) && !l.cont.req.connected
  }

  predicate SettledOk(d: Settled) {
    d.bytes == (if d.err.Some? then 0 else Total(d.req.list))
  }

  /** A literal of the family it is passed with, short enough for the C buffer with its terminator. */
  predicate NativeAddressOk(host: string, family: nat) {
    family != 0 && Family(host) == family && ByteLength(host) <= MAX_LENGTH
  }

  predicate EventOk(e: Event) {
    match e
    case BindCall(_, host, family) => NativeAddressOk(host, family)
    case ConnectCall(_, host, family) => NativeAddressOk(host, family)
    case SendCall(_, _, dest) => dest.Some? ==> NativeAddressOk(dest.value.host, dest.value.family)
    case _ => true
  }

  ghost predicate AllWorkOk(ws: seq<Work>) {
    forall i | 0 <= i < |ws| :: WorkOk(ws[i])
  }

  ghost predicate WaitingOk(s: State) {
    && AllWorkOk(s.pending)
    && (forall i | 0 <= i < |s.frames| :: AllWorkOk(s.frames[i].rest))
    && (forall i | 0 <= i < |s.lookups| :: LookupReqOk(s.lookups[i]))
    && (forall id | id in s.sends :: ReqOk(s.sends[id]))
  }

  ghost predicate RecordOk(s: State) {
    && (forall i | 0 <= i < |s.settled| :: SettledOk(s.settled[i]))
    && (forall i | 0 <= i < |s.log| :: EventOk(s.log[i]))
  }

  ghost predicate BoundaryOk(s: State) {
    WaitingOk(s) && RecordOk(s)
  }

  predicate ResolutionOk(r: Resolution) {
    r.Resolved? ==> NativeAddressOk(r.host, r.family)
  }

  lemma HandOffBoundary(s: State, req: Req, dest: Option<Dest>, o: Oracle)
    requires BoundaryOk(s) && ReqOk(req)
    requires dest.Some? ==> NativeAddressOk(dest.value.host, dest.value.family)
    ensures BoundaryOk(HandOff(s, req, dest, o))
  {
  }

  lemma OnBindBoundary(s: State, local: nat)
    requires BoundaryOk(s)
    ensures BoundaryOk(OnBind(s, local))
  {
  }

  lemma BindResolvedBoundary(s: State, port: int, r: Resolution, o: Oracle)
    requires BoundaryOk(s) && ResolutionOk(r)
    ensures BoundaryOk(BindResolved(s, port, r, o))
  {
    if Live(s) && r.Resolved? {
      var s1 := Emit(s, BindCall(port, r.host, r.family));
      assert BoundaryOk(s1);
      if Failed(o).None? { OnBindBoundary(s1, o.local); }
    }
  }

  lemma ConnectResolvedBoundary(s: State, port: int, r: Resolution, o: Oracle)
    requires BoundaryOk(s) && ResolutionOk(r)
    ensures BoundaryOk(ConnectResolved(s, port, r, o))
  {
  }

  lemma SendResolvedBoundary(s: State, req: Req, r: Resolution, o: Oracle)
    requires BoundaryOk(s) && ResolutionOk(r) && ReqOk(req)
    ensures BoundaryOk(SendResolved(s, req, r, o))
  {
    if r.Resolved? && Live(s) {
      HandOffBoundary(s, req, Some(Dest(req.port, r.host, r.family)), o);
    }
  }

  predicate ContReqOk(cont: Cont) {
    cont.ForSend? ==> ReqOk(cont.req) && !cont.req.connected
  }

  lemma ContinueBoundary(s: State, cont: Cont, r: Resolution, o: Oracle)
    requires BoundaryOk(s) && ResolutionOk(r) && ContReqOk(cont)
    ensures BoundaryOk(Continue(s, cont, r, o))
  {
    match cont {
      case ForBind(port) => BindResolvedBoundary(s, port, r, o);
      case ForConnect(port) => ConnectResolvedBoundary(s, port, r, o);
      case ForSend(req) => SendResolvedBoundary(s, req, r, o);
    }
  }

  lemma ResolveHostBoundary(s: State, host: string, cont: Cont, o: Oracle)
    requires BoundaryOk(s) && HostOk(host) && ContReqOk(cont)
    ensures BoundaryOk(ResolveHost(s, host, cont, o))
  {
    hide Continue;
    if Family(host) != 0 {
      ContinueBoundary(s, cont, Resolved(host, Family(host)), o);
    }
  }

  lemma RunWorkBoundary(s: State, w: Work, err: Option<Error>, o: Oracle)
    requires BoundaryOk(s)
    requires WorkOk(w) || (w.SendWork? && w.req.connected && ReqOk(w.req))
    ensures BoundaryOk(RunWork(s, w, err, o))
  {
    hide ResolveHost, HandOff;
    if w.SendWork? && err.None? {
      if w.req.connected {
        HandOffBoundary(s, w.req, None, o);
      } else {
        DefaultsAreLiterals(s);
        ResolveHostBoundary(s, if w.req.address != "" then w.req.address else Loopback(s), ForSend(w.req), o);
      }
    } else if w.ConnectWork? && err.None? {
      ResolveHostBoundary(s, w.host, ForConnect(w.port), o);
    }
  }

  lemma StartBindBoundary(s: State, port: int, host: string, o: Oracle)
    requires BoundaryOk(s) && HostOk(host)
    ensures BoundaryOk(StartBind(s, port, host, o))
  {
    hide ResolveHost;
    ResolveHostBoundary(s.(flags := s.flags.(binding := true)), host, ForBind(port), o);
  }

  lemma BindMaybeBoundary(s: State, w: Work, o: Oracle)
    requires BoundaryOk(s)
    requires WorkOk(w) || (w.SendWork? && w.req.connected && ReqOk(w.req) && s.flags.bound)
    ensures BoundaryOk(BindMaybe(s, w, o))
  {
    hide RunWork, StartBind;
    if s.flags.bound {
      RunWorkBoundary(s, w, None, o);
    } else {
      var s1 := s.(pending := s.pending + [w]);
      assert BoundaryOk(s1);
      DefaultsAreLiterals(s1);
      if !s.flags.binding { StartBindBoundary(s1, 0, Wildcard(s1), o); }
    }
  }

  lemma AcceptBoundary(s: State, req: Req, o: Oracle)
    requires BoundaryOk(s) && ReqOk(req) && (req.connected ==> s.flags.bound)
    ensures BoundaryOk(BindMaybe(s.(accepted := s.accepted + 1), SendWork(req), o))
  {
    hide BindMaybe;
    var s1 := s.(accepted := s.accepted + 1);
    assert BoundaryOk(s1);
    BindMaybeBoundary(s1, SendWork(req), o);
  }

  lemma NewReqOk(s: State, list: seq<seq<byte>>, port: int, address: string, cb: bool)
    requires SendThrows(s, port, address).None?
    ensures ReqOk(NewReq(s, list, port, address, cb))
  {
    EmptyHost();
  }

  lemma SendBoundary(s: State, list: seq<seq<byte>>, port: int, address: string, cb: bool, o: Oracle)
    requires BoundaryOk(s) && (s.flags.connected ==> s.flags.bound)
    ensures BoundaryOk(Outcome(s, Send(s, list, port, address, cb, o)))
  {
    assert NewReq(s, list, port, address, cb).connected == s.flags.connected;
    hide *;
    SendCases(s, list, port, address, cb, o);
    if SendThrows(s, port, address).None? {
      NewReqOk(s, list, port, address, cb);
      AcceptBoundary(s, NewReq(s, list, port, address, cb), o);
    }
  }

  lemma EmptyHost()
    ensures HostOk("")
  {
    assert ByteLength("") == 0;
  }

  lemma ConnectBoundary(s: State, port: int, address: string, o: Oracle)
    requires BoundaryOk(s)
    ensures BoundaryOk(Outcome(s, Connect(s, port, address, o)))
  {
    hide BindMaybe, HostOk, Family, Loopback, ReqOk, LookupReqOk, SettledOk, EventOk;
    if Connect(s, port, address, o).Done? {
      var s1 := s.(flags := s.flags.(connecting := true));
      assert BoundaryOk(s1);
      DefaultsAreLiterals(s);
      BindMaybeBoundary(s1, ConnectWork(port, if address == "" then Loopback(s) else address), o);
    }
  }

  lemma BindBoundary(s: State, port: int, address: string, o: Oracle)
    requires BoundaryOk(s)
    ensures BoundaryOk(Outcome(s, Bind(s, port, address, o)))
  {
    hide StartBind;
    if Bind(s, port, address, o).Done? {
      DefaultsAreLiterals(s);
      StartBindBoundary(s, port, if address == "" then Wildcard(s) else address, o);
    }
  }

  lemma OpenBoundary(s: State, fd: int, o: Oracle)
    requires BoundaryOk(s)
    ensures BoundaryOk(Outcome(s, Open(s, fd, o)))
  {
  }

  lemma ResumeBoundary(s: State, o: Oracle)
    requires BoundaryOk(s)
    ensures BoundaryOk(Resume(s, o))
  {
    hide BindMaybe;
    var s1 := s.(paused := false);
    assert BoundaryOk(s1);
    BindMaybeBoundary(s1, ResumeWork, o);
  }

  lemma ApiBoundary(s: State, l: Label, o: Oracle)
    requires BoundaryOk(s) && (s.flags.connected ==> s.flags.bound) && IsApi(l) && Enabled(s, l)
    ensures BoundaryOk(Step(s, l, o))
  {
    hide Bind, Open, Connect, Send, Resume, WorkOk, LookupReqOk, ReqOk, NativeAddressOk;
    if l.ApiBind? {
      BindBoundary(s, l.port, l.address, o);
    } else if l.ApiOpen? {
      OpenBoundary(s, l.fd, o);
    } else if l.ApiConnect? {
      ConnectBoundary(s, l.port, l.address, o);
    } else if l.ApiSend? {
      SendBoundary(s, l.list, l.port, l.address, l.cb, o);
    } else if l.ApiResume? {
      ResumeBoundary(s, o);
    } else {
      assert BoundaryOk(Step(s, l, o));
    }
  }

  // The environment

  lemma ResolveIsOk(answer: Answer)
    ensures ResolutionOk(Resolve(answer))
  {
  }

  lemma FlushNextBoundary(s: State, o: Oracle)
    requires BoundaryOk(s) && s.frames != [] && s.frames[0].rest != []
    ensures BoundaryOk(FlushNext(s, o))
  {
    hide RunWork;
    var f := s.frames[0];
    var s1 := s.(frames := [f.(rest := f.rest[1..])] + s.frames[1..]);
    assert forall i | 1 <= i < |s1.frames| :: s1.frames[i] == s.frames[i];
    assert BoundaryOk(s1);
    RunWorkBoundary(s1, f.rest[0], f.err, o);
  }

  lemma FlushEndBoundary(s: State)
    requires BoundaryOk(s) && s.frames != [] && s.frames[0].rest == []
    ensures BoundaryOk(FlushEnd(s))
  {
    var t := FlushEnd(s);
    assert forall i | 0 <= i < |t.frames| :: t.frames[i] == s.frames[i + 1];
    assert forall i | |s.log| <= i < |t.log| :: EventOk(t.log[i]);
  }

  lemma AnswerBoundary(s: State, k: nat, answer: Answer, o: Oracle)
    requires BoundaryOk(s) && k < |s.lookups|
    ensures BoundaryOk(AnswerLookup(s, k, answer, o))
  {
    hide Continue;
    var s1 := s.(lookups := N.Remove(s.lookups, k));
    assert forall i | 0 <= i < |s1.lookups| :: s1.lookups[i] == s.lookups[if i < k then i else i + 1];
    assert BoundaryOk(s1);
    ResolveIsOk(answer);
    assert LookupReqOk(s.lookups[k]);
    ContinueBoundary(s1, s.lookups[k].cont, Resolve(answer), o);
  }

  lemma PushBoundary(s: State, err: Option<Error>, tail: Tail)
    requires BoundaryOk(s)
    ensures BoundaryOk(Push(s, err, tail))
  {
  }

  lemma TaskBoundary(s: State)
    requires BoundaryOk(s) && s.tasks != []
    ensures BoundaryOk(RunTask(s))
  {
    hide Push, WorkOk, LookupReqOk, ReqOk, NativeAddressOk;
    var s1 := s.(tasks := s.tasks[1..]);
    assert BoundaryOk(s1);
    if s.tasks[0].BindFailed? {
      var s2 := s1.(flags := s.flags.(binding := false));
      assert BoundaryOk(s2);
      PushBoundary(s2, Some(s.tasks[0].err), ThenReport(s.tasks[0].err));
    }
  }

  lemma CloseDoneBoundary(s: State)
    requires BoundaryOk(s) && N.CanClose(s.native)
    ensures BoundaryOk(CloseDone(s))
  {
  }

  lemma SendDoneBoundary(s: State, k: nat, err: Option<Error>)
    requires BoundaryOk(s) && k < |s.native.queue|
    ensures BoundaryOk(SendDone(s, k, err))
  {
    hide WorkOk, LookupReqOk, NativeAddressOk, HostOk;
  }

  lemma EnvironmentBoundary(s: State, l: Label, o: Oracle)
    requires BoundaryOk(s) && !IsApi(l) && Enabled(s, l)
    ensures BoundaryOk(Step(s, l, o))
  {
    hide FlushNext, FlushEnd, AnswerLookup, RunTask, CloseDone, SendDone, WorkOk, LookupReqOk, ReqOk;
    if l.DoFlushNext? {
      FlushNextBoundary(s, o);
    } else if l.DoFlushEnd? {
      FlushEndBoundary(s);
    } else if l.DoAnswer? {
      AnswerBoundary(s, l.k, l.answer, o);
    } else if l.DoTask? {
      TaskBoundary(s);
    } else if l.DoCloseDone? {
      CloseDoneBoundary(s);
    } else if l.DoSendDone? {
      SendDoneBoundary(s, l.k, l.err);
    } else {
      assert BoundaryOk(Step(s, l, o));
    }
  }
}
