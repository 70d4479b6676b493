/**
 Where everything comes from: each native call carries the port, the address and the datagram of one API call, and
 each callback answers one accepted send. Proved for every run, for whatever the API calls ask.
 */
module Provenance {
  import N = Native
  import opened IpForm
  import opened IpAddress
  import opened Protocol
  import opened Boundary
  import opened Obligations
  import opened Conservation
  import opened Ledger
  import opened Invariant
  import opened Runs
  import opened Effects

  /** What has been asked for: sends, binds and connects by port and host; and what lookups of a name have answered. */
  datatype Asked = Asked(sends: Req -> bool, binds: (int, string) -> bool, connects: (int, string) -> bool,
                         answers: (string, string) -> bool)

  /** The host that was resolved is the one asked for, if that was a literal, or else an answer to its lookup. */
  predicate HostFrom(asked: string, host: string, a: Asked) {
    if Family(asked) != 0 then host == asked else a.answers(asked, host)
  }

  /** Where a send may go: to the peer, or to the port and the host that its call gave. */
  predicate DestFrom(req: Req, dest: Option<Dest>, a: Asked) {
    if req.connected then dest.None?
    else
      && dest.Some? && dest.value.port == req.port
      && (if req.address == "" then dest.value.host in {"::1", "127.0.0.1"}
          else HostFrom(req.address, dest.value.host, a))
  }

  predicate WorkFrom(w: Work, a: Asked) {
    match w
    case SendWork(req) => a.sends(req)
    case ConnectWork(port, host) => a.connects(port, host)
    case ResumeWork => true
  }

  /** What a closure passed to `_resolve` with `host` stands for. */
  predicate ContFrom(cont: Cont, host: string, a: Asked) {
    match cont
    case ForBind(port) => a.binds(port, host)
    case ForConnect(port) => a.connects(port, host)
    case ForSend(req) =>
      && a.sends(req) && !req.connected
      && if req.address == "" then host in {"::1", "127.0.0.1"} else host == req.address
  }

  ghost predicate EventFrom(e: Event, a: Asked) {
    match e
    case BindCall(port, host, _) => exists asked :: a.binds(port, asked) && HostFrom(asked, host, a)
    case ConnectCall(port, host, _) => exists asked :: a.connects(port, asked) && HostFrom(asked, host, a)
    case SendCall(req, _, dest) => a.sends(req) && DestFrom(req, dest, a)
    case _ => true
  }

  ghost predicate AllWorkFrom(ws: seq<Work>, a: Asked) {
    forall i | 0 <= i < |ws| :: WorkFrom(ws[i], a)
  }

  ghost predicate From(s: State, a: Asked) {
    && AllWorkFrom(s.pending, a)
    && (forall i | 0 <= i < |s.frames| :: AllWorkFrom(s.frames[i].rest, a))
    && (forall i | 0 <= i < |s.lookups| ::
          Family(s.lookups[i].host) == 0 && ContFrom(s.lookups[i].cont, s.lookups[i].host, a))
    && (forall id | id in s.sends :: a.sends(s.sends[id]))
    && (forall i | 0 <= i < |s.settled| :: a.sends(s.settled[i].req))
    && (forall i | 0 <= i < |s.log| :: EventFrom(s.log[i], a))
  }

  // The functions of the protocol

  lemma SettleFrom(s: State, req: Req, err: Option<Error>, bytes: nat, a: Asked)
    requires From(s, a) && a.sends(req)
    ensures From(Settle(s, req, err, bytes), a)
  {
  }

  lemma EmitFrom(s: State, e: Event, a: Asked)
    requires From(s, a) && EventFrom(e, a)
    ensures From(Emit(s, e), a)
  {
  }

  lemma OnSendErrorFrom(s: State, req: Req, err: Error, a: Asked)
    requires From(s, a) && a.sends(req)
    ensures From(OnSendError(s, req, err), a)
  {
  }

  /** The parts of a state that `From` looks at. */
  predicate SamePlaces(s: State, t: State) {
    && t.pending == s.pending && t.frames == s.frames && t.lookups == s.lookups && t.settled == s.settled
    && t.log == s.log && t.sends == s.sends
  }

  lemma SameFrom(s: State, t: State, a: Asked)
    requires From(s, a) && SamePlaces(s, t)
    ensures From(t, a)
  {
    hide EventFrom, ContFrom, WorkFrom;
  }

  lemma SendsFrom(s: State, t: State, a: Asked)
    requires From(s, a) && SamePlaces(s, t.(sends := s.sends)) && forall id | id in t.sends :: a.sends(t.sends[id])
    ensures From(t, a)
  {
    hide EventFrom, ContFrom, WorkFrom;
  }

  lemma HandOffFrom(s: State, req: Req, dest: Option<Dest>, o: Oracle, a: Asked)
    requires From(s, a) && a.sends(req) && DestFrom(req, dest, a)
    ensures From(HandOff(s, req, dest, o), a)
  {
    hide OnSendError, DestFrom, N.Send;
    var id := s.sendId;
    var e := SendCall(req, id, dest);
    EmitFrom(s, e, a);
    var s1 := Emit(s, e).(sendId := (id + 1) % ID_RANGE, draws := s.draws + 1,
                          native := N.Send(s.native, id, req.tok, s.draws, o.native));
    var queued, failed := s1.(sends := s.sends[id := req]), s1.(sends := s.sends - {id});
    SendsFrom(Emit(s, e), queued, a);
    SendsFrom(Emit(s, e), failed, a);
    if !o.native.Queued? { OnSendErrorFrom(failed, req, NativeError(o.native.code), a); }
  }

  lemma PushFrom(s: State, err: Option<Error>, tail: Tail, a: Asked)
    requires From(s, a)
    ensures From(Push(s, err, tail), a)
  {
  }

  lemma OnBindFrom(s: State, local: nat, a: Asked)
    requires From(s, a)
    ensures From(OnBind(s, local), a)
  {
  }

  lemma BindResolvedFrom(s: State, port: int, asked: string, r: Resolution, o: Oracle, a: Asked)
    requires From(s, a) && a.binds(port, asked) && (r.Resolved? ==> HostFrom(asked, r.host, a))
    ensures From(BindResolved(s, port, r, o), a)
  {
    hide From, OnBind, HostFrom;
    if Live(s) {
      if r.Unresolved? {
        SameFrom(s, OnBindError(s, r.err), a);
      } else {
        var e := BindCall(port, r.host, r.family);
        EmitFrom(s, e, a);
        OnBindFrom(Emit(s, e), o.local, a);
        if Failed(o).Some? { SameFrom(Emit(s, e), OnBindError(Emit(s, e), Failed(o).value), a); }
      }
    }
  }

  lemma ConnectResolvedFrom(s: State, port: int, asked: string, r: Resolution, o: Oracle, a: Asked)
    requires From(s, a) && a.connects(port, asked) && (r.Resolved? ==> HostFrom(asked, r.host, a))
    ensures From(ConnectResolved(s, port, r, o), a)
  {
    hide From, HostFrom;
    var s1 := s.(flags := s.flags.(connecting := false));
    SameFrom(s, s1, a);
    var t := ConnectResolved(s, port, r, o);
    if Live(s1) && r.Resolved? {
      var e := ConnectCall(port, r.host, r.family);
      EmitFrom(s1, e, a);
      SameFrom(Emit(s1, e), t, a);
    } else {
      SameFrom(s1, t, a);
    }
  }

  lemma SendResolvedFrom(s: State, req: Req, asked: string, r: Resolution, o: Oracle, a: Asked)
    requires From(s, a) && ContFrom(ForSend(req), asked, a) && (r.Resolved? ==> HostFrom(asked, r.host, a))
    requires req.address == "" ==> Family(asked) != 0
    ensures From(SendResolved(s, req, r, o), a)
  {
    hide From, HandOff, Settle, OnSendError;
    if r.Unresolved? {
      OnSendErrorFrom(s, req, r.err, a);
    } else if !Live(s) {
      SettleFrom(s, req, Some(SocketClosed), 0, a);
    } else {
      HandOffFrom(s, req, Some(Dest(req.port, r.host, r.family)), o, a);
    }
  }

  lemma ContinueFrom(s: State, cont: Cont, asked: string, r: Resolution, o: Oracle, a: Asked)
    requires From(s, a) && ContFrom(cont, asked, a) && (r.Resolved? ==> HostFrom(asked, r.host, a))
    ensures From(Continue(s, cont, r, o), a)
  {
    hide From, HostFrom, BindResolved, ConnectResolved, SendResolved, Family;
    match cont {
      case ForBind(port) => BindResolvedFrom(s, port, asked, r, o, a);
      case ForConnect(port) => ConnectResolvedFrom(s, port, asked, r, o, a);
      case ForSend(req) =>
        DefaultQuads();
        DefaultGroups();
        SendResolvedFrom(s, req, asked, r, o, a);
    }
  }

  lemma ResolveHostFrom(s: State, host: string, cont: Cont, o: Oracle, a: Asked)
    requires From(s, a) && ContFrom(cont, host, a)
    ensures From(ResolveHost(s, host, cont, o), a)
  {
    hide Continue, Family;
    if Family(host) != 0 {
      ContinueFrom(s, cont, host, Resolved(host, Family(host)), o, a);
    }
  }

  lemma RunWorkFrom(s: State, w: Work, err: Option<Error>, o: Oracle, a: Asked)
    requires From(s, a) && WorkFrom(w, a)
    ensures From(RunWork(s, w, err, o), a)
  {
    hide From, ResolveHost, HandOff, Settle, Family;
    var t := RunWork(s, w, err, o);
    match w {
      case SendWork(req) =>
        if err.Some? {
          SettleFrom(s, req, err, 0, a);
        } else if req.connected {
          HandOffFrom(s, req, None, o, a);
        } else {
          ResolveHostFrom(s, if req.address != "" then req.address else Loopback(s), ForSend(req), o, a);
        }
      case ConnectWork(port, host) =>
        if err.Some? { SameFrom(s, t, a); } else { ResolveHostFrom(s, host, ForConnect(port), o, a); }
      case ResumeWork => SameFrom(s, t, a);
    }
  }

  lemma StartBindFrom(s: State, port: int, host: string, o: Oracle, a: Asked)
    requires From(s, a) && a.binds(port, host)
    ensures From(StartBind(s, port, host, o), a)
  {
    hide From, ResolveHost;
    var s1 := s.(flags := s.flags.(binding := true));
    SameFrom(s, s1, a);
    ResolveHostFrom(s1, host, ForBind(port), o, a);
  }

  lemma BindMaybeFrom(s: State, w: Work, o: Oracle, a: Asked)
    requires From(s, a) && WorkFrom(w, a) && a.binds(0, Wildcard(s))
    ensures From(BindMaybe(s, w, o), a)
  {
    hide RunWork, StartBind, EventFrom, ContFrom, WorkFrom, Wildcard;
    if s.flags.bound {
      RunWorkFrom(s, w, None, o, a);
    } else {
      var s1 := s.(pending := s.pending + [w]);
      assert From(s1, a);
      SameWildcard(s, s1);
      if !s.flags.binding { StartBindFrom(s1, 0, Wildcard(s1), o, a); }
    }
  }

  // What a step asks for

  /** The request of an accepted send. */
  ghost predicate Accepts(s: State, l: Label, req: Req) {
    && l.ApiSend? && SendRefusal(s, l.port, l.address).None?
    && req.tok == s.accepted && req.list == l.list && req.size == |Flat(l.list)|
    && req.port == l.port && req.address == l.address && req.cb == l.cb
    && req.connected == s.flags.connected
  }

  lemma AcceptsNew(s: State, l: Label)
    requires l.ApiSend? && SendThrows(s, l.port, l.address).None?
    ensures Accepts(s, l, NewReq(s, l.list, l.port, l.address, l.cb))
  {
    hide SendThrows, SendRefusal, Flat, Total;
    SendRefusalIff(s, l.port, l.address);
    SizeIsLength(l.list);
  }

  /** An explicit bind, or the one that send, connect and resume start by themselves. */
  predicate AsksBind(s: State, l: Label, port: int, host: string) {
    || (l.ApiBind? && port == l.port && host == if l.address == "" then Wildcard(s) else l.address)
    || ((l.ApiSend? || l.ApiConnect? || l.ApiResume?) && port == 0 && host == Wildcard(s))
  }

  predicate AsksConnect(s: State, l: Label, port: int, host: string) {
    l.ApiConnect? && port == l.port && host == if l.address == "" then Loopback(s) else l.address
  }

  /** The step answers a lookup of `name` with `text`. */
  predicate Answers(s: State, l: Label, name: string, text: string) {
    l.DoAnswer? && l.k < |s.lookups| && s.lookups[l.k].host == name && l.answer == Address(text)
  }

  /** `a` allows everything that the step asks for, and its answers. */
  ghost predicate Allows(a: Asked, s: State, l: Label) {
    && (forall req | Accepts(s, l, req) :: a.sends(req))
    && (forall port, host | AsksBind(s, l, port, host) :: a.binds(port, host))
    && (forall port, host | AsksConnect(s, l, port, host) :: a.connects(port, host))
    && (forall name, text | Answers(s, l, name, text) :: a.answers(name, text))
  }

  lemma ApiSendFrom(s: State, l: Label, o: Oracle, a: Asked)
    requires From(s, a) && Allows(a, s, l) && l.ApiSend?
    ensures From(Outcome(s, Send(s, l.list, l.port, l.address, l.cb, o)), a)
  {
    hide From, BindMaybe, Send, SendThrows, Wildcard, Accepts;
    SendCases(s, l.list, l.port, l.address, l.cb, o);
    if SendThrows(s, l.port, l.address).None? {
      var req := NewReq(s, l.list, l.port, l.address, l.cb);
      var s1 := s.(accepted := s.accepted + 1);
      AcceptsNew(s, l);
      assert AsksBind(s, l, 0, Wildcard(s));
      SameFrom(s, s1, a);
      SameWildcard(s, s1);
      BindMaybeFrom(s1, SendWork(req), o, a);
    }
  }

  lemma ApiConnectFrom(s: State, l: Label, o: Oracle, a: Asked)
    requires From(s, a) && Allows(a, s, l) && l.ApiConnect?
    ensures From(Outcome(s, Connect(s, l.port, l.address, o)), a)
  {
    hide From, BindMaybe, HostOk, Wildcard, Loopback;
    var host := if l.address == "" then Loopback(s) else l.address;
    var s1 := s.(flags := s.flags.(connecting := true));
    assert AsksConnect(s, l, l.port, host) && AsksBind(s, l, 0, Wildcard(s));
    SameFrom(s, s1, a);
    SameWildcard(s, s1);
    BindMaybeFrom(s1, ConnectWork(l.port, host), o, a);
  }

  lemma ApiResumeFrom(s: State, l: Label, o: Oracle, a: Asked)
    requires From(s, a) && Allows(a, s, l) && l.ApiResume?
    ensures From(Resume(s, o), a)
  {
    hide From, BindMaybe, Wildcard;
    var s1 := s.(paused := false);
    assert AsksBind(s, l, 0, Wildcard(s));
    SameFrom(s, s1, a);
    SameWildcard(s, s1);
    BindMaybeFrom(s1, ResumeWork, o, a);
  }

  lemma ApiBindFrom(s: State, l: Label, o: Oracle, a: Asked)
    requires From(s, a) && Allows(a, s, l) && l.ApiBind?
    ensures From(Outcome(s, Bind(s, l.port, l.address, o)), a)
  {
    hide From, StartBind, HostOk, Wildcard;
    var host := if l.address == "" then Wildcard(s) else l.address;
    assert AsksBind(s, l, l.port, host);
    StartBindFrom(s, l.port, host, o, a);
  }

  lemma ApiOpenFrom(s: State, fd: int, o: Oracle, a: Asked)
    requires From(s, a)
    ensures From(Outcome(s, Open(s, fd, o)), a)
  {
    hide From, OnBind;
    var s1 := s.(flags := s.flags.(binding := true));
    SameFrom(s, s1, a);
    OnBindFrom(s1, o.local, a);
    if Failed(o).Some? { SameFrom(s1, OnBindError(s1, Failed(o).value), a); }
  }

  lemma ApiFrom(s: State, l: Label, o: Oracle, a: Asked)
    requires From(s, a) && Allows(a, s, l) && IsApi(l) && Enabled(s, l)
    ensures From(Step(s, l, o), a)
  {
    hide From, Allows, Bind, Open, Connect, Send, Resume;
    if l.ApiBind? {
      ApiBindFrom(s, l, o, a);
    } else if l.ApiOpen? {
      ApiOpenFrom(s, l.fd, o, a);
    } else if l.ApiConnect? {
      ApiConnectFrom(s, l, o, a);
    } else if l.ApiSend? {
      ApiSendFrom(s, l, o, a);
    } else if l.ApiResume? {
      ApiResumeFrom(s, l, o, a);
    } else {
      SameFrom(s, Step(s, l, o), a);
    }
  }

  lemma FlushNextFrom(s: State, o: Oracle, a: Asked)
    requires From(s, a) && s.frames != [] && s.frames[0].rest != []
    ensures From(FlushNext(s, o), a)
  {
    hide RunWork, EventFrom, ContFrom, WorkFrom;
    var f := s.frames[0];
    var s1 := s.(frames := [f.(rest := f.rest[1..])] + s.frames[1..]);
    assert forall i | 1 <= i < |s1.frames| :: s1.frames[i] == s.frames[i];
    assert From(s1, a);
    RunWorkFrom(s1, f.rest[0], f.err, o, a);
  }

  lemma FlushEndFrom(s: State, a: Asked)
    requires From(s, a) && s.frames != [] && s.frames[0].rest == []
    ensures From(FlushEnd(s), a)
  {
    hide ContFrom, WorkFrom;
    var t := FlushEnd(s);
    assert forall i | 0 <= i < |t.frames| :: t.frames[i] == s.frames[i + 1];
    assert forall i | |s.log| <= i < |t.log| :: EventFrom(t.log[i], a);
  }

  lemma AnswerFrom(s: State, k: nat, answer: Answer, o: Oracle, a: Asked)
    requires From(s, a) && k < |s.lookups|
    requires answer.Address? ==> a.answers(s.lookups[k].host, answer.text)
    ensures From(AnswerLookup(s, k, answer, o), a)
  {
    hide Continue, EventFrom, WorkFrom, Family, ByteLength;
    var s1 := s.(lookups := N.Remove(s.lookups, k));
    assert forall i | 0 <= i < |s1.lookups| :: s1.lookups[i] == s.lookups[if i < k then i else i + 1];
    assert From(s1, a);
    ContinueFrom(s1, s.lookups[k].cont, s.lookups[k].host, Resolve(answer), o, a);
  }

  lemma TaskFrom(s: State, a: Asked)
    requires From(s, a) && s.tasks != []
    ensures From(RunTask(s), a)
  {
    hide From, Push;
    var s1 := s.(tasks := s.tasks[1..]);
    SameFrom(s, s1, a);
    if s.tasks[0].BindFailed? {
      var s2 := s1.(flags := s.flags.(binding := false));
      SameFrom(s, s2, a);
      PushFrom(s2, Some(s.tasks[0].err), ThenReport(s.tasks[0].err), a);
    } else if RunTask(s) != s1 {
      EmitFrom(s1, RunTask(s).log[|s.log|], a);
    }
  }

  lemma SendDoneFrom(s: State, k: nat, err: Option<Error>, a: Asked)
    requires From(s, a) && k < |s.native.queue|
    ensures From(SendDone(s, k, err), a)
  {
    hide ContFrom, WorkFrom;
  }

  lemma CloseDoneFrom(s: State, a: Asked)
    requires From(s, a) && N.CanClose(s.native)
    ensures From(CloseDone(s), a)
  {
  }

  lemma AllowsAnswer(a: Asked, s: State, l: Label)
    requires Allows(a, s, l) && l.DoAnswer? && l.k < |s.lookups|
    ensures l.answer.Address? ==> a.answers(s.lookups[l.k].host, l.answer.text)
  {
    if l.answer.Address? { assert Answers(s, l, s.lookups[l.k].host, l.answer.text); }
  }

  lemma EnvironmentFrom(s: State, l: Label, o: Oracle, a: Asked)
    requires From(s, a) && Allows(a, s, l) && !IsApi(l) && Enabled(s, l)
    ensures From(Step(s, l, o), a)
  {
    hide From, Allows, FlushNext, FlushEnd, AnswerLookup, RunTask, SendDone, CloseDone;
    if l.DoFlushNext? {
      FlushNextFrom(s, o, a);
    } else if l.DoFlushEnd? {
      FlushEndFrom(s, a);
    } else if l.DoAnswer? {
      AllowsAnswer(a, s, l);
      AnswerFrom(s, l.k, l.answer, o, a);
    } else if l.DoTask? {
      TaskFrom(s, a);
    } else if l.DoSendDone? {
      SendDoneFrom(s, l.k, l.err, a);
    } else if l.DoCloseDone? {
      CloseDoneFrom(s, a);
    } else if l.DoMessage? {
      var t := OnMessage(s, l.read);
      if t != s { EmitFrom(s, t.log[|s.log|], a); }
    } else {
      SameFrom(s, Step(s, l, o), a);
    }
  }

  // Runs

  ghost predicate AcceptedBefore(ss: seq<State>, moves: seq<Move>, i: nat, req: Req)
    requires i <= |moves| < |ss|
  {
    exists j | 0 <= j < i :: Accepts(ss[j], moves[j].step, req)
  }

  predicate BindAsked(ss: seq<State>, moves: seq<Move>, i: nat, port: int, host: string)
    requires i <= |moves| < |ss|
  {
    exists j | 0 <= j < i :: AsksBind(ss[j], moves[j].step, port, host)
  }

  predicate ConnectAsked(ss: seq<State>, moves: seq<Move>, i: nat, port: int, host: string)
    requires i <= |moves| < |ss|
  {
    exists j | 0 <= j < i :: AsksConnect(ss[j], moves[j].step, port, host)
  }

  predicate AnsweredBefore(ss: seq<State>, moves: seq<Move>, i: nat, name: string, text: string)
    requires i <= |moves| < |ss|
  {
    exists j | 0 <= j < i :: Answers(ss[j], moves[j].step, name, text)
  }

  /** What the first `i` steps of a run asked for, and were answered. */
  ghost function AskedBefore(ss: seq<State>, moves: seq<Move>, i: nat): Asked
    requires i <= |moves| < |ss|
  {
    Asked(req => AcceptedBefore(ss, moves, i, req),
          (port, host) => BindAsked(ss, moves, i, port, host),
          (port, host) => ConnectAsked(ss, moves, i, port, host),
          (name, text) => AnsweredBefore(ss, moves, i, name, text))
  }

  lemma WidenFrom(s: State, a: Asked, b: Asked)
    requires From(s, a)
    requires forall req | a.sends(req) :: b.sends(req)
    requires forall port, host | a.binds(port, host) :: b.binds(port, host)
    requires forall port, host | a.connects(port, host) :: b.connects(port, host)
    requires forall name, text | a.answers(name, text) :: b.answers(name, text)
    ensures From(s, b)
  {
    hide Family;
    forall i | 0 <= i < |s.log| ensures EventFrom(s.log[i], b) {
      assert EventFrom(s.log[i], a);
    }
    assert forall w | WorkFrom(w, a) :: WorkFrom(w, b);
    assert AllWorkFrom(s.pending, b);
    assert forall i | 0 <= i < |s.frames| :: AllWorkFrom(s.frames[i].rest, a);
    assert forall i | 0 <= i < |s.frames| :: AllWorkFrom(s.frames[i].rest, b);
  }

  lemma AskedGrows(ss: seq<State>, moves: seq<Move>, i: nat)
    requires 0 < i <= |moves| < |ss|
    ensures var a, b := AskedBefore(ss, moves, i - 1), AskedBefore(ss, moves, i);
            && (forall req | a.sends(req) :: b.sends(req))
            && (forall port, host | a.binds(port, host) :: b.binds(port, host))
            && (forall port, host | a.connects(port, host) :: b.connects(port, host))
            && (forall name, text | a.answers(name, text) :: b.answers(name, text))
            && Allows(b, ss[i - 1], moves[i - 1].step)
  {
    hide Accepts, AsksBind, AsksConnect, Answers;
  }

  lemma {:induction false} RunFrom(family: nat, ss: seq<State>, moves: seq<Move>, i: nat)
    requires Run(family, ss, moves) && i < |ss|
    ensures From(ss[i], AskedBefore(ss, moves, i))
  {
    var a := AskedBefore(ss, moves, i);
    if i == 0 {
      NothingFrom(family, a);
    } else {
      hide From, Step, Enabled, WindowOk, AskedBefore, Allows;
      RunFrom(family, ss, moves, i - 1);
      AskedGrows(ss, moves, i);
      WidenFrom(ss[i - 1], AskedBefore(ss, moves, i - 1), a);
      RunStep(family, ss, moves, i - 1);
      var l, o := moves[i - 1].step, moves[i - 1].oracle;
      if IsApi(l) { ApiFrom(ss[i - 1], l, o, a); } else { EnvironmentFrom(ss[i - 1], l, o, a); }
    }
  }

  lemma NothingFrom(family: nat, a: Asked)
    ensures From(Init(family), a)
  {
  }

  /**
   Every native send is that of one accepted call: with its list of buffers, to its port, and to its address if
   that is a literal, to what a lookup of its address answered if it is a name, to the loopback address if there is
   none, or to the peer if the socket was connected.
   */
  lemma SentAsAsked(family: nat, ss: seq<State>, moves: seq<Move>, i: nat, k: nat)
    requires Run(family, ss, moves) && i < |ss| && k < |ss[i].log| && ss[i].log[k].SendCall?
    ensures var e := ss[i].log[k];
            AcceptedBefore(ss, moves, i, e.req) && DestFrom(e.req, e.dest, AskedBefore(ss, moves, i))
  {
    hide Follows, AcceptedBefore, DestFrom;
    RunFrom(family, ss, moves, i);
    assert EventFrom(ss[i].log[k], AskedBefore(ss, moves, i));
  }

  /** Every settled send was accepted, and is settled as the call it was. */
  lemma SettledAsAsked(family: nat, ss: seq<State>, moves: seq<Move>, i: nat, k: nat)
    requires Run(family, ss, moves) && i < |ss| && k < |ss[i].settled|
    ensures AcceptedBefore(ss, moves, i, ss[i].settled[k].req)
  {
    hide Follows, AcceptedBefore;
    RunFrom(family, ss, moves, i);
    assert AskedBefore(ss, moves, i).sends(ss[i].settled[k].req);
  }

  /** Every native bind is to the port and the host of a bind() call, or the one that send, connect or resume start. */
  lemma BoundAsAsked(family: nat, ss: seq<State>, moves: seq<Move>, i: nat, k: nat)
    requires Run(family, ss, moves) && i < |ss| && k < |ss[i].log| && ss[i].log[k].BindCall?
    ensures var e := ss[i].log[k];
            exists asked :: BindAsked(ss, moves, i, e.port, asked) && HostFrom(asked, e.host, AskedBefore(ss, moves, i))
  {
    hide Follows, BindAsked, HostFrom;
    RunFrom(family, ss, moves, i);
    var e, a := ss[i].log[k], AskedBefore(ss, moves, i);
    assert EventFrom(e, a);
    var asked :| a.binds(e.port, asked) && HostFrom(asked, e.host, AskedBefore(ss, moves, i));
    assert BindAsked(ss, moves, i, e.port, asked);
  }

  /** Every native connect is to the port and the host of a connect() call. */
  lemma ConnectedAsAsked(family: nat, ss: seq<State>, moves: seq<Move>, i: nat, k: nat)
    requires Run(family, ss, moves) && i < |ss| && k < |ss[i].log| && ss[i].log[k].ConnectCall?
    ensures var e := ss[i].log[k];
            exists asked ::
              ConnectAsked(ss, moves, i, e.port, asked) && HostFrom(asked, e.host, AskedBefore(ss, moves, i))
  {
    hide Follows, ConnectAsked, HostFrom;
    RunFrom(family, ss, moves, i);
    var e, a := ss[i].log[k], AskedBefore(ss, moves, i);
    assert EventFrom(e, a);
    var asked :| a.connects(e.port, asked) && HostFrom(asked, e.host, AskedBefore(ss, moves, i));
    assert ConnectAsked(ss, moves, i, e.port, asked);
  }

  /**
   The bytes of every native send are those that one `send()` of the run was called with, and so are its port and its
   callback; its size is their number.
   */
  lemma SentBytes(family: nat, ss: seq<State>, moves: seq<Move>, i: nat, k: nat) returns (j: nat)
    requires Run(family, ss, moves) && i < |ss| && k < |ss[i].log| && ss[i].log[k].SendCall?
    ensures j < i && moves[j].step.ApiSend? && SendRefusal(ss[j], moves[j].step.port, moves[j].step.address).None?
    ensures var req, call := ss[i].log[k].req, moves[j].step;
            && Flat(req.list) == Flat(call.list) && req.size == |Flat(call.list)|
            && req.port == call.port && req.address == call.address && req.cb == call.cb && req.tok == ss[j].accepted
  {
    hide Follows, DestFrom, SendRefusal;
    SentAsAsked(family, ss, moves, i, k);
    j :| 0 <= j < i && Accepts(ss[j], moves[j].step, ss[i].log[k].req);
  }

  /** What a callback is told is the number of bytes its own `send()` was called with, or 0 if it failed. */
  lemma ToldBytes(family: nat, ss: seq<State>, moves: seq<Move>, i: nat, k: nat) returns (j: nat)
    requires Run(family, ss, moves) && i < |ss| && k < |ss[i].settled|
    ensures j < i && moves[j].step.ApiSend? && ss[i].settled[k].req.tok == ss[j].accepted
    ensures var d := ss[i].settled[k]; d.bytes == if d.err.Some? then 0 else |Flat(moves[j].step.list)|
  {
    hide Follows, SendRefusal;
    SettledAsAsked(family, ss, moves, i, k);
    RunBoundary(family, ss, moves, i);
    j :| 0 <= j < i && Accepts(ss[j], moves[j].step, ss[i].settled[k].req);
    SizeIsLength(ss[i].settled[k].req.list);
  }

  // The number of a send identifies its call

  /** What a step that accepts nothing leaves as it is. */
  predicate NothingAccepted(s: State, t: State) {
    t.accepted == s.accepted && t.native.exiting == s.native.exiting
  }

  lemma ApiAccepts(s: State, l: Label, o: Oracle)
    requires IsApi(l) && Enabled(s, l) && !l.ApiSend?
    ensures NothingAccepted(s, Step(s, l, o))
  {
    hide BindMaybe, StartBind, HostOk, Loopback, Wildcard, Send, FlushNext, FlushEnd, AnswerLookup, RunTask, SendDone,
         CloseDone, OnMessage;
    if l.ApiConnect? && Connect(s, l.port, l.address, o).Done? {
      BindMaybeFlags(s.(flags := s.flags.(connecting := true)),
                     ConnectWork(l.port, if l.address == "" then Loopback(s) else l.address), o);
    } else if l.ApiBind? && Bind(s, l.port, l.address, o).Done? {
      StartBindFlags(s, l.port, if l.address == "" then Wildcard(s) else l.address, o);
    } else if l.ApiResume? && Live(s) {
      BindMaybeFlags(s.(paused := false), ResumeWork, o);
    }
  }

  lemma EnvironmentAccepts(s: State, l: Label, o: Oracle)
    requires !IsApi(l) && Enabled(s, l) && !l.DoTeardown?
    ensures NothingAccepted(s, Step(s, l, o))
  {
    hide Bind, Open, Connect, Disconnect, Send, Pause, Resume, Close, SetUnrefed, RunWork, Continue, Resolve;
    if l.DoFlushNext? {
      var f := s.frames[0];
      RunWorkFlags(s.(frames := [f.(rest := f.rest[1..])] + s.frames[1..]), f.rest[0], f.err, o);
    } else if l.DoAnswer? {
      ContinueFlags(s.(lookups := N.Remove(s.lookups, l.k)), s.lookups[l.k].cont, Resolve(l.answer), o);
    }
  }

  lemma StepAccepts(s: State, l: Label, o: Oracle)
    requires Enabled(s, l)
    ensures Step(s, l, o).accepted == s.accepted + if l.ApiSend? && SendThrows(s, l.port, l.address).None? then 1 else 0
    ensures Step(s, l, o).native.exiting == (s.native.exiting || l.DoTeardown?)
  {
    hide BindMaybe, SendThrows, Send, Bind, Open, Connect, Disconnect, Pause, Resume, Close, FlushNext, FlushEnd,
         AnswerLookup, RunTask, SendDone, CloseDone, OnMessage;
    if l.ApiSend? {
      SendCases(s, l.list, l.port, l.address, l.cb, o);
      if SendThrows(s, l.port, l.address).None? {
        BindMaybeFlags(s.(accepted := s.accepted + 1), SendWork(NewReq(s, l.list, l.port, l.address, l.cb)), o);
      }
    } else if IsApi(l) {
      ApiAccepts(s, l, o);
    } else if !l.DoTeardown? {
      EnvironmentAccepts(s, l, o);
    }
  }

  lemma {:induction false} AcceptedGrows(family: nat, ss: seq<State>, moves: seq<Move>, i: nat, j: nat)
    requires Run(family, ss, moves) && i <= j < |ss|
    ensures ss[i].accepted <= ss[j].accepted
    decreases j
  {
    hide Step, Enabled, WindowOk;
    if i < j {
      AcceptedGrows(family, ss, moves, i, j - 1);
      RunStep(family, ss, moves, j - 1);
      StepAccepts(ss[j - 1], moves[j - 1].step, moves[j - 1].oracle);
    }
  }

  /** Requests with the same number come from the same call. */
  lemma SameCall(family: nat, ss: seq<State>, moves: seq<Move>, i: nat, j: nat, a: Req, b: Req)
    requires Run(family, ss, moves) && i <= j < |moves| && a.tok == b.tok
    requires Accepts(ss[i], moves[i].step, a) && Accepts(ss[j], moves[j].step, b)
    ensures i == j && a == b
  {
    hide Step, Enabled, WindowOk;
    SendRefusalIff(ss[i], moves[i].step.port, moves[i].step.address);
    if i < j {
      RunStep(family, ss, moves, i);
      StepAccepts(ss[i], moves[i].step, moves[i].oracle);
      AcceptedGrows(family, ss, moves, i + 1, j);
    }
  }
}
