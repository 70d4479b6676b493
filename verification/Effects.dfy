/**
 What each step does, told by its effects: the native call it makes and with what, what it settles, queues, emits and
 leaves alone. Nothing here is said in terms of the functions of the protocol; hosts are judged by the patterns of
 `isIP` and by their UTF-8 encoding, sizes by the datagram, and every address and limit is written out.
 */
module Effects {
  import N = Native
  import opened Sequences
  import opened Ip
  import opened IpForm
  import opened IpAddress
  import opened Protocol
  import A = SendArgs

  // Hosts

  /** A literal that fits the C buffer. */
  ghost predicate Usable(text: string) { IsIP(text) != 0 && |A.Utf8(text)| <= 64 }

  /** A host that a caller may give: any name, but a literal has to fit. */
  ghost predicate MayGive(host: string) { host == "" || (IsIP(host) != 0 ==> |A.Utf8(host)| <= 64) }

  function AnyAddress(family: nat): string { if family == 6 then "::" else "0.0.0.0" }

  function OwnAddress(family: nat): string { if family == 6 then "::1" else "127.0.0.1" }

  lemma UsableIff(text: string)
    ensures IsIP(text) == Family(text)
    ensures Usable(text) <==> Family(text) != 0 && ByteLength(text) <= MAX_LENGTH
  {
    hide IsIP, Family, ByteLength, A.Utf8;
    FamilyIsIP(text);
    A.Utf8Length(text);
  }

  lemma MayGiveIff(host: string)
    ensures MayGive(host) <==> host == "" || HostOk(host)
  {
    hide IsIP, Family, ByteLength, A.Utf8;
    UsableIff(host);
  }

  lemma TotalSnoc(list: seq<seq<byte>>, b: seq<byte>)
    ensures Total(list + [b]) == Total(list) + |b|
  {
    assert (list + [b])[..|list|] == list;
  }

  lemma {:induction false} TotalAppend(xs: seq<seq<byte>>, ys: seq<seq<byte>>)
    ensures Total(xs + ys) == Total(xs) + Total(ys)
  {
    if ys == [] {
      assert xs + ys == xs;
    } else {
      var n := |ys| - 1;
      assert xs + ys == (xs + ys[..n]) + [ys[n]] && ys == ys[..n] + [ys[n]];
      TotalAppend(xs, ys[..n]);
      TotalSnoc(xs + ys[..n], ys[n]);
      TotalSnoc(ys[..n], ys[n]);
    }
  }

  /** The size of a request is the length of its datagram. */
  lemma {:induction false} SizeIsLength(list: seq<seq<byte>>)
    ensures Total(list) == |Flat(list)|
  {
    if list != [] {
      SizeIsLength(list[1..]);
      assert list == [list[0]] + list[1..];
      TotalAppend([list[0]], list[1..]);
      TotalSnoc([], list[0]);
      assert [] + [list[0]] == [list[0]];
    }
  }

  // Native calls and what follows them

  /** How a host was resolved. */
  datatype Target = Found(text: string) | Lost(err: Error)

  /** A lookup's own error is passed on; what is no fitting literal is an invalid host. */
  ghost function TargetOf(answer: Answer): Target {
    match answer
    case LookupFailed(err) => Lost(err)
    case NotAString => Lost(InvalidHost)
    case Address(text) => if Usable(text) then Found(text) else Lost(InvalidHost)
  }

  predicate Over(s: State) { s.flags.closing || s.flags.closed }

  /** What a failed send without a callback reports. */
  function Report(req: Req, err: Error): seq<Event> { if req.cb then [] else [EmitError(err)] }

  /** A bind that has its host: one native call, followed by the flush of what has been queued or by a report. */
  ghost predicate Binds(s: State, port: int, x: Target, o: Oracle, t: State) {
    if Over(s) then t == s
    else match x
      case Lost(err) => t == s.(tasks := s.tasks + [BindFailed(err)])
      case Found(text) =>
        var called := s.log + [BindCall(port, text, IsIP(text))];
        if o.native.Queued? then
          && t.log == called && t.flags == s.flags.(bound := true, binding := false, reading := t.flags.reading)
          && t.family == (if s.family == 0 then o.local else s.family)
          && t.frames == [Frame(None, s.pending, ThenListening)] + s.frames && t.pending == []
          && t.tasks == s.tasks && t.lookups == s.lookups && t.settled == s.settled && t.sends == s.sends
          && t.paused == s.paused && t.listeners == s.listeners
        else
          t == s.(log := called, tasks := s.tasks + [BindFailed(NativeError(o.native.code))])
  }

  /** A connect that has its host: CONNECTED and one `connect` to emit if the native call succeeds, else its error. */
  ghost predicate Connects(s: State, port: int, x: Target, o: Oracle, t: State) {
    if Over(s) then t == s.(flags := s.flags.(connecting := false))
    else match x
      case Lost(err) => t == s.(flags := s.flags.(connecting := false), tasks := s.tasks + [Failure(err)])
      case Found(text) =>
        var called := s.log + [ConnectCall(port, text, IsIP(text))];
        if o.native.Queued? then
          t == s.(flags := s.flags.(connecting := false, connected := true), log := called,
                  tasks := s.tasks + [Connected])
        else
          t == s.(flags := s.flags.(connecting := false), log := called,
                  tasks := s.tasks + [Failure(NativeError(o.native.code))])
  }

  /** A send that goes out: recorded and queued, or settled at once with the native error. */
  ghost predicate GoesOut(s: State, req: Req, dest: Option<Dest>, o: Oracle, t: State) {
    var called := s.log + [SendCall(req, s.sendId, dest)];
    && t.flags == s.flags && t.tasks == s.tasks && t.frames == s.frames && t.pending == s.pending
    && t.lookups == s.lookups && t.listeners == s.listeners && t.family == s.family && t.paused == s.paused
    && t.sendId == (s.sendId + 1) % 0x1_0000_0000
    && if o.native.Queued? then
         && t.log == called && t.settled == s.settled && t.sends == s.sends[s.sendId := req]
         && t.native.queue == s.native.queue + [N.Block(s.native.mallocs, s.sendId, req.tok, s.draws)]
       else
         var err := NativeError(o.native.code);
         && t.log == called + Report(req, err) && t.settled == s.settled + [Settled(req, Some(err), 0)]
         && t.sends == s.sends - {s.sendId} && t.native.queue == s.native.queue
  }

  /** A send that has its host. */
  ghost predicate Sends(s: State, req: Req, x: Target, o: Oracle, t: State) {
    match x
    case Lost(err) =>
      t == s.(settled := s.settled + [Settled(req, Some(err), 0)], log := s.log + Report(req, err))
    case Found(text) =>
      if Over(s) then t == s.(settled := s.settled + [Settled(req, Some(SocketClosed), 0)])
      else GoesOut(s, req, Some(Dest(req.port, text, IsIP(text))), o, t)
  }

  ghost predicate Goes(s: State, cont: Cont, x: Target, o: Oracle, t: State) {
    match cont
    case ForBind(port) => Binds(s, port, x, o, t)
    case ForConnect(port) => Connects(s, port, x, o, t)
    case ForSend(req) => Sends(s, req, x, o, t)
  }

  /** A literal goes on at once; a name is looked up, in the family of the socket. */
  ghost predicate Reaches(s: State, host: string, cont: Cont, o: Oracle, t: State) {
    if IsIP(host) != 0 then Goes(s, cont, Found(host), o, t)
    else t == s.(lookups := s.lookups + [Lookup(host, s.family, cont)])
  }

  /** A deferred closure called without an error. */
  ghost predicate Performs(s: State, w: Work, o: Oracle, t: State) {
    match w
    case SendWork(req) =>
      if req.connected then GoesOut(s, req, None, o, t)
      else Reaches(s, if req.address == "" then OwnAddress(s.family) else req.address, ForSend(req), o, t)
    case ConnectWork(port, host) => Reaches(s, host, ForConnect(port), o, t)
    case ResumeWork =>
      if s.paused || s.flags.reading then t == s
      else t == s.(flags := s.flags.(reading := true), native := s.native.(reading := true))
  }

  /** Work handed to a live socket: run if it is bound, else queued, starting a bind if there is none. */
  ghost predicate Defers(s: State, w: Work, o: Oracle, t: State) {
    if s.flags.bound then Performs(s, w, o, t)
    else
      var queued := s.(pending := s.pending + [w]);
      if s.flags.binding then t == queued
      else Reaches(queued.(flags := s.flags.(binding := true)), AnyAddress(s.family), ForBind(0), o, t)
  }

  // The functions of the protocol have these effects

  lemma BindResolvedBinds(s: State, port: int, text: string, o: Oracle)
    ensures Binds(s, port, Found(text), o, BindResolved(s, port, Resolved(text, Family(text)), o))
  {
    hide IsIP, Family;
    UsableIff(text);
  }

  lemma ConnectResolvedConnects(s: State, port: int, text: string, o: Oracle)
    ensures Connects(s, port, Found(text), o, ConnectResolved(s, port, Resolved(text, Family(text)), o))
  {
    hide IsIP, Family;
    UsableIff(text);
  }

  lemma HandOffGoesOut(s: State, req: Req, dest: Option<Dest>, o: Oracle)
    ensures GoesOut(s, req, dest, o, HandOff(s, req, dest, o))
  {
  }

  lemma SendResolvedSends(s: State, req: Req, text: string, o: Oracle)
    ensures Sends(s, req, Found(text), o, SendResolved(s, req, Resolved(text, Family(text)), o))
  {
    hide IsIP, Family, GoesOut, HandOff;
    UsableIff(text);
    HandOffGoesOut(s, req, Some(Dest(req.port, text, Family(text))), o);
  }

  lemma ContinueGoes(s: State, cont: Cont, text: string, o: Oracle)
    ensures Goes(s, cont, Found(text), o, Continue(s, cont, Resolved(text, Family(text)), o))
  {
    hide IsIP, Family, Binds, Connects, Sends, BindResolved, ConnectResolved, SendResolved;
    match cont {
      case ForBind(port) => BindResolvedBinds(s, port, text, o);
      case ForConnect(port) => ConnectResolvedConnects(s, port, text, o);
      case ForSend(req) => SendResolvedSends(s, req, text, o);
    }
  }

  lemma ContinueLost(s: State, cont: Cont, err: Error, o: Oracle)
    ensures Goes(s, cont, Lost(err), o, Continue(s, cont, Unresolved(err), o))
  {
    hide HandOff, OnBind;
    if cont.ForSend? && cont.req.cb { assert s.log + [] == s.log; }
  }

  lemma ResolveHostReaches(s: State, host: string, cont: Cont, o: Oracle)
    ensures Reaches(s, host, cont, o, ResolveHost(s, host, cont, o))
  {
    hide IsIP, Family, Continue, Goes;
    UsableIff(host);
    ContinueGoes(s, cont, host, o);
  }

  lemma RunWorkRuns(s: State, w: Work, o: Oracle)
    ensures Performs(s, w, o, RunWork(s, w, None, o))
  {
    hide ResolveHost, Reaches, HandOff, GoesOut;
    match w {
      case SendWork(req) =>
        if req.connected {
          HandOffGoesOut(s, req, None, o);
        } else {
          ResolveHostReaches(s, if req.address != "" then req.address else Loopback(s), ForSend(req), o);
        }
      case ConnectWork(port, host) => ResolveHostReaches(s, host, ForConnect(port), o);
      case ResumeWork =>
    }
  }

  lemma BindMaybeDefers(s: State, w: Work, o: Oracle)
    ensures Defers(s, w, o, BindMaybe(s, w, o))
  {
    hide RunWork, Performs, ResolveHost, Reaches;
    if s.flags.bound {
      RunWorkRuns(s, w, o);
    } else {
      var s1 := s.(pending := s.pending + [w]);
      ResolveHostReaches(s1.(flags := s.flags.(binding := true)), Wildcard(s1), ForBind(0), o);
    }
  }

  // Calls

  /** Why `bind` throws, if it does, in the order in which it looks. */
  ghost function BindRefusal(s: State, port: int, address: string): Option<Thrown> {
    if s.flags.binding || s.flags.bound then Some(AlreadyBound)
    else if Over(s) then Some(Closed)
    else if port < 0 || port > 65535 then Some(BadPort)
    else if !MayGive(address) then Some(BadHost)
    else None
  }

  ghost function ConnectRefusal(s: State, port: int, address: string): Option<Thrown> {
    if s.flags.connecting || s.flags.connected then Some(AlreadyConnected)
    else if Over(s) then Some(Closed)
    else if port < 1 || port > 65535 then Some(BadPort)
    else if !MayGive(address) then Some(BadHost)
    else None
  }

  ghost function SendRefusal(s: State, port: int, address: string): Option<Thrown> {
    if s.flags.connected && (port != 0 || address != "") then Some(AlreadyConnected)
    else if !s.flags.connected && (port < 1 || port > 65535) then Some(BadPort)
    else if !MayGive(address) then Some(BadHost)
    else if Over(s) then Some(Closed)
    else None
  }

  /** A call throws exactly for the reason given, changing nothing; otherwise it has the effect that `t` shows. */
  ghost predicate Refuses(api: Api, why: Option<Thrown>) {
    (why.Some? <==> api.Threw?) && (why.Some? ==> why.value == api.why)
  }

  lemma BindMeans(s: State, port: int, address: string, o: Oracle)
    ensures var api := Bind(s, port, address, o);
            && Refuses(api, BindRefusal(s, port, address))
            && (api.Done? ==>
                  Reaches(s.(flags := s.flags.(binding := true)),
                          if address == "" then AnyAddress(s.family) else address, ForBind(port), o, api.state))
  {
    hide HostOk, IsIP, A.Utf8, ResolveHost, Reaches;
    MayGiveIff(address);
    ResolveHostReaches(s.(flags := s.flags.(binding := true)), if address == "" then Wildcard(s) else address,
                       ForBind(port), o);
  }

  lemma ConnectMeans(s: State, port: int, address: string, o: Oracle)
    ensures var api := Connect(s, port, address, o);
            && Refuses(api, ConnectRefusal(s, port, address))
            && (api.Done? ==>
                  Defers(s.(flags := s.flags.(connecting := true)),
                         ConnectWork(port, if address == "" then OwnAddress(s.family) else address), o, api.state))
  {
    hide HostOk, IsIP, A.Utf8, BindMaybe, Defers;
    MayGiveIff(address);
    BindMaybeDefers(s.(flags := s.flags.(connecting := true)),
                    ConnectWork(port, if address == "" then Loopback(s) else address), o);
  }

  lemma SendRefusalIff(s: State, port: int, address: string)
    ensures SendRefusal(s, port, address) == SendThrows(s, port, address)
  {
    hide HostOk, IsIP, A.Utf8;
    MayGiveIff(address);
  }

  /** The request of a send is the call itself, with the length of its datagram. */
  lemma SendMeans(s: State, list: seq<seq<byte>>, port: int, address: string, cb: bool, o: Oracle)
    ensures var api := Send(s, list, port, address, cb, o);
            && Refuses(api, SendRefusal(s, port, address))
            && (api.Done? ==>
                  var req := Req(s.accepted, list, |Flat(list)|, port, address, s.flags.connected, cb);
                  Defers(s.(accepted := s.accepted + 1), SendWork(req), o, api.state))
  {
    hide HostOk, IsIP, A.Utf8, BindMaybe, Defers, Total, Flat;
    MayGiveIff(address);
    SizeIsLength(list);
    BindMaybeDefers(s.(accepted := s.accepted + 1), SendWork(NewReq(s, list, port, address, cb)), o);
  }

  lemma ResumeMeans(s: State, o: Oracle)
    ensures var s1, t := s.(paused := false), Resume(s, o); if Over(s) then t == s1 else Defers(s1, ResumeWork, o, t)
  {
    hide BindMaybe, Defers;
    BindMaybeDefers(s.(paused := false), ResumeWork, o);
  }

  /** `disconnect` clears CONNECTED exactly if it was set and the native call succeeds; otherwise it throws. */
  lemma DisconnectMeans(s: State, o: Oracle)
    ensures var api := Disconnect(s, o);
            && Refuses(api, if !s.flags.connected then Some(NotConnected)
                            else if !o.native.Queued? then Some(NativeThrew) else None)
            && (api.Done? ==> api.state == s.(flags := s.flags.(connected := false)))
  {
  }

  /** `bind({ fd })` adopts a descriptor: bound at once, or a failure to report. */
  lemma OpenMeans(s: State, fd: int, o: Oracle)
    ensures var api := Open(s, fd, o);
            && Refuses(api, if s.flags.binding || s.flags.bound then Some(AlreadyBound)
                            else if Over(s) then Some(Closed)
                            else if fd < 0 || fd > 0x7fff_ffff then Some(BadFd) else None)
            && (api.Done? ==>
                  var t := api.state;
                  if o.native.Queued? then
                    && t.flags == s.flags.(bound := true, reading := t.flags.reading) && t.log == s.log
                    && t.family == (if s.family == 0 then o.local else s.family)
                    && t.frames == [Frame(None, s.pending, ThenListening)] + s.frames && t.pending == []
                    && t.tasks == s.tasks && t.lookups == s.lookups && t.settled == s.settled && t.sends == s.sends
                  else
                    t == s.(flags := s.flags.(binding := true),
                            tasks := s.tasks + [BindFailed(NativeError(o.native.code))]))
  {
  }

  // Reactions

  /**
   The answer to a lookup, whatever it is. A literal of at most 64 bytes makes the waiting bind, connect or send call
   the native layer with that text, its family and its own port; anything else makes no native call and ends it with
   the lookup's own error or an invalid host.
   */
  lemma AnswerMeans(s: State, k: nat, answer: Answer, o: Oracle)
    requires Enabled(s, DoAnswer(k, answer))
    ensures Goes(s.(lookups := s.lookups[..k] + s.lookups[k + 1..]), s.lookups[k].cont, TargetOf(answer), o,
                 Step(s, DoAnswer(k, answer), o))
  {
    hide Goes, Continue, IsIP, Family, A.Utf8, ByteLength, Bind, Open, Connect, Send, Resume, Close, FlushNext,
         FlushEnd;
    var s1 := s.(lookups := N.Remove(s.lookups, k));
    var cont := s.lookups[k].cont;
    match answer {
      case LookupFailed(err) => ContinueLost(s1, cont, err, o);
      case NotAString => ContinueLost(s1, cont, InvalidHost, o);
      case Address(text) =>
        UsableIff(text);
        ContinueGoes(s1, cont, text, o);
        ContinueLost(s1, cont, InvalidHost, o);
    }
  }

  /** A turn of a flush without an error calls its next closure. */
  lemma FlushMeans(s: State, o: Oracle)
    requires Enabled(s, DoFlushNext) && s.frames[0].err.None?
    ensures var f := s.frames[0];
            Performs(s.(frames := [f.(rest := f.rest[1..])] + s.frames[1..]), f.rest[0], o, Step(s, DoFlushNext, o))
  {
    hide RunWork, Performs, Bind, Open, Connect, Send, Resume, Close, AnswerLookup, FlushEnd, RunTask;
    var f := s.frames[0];
    RunWorkRuns(s.(frames := [f.(rest := f.rest[1..])] + s.frames[1..]), f.rest[0], o);
  }

  /** A microtask emits what it was queued for; `listening` and `connect` only on a live socket. */
  lemma TaskMeans(s: State, o: Oracle)
    requires Enabled(s, DoTask)
    ensures var s1, t := s.(tasks := s.tasks[1..]), Step(s, DoTask, o);
            match s.tasks[0]
            case Listening => t == if Over(s) then s1 else s1.(log := s.log + [EmitListening])
            case Connected => t == if Over(s) then s1 else s1.(log := s.log + [EmitConnect])
            case Failure(err) => t == s1.(log := s.log + [EmitError(err)])
            case OnClose(id) => t == s1.(log := s.log + [RanOnClose(id)])
            case BindFailed(err) =>
              t == s1.(flags := s.flags.(binding := false), pending := [],
                       frames := [Frame(Some(err), s.pending, ThenReport(err))] + s.frames)
  {
    hide Bind, Open, Connect, Send, Resume, Close, AnswerLookup, FlushNext, FlushEnd, SendDone, CloseDone;
  }

  /** A completion is told to its callback, or as an `error` if there is none, it failed and the socket is live. */
  lemma CompletionMeans(s: State, k: nat, err: Option<Error>, o: Oracle)
    requires Enabled(s, DoSendDone(k, err)) && !s.native.exiting && s.native.queue[k].id in s.sends
    ensures var t, req := Step(s, DoSendDone(k, err), o), s.sends[s.native.queue[k].id];
            && t.settled == s.settled + [Settled(req, err, if err.Some? then 0 else req.size)]
            && t.log == s.log + (if err.Some? && !Over(s) then Report(req, err.value) else [])
            && t.flags == s.flags && t.tasks == s.tasks && t.frames == s.frames && t.lookups == s.lookups
            && t.pending == s.pending && t.sends == s.sends - {s.native.queue[k].id}
  {
    hide Bind, Open, Connect, Send, Resume, Close, AnswerLookup, FlushNext, FlushEnd, RunTask, CloseDone;
    assert s.log + [] == s.log;
  }

  /** A datagram is a message, a truncated one or a failing read an error, and on a closing handle all are dropped. */
  lemma MessageMeans(s: State, read: N.Read, o: Oracle)
    requires Enabled(s, DoMessage(read))
    ensures var t := Step(s, DoMessage(read), o);
            if s.native.closing || s.native.exiting || read.Nothing? then t == s
            else match read
              case Datagram(length) => t == s.(log := s.log + [EmitMessage(length)])
              case Truncated(_) => t == s.(log := s.log + [EmitError(NativeError(N.EMSGSIZE))])
              case ReadError(code) => t == s.(log := s.log + [EmitError(NativeError(code))])
  {
    hide Bind, Open, Connect, Send, Resume, Close, AnswerLookup, FlushNext, FlushEnd, RunTask, CloseDone, SendDone;
  }

  // Connects, outcome by outcome

  /** A connect to a literal on a live bound socket: connected with one `connect` to emit, or one native error. */
  lemma ConnectOutcome(s: State, port: int, address: string, o: Oracle)
    requires ConnectRefusal(s, port, address).None? && s.flags.bound && IsIP(address) != 0
    ensures var api := Connect(s, port, address, o);
            && api.Done?
            && api.state == s.(flags := s.flags.(connecting := false, connected := o.native.Queued?),
                               log := s.log + [ConnectCall(port, address, IsIP(address))],
                               tasks := s.tasks + [if o.native.Queued? then Connected
                                                   else Failure(NativeError(o.native.code))])
  {
    hide IsIP, A.Utf8, Connect, MayGive;
    EmptyIsNoLiteral();
    ConnectMeans(s, port, address, o);
  }

  lemma EmptyIsNoLiteral()
    ensures IsIP("") == 0
  {
    hide IsIP, IsQuad, Decompose;
    FamilyIsIP("");
    if IsQuad("") { QuadFacts(""); }
    NothingHere();
  }

  lemma NothingHere()
    ensures Decompose(AddressPart("")) == None
  {
  }

  /** The answer to the lookup of a connect on a live socket: the same, or one error of the lookup. */
  lemma ConnectAnswered(s: State, k: nat, answer: Answer, o: Oracle)
    requires Enabled(s, DoAnswer(k, answer)) && s.lookups[k].cont.ForConnect? && !Over(s) && !s.flags.connected
    ensures var t := Step(s, DoAnswer(k, answer), o);
            && !t.flags.connecting && t.settled == s.settled
            && match TargetOf(answer)
               case Lost(err) => !t.flags.connected && t.log == s.log && t.tasks == s.tasks + [Failure(err)]
               case Found(text) =>
                 && t.log == s.log + [ConnectCall(s.lookups[k].cont.port, text, IsIP(text))]
                 && t.flags.connected == o.native.Queued?
                 && t.tasks == s.tasks + [if o.native.Queued? then Connected else Failure(NativeError(o.native.code))]
  {
    hide IsIP, A.Utf8, Step, TargetOf;
    AnswerMeans(s, k, answer, o);
  }
}
