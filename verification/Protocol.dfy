/**
 The socket of index.js as a state machine on values. A state holds the fields of `DgramSocket`, what the
 JavaScript engine keeps for it (flush loops in progress, microtasks, unanswered lookups) and the native handle;
 `Step` performs one atomic step. Closures are represented by what they capture. User code runs only where the
 source calls it, always as the last thing an atomic step does, so calls it makes from inside a callback are
 simply the steps that come next, on top of the flush loops that are still in progress.
 */
module Protocol {
  import N = Native
  import opened IpForm
  import opened IpAddress

  newtype byte = x: int | 0 <= x < 256

  datatype Error = NativeError(code: N.Code) | LookupError(code: int) | InvalidHost | SocketClosed

  /** The eight bits of `_state`. */
  datatype Flags = Flags(connecting: bool, connected: bool, binding: bool, bound: bool,
                         reading: bool, closing: bool, closed: bool, unrefed: bool)

  const NoFlags := Flags(false, false, false, false, false, false, false, false)

  /** An accepted `send()` call, numbered by `tok`, with everything its closure captures. "" is no address. */
  datatype Req = Req(tok: nat, list: seq<seq<byte>>, size: nat, port: int, address: string, connected: bool, cb: bool)

  /** The closures put into `_pending` by send, connect and resume. */
  datatype Work = SendWork(req: Req) | ConnectWork(port: int, host: string) | ResumeWork

  /** The closures passed to `_resolve`. */
  datatype Cont = ForBind(port: int) | ForConnect(port: int) | ForSend(req: Req)

  datatype Lookup = Lookup(host: string, family: nat, cont: Cont)

  datatype Answer = LookupFailed(err: Error) | NotAString | Address(text: string)

  datatype Resolution = Unresolved(err: Error) | Resolved(host: string, family: nat)

  datatype Task = Listening | BindFailed(err: Error) | Connected | Failure(err: Error) | OnClose(id: nat)

  /** A `_flush(err)` in progress: the closures it has not called yet and what follows the loop. */
  datatype Frame = Frame(err: Option<Error>, rest: seq<Work>, tail: Tail)

  datatype Tail = ThenListening | ThenReport(err: Error) | ThenClose

  /** A settled send: its callback, if it has one, was called with (err, bytes). */
  datatype Settled = Settled(req: Req, err: Option<Error>, bytes: nat)

  datatype Dest = Dest(port: int, host: string, family: nat)

  datatype Event =
    | BindCall(port: int, host: string, family: nat)
    | ConnectCall(port: int, host: string, family: nat)
    | SendCall(req: Req, id: nat, dest: Option<Dest>)
    | EmitListening | EmitConnect | EmitClose | EmitError(err: Error) | EmitMessage(length: nat)
    | RanOnClose(id: nat)

  datatype State = State(
    flags: Flags,
    paused: bool,
    family: nat,
    pending: seq<Work>,
    sends: map<nat, Req>,
    sendId: nat,
    listeners: seq<nat>,     // once('close') listeners passed to close(), by number
    frames: seq<Frame>,      // flush loops in progress, innermost first
    tasks: seq<Task>,        // microtasks, next first
    lookups: seq<Lookup>,    // unanswered lookups
    native: N.Native,
    accepted: nat,           // sends accepted so far
    draws: nat,              // ids drawn so far
    closeCalls: nat,         // callbacks passed to close() so far
    settled: seq<Settled>,
    log: seq<Event>)

  /** What the environment decides: the result of the step's native call and the family the socket got bound to. */
  datatype Oracle = Oracle(native: N.SendResult, local: nat)

  datatype Thrown = AlreadyBound | AlreadyConnected | NotConnected | Closed | BadPort | BadFd | BadHost | NativeThrew

  datatype Api = Threw(why: Thrown) | Done(state: State)

  const INET6_ADDRSTRLEN := 46
  const UV_IF_NAMESIZE := 17
  const MAX_LENGTH := INET6_ADDRSTRLEN + 1 + UV_IF_NAMESIZE
  const ID_RANGE := 0x1_0000_0000

  function Init(family: nat): State {
    State(NoFlags, false, family, [], map[], 0, [], [], [], [], N.Fresh, 0, 0, 0, [], [])
  }

  predicate Live(s: State) {
    !s.flags.closing && !s.flags.closed
  }

  function Failed(o: Oracle): Option<Error> {
    if o.native.Queued? then None else Some(NativeError(o.native.code))
  }

  function Emit(s: State, e: Event): State {
    s.(log := s.log + [e])
  }

  function Enqueue(s: State, t: Task): State {
    s.(tasks := s.tasks + [t])
  }

  function Push(s: State, err: Option<Error>, tail: Tail): State {
    s.(pending := [], frames := [Frame(err, s.pending, tail)] + s.frames)
  }

  // Hosts

  function Wildcard(s: State): string { if s.family == 6 then "::" else "0.0.0.0" }

  function Loopback(s: State): string { if s.family == 6 then "::1" else "127.0.0.1" }

  /** The number of bytes in the UTF-8 encoding of `s`. */
  function ByteLength(s: string): nat {
    if s == "" then 0
    else ByteLength(s[..|s| - 1]) +
         var c := s[|s| - 1];
         if c < 0x80 as char then 1 else if c < 0x800 as char then 2 else if c < 0x1_0000 as char then 3 else 4
  }

  /** `validateHost`: only a literal has to fit. */
  predicate HostOk(host: string) {
    Family(host) != 0 ==> ByteLength(host) <= MAX_LENGTH
  }

  function Resolve(answer: Answer): Resolution {
    match answer
    case LookupFailed(err) => Unresolved(err)
    case NotAString => Unresolved(InvalidHost)
    case Address(text) =>
      if Family(text) == 0 || ByteLength(text) > MAX_LENGTH then Unresolved(InvalidHost)
      else Resolved(text, Family(text))
  }

  // Settling sends

  function Settle(s: State, req: Req, err: Option<Error>, bytes: nat): State {
    s.(settled := s.settled + [Settled(req, err, bytes)])
  }

  /** `_onsenderror` */
  function OnSendError(s: State, req: Req, err: Error): State {
    var s1 := Settle(s, req, Some(err), 0);
    if req.cb then s1 else Emit(s1, EmitError(err))
  }

  /** `_send` */
  function HandOff(s: State, req: Req, dest: Option<Dest>, o: Oracle): State {
    var id := s.sendId;
    var s1 := Emit(s, SendCall(req, id, dest)).(
      sendId := (id + 1) % ID_RANGE,
      draws := s.draws + 1,
      native := N.Send(s.native, id, req.tok, s.draws, o.native));
    if o.native.Queued? then s1.(sends := s.sends[id := req])
    else OnSendError(s1.(sends := s.sends - {id}), req, NativeError(o.native.code))
  }

  // Binding

  /** `_resume` */
  function StartReading(s: State): State {
    if s.paused || s.flags.reading then s
    else s.(flags := s.flags.(reading := true), native := s.native.(reading := true))
  }

  /** `_onbind`, up to its flush */
  function OnBind(s: State, local: nat): State {
    var s1 := s.(flags := s.flags.(bound := true, binding := false),
                 family := if s.family == 0 then local else s.family);
    Push(StartReading(s1), None, ThenListening)
  }

  /** `_onbinderror` */
  function OnBindError(s: State, err: Error): State {
    Enqueue(s, BindFailed(err))
  }

  // The closures passed to _resolve

  function BindResolved(s: State, port: int, r: Resolution, o: Oracle): State {
    if !Live(s) then s
    else if r.Unresolved? then OnBindError(s, r.err)
    else
      var s1 := Emit(s, BindCall(port, r.host, r.family));
      if Failed(o).Some? then OnBindError(s1, Failed(o).value) else OnBind(s1, o.local)
  }

  function ConnectResolved(s: State, port: int, r: Resolution, o: Oracle): State {
    var s1 := s.(flags := s.flags.(connecting := false));
    if !Live(s1) then s1
    else if r.Unresolved? then Enqueue(s1, Failure(r.err))
    else
      var s2 := Emit(s1, ConnectCall(port, r.host, r.family));
      if Failed(o).Some? then Enqueue(s2, Failure(Failed(o).value))
      else Enqueue(s2.(flags := s2.flags.(connected := true)), Connected)
  }

  function SendResolved(s: State, req: Req, r: Resolution, o: Oracle): State {
    if r.Unresolved? then OnSendError(s, req, r.err)
    else if !Live(s) then Settle(s, req, Some(SocketClosed), 0)
    else HandOff(s, req, Some(Dest(req.port, r.host, r.family)), o)
  }

  function Continue(s: State, cont: Cont, r: Resolution, o: Oracle): State {
    match cont
    case ForBind(port) => BindResolved(s, port, r, o)
    case ForConnect(port) => ConnectResolved(s, port, r, o)
    case ForSend(req) => SendResolved(s, req, r, o)
  }

  /** `_resolve`: a literal continues at once, anything else waits for an answer. */
  function ResolveHost(s: State, host: string, cont: Cont, o: Oracle): State {
    var family := Family(host);
    if family != 0 then Continue(s, cont, Resolved(host, family), o)
    else s.(lookups := s.lookups + [Lookup(host, s.family, cont)])
  }

  // Pending work

  /** Calling one closure of `_pending`. */
  function RunWork(s: State, w: Work, err: Option<Error>, o: Oracle): State {
    match w
    case SendWork(req) =>
      if err.Some? then Settle(s, req, err, 0)
      else if req.connected then HandOff(s, req, None, o)
      else ResolveHost(s, if req.address != "" then req.address else Loopback(s), ForSend(req), o)
    case ConnectWork(port, host) =>
      if err.Some? then s.(flags := s.flags.(connecting := false))
      else ResolveHost(s, host, ForConnect(port), o)
    case ResumeWork =>
      if err.Some? then s else StartReading(s)
  }

  function StartBind(s: State, port: int, host: string, o: Oracle): State {
    ResolveHost(s.(flags := s.flags.(binding := true)), host, ForBind(port), o)
  }

  /** `_bindMaybe` */
  function BindMaybe(s: State, w: Work, o: Oracle): State {
    if s.flags.bound then RunWork(s, w, None, o)
    else
      var s1 := s.(pending := s.pending + [w]);
      if s.flags.binding then s1 else StartBind(s1, 0, Wildcard(s1), o)
  }

  // The API

  function Bind(s: State, port: int, address: string, o: Oracle): Api {
    if s.flags.binding || s.flags.bound then Threw(AlreadyBound)
    else if !Live(s) then Threw(Closed)
    else if !(0 <= port <= 0xffff) then Threw(BadPort)
    else if address != "" && !HostOk(address) then Threw(BadHost)
    else Done(StartBind(s, port, if address == "" then Wildcard(s) else address, o))
  }

  /** `bind({ fd })` */
  function Open(s: State, fd: int, o: Oracle): Api {
    if s.flags.binding || s.flags.bound then Threw(AlreadyBound)
    else if !Live(s) then Threw(Closed)
    else if !(0 <= fd <= 0x7fff_ffff) then Threw(BadFd)
    else
      var s1 := s.(flags := s.flags.(binding := true));
      Done(if Failed(o).Some? then OnBindError(s1, Failed(o).value) else OnBind(s1, o.local))
  }

  function Connect(s: State, port: int, address: string, o: Oracle): Api {
    if s.flags.connecting || s.flags.connected then Threw(AlreadyConnected)
    else if !Live(s) then Threw(Closed)
    else if !(1 <= port <= 0xffff) then Threw(BadPort)
    else if address != "" && !HostOk(address) then Threw(BadHost)
    else
      var host := if address == "" then Loopback(s) else address;
      Done(BindMaybe(s.(flags := s.flags.(connecting := true)), ConnectWork(port, host), o))
  }

  function Disconnect(s: State, o: Oracle): Api {
    if !s.flags.connected then Threw(NotConnected)
    else if Failed(o).Some? then Threw(NativeThrew)
    else Done(s.(flags := s.flags.(connected := false)))
  }

  /** The datagram that a list of buffers makes. */
  function Flat(list: seq<seq<byte>>): seq<byte> {
    if list == [] then [] else list[0] + Flat(list[1..])
  }

  function Total(list: seq<seq<byte>>): nat {
    if list == [] then 0 else Total(list[..|list| - 1]) + |list[|list| - 1]|
  }

  /** Why `send` throws, if it does. Port 0 and address "" stand for arguments that were not given. */
  function SendThrows(s: State, port: int, address: string): Option<Thrown> {
    if s.flags.connected && (port != 0 || address != "") then Some(AlreadyConnected)
    else if !s.flags.connected && !(1 <= port <= 0xffff) then Some(BadPort)
    else if address != "" && !HostOk(address) then Some(BadHost)
    else if !Live(s) then Some(Closed)
    else None
  }

  function NewReq(s: State, list: seq<seq<byte>>, port: int, address: string, cb: bool): Req {
    Req(s.accepted, list, Total(list), port, address, s.flags.connected, cb)
  }

  /** `send` behind its argument handling */
  function Send(s: State, list: seq<seq<byte>>, port: int, address: string, cb: bool, o: Oracle): Api {
    var why := SendThrows(s, port, address);
    if why.Some? then Threw(why.value)
    else Done(BindMaybe(s.(accepted := s.accepted + 1), SendWork(NewReq(s, list, port, address, cb)), o))
  }

  function Pause(s: State): State {
    var s1 := s.(paused := true);
    if !Live(s) || !s.flags.reading then s1
    else s1.(flags := s.flags.(reading := false), native := s.native.(reading := false))
  }

  function Resume(s: State, o: Oracle): State {
    var s1 := s.(paused := false);
    if !Live(s) then s1 else BindMaybe(s1, ResumeWork, o)
  }

  function Close(s: State, onclose: bool): State {
    if s.flags.closed then
      if onclose then Enqueue(s, OnClose(s.closeCalls)).(closeCalls := s.closeCalls + 1) else s
    else
      var s1 := if onclose then s.(listeners := s.listeners + [s.closeCalls], closeCalls := s.closeCalls + 1) else s;
      if s.flags.closing then s1
      else s1.(flags := Flags(false, false, false, false, false, true, false, s.flags.unrefed),
               native := N.Close(s.native))
  }

  function SetUnrefed(s: State, unrefed: bool): State {
    s.(flags := s.flags.(unrefed := unrefed))
  }

  // The environment

  /** One turn of the innermost flush loop. */
  function FlushNext(s: State, o: Oracle): State
    requires s.frames != [] && s.frames[0].rest != []
  {
    var f := s.frames[0];
    RunWork(s.(frames := [f.(rest := f.rest[1..])] + s.frames[1..]), f.rest[0], f.err, o)
  }

  /** The innermost flush loop is over. */
  function FlushEnd(s: State): State
    requires s.frames != [] && s.frames[0].rest == []
  {
    var s1 := s.(frames := s.frames[1..]);
    match s.frames[0].tail
    case ThenListening => Enqueue(s1, Listening)
    case ThenReport(err) => if s.flags.closed then s1 else Emit(s1, EmitError(err))
    case ThenClose => RunListeners(Emit(s1, EmitClose))
  }

  function Ran(ids: seq<nat>): seq<Event> {
    seq(|ids|, i requires 0 <= i < |ids| => RanOnClose(ids[i]))
  }

  function RunListeners(s: State): State {
    s.(listeners := [], log := s.log + Ran(s.listeners))
  }

  function AnswerLookup(s: State, k: nat, answer: Answer, o: Oracle): State
    requires k < |s.lookups|
  {
    Continue(s.(lookups := N.Remove(s.lookups, k)), s.lookups[k].cont, Resolve(answer), o)
  }

  function RunTask(s: State): State
    requires s.tasks != []
  {
    var s1 := s.(tasks := s.tasks[1..]);
    match s.tasks[0]
    case Listening => if Live(s) then Emit(s1, EmitListening) else s1
    case Connected => if Live(s) then Emit(s1, EmitConnect) else s1
    case Failure(err) => Emit(s1, EmitError(err))
    case OnClose(id) => Emit(s1, RanOnClose(id))
    case BindFailed(err) =>
      Push(s1.(flags := s.flags.(binding := false)), Some(err), ThenReport(err))
  }

  /** `_onsend` */
  function OnSend(s: State, id: nat, err: Option<Error>): State {
    if id !in s.sends then s
    else
      var req := s.sends[id];
      var s1 := Settle(s.(sends := s.sends - {id}), req, err, if err.Some? then 0 else req.size);
      if !req.cb && err.Some? && Live(s) then Emit(s1, EmitError(err.value)) else s1
  }

  function SendDone(s: State, k: nat, err: Option<Error>): State
    requires k < |s.native.queue|
  {
    var s1 := s.(native := N.OnSend(s.native, k));
    if s.native.exiting then s1 else OnSend(s1, s.native.queue[k].id, err)
  }

  /** `_onclose`, up to its flush */
  function CloseDone(s: State): State
    requires N.CanClose(s.native)
  {
    var s1 := s.(native := N.OnClose(s.native));
    if s.native.exiting then s1
    else Push(s1.(flags := s.flags.(closed := true, closing := false), sends := map[]), Some(SocketClosed), ThenClose)
  }

  function OnMessage(s: State, read: N.Read): State {
    match N.OnMessage(s.native, read)
    case Dropped => s
    case Failed(code) => Emit(s, EmitError(NativeError(code)))
    case Delivered(length) => Emit(s, EmitMessage(length))
  }

  // Runs

  datatype Label =
    | ApiBind(port: int, address: string) | ApiOpen(fd: int) | ApiConnect(port: int, address: string) | ApiDisconnect
    | ApiSend(list: seq<seq<byte>>, port: int, address: string, cb: bool)
    | ApiPause | ApiResume | ApiClose(onclose: bool) | ApiRef | ApiUnref
    | DoFlushNext | DoFlushEnd | DoAnswer(k: nat, answer: Answer) | DoTask
    | DoSendDone(k: nat, err: Option<Error>) | DoCloseDone | DoTeardown | DoMessage(read: N.Read)

  predicate IsApi(l: Label) {
    l.ApiBind? || l.ApiOpen? || l.ApiConnect? || l.ApiDisconnect? || l.ApiSend?
    || l.ApiPause? || l.ApiResume? || l.ApiClose? || l.ApiRef? || l.ApiUnref?
  }

  /**
   When a step can happen. Events run to completion: a microtask or a native callback starts only when no flush
   loop is in progress, and a datagram is read only while receiving is on. No JavaScript runs once the environment's
   teardown has begun.
   */
  predicate Enabled(s: State, l: Label) {
    match l
    case DoFlushNext => !s.native.exiting && s.frames != [] && s.frames[0].rest != []
    case DoFlushEnd => !s.native.exiting && s.frames != [] && s.frames[0].rest == []
    case DoAnswer(k, _) => !s.native.exiting && k < |s.lookups|
    case DoTask => !s.native.exiting && s.frames == [] && s.tasks != []
    case DoSendDone(k, _) => s.frames == [] && k < |s.native.queue|
    case DoCloseDone => s.frames == [] && N.CanClose(s.native)
    case DoTeardown => s.frames == [] && !s.native.exiting && s.native.closesDone == 0
    case DoMessage(_) => s.frames == [] && s.native.reading
    case _ => !s.native.exiting
  }

  /** A call that throws changes nothing. */
  function Outcome(s: State, api: Api): State {
    if api.Done? then api.state else s
  }

  function Step(s: State, l: Label, o: Oracle): State
    requires Enabled(s, l)
  {
    match l
    case ApiBind(port, address) => Outcome(s, Bind(s, port, address, o))
    case ApiOpen(fd) => Outcome(s, Open(s, fd, o))
    case ApiConnect(port, address) => Outcome(s, Connect(s, port, address, o))
    case ApiDisconnect => Outcome(s, Disconnect(s, o))
    case ApiSend(list, port, address, cb) => Outcome(s, Send(s, list, port, address, cb, o))
    case ApiPause => Pause(s)
    case ApiResume => Resume(s, o)
    case ApiClose(onclose) => Close(s, onclose)
    case ApiRef => SetUnrefed(s, false)
    case ApiUnref => SetUnrefed(s, true)
    case DoFlushNext => FlushNext(s, o)
    case DoFlushEnd => FlushEnd(s)
    case DoAnswer(k, answer) => AnswerLookup(s, k, answer, o)
    case DoTask => RunTask(s)
    case DoSendDone(k, err) => SendDone(s, k, err)
    case DoCloseDone => CloseDone(s)
    case DoTeardown => s.(native := N.OnTeardown(s.native))
    case DoMessage(read) => OnMessage(s, read)
  }

  /** A send either throws, changing nothing, or is accepted by a live socket and handed to `_bindMaybe`. */
  lemma SendCases(s: State, list: seq<seq<byte>>, port: int, address: string, cb: bool, o: Oracle)
    ensures Outcome(s, Send(s, list, port, address, cb, o)) ==
            if SendThrows(s, port, address).Some? then s
            else BindMaybe(s.(accepted := s.accepted + 1), SendWork(NewReq(s, list, port, address, cb)), o)
    ensures SendThrows(s, port, address).None? ==> Live(s)
  {
    hide BindMaybe, HostOk, Live;
  }
}
