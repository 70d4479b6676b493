/**
 `DgramSocket` of index.js as a mutable object: the byte of flags, the queue of deferred closures, the map of sends
 in flight and the native handle, updated in place by methods that follow the source statement by statement.

 `View` is the state of module Protocol that the object stands for. Every method is proved to take exactly the
 step that Protocol gives it, so what is proved about runs of `Step` holds for every history of calls on the object.
 */
module Socket {
  import N = Native
  import opened IpForm
  import opened IpAddress
  import opened StateBits
  import opened P = Protocol
  import opened Ledger
  import opened Closing
  import A = SendArgs
  import I = Invariant

  /** A method reports an exception as `Some(why)`; `api` says what should have happened. */
  ghost predicate Reports(api: Api, why: Option<Thrown>, before: State, after: State) {
    && (why.Some? <==> api.Threw?)
    && (why.Some? ==> why.value == api.why)
    && after == Outcome(before, api)
  }

  class DgramSocket {
    // The fields of index.js

    var state: bv8
    var paused: bool
    var family: nat
    var pending: seq<Work>
    var sends: map<nat, Req>
    var sendId: nat
    const handle: N.NativeHandle

    // What the engine and the event emitter keep for the socket

    var listeners: seq<nat>
    var frames: seq<Frame>
    var tasks: seq<Task>
    var lookups: seq<Lookup>
    var accepted: nat
    var draws: nat
    var closeCalls: nat
    var settled: seq<Settled>
    var log: seq<Event>

    ghost function View(): State
      reads this, handle
    {
      State(FlagsOf(state), paused, family, pending, sends, sendId, listeners, frames, tasks, lookups,
            handle.View(), accepted, draws, closeCalls, settled, log)
    }

    constructor (socketFamily: nat)
      ensures View() == Init(socketFamily) && fresh(handle)
    {
      state, paused, family, pending, sends, sendId := 0, false, socketFamily, [], map[], 0;
      listeners, frames, tasks, lookups := [], [], [], [];
      accepted, draws, closeCalls, settled, log := 0, 0, 0, [], [];
      handle := new N.NativeHandle();
    }

    // Events, microtasks and settlement

    method Emit(e: Event)
      modifies `log
      ensures View() == P.Emit(old(View()), e)
    {
      log := log + [e];
    }

    method QueueMicrotask(t: Task)
      modifies `tasks
      ensures View() == Enqueue(old(View()), t)
    {
      tasks := tasks + [t];
    }

    /** The call of a send's callback, or nothing when it has none. */
    method Settle(req: Req, err: Option<Error>, bytes: nat)
      modifies `settled
      ensures View() == P.Settle(old(View()), req, err, bytes)
    {
      settled := settled + [Settled(req, err, bytes)];
    }

    method OnSendError(req: Req, err: Error)
      modifies `settled, `log
      ensures View() == P.OnSendError(old(View()), req, err)
    {
      Settle(req, Some(err), 0);
      if req.cb { return; }
      Emit(EmitError(err));
    }

    method SendNow(req: Req, dest: Option<Dest>, o: Oracle)
      modifies `sendId, `sends, `draws, `settled, `log, handle
      ensures View() == HandOff(old(View()), req, dest, o)
    {
      hide FlagsOf, P.OnSendError, N.Send;
      ghost var before := sends;
      var id, threw := CallSend(req, dest, o);
      if threw {
        sends := sends - {id};
        SetThenDelete(before, id, req);
        OnSendError(req, NativeError(o.native.code));
      }
    }

    /** Draws an id, records the request under it and makes the native call. */
    method CallSend(req: Req, dest: Option<Dest>, o: Oracle) returns (id: nat, threw: bool)
      modifies `sendId, `sends, `draws, `log, handle
      ensures var s := old(View());
              && id == s.sendId && threw == !o.native.Queued?
              && View() == P.Emit(s, SendCall(req, id, dest)).(
                   sendId := (id + 1) % ID_RANGE, draws := s.draws + 1, sends := s.sends[id := req],
                   native := N.Send(s.native, id, req.tok, s.draws, o.native))
    {
      hide FlagsOf, N.Send;
      id := sendId;
      sendId := (id + 1) % ID_RANGE;
      sends := sends[id := req];
      Emit(SendCall(req, id, dest));
      threw := handle.SendRequest(id, req.tok, draws, o.native);
      draws := draws + 1;
    }

    // Binding

    method StartReading()
      modifies `state, handle
      ensures View() == P.StartReading(old(View()))
    {
      hide FlagsOf, Has, Set;
      Tests(state);
      Sets(state);
      if paused { return; }
      if Has(state, READING) { return; }
      state := Set(state, READING);
      handle.Receive(true);
    }

    /** The first two statements of `_flush`; its loop is `FlushTurn`, `FlushDone` and, in one go, `RunFlush`. */
    method Flush(err: Option<Error>, tail: Tail)
      modifies `pending, `frames
      ensures View() == Push(old(View()), err, tail)
    {
      var rest := pending;
      pending := [];
      frames := [Frame(err, rest, tail)] + frames;
    }

    method OnBind(local: nat)
      modifies `state, `family, `pending, `frames, handle
      ensures View() == P.OnBind(old(View()), local)
    {
      hide FlagsOf, Push, P.StartReading;
      SetBound(local);
      StartReading();
      Flush(None, ThenListening);
    }

    method SetBound(local: nat)
      modifies `state, `family
      ensures var s := old(View());
              View() == s.(flags := s.flags.(bound := true, binding := false),
                           family := if s.family == 0 then local else s.family)
    {
      hide FlagsOf, Has, Set, Clear;
      BoundBits(state);
      state := Set(state, BOUND);
      state := Clear(state, BINDING);
      if family == 0 { family := local; }
    }

    method OnBindError(err: Error)
      modifies `tasks
      ensures View() == P.OnBindError(old(View()), err)
    {
      QueueMicrotask(BindFailed(err));
    }

    // The closures passed to `_resolve`

    method BindResolved(port: int, r: Resolution, o: Oracle)
      modifies this, handle
      ensures View() == P.BindResolved(old(View()), port, r, o)
    {
      hide FlagsOf, Has, P.OnBind, P.OnBindError, P.Emit;
      Tests(state);
      if Has(state, CLOSING | CLOSED) { return; }
      if r.Unresolved? {
        OnBindError(r.err);
        return;
      }
      Emit(BindCall(port, r.host, r.family));
      if Failed(o).Some? {
        OnBindError(Failed(o).value);
        return;
      }
      OnBind(o.local);
    }

    method ConnectResolved(port: int, r: Resolution, o: Oracle)
      modifies this, handle
      ensures View() == P.ConnectResolved(old(View()), port, r, o)
    {
      hide FlagsOf, Has, Set, Clear, P.Emit, Enqueue;
      ghost var s := View();
      Clears(state);
      state := Clear(state, CONNECTING);
      assert View() == s.(flags := s.flags.(connecting := false));
      Tests(state);
      Sets(state);
      if Has(state, CLOSING | CLOSED) { return; }
      var err := None;
      if r.Unresolved? {
        err := Some(r.err);
      } else {
        Emit(ConnectCall(port, r.host, r.family));
        err := Failed(o);
      }
      if err.Some? {
        QueueMicrotask(Failure(err.value));
        return;
      }
      state := Set(state, CONNECTED);
      QueueMicrotask(Connected);
    }

    method SendResolved(req: Req, r: Resolution, o: Oracle)
      modifies this, handle
      ensures View() == P.SendResolved(old(View()), req, r, o)
    {
      hide FlagsOf, Has, HandOff, P.OnSendError, P.Settle;
      Tests(state);
      if r.Unresolved? {
        OnSendError(req, r.err);
        return;
      }
      if Has(state, CLOSING | CLOSED) {
        Settle(req, Some(SocketClosed), 0);
        return;
      }
      SendNow(req, Some(Dest(req.port, r.host, r.family)), o);
    }

    method Continue(cont: Cont, r: Resolution, o: Oracle)
      modifies this, handle
      ensures View() == P.Continue(old(View()), cont, r, o)
    {
      hide P.BindResolved, P.ConnectResolved, P.SendResolved;
      match cont {
        case ForBind(port) => BindResolved(port, r, o);
        case ForConnect(port) => ConnectResolved(port, r, o);
        case ForSend(req) => SendResolved(req, r, o);
      }
    }

    method Resolve(host: string, cont: Cont, o: Oracle)
      modifies this, handle
      ensures View() == ResolveHost(old(View()), host, cont, o)
    {
      hide P.Continue, Family;
      var literal := Family(host);
      if literal != 0 {
        Continue(cont, Resolved(host, literal), o);
        return;
      }
      lookups := lookups + [Lookup(host, family, cont)];
    }

    // Deferred work

    method RunWork(w: Work, err: Option<Error>, o: Oracle)
      modifies this, handle
      ensures View() == P.RunWork(old(View()), w, err, o)
    {
      hide FlagsOf, Clear, ResolveHost, HandOff, P.StartReading, P.Settle, Loopback;
      match w {
        case SendWork(req) =>
          if err.Some? {
            Settle(req, err, 0);
          } else if req.connected {
            SendNow(req, None, o);
          } else {
            var loopback := LoopbackAddress();
            Resolve(if req.address != "" then req.address else loopback, ForSend(req), o);
          }
        case ConnectWork(port, host) =>
          if err.Some? {
            Clears(state);
            state := Clear(state, CONNECTING);
          } else {
            Resolve(host, ForConnect(port), o);
          }
        case ResumeWork =>
          if err.None? { StartReading(); }
      }
    }

    method LoopbackAddress() returns (host: string)
      ensures host == Loopback(View())
    {
      host := if family == 6 then "::1" else "127.0.0.1";
    }

    method WildcardAddress() returns (host: string)
      ensures host == Wildcard(View())
    {
      host := if family == 6 then "::" else "0.0.0.0";
    }

    method BindMaybe(w: Work, o: Oracle)
      requires Live(View())
      modifies this, handle
      ensures View() == P.BindMaybe(old(View()), w, o)
    {
      hide FlagsOf, Has, P.RunWork, StartBind, Wildcard, HostOk;
      Tests(state);
      if Has(state, BOUND) {
        RunWork(w, None, o);
        return;
      }
      pending := pending + [w];
      if !Has(state, BINDING) {
        var _ := Bind(0, "", o);
      }
    }

    // The API

    method Bind(port: int, address: string, o: Oracle) returns (why: Option<Thrown>)
      modifies this, handle
      ensures Reports(P.Bind(old(View()), port, address, o), why, old(View()), View())
    {
      hide FlagsOf, Has, Set, ResolveHost, Wildcard, HostOk;
      Tests(state);
      Sets(state);
      if Has(state, BINDING | BOUND) { return Some(AlreadyBound); }
      if Has(state, CLOSING | CLOSED) { return Some(P.Closed); }
      if port < 0 || port > 0xffff { return Some(BadPort); }
      var host := address;
      if address == "" {
        host := WildcardAddress();
      } else if !HostOk(address) {
        return Some(BadHost);
      }
      state := Set(state, BINDING);
      Resolve(host, ForBind(port), o);
      return None;
    }

    method Open(fd: int, o: Oracle) returns (why: Option<Thrown>)
      modifies this, handle
      ensures Reports(P.Open(old(View()), fd, o), why, old(View()), View())
    {
      hide FlagsOf, Has, Set, P.OnBind, P.OnBindError;
      Tests(state);
      Sets(state);
      if Has(state, BINDING | BOUND) { return Some(AlreadyBound); }
      if Has(state, CLOSING | CLOSED) { return Some(P.Closed); }
      if fd < 0 || fd > 0x7fff_ffff { return Some(BadFd); }
      state := Set(state, BINDING);
      if Failed(o).Some? {
        OnBindError(Failed(o).value);
      } else {
        OnBind(o.local);
      }
      return None;
    }

    method Connect(port: int, address: string, o: Oracle) returns (why: Option<Thrown>)
      modifies this, handle
      ensures Reports(P.Connect(old(View()), port, address, o), why, old(View()), View())
    {
      hide FlagsOf, Has, Set, P.BindMaybe, Loopback, HostOk;
      Tests(state);
      Sets(state);
      if Has(state, CONNECTING | CONNECTED) { return Some(AlreadyConnected); }
      if Has(state, CLOSING | CLOSED) { return Some(P.Closed); }
      if port < 1 || port > 0xffff { return Some(BadPort); }
      var host := address;
      if address == "" {
        host := LoopbackAddress();
      } else if !HostOk(address) {
        return Some(BadHost);
      }
      state := Set(state, CONNECTING);
      BindMaybe(ConnectWork(port, host), o);
      return None;
    }

    method Disconnect(o: Oracle) returns (why: Option<Thrown>)
      modifies `state
      ensures Reports(P.Disconnect(old(View()), o), why, old(View()), View())
    {
      hide FlagsOf, Has, Clear;
      ConnectedBits(state);
      if !Has(state, CONNECTED) { return Some(NotConnected); }
      if Failed(o).Some? { return Some(NativeThrew); }
      state := Clear(state, CONNECTED);
      return None;
    }

    /** `send`: a call whose arguments are in order throws only when the socket is closing or closed. */
    method SendMessage(call: A.Call, convert: A.Value -> A.Number, o: Oracle)
      returns (args: A.Result<A.Request>, why: Option<Thrown>)
      modifies this, handle
      ensures A.Reads(old(View()).flags.connected, call, args)
      ensures args.Err? ==> View() == old(View())
      ensures args.Ok? ==>
                var req := args.value;
                && Reports(P.Send(old(View()), A.Buffers(req.list), req.port, req.address, req.cb.Some?, o),
                           why, old(View()), View())
                && (why.Some? <==> !Live(old(View())))
      ensures forall ov | call == A.Raw(ov) && A.Documented(old(View()).flags.connected, ov) && args.Ok? ::
                P.Flat(A.Buffers(args.value.list)) == A.BytesOf(ov)
    {
      hide FlagsOf, Has, A.Reads, HostOk, A.Buffers, P.BindMaybe, A.Raw, A.BytesOf, P.Flat;
      Tests(state);
      why := None;
      args := A.Arguments(Has(state, CONNECTED), call, convert);
      if args.Err? { return; }
      var req := args.value;
      forall ov | call == A.Raw(ov) && A.Documented(View().flags.connected, ov)
        ensures P.Flat(A.Buffers(req.list)) == A.BytesOf(ov)
      {
        A.SendsItsBytes(View().flags.connected, call, args, ov);
      }
      assert A.Checked(View().flags.connected, req) by { A.Ready(View().flags.connected, call, args); }
      why := Send(A.Buffers(req.list), req.port, req.address, req.cb.Some?, o);
    }

    /** The part of `send` behind its argument handling. */
    method Send(list: seq<seq<byte>>, port: int, address: string, cb: bool, o: Oracle) returns (why: Option<Thrown>)
      modifies this, handle
      ensures Reports(P.Send(old(View()), list, port, address, cb, o), why, old(View()), View())
    {
      hide FlagsOf, Has, P.BindMaybe, HostOk, Total;
      Tests(state);
      var connected := Has(state, CONNECTED);
      if connected && (port != 0 || address != "") { return Some(AlreadyConnected); }
      if !connected && (port < 1 || port > 0xffff) { return Some(BadPort); }
      if address != "" && !HostOk(address) { return Some(BadHost); }
      if Has(state, CLOSING | CLOSED) { return Some(P.Closed); }
      var size := Size(list);
      var req := Req(accepted, list, size, port, address, connected, cb);
      accepted := accepted + 1;
      BindMaybe(SendWork(req), o);
      return None;
    }

    method Pause()
      modifies `paused, `state, handle
      ensures View() == P.Pause(old(View()))
    {
      hide FlagsOf, Has, Clear;
      Tests(state);
      Clears(state);
      paused := true;
      if Has(state, CLOSING | CLOSED) { return; }
      if Has(state, READING) {
        state := Clear(state, READING);
        handle.Receive(false);
      }
    }

    method Resume(o: Oracle)
      modifies this, handle
      ensures View() == P.Resume(old(View()), o)
    {
      hide FlagsOf, Has, P.BindMaybe;
      Tests(state);
      paused := false;
      if Has(state, CLOSING | CLOSED) { return; }
      BindMaybe(ResumeWork, o);
    }

    method Close(onclose: bool)
      modifies `state, `tasks, `listeners, `closeCalls, handle
      ensures View() == P.Close(old(View()), onclose)
    {
      hide FlagsOf, Has, Enqueue, N.Close;
      Tests(state);
      if Has(state, CLOSED) {
        if onclose {
          QueueMicrotask(OnClose(closeCalls));
          closeCalls := closeCalls + 1;
        }
        return;
      }
      if onclose {
        listeners := listeners + [closeCalls];
        closeCalls := closeCalls + 1;
      }
      if Has(state, CLOSING) { return; }
      BeginClose();
    }

    method BeginClose()
      requires !View().flags.closed
      modifies `state, handle
      ensures var s := old(View());
              View() == s.(flags := Flags(false, false, false, false, false, true, false, s.flags.unrefed),
                           native := N.Close(s.native))
    {
      hide FlagsOf, Has, Set, Clear;
      Sets(state);
      state := Set(state, CLOSING);
      ClearsActivity(state);
      state := Clear(state, BINDING | BOUND | CONNECTING | CONNECTED | READING);
      handle.CloseHandle();
    }

    method Ref()
      modifies `state
      ensures View() == SetUnrefed(old(View()), false)
    {
      hide FlagsOf, Clear;
      Clears(state);
      state := Clear(state, UNREFED);
    }

    method Unref()
      modifies `state
      ensures View() == SetUnrefed(old(View()), true)
    {
      hide FlagsOf, Set;
      Sets(state);
      state := Set(state, UNREFED);
    }

    // Callbacks from the engine and from the native layer

    method FlushTurn(o: Oracle)
      requires frames != [] && frames[0].rest != []
      modifies this, handle
      ensures View() == FlushNext(old(View()), o)
    {
      hide P.RunWork, FlagsOf;
      var f := frames[0];
      frames := [f.(rest := f.rest[1..])] + frames[1..];
      RunWork(f.rest[0], f.err, o);
    }

    method FlushDone()
      requires frames != [] && frames[0].rest == []
      modifies this
      ensures View() == FlushEnd(old(View()))
    {
      hide FlagsOf, Has;
      Tests(state);
      var tail := frames[0].tail;
      frames := frames[1..];
      match tail {
        case ThenListening => QueueMicrotask(Listening);
        case ThenReport(err) =>
          if Has(state, CLOSED) { return; }
          Emit(EmitError(err));
        case ThenClose =>
          Emit(EmitClose);
          log := log + Ran(listeners);
          listeners := [];
      }
    }

    method Answered(k: nat, answer: Answer, o: Oracle)
      requires k < |lookups|
      modifies this, handle
      ensures View() == AnswerLookup(old(View()), k, answer, o)
    {
      hide P.Continue, P.Resolve, FlagsOf;
      var l := lookups[k];
      lookups := lookups[..k] + lookups[k + 1..];
      Continue(l.cont, P.Resolve(answer), o);
    }

    method RunMicrotask()
      requires tasks != []
      modifies this
      ensures View() == RunTask(old(View()))
    {
      hide FlagsOf, P.Emit, Push;
      var t := tasks[0];
      tasks := tasks[1..];
      match t {
        case Listening => EmitIfLive(EmitListening);
        case Connected => EmitIfLive(EmitConnect);
        case Failure(err) => Emit(EmitError(err));
        case OnClose(id) => Emit(RanOnClose(id));
        case BindFailed(err) => ReportBindFailure(err);
      }
    }

    method EmitIfLive(e: Event)
      modifies `log
      ensures View() == if Live(old(View())) then P.Emit(old(View()), e) else old(View())
    {
      hide FlagsOf, Has;
      Tests(state);
      if Has(state, CLOSING | CLOSED) { return; }
      Emit(e);
    }

    method ReportBindFailure(err: Error)
      modifies `state, `pending, `frames
      ensures var s := old(View());
              View() == Push(s.(flags := s.flags.(binding := false)), Some(err), ThenReport(err))
    {
      hide FlagsOf, Clear;
      Clears(state);
      state := Clear(state, BINDING);
      Flush(Some(err), ThenReport(err));
    }

    method OnSend(id: nat, err: Option<Error>)
      modifies `sends, `settled, `log
      ensures View() == P.OnSend(old(View()), id, err)
    {
      hide FlagsOf, Has;
      Tests(state);
      if id !in sends { return; }
      var req := sends[id];
      sends := sends - {id};
      Settle(req, err, if err.Some? then 0 else req.size);
      if req.cb { return; }
      if err.None? { return; }
      if Has(state, CLOSING | CLOSED) { return; }
      Emit(EmitError(err.value));
    }

    method SendCompleted(k: nat, err: Option<Error>)
      requires k < |handle.queue|
      modifies this, handle
      ensures View() == SendDone(old(View()), k, err)
    {
      hide FlagsOf, P.OnSend;
      var id, tell := handle.RequestDone(k);
      if tell { OnSend(id, err); }
    }

    method OnCloseCallback()
      modifies this
      ensures View() == Push(old(View()).(flags := old(View()).flags.(closed := true, closing := false),
                                          sends := map[]), Some(SocketClosed), ThenClose)
    {
      hide FlagsOf, Set, Clear;
      Sets(state);
      state := Set(state, CLOSED);
      Clears(state);
      state := Clear(state, CLOSING);
      sends := map[];
      Flush(Some(SocketClosed), ThenClose);
    }

    method CloseCompleted()
      requires N.CanClose(handle.View())
      modifies this, handle
      ensures View() == CloseDone(old(View()))
    {
      hide FlagsOf, Push;
      var tell := handle.HandleClosed();
      if tell { OnCloseCallback(); }
    }

    method OnMessage(read: N.Read)
      modifies `log
      ensures View() == P.OnMessage(old(View()), read)
    {
      match N.OnMessage(handle.View(), read) {
        case Dropped =>
        case Failed(code) => Emit(EmitError(NativeError(code)));
        case Delivered(length) => Emit(EmitMessage(length));
      }
    }

    // Histories

    /** The loop of `_flush`, when no callback makes a call of its own in the meantime. */
    method RunFlush(oracles: nat -> Oracle)
      requires frames != []
      modifies this, handle
      ensures View() == FlushRest(old(View()), oracles, 0)
    {
      hide FlagsOf, P.RunWork;
      var k := 0;
      while frames[0].rest != []
        invariant frames != []
        invariant FlushRest(View(), oracles, k) == FlushRest(old(View()), oracles, 0)
        decreases |frames[0].rest|
      {
        FlushNextShrinks(View(), oracles(k));
        FlushTurn(oracles(k));
        k := k + 1;
      }
      FlushDone();
    }

    method Call(l: Label, o: Oracle)
      requires IsApi(l) && Enabled(View(), l)
      modifies this, handle
      ensures View() == Step(old(View()), l, o)
    {
      hide FlagsOf, P.Bind, P.Open, P.Connect, P.Disconnect, P.Send, P.Pause, P.Resume, P.Close;
      match l {
        case ApiBind(port, address) => var _ := Bind(port, address, o);
        case ApiOpen(fd) => var _ := Open(fd, o);
        case ApiConnect(port, address) => var _ := Connect(port, address, o);
        case ApiDisconnect => var _ := Disconnect(o);
        case ApiSend(list, port, address, cb) => var _ := Send(list, port, address, cb, o);
        case ApiPause => Pause();
        case ApiResume => Resume(o);
        case ApiClose(onclose) => Close(onclose);
        case ApiRef => Ref();
        case ApiUnref => Unref();
      }
    }

    method React(l: Label, o: Oracle)
      requires !IsApi(l) && Enabled(View(), l)
      modifies this, handle
      ensures View() == Step(old(View()), l, o)
    {
      hide FlagsOf, FlushNext, FlushEnd, AnswerLookup, RunTask, SendDone, CloseDone, P.OnMessage;
      match l {
        case DoFlushNext => FlushTurn(o);
        case DoFlushEnd => FlushDone();
        case DoAnswer(k, answer) => Answered(k, answer, o);
        case DoTask => RunMicrotask();
        case DoSendDone(k, err) => SendCompleted(k, err);
        case DoCloseDone => CloseCompleted();
        case DoTeardown => handle.Teardown();
        case DoMessage(read) => OnMessage(read);
      }
    }

    /** One step of a history: the object moves as the protocol does and keeps its invariant. */
    method Perform(l: Label, o: Oracle)
      requires Enabled(View(), l) && WindowOk(View()) && I.Inv(View())
      modifies this, handle
      ensures View() == Step(old(View()), l, o) && I.Inv(View())
    {
      hide FlagsOf, Step, I.Inv, WindowOk;
      I.StepInv(View(), l, o);
      if IsApi(l) {
        Call(l, o);
      } else {
        React(l, o);
      }
    }
  }

  /** The size sum of `send`. */
  method Size(list: seq<seq<byte>>) returns (size: nat)
    ensures size == Total(list)
  {
    size := 0;
    var i := 0;
    while i < |list|
      invariant i <= |list| && size == Total(list[..i])
    {
      assert list[..i + 1][..i] == list[..i];
      size := size + |list[i]|;
      i := i + 1;
    }
    assert list[..i] == list;
  }

  lemma SetThenDelete(m: map<nat, Req>, id: nat, req: Req)
    ensures m[id := req] - {id} == m - {id}
  {
  }
}
