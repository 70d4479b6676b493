/** Flag safety and receive gating: what the flags say to each other in every state, whatever callbacks do. */
module Control {
  import N = Native
  import opened IpForm
  import opened IpAddress
  import opened Protocol

  /** BINDING excludes BOUND, CONNECTING excludes CONNECTED, and a closing or closed socket has no activity flag. */
  predicate FlagsOk(s: State) {
    && !(s.flags.binding && s.flags.bound)
    && !(s.flags.connecting && s.flags.connected)
    && (s.flags.connected ==> s.flags.bound)
    && !(s.flags.closing && s.flags.closed)
    && (!Live(s) ==> !s.flags.binding && !s.flags.bound && !s.flags.connecting && !s.flags.connected)
  }

  /** A live socket is reading, natively too, exactly when it is bound and the last pause or resume was no pause. */
  predicate GateOk(s: State) {
    Live(s) && !s.native.exiting ==> s.native.reading == s.flags.reading == (s.flags.bound && !s.paused)
  }

  predicate FrameOk(s: State, f: Frame) {
    && (f.err.None? && Live(s) ==> s.flags.bound)
    && (f.tail.ThenClose? ==> s.flags.closed)
    && (f.tail.ThenListening? <==> f.err.None?)
    && (f.tail.ThenReport? ==> f.err == Some(f.tail.err))
  }

  ghost predicate FramesOk(s: State) {
    forall i | 0 <= i < |s.frames| :: FrameOk(s, s.frames[i])
  }

  /** Queued work waits for a bind in progress or for the close; it is never stranded. */
  predicate PendingOk(s: State) {
    s.pending != [] ==> s.flags.binding || s.flags.closing
  }

  /** A connect resolves its host only once the socket is bound. */
  ghost predicate LookupsOk(s: State) {
    forall i | 0 <= i < |s.lookups| :: s.lookups[i].cont.ForConnect? && Live(s) ==> s.flags.bound
  }

  ghost predicate ControlOk(s: State) {
    FlagsOk(s) && GateOk(s) && FramesOk(s) && PendingOk(s) && LookupsOk(s)
  }

  /** The parts of a state that `ControlOk` looks at. */
  predicate SameControl(s: State, t: State) {
    && t.flags == s.flags && t.paused == s.paused && t.pending == s.pending && t.frames == s.frames
    && t.lookups == s.lookups && t.native.reading == s.native.reading && t.native.exiting == s.native.exiting
  }

  lemma Same(s: State, t: State)
    requires ControlOk(s) && SameControl(s, t)
    ensures ControlOk(t)
  {
    assert forall f :: FrameOk(t, f) == FrameOk(s, f);
  }

  lemma SendResolvedSame(s: State, req: Req, r: Resolution, o: Oracle)
    ensures SameControl(s, SendResolved(s, req, r, o))
  {
  }

  lemma StartReadingKeeps(s: State)
    requires ControlOk(s) && (Live(s) ==> s.flags.bound)
    ensures ControlOk(StartReading(s))
  {
  }

  lemma OnBindKeeps(s: State, local: nat)
    requires FlagsOk(s) && FramesOk(s) && LookupsOk(s) && Live(s) && !s.flags.bound && !s.native.exiting
    requires !s.flags.reading && !s.native.reading && !s.flags.connected
    ensures ControlOk(OnBind(s, local))
  {
  }

  lemma BindResolvedKeeps(s: State, port: int, r: Resolution, o: Oracle)
    requires ControlOk(s) && !s.native.exiting && (Live(s) ==> !s.flags.bound)
    ensures ControlOk(BindResolved(s, port, r, o))
  {
    if Live(s) && r.Resolved? && Failed(o).None? {
      var s1 := Emit(s, BindCall(port, r.host, r.family));
      Same(s, s1);
      OnBindKeeps(s1, o.local);
    } else {
      Same(s, BindResolved(s, port, r, o));
    }
  }

  lemma ConnectResolvedKeeps(s: State, port: int, r: Resolution, o: Oracle)
    requires ControlOk(s) && (Live(s) ==> s.flags.bound)
    ensures ControlOk(ConnectResolved(s, port, r, o))
  {
  }

  /** What a continuation needs to know about the socket. */
  predicate ContOk(s: State, cont: Cont) {
    && (cont.ForBind? && Live(s) ==> !s.flags.bound)
    && (cont.ForConnect? && Live(s) ==> s.flags.bound)
  }

  lemma ContinueKeeps(s: State, cont: Cont, r: Resolution, o: Oracle)
    requires ControlOk(s) && !s.native.exiting && ContOk(s, cont)
    ensures ControlOk(Continue(s, cont, r, o))
  {
    match cont {
      case ForBind(port) => BindResolvedKeeps(s, port, r, o);
      case ForConnect(port) => ConnectResolvedKeeps(s, port, r, o);
      case ForSend(req) =>
        SendResolvedSame(s, req, r, o);
        Same(s, SendResolved(s, req, r, o));
    }
  }

  lemma ResolveHostKeeps(s: State, host: string, cont: Cont, o: Oracle)
    requires ControlOk(s) && !s.native.exiting && ContOk(s, cont)
    ensures ControlOk(ResolveHost(s, host, cont, o))
  {
    var family := Family(host);
    if family != 0 {
      ContinueKeeps(s, cont, Resolved(host, family), o);
    } else {
      var t := ResolveHost(s, host, cont, o);
      assert forall f :: FrameOk(t, f) == FrameOk(s, f);
    }
  }

  lemma RunWorkKeeps(s: State, w: Work, err: Option<Error>, o: Oracle)
    requires ControlOk(s) && !s.native.exiting && (err.None? && Live(s) ==> s.flags.bound)
    ensures ControlOk(RunWork(s, w, err, o))
  {
    match w {
      case SendWork(req) =>
        if err.Some? || req.connected {
          Same(s, RunWork(s, w, err, o));
        } else {
          ResolveHostKeeps(s, if req.address != "" then req.address else Loopback(s), ForSend(req), o);
        }
      case ConnectWork(port, host) =>
        if err.Some? {
          var t := RunWork(s, w, err, o);
          assert forall f :: FrameOk(t, f) == FrameOk(s, f);
        } else {
          ResolveHostKeeps(s, host, ForConnect(port), o);
        }
      case ResumeWork =>
        if err.None? { StartReadingKeeps(s); }
    }
  }

  /** Starting a bind on a live, unbound socket, with work already queued behind it or not. */
  lemma StartBindKeeps(s: State, pending: seq<Work>, port: int, host: string, o: Oracle)
    requires ControlOk(s) && !s.native.exiting && Live(s) && !s.flags.bound
    ensures ControlOk(StartBind(s.(pending := pending), port, host, o))
  {
    var s1 := s.(pending := pending, flags := s.flags.(binding := true));
    assert forall f :: FrameOk(s1, f) == FrameOk(s, f);
    ResolveHostKeeps(s1, host, ForBind(port), o);
  }

  lemma BindMaybeKeeps(s: State, w: Work, o: Oracle)
    requires ControlOk(s) && !s.native.exiting && Live(s)
    ensures ControlOk(BindMaybe(s, w, o))
  {
    if s.flags.bound {
      RunWorkKeeps(s, w, None, o);
    } else {
      var s1 := s.(pending := s.pending + [w]);
      assert forall f :: FrameOk(s1, f) == FrameOk(s, f);
      if !s.flags.binding {
        StartBindKeeps(s, s1.pending, 0, Wildcard(s1), o);
      }
    }
  }

  // Steps

  lemma BindKeeps(s: State, port: int, address: string, o: Oracle)
    requires ControlOk(s) && !s.native.exiting
    ensures ControlOk(Outcome(s, Bind(s, port, address, o)))
  {
    if Bind(s, port, address, o).Done? {
      assert s.(pending := s.pending) == s;
      StartBindKeeps(s, s.pending, port, if address == "" then Wildcard(s) else address, o);
    }
  }

  lemma OpenKeeps(s: State, fd: int, o: Oracle)
    requires ControlOk(s) && !s.native.exiting
    ensures ControlOk(Outcome(s, Open(s, fd, o)))
  {
    if Open(s, fd, o).Done? {
      var s1 := s.(flags := s.flags.(binding := true));
      assert forall f :: FrameOk(s1, f) == FrameOk(s, f);
      if Failed(o).Some? {
        Same(s1, OnBindError(s1, Failed(o).value));
      } else {
        OnBindKeeps(s1, o.local);
      }
    }
  }

  lemma ConnectKeeps(s: State, port: int, address: string, o: Oracle)
    requires ControlOk(s) && !s.native.exiting
    ensures ControlOk(Outcome(s, Connect(s, port, address, o)))
  {
    if Connect(s, port, address, o).Done? {
      var s1 := s.(flags := s.flags.(connecting := true));
      assert forall f :: FrameOk(s1, f) == FrameOk(s, f);
      BindMaybeKeeps(s1, ConnectWork(port, if address == "" then Loopback(s) else address), o);
    }
  }

  lemma AcceptKeeps(s: State, req: Req, o: Oracle)
    requires ControlOk(s) && !s.native.exiting && Live(s)
    ensures ControlOk(BindMaybe(s.(accepted := s.accepted + 1), SendWork(req), o))
  {
    Same(s, s.(accepted := s.accepted + 1));
    BindMaybeKeeps(s.(accepted := s.accepted + 1), SendWork(req), o);
  }

  lemma SendKeeps(s: State, list: seq<seq<byte>>, port: int, address: string, cb: bool, o: Oracle)
    requires ControlOk(s) && !s.native.exiting
    ensures ControlOk(Outcome(s, Send(s, list, port, address, cb, o)))
  {
    hide *;
    SendCases(s, list, port, address, cb, o);
    if SendThrows(s, port, address).None? {
      AcceptKeeps(s, NewReq(s, list, port, address, cb), o);
    }
  }

  lemma ResumeKeeps(s: State, o: Oracle)
    requires ControlOk(s) && !s.native.exiting
    ensures ControlOk(Resume(s, o))
  {
    var s1 := s.(paused := false);
    assert forall f :: FrameOk(s1, f) == FrameOk(s, f);
    if Live(s) {
      if s.flags.bound {
        var t := StartReading(s1);
        assert forall f :: FrameOk(t, f) == FrameOk(s, f);
      } else {
        BindMaybeKeeps(s1, ResumeWork, o);
      }
    }
  }

  lemma PauseKeeps(s: State)
    requires ControlOk(s)
    ensures ControlOk(Pause(s))
  {
    assert forall f :: FrameOk(Pause(s), f) == FrameOk(s, f);
  }

  lemma CloseKeeps(s: State, onclose: bool)
    requires ControlOk(s)
    ensures ControlOk(Close(s, onclose))
  {
    assert forall f :: FrameOk(s, f) ==> FrameOk(Close(s, onclose), f);
  }

  lemma DisconnectKeeps(s: State, o: Oracle)
    requires ControlOk(s)
    ensures ControlOk(Outcome(s, Disconnect(s, o)))
  {
    assert forall f :: FrameOk(s, f) == FrameOk(Outcome(s, Disconnect(s, o)), f);
  }

  lemma RefKeeps(s: State, unrefed: bool)
    requires ControlOk(s)
    ensures ControlOk(SetUnrefed(s, unrefed))
  {
    assert forall f :: FrameOk(s, f) == FrameOk(SetUnrefed(s, unrefed), f);
  }

  lemma ApiKeeps(s: State, l: Label, o: Oracle)
    requires ControlOk(s) && IsApi(l) && Enabled(s, l)
    ensures ControlOk(Step(s, l, o))
  {
    match l {
      case ApiBind(port, address) => BindKeeps(s, port, address, o);
      case ApiOpen(fd) => OpenKeeps(s, fd, o);
      case ApiConnect(port, address) => ConnectKeeps(s, port, address, o);
      case ApiDisconnect => DisconnectKeeps(s, o);
      case ApiSend(list, port, address, cb) => SendKeeps(s, list, port, address, cb, o);
      case ApiPause => PauseKeeps(s);
      case ApiResume => ResumeKeeps(s, o);
      case ApiClose(onclose) => CloseKeeps(s, onclose);
      case ApiRef => RefKeeps(s, false);
      case ApiUnref => RefKeeps(s, true);
    }
  }

  lemma PushKeeps(s: State, s1: State, err: Error, tail: Tail)
    requires ControlOk(s)
    requires s1.frames == s.frames && s1.pending == s.pending && s1.lookups == s.lookups && s1.paused == s.paused
    requires FlagsOk(s1) && GateOk(s1) && (Live(s1) ==> Live(s)) && (Live(s1) ==> s1.flags.bound == s.flags.bound)
    requires s.flags.closed ==> s1.flags.closed
    requires tail == ThenReport(err) || (tail == ThenClose && s1.flags.closed)
    ensures ControlOk(Push(s1, Some(err), tail))
  {
  }

  lemma FlushNextKeeps(s: State, o: Oracle)
    requires ControlOk(s) && Enabled(s, DoFlushNext)
    ensures ControlOk(FlushNext(s, o))
  {
    var f := s.frames[0];
    var s1 := s.(frames := [f.(rest := f.rest[1..])] + s.frames[1..]);
    forall i | 0 <= i < |s1.frames| ensures FrameOk(s1, s1.frames[i]) {
      assert FrameOk(s, s.frames[i]);
    }
    RunWorkKeeps(s1, f.rest[0], f.err, o);
  }

  lemma FlushEndKeeps(s: State)
    requires ControlOk(s) && Enabled(s, DoFlushEnd)
    ensures ControlOk(FlushEnd(s))
  {
  }

  lemma AnswerKeeps(s: State, k: nat, answer: Answer, o: Oracle)
    requires ControlOk(s) && !s.native.exiting && k < |s.lookups| && ContOk(s, s.lookups[k].cont)
    ensures ControlOk(AnswerLookup(s, k, answer, o))
  {
    var s1 := s.(lookups := N.Remove(s.lookups, k));
    assert forall f :: FrameOk(s1, f) == FrameOk(s, f);
    ContinueKeeps(s1, s.lookups[k].cont, Resolve(answer), o);
  }

  lemma TaskKeeps(s: State)
    requires ControlOk(s) && Enabled(s, DoTask)
    ensures ControlOk(RunTask(s))
  {
    hide Push;
    if s.tasks[0].BindFailed? {
      var s1 := s.(tasks := s.tasks[1..], flags := s.flags.(binding := false));
      PushKeeps(s, s1, s.tasks[0].err, ThenReport(s.tasks[0].err));
    } else {
      Same(s, RunTask(s));
    }
  }

  lemma CloseDoneKeeps(s: State)
    requires ControlOk(s) && N.CanClose(s.native) && (!s.native.exiting ==> !Live(s))
    ensures ControlOk(CloseDone(s))
  {
  }

  lemma TeardownKeeps(s: State)
    requires ControlOk(s)
    ensures ControlOk(s.(native := N.OnTeardown(s.native)))
  {
  }

  lemma SendDoneKeeps(s: State, k: nat, err: Option<Error>)
    requires ControlOk(s) && k < |s.native.queue|
    ensures ControlOk(SendDone(s, k, err))
  {
    Same(s, SendDone(s, k, err));
  }

  lemma MessageKeeps(s: State, read: N.Read)
    requires ControlOk(s)
    ensures ControlOk(OnMessage(s, read))
  {
    Same(s, OnMessage(s, read));
  }

  lemma EnvironmentKeeps(s: State, l: Label, o: Oracle)
    requires ControlOk(s) && !IsApi(l) && Enabled(s, l)
    requires l.DoAnswer? ==> ContOk(s, s.lookups[l.k].cont)
    requires l.DoCloseDone? && !s.native.exiting ==> !Live(s)
    ensures ControlOk(Step(s, l, o))
  {
    match l {
      case DoFlushNext => FlushNextKeeps(s, o);
      case DoFlushEnd => FlushEndKeeps(s);
      case DoAnswer(k, answer) => AnswerKeeps(s, k, answer, o);
      case DoTask => TaskKeeps(s);
      case DoSendDone(k, err) => SendDoneKeeps(s, k, err);
      case DoCloseDone => CloseDoneKeeps(s);
      case DoTeardown => TeardownKeeps(s);
      case DoMessage(read) => MessageKeeps(s, read);
    }
  }
}
