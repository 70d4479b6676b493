/**
 Conservation: every accepted send is in exactly one place, every `onclose` callback too, and on a live socket
 BINDING and CONNECTING hold exactly while one bind and one connect are owed. Proved for every step.
 */
module Conservation {
  import N = Native
  import opened IpForm
  import opened IpAddress
  import opened Protocol
  import opened Obligations
  import opened Control
  import opened Ledger

  /** How often each obligation must be held. */
  function Expected(s: State, ob: Ob): nat {
    match ob
    case BindOb => if s.flags.binding then 1 else 0
    case ListenOb => if s.flags.bound then 1 else 0
    case ConnectOb => if s.flags.connecting then 1 else 0
    case SendOb(t) => if t < s.accepted then 1 else 0
    case CloseOb(c) => if c < s.closeCalls then 1 else 0
    case CloseEventOb => if s.flags.closed then 1 else 0
  }

  /** A closing socket forgets its bind and connect; once the environment exits, sends are dropped silently. */
  predicate Tracked(s: State, ob: Ob) {
    match ob
    case BindOb => Live(s)
    case ListenOb => Live(s)
    case ConnectOb => Live(s)
    case SendOb(_) => !s.native.exiting
    case _ => true
  }

  ghost predicate OwedOk(s: State) {
    forall ob | Tracked(s, ob) :: Obs(s, ob) == Expected(s, ob)
  }

  lemma OwedMeans(s: State, ob: Ob)
    requires OwedOk(s) && Tracked(s, ob)
    ensures Obs(s, ob) == Expected(s, ob)
  {
  }

  /** The native handle follows the flags. */
  ghost predicate NativeOk(s: State) {
    && N.CloseOk(s.native) && N.OwnershipOk(s.native)
    && s.native.closing == !Live(s)
    && (s.flags.closed ==> !s.native.exiting)
    && (!s.native.exiting ==> s.native.closesDone == if s.flags.closed then 1 else 0)
    && (s.native.exiting ==> s.frames == [])
  }

  // What the functions do to the flags and counters that are counted

  predicate SameCounts(s: State, t: State) {
    && t.accepted == s.accepted && t.closeCalls == s.closeCalls && t.native.exiting == s.native.exiting
    && t.flags.closing == s.flags.closing && t.flags.closed == s.flags.closed && t.paused == s.paused
  }

  lemma HandOffFlags(s: State, req: Req, dest: Option<Dest>, o: Oracle)
    ensures var t := HandOff(s, req, dest, o); SameCounts(s, t) && t.flags == s.flags
  {
  }

  lemma BindResolvedFlags(s: State, port: int, r: Resolution, o: Oracle)
    ensures var t := BindResolved(s, port, r, o);
            && SameCounts(s, t) && t.flags.connecting == s.flags.connecting
            && (if Live(s) && !BindFails(r, o) then !t.flags.binding && t.flags.bound
                else t.flags.binding == s.flags.binding && t.flags.bound == s.flags.bound)
  {
  }

  lemma ConnectResolvedFlags(s: State, port: int, r: Resolution, o: Oracle)
    ensures var t := ConnectResolved(s, port, r, o);
            && SameCounts(s, t) && !t.flags.connecting
            && t.flags.binding == s.flags.binding && t.flags.bound == s.flags.bound
  {
  }

  lemma ContinueFlags(s: State, cont: Cont, r: Resolution, o: Oracle)
    ensures var t := Continue(s, cont, r, o);
            && SameCounts(s, t)
            && t.flags.binding == (if cont.ForBind? && Live(s) && !BindFails(r, o) then false else s.flags.binding)
            && t.flags.bound == (if cont.ForBind? && Live(s) && !BindFails(r, o) then true else s.flags.bound)
            && t.flags.connecting == (if cont.ForConnect? then false else s.flags.connecting)
  {
    hide HandOff, BindResolved, ConnectResolved, BindFails;
    match cont {
      case ForBind(port) => BindResolvedFlags(s, port, r, o);
      case ForConnect(port) => ConnectResolvedFlags(s, port, r, o);
      case ForSend(req) =>
        HandOffFlags(s, req, if r.Resolved? then Some(Dest(req.port, r.host, r.family)) else None, o);
    }
  }

  lemma ResolveHostFlags(s: State, host: string, cont: Cont, o: Oracle)
    ensures var t := ResolveHost(s, host, cont, o);
            if Family(host) == 0 then SameCounts(s, t) && t.flags == s.flags
            else t == Continue(s, cont, Resolved(host, Family(host)), o)
  {
  }

  /** Whether calling a closure ends a connect attempt. */
  predicate EndsConnect(w: Work, err: Option<Error>) {
    w.ConnectWork? && (err.Some? || Family(w.host) != 0)
  }

  lemma RunWorkFlags(s: State, w: Work, err: Option<Error>, o: Oracle)
    ensures var t := RunWork(s, w, err, o);
            && SameCounts(s, t) && t.flags.binding == s.flags.binding && t.flags.bound == s.flags.bound
            && t.flags.connecting == (if EndsConnect(w, err) then false else s.flags.connecting)
  {
    hide ResolveHost, Continue;
    if w.SendWork? && err.None? && !w.req.connected {
      var host := if w.req.address != "" then w.req.address else Loopback(s);
      ResolveHostFlags(s, host, ForSend(w.req), o);
      ContinueFlags(s, ForSend(w.req), Resolved(host, Family(host)), o);
    } else if w.ConnectWork? && err.None? {
      ResolveHostFlags(s, w.host, ForConnect(w.port), o);
      ContinueFlags(s, ForConnect(w.port), Resolved(w.host, Family(w.host)), o);
    }
  }

  lemma StartBindFlags(s: State, port: int, host: string, o: Oracle)
    requires Live(s)
    ensures var t := StartBind(s, port, host, o);
            && SameCounts(s, t) && t.flags.connecting == s.flags.connecting
            && t.flags.binding == (StartBindOb(s, host, o, BindOb) == 1)
            && t.flags.bound == (s.flags.bound || StartBindOb(s, host, o, ListenOb) == 1)
  {
  }

  lemma BindMaybeFlags(s: State, w: Work, o: Oracle)
    requires Live(s)
    ensures var t := BindMaybe(s, w, o);
            && SameCounts(s, t)
            && t.flags.binding == (if s.flags.bound || s.flags.binding then s.flags.binding
                                   else StartBindOb(s, Wildcard(s), o, BindOb) == 1)
            && t.flags.bound == (if s.flags.bound || s.flags.binding then s.flags.bound
                                 else StartBindOb(s, Wildcard(s), o, ListenOb) == 1)
            && t.flags.connecting == (if s.flags.bound && EndsConnect(w, None) then false else s.flags.connecting)
  {
    hide RunWork, StartBind;
    if s.flags.bound {
      RunWorkFlags(s, w, None, o);
    } else if !s.flags.binding {
      StartBindFlags(s.(pending := s.pending + [w]), 0, Wildcard(s), o);
    }
  }

  // Steps, for one obligation at a time

  lemma BindOwed(s: State, port: int, address: string, o: Oracle, ob: Ob)
    requires OwedOk(s)
    ensures var t := Outcome(s, Bind(s, port, address, o)); Tracked(t, ob) ==> Obs(t, ob) == Expected(t, ob)
  {
    hide StartBind, Obs, HostOk, Wildcard, BindFails, Family;
    OwedHere(s, ob);
    if Bind(s, port, address, o).Done? {
      var host := if address == "" then Wildcard(s) else address;
      StartBindObs(s, port, host, o, ob);
      StartBindFlags(s, port, host, o);
    }
  }

  lemma OpenOwed(s: State, fd: int, o: Oracle, ob: Ob)
    requires OwedOk(s)
    ensures var t := Outcome(s, Open(s, fd, o)); Tracked(t, ob) ==> Obs(t, ob) == Expected(t, ob)
  {
    hide Obs;
    if Open(s, fd, o).Done? {
      var s1 := s.(flags := s.flags.(binding := true));
      SameObs(s, s1, ob);
      if Failed(o).Some? {
        EnqueueObs(s1, BindFailed(Failed(o).value), ob);
      } else {
        OnBindObs(s1, o.local, ob);
      }
    }
  }

  /** Handing new work to `_bindMaybe`, which `s` already owes but does not hold yet. */
  lemma BindMaybeOwed(s: State, w: Work, o: Oracle, ob: Ob)
    requires Live(s) && !(s.flags.binding && s.flags.bound)
    requires Tracked(s, ob) ==> Obs(s, ob) + WorkOb(w, ob) == Expected(s, ob)
    ensures var t := BindMaybe(s, w, o); Tracked(t, ob) ==> Obs(t, ob) == Expected(t, ob)
  {
    hide BindMaybe, Obs;
    BindMaybeObs(s, w, o, ob);
    BindMaybeFlags(s, w, o);
  }

  lemma ConnectOwed(s: State, port: int, address: string, o: Oracle, ob: Ob)
    requires OwedOk(s) && FlagsOk(s)
    ensures var t := Outcome(s, Connect(s, port, address, o)); Tracked(t, ob) ==> Obs(t, ob) == Expected(t, ob)
  {
    hide BindMaybe, HostOk, Loopback, Obs;
    OwedHere(s, ob);
    if Connect(s, port, address, o).Done? {
      var host := if address == "" then Loopback(s) else address;
      var s1 := s.(flags := s.flags.(connecting := true));
      SameObs(s, s1, ob);
      BindMaybeOwed(s1, ConnectWork(port, host), o, ob);
    }
  }

  lemma AcceptOwed(s: State, req: Req, o: Oracle, ob: Ob)
    requires OwedOk(s) && FlagsOk(s) && Live(s) && req.tok == s.accepted
    ensures var t := BindMaybe(s.(accepted := s.accepted + 1), SendWork(req), o);
            Tracked(t, ob) ==> Obs(t, ob) == Expected(t, ob)
  {
    hide BindMaybe;
    var s1 := s.(accepted := s.accepted + 1);
    assert Obs(s1, ob) == Obs(s, ob);
    BindMaybeOwed(s1, SendWork(req), o, ob);
  }

  lemma OwedHere(s: State, ob: Ob)
    requires OwedOk(s)
    ensures Tracked(s, ob) ==> Obs(s, ob) == Expected(s, ob)
  {
  }

  lemma SendOwed(s: State, list: seq<seq<byte>>, port: int, address: string, cb: bool, o: Oracle, ob: Ob)
    requires OwedOk(s) && FlagsOk(s)
    ensures var t := Outcome(s, Send(s, list, port, address, cb, o)); Tracked(t, ob) ==> Obs(t, ob) == Expected(t, ob)
  {
    OwedHere(s, ob);
    assert NewReq(s, list, port, address, cb).tok == s.accepted;
    hide *;
    SendCases(s, list, port, address, cb, o);
    if SendThrows(s, port, address).None? {
      AcceptOwed(s, NewReq(s, list, port, address, cb), o, ob);
    }
  }

  lemma ResumeOwed(s: State, o: Oracle, ob: Ob)
    requires OwedOk(s) && FlagsOk(s)
    ensures var t := Resume(s, o); Tracked(t, ob) ==> Obs(t, ob) == Expected(t, ob)
  {
    hide BindMaybe;
    var s1 := s.(paused := false);
    assert Obs(s1, ob) == Obs(s, ob);
    if Live(s) { BindMaybeOwed(s1, ResumeWork, o, ob); }
  }

  lemma ListenObs(s: State, id: nat, ob: Ob)
    ensures Obs(s.(listeners := s.listeners + [id]), ob) == Obs(s, ob) + One(CloseOb(id), ob)
  {
    Snoc(s.listeners, id, ListenerOb, ob);
  }

  lemma CloseOwed(s: State, onclose: bool, ob: Ob)
    requires OwedOk(s)
    ensures var t := Close(s, onclose); Tracked(t, ob) ==> Obs(t, ob) == Expected(t, ob)
  {
    hide Obs;
    var t := Close(s, onclose);
    if s.flags.closed {
      if onclose {
        EnqueueObs(s, OnClose(s.closeCalls), ob);
        SameObs(Enqueue(s, OnClose(s.closeCalls)), t, ob);
      }
    } else if onclose {
      ListenObs(s, s.closeCalls, ob);
      SameObs(s.(listeners := s.listeners + [s.closeCalls]), t, ob);
    } else {
      SameObs(s, t, ob);
    }
  }

  lemma QuietOwed(s: State, l: Label, o: Oracle, ob: Ob)
    requires OwedOk(s) && Enabled(s, l)
    requires l.ApiDisconnect? || l.ApiPause? || l.ApiRef? || l.ApiUnref? || l.DoTeardown?
    ensures var t := Step(s, l, o); Tracked(t, ob) ==> Obs(t, ob) == Expected(t, ob)
  {
    hide Obs;
    OwedHere(s, ob);
    SameObs(s, Step(s, l, o), ob);
  }

  lemma ApiOwed(s: State, l: Label, o: Oracle, ob: Ob)
    requires OwedOk(s) && FlagsOk(s) && IsApi(l) && Enabled(s, l)
    ensures var t := Step(s, l, o); Tracked(t, ob) ==> Obs(t, ob) == Expected(t, ob)
  {
    hide Bind, Open, Connect, Send, Resume, Close, Obs, Expected, Tracked, OwedOk;
    match l {
      case ApiBind(port, address) => BindOwed(s, port, address, o, ob);
      case ApiOpen(fd) => OpenOwed(s, fd, o, ob);
      case ApiConnect(port, address) => ConnectOwed(s, port, address, o, ob);
      case ApiSend(list, port, address, cb) => SendOwed(s, list, port, address, cb, o, ob);
      case ApiResume => ResumeOwed(s, o, ob);
      case ApiClose(onclose) => CloseOwed(s, onclose, ob);
      case ApiDisconnect => QuietOwed(s, l, o, ob);
      case ApiPause => QuietOwed(s, l, o, ob);
      case ApiRef => QuietOwed(s, l, o, ob);
      case ApiUnref => QuietOwed(s, l, o, ob);
    }
  }

  lemma FlushNextOwed(s: State, o: Oracle, ob: Ob)
    requires OwedOk(s) && s.frames != [] && s.frames[0].rest != []
    ensures var t := FlushNext(s, o); Tracked(t, ob) ==> Obs(t, ob) == Expected(t, ob)
  {
    hide RunWork, Obs;
    var f := s.frames[0];
    var s1 := s.(frames := [f.(rest := f.rest[1..])] + s.frames[1..]);
    FlushNextObs(s, o, ob);
    RunWorkFlags(s1, f.rest[0], f.err, o);
  }

  lemma FlushEndOwed(s: State, ob: Ob)
    requires OwedOk(s) && s.frames != [] && s.frames[0].rest == []
    ensures var t := FlushEnd(s); Tracked(t, ob) ==> Obs(t, ob) == Expected(t, ob)
  {
    hide Obs;
    FlushEndObs(s, ob);
  }

  /** A bind whose lookup is unanswered on a live socket is in progress. */
  lemma BindExpected(s: State, k: nat)
    requires OwedOk(s) && k < |s.lookups| && s.lookups[k].cont.ForBind? && Live(s)
    ensures s.flags.binding
  {
    SumRemove(s.lookups, k, LookupOb, BindOb);
    OwedMeans(s, BindOb);
  }

  lemma AnswerOwed(s: State, k: nat, answer: Answer, o: Oracle, ob: Ob)
    requires OwedOk(s) && FlagsOk(s) && k < |s.lookups|
    ensures var t := AnswerLookup(s, k, answer, o); Tracked(t, ob) ==> Obs(t, ob) == Expected(t, ob)
  {
    hide Continue, Obs, Resolve, BindFails;
    if s.lookups[k].cont.ForBind? && Live(s) { BindExpected(s, k); }
    AnswerObs(s, k, answer, o, ob);
    ContinueFlags(s.(lookups := N.Remove(s.lookups, k)), s.lookups[k].cont, Resolve(answer), o);
  }

  lemma TaskOwed(s: State, ob: Ob)
    requires OwedOk(s) && s.tasks != []
    ensures var t := RunTask(s); Tracked(t, ob) ==> Obs(t, ob) == Expected(t, ob)
  {
    hide Obs;
    RunTaskObs(s, ob);
  }

  lemma SendDoneOwed(s: State, k: nat, err: Option<Error>, ob: Ob)
    requires OwedOk(s) && LedgerOk(s) && k < |s.native.queue|
    ensures var t := SendDone(s, k, err); Tracked(t, ob) ==> Obs(t, ob) == Expected(t, ob)
  {
    hide Obs, OnSend, LedgerOk;
    var b := s.native.queue[k];
    var s1 := s.(native := N.OnSend(s.native, k));
    RequestObs(s, k, ob);
    if !s.native.exiting {
      Mirrored(s);
      CompletionFindsItsSend(s, k);
      OnSendObs(s1, b.id, err, ob);
      OnSendFlags(s1, b.id, err);
    }
  }

  lemma Mirrored(s: State)
    requires LedgerOk(s) && !s.native.exiting
    ensures MirrorOk(s)
  {
  }

  lemma RequestObs(s: State, k: nat, ob: Ob)
    requires k < |s.native.queue|
    ensures Obs(s.(native := N.OnSend(s.native, k)), ob) + One(SendOb(s.native.queue[k].tok), ob) == Obs(s, ob)
  {
    SumRemove(s.native.queue, k, BlockOb, ob);
  }

  lemma OnSendFlags(s: State, id: nat, err: Option<Error>)
    ensures var t := OnSend(s, id, err); SameCounts(s, t) && t.flags == s.flags
  {
  }

  lemma OnSendObs(s: State, id: nat, err: Option<Error>, ob: Ob)
    requires id in s.sends
    ensures Obs(OnSend(s, id, err), ob) == Obs(s, ob) + One(SendOb(s.sends[id].tok), ob)
  {
    var req := s.sends[id];
    var s1 := s.(sends := s.sends - {id});
    SettleObs(s1, req, err, if err.Some? then 0 else req.size, ob);
    if err.Some? {
      EmitObs(Settle(s1, req, err, 0), EmitError(err.value), ob);
    }
  }

  lemma CloseDoneOwed(s: State, ob: Ob)
    requires OwedOk(s) && NativeOk(s) && N.CanClose(s.native)
    ensures var t := CloseDone(s); Tracked(t, ob) ==> Obs(t, ob) == Expected(t, ob)
  {
    hide N.OwnershipOk, Sum;
    var s1 := s.(native := N.OnClose(s.native),
                 flags := s.flags.(closed := true, closing := false), sends := map[]);
    PushObs(s1, Some(SocketClosed), ThenClose, ob);
    SameObs(s, s1, ob);
  }

  lemma MessageOwed(s: State, read: N.Read, ob: Ob)
    requires OwedOk(s)
    ensures var t := OnMessage(s, read); Tracked(t, ob) ==> Obs(t, ob) == Expected(t, ob)
  {
    hide Obs, OwedOk;
    if Tracked(s, ob) { OwedMeans(s, ob); }
    match N.OnMessage(s.native, read) {
      case Dropped =>
      case Failed(code) => EmitObs(s, EmitError(NativeError(code)), ob);
      case Delivered(length) => EmitObs(s, EmitMessage(length), ob);
    }
  }

  lemma EnvironmentOwed(s: State, l: Label, o: Oracle, ob: Ob)
    requires OwedOk(s) && FlagsOk(s) && LedgerOk(s) && NativeOk(s) && !IsApi(l) && Enabled(s, l)
    ensures var t := Step(s, l, o); Tracked(t, ob) ==> Obs(t, ob) == Expected(t, ob)
  {
    hide FlushNext, FlushEnd, AnswerLookup, RunTask, SendDone, CloseDone, OnMessage, Obs;
    match l {
      case DoFlushNext => FlushNextOwed(s, o, ob);
      case DoFlushEnd => FlushEndOwed(s, ob);
      case DoAnswer(k, answer) => AnswerOwed(s, k, answer, o, ob);
      case DoTask => TaskOwed(s, ob);
      case DoSendDone(k, err) => SendDoneOwed(s, k, err, ob);
      case DoCloseDone => CloseDoneOwed(s, ob);
      case DoTeardown => QuietOwed(s, l, o, ob);
      case DoMessage(read) => MessageOwed(s, read, ob);
    }
  }

  // The native handle

  predicate SameNative(s: State, t: State) {
    && t.native.closing == s.native.closing && t.native.exiting == s.native.exiting
    && t.native.uvCloses == s.native.uvCloses && t.native.closesDone == s.native.closesDone
    && t.native.refsDeleted == s.native.refsDeleted && t.native.teardownsFinished == s.native.teardownsFinished
    && t.flags.closing == s.flags.closing && t.flags.closed == s.flags.closed
  }

  /** A step that sends nothing leaves the request blocks alone; one that does passes through `N.Send`. */
  ghost predicate NativeStep(s: State, t: State) {
    && SameNative(s, t)
    && (N.OwnershipOk(s.native) ==> N.OwnershipOk(t.native))
    && (t.native.queue != s.native.queue ==> Live(s))
  }

  lemma OwnershipOnly(n: N.Native, m: N.Native)
    requires m.queue == n.queue && m.freed == n.freed && m.mallocs == n.mallocs && N.OwnershipOk(n)
    ensures N.OwnershipOk(m)
  {
    assert N.Owned(m) == N.Owned(n);
  }

  lemma HandOffNative(s: State, req: Req, dest: Option<Dest>, o: Oracle)
    requires Live(s)
    ensures NativeStep(s, HandOff(s, req, dest, o))
  {
    if N.OwnershipOk(s.native) {
      N.SendOwnership(s.native, s.sendId, req.tok, s.draws, o.native);
      OwnershipOnly(N.Send(s.native, s.sendId, req.tok, s.draws, o.native), HandOff(s, req, dest, o).native);
    }
  }

  lemma ContinueNative(s: State, cont: Cont, r: Resolution, o: Oracle)
    ensures NativeStep(s, Continue(s, cont, r, o))
  {
    hide HandOff, BindResolved, ConnectResolved, N.OwnershipOk;
    match cont {
      case ForBind(port) =>
        BindResolvedNative(s, port, r, o);
      case ForConnect(port) =>
        ConnectResolvedNative(s, port, r, o);
      case ForSend(req) =>
        if r.Resolved? && Live(s) { HandOffNative(s, req, Some(Dest(req.port, r.host, r.family)), o); }
    }
  }

  lemma BindResolvedNative(s: State, port: int, r: Resolution, o: Oracle)
    ensures NativeStep(s, BindResolved(s, port, r, o))
  {
    hide N.OwnershipOk;
    if N.OwnershipOk(s.native) { OwnershipOnly(s.native, BindResolved(s, port, r, o).native); }
  }

  lemma ConnectResolvedNative(s: State, port: int, r: Resolution, o: Oracle)
    ensures NativeStep(s, ConnectResolved(s, port, r, o))
  {
    hide N.OwnershipOk;
  }

  lemma ResolveHostNative(s: State, host: string, cont: Cont, o: Oracle)
    ensures NativeStep(s, ResolveHost(s, host, cont, o))
  {
    hide Continue;
    if Family(host) != 0 {
      ContinueNative(s, cont, Resolved(host, Family(host)), o);
    }
  }

  lemma RunWorkNative(s: State, w: Work, err: Option<Error>, o: Oracle)
    requires w.SendWork? && w.req.connected ==> Live(s)
    ensures NativeStep(s, RunWork(s, w, err, o))
  {
    hide ResolveHost, HandOff;
    if w.SendWork? && err.None? {
      if w.req.connected {
        HandOffNative(s, w.req, None, o);
      } else {
        ResolveHostNative(s, if w.req.address != "" then w.req.address else Loopback(s), ForSend(w.req), o);
      }
    } else if w.ConnectWork? && err.None? {
      ResolveHostNative(s, w.host, ForConnect(w.port), o);
    } else {
      if N.OwnershipOk(s.native) {
        OwnershipOnly(s.native, RunWork(s, w, err, o).native);
      }
    }
  }

  lemma StartBindNative(s: State, port: int, host: string, o: Oracle)
    ensures NativeStep(s, StartBind(s, port, host, o))
  {
    hide ResolveHost;
    ResolveHostNative(s.(flags := s.flags.(binding := true)), host, ForBind(port), o);
  }

  lemma BindMaybeNative(s: State, w: Work, o: Oracle)
    requires Live(s)
    ensures NativeStep(s, BindMaybe(s, w, o))
  {
    hide RunWork, StartBind;
    if s.flags.bound {
      RunWorkNative(s, w, None, o);
    } else if !s.flags.binding {
      StartBindNative(s.(pending := s.pending + [w]), 0, Wildcard(s), o);
    }
  }
}
