/** The invariant of every run, and the runs themselves. */
module Invariant {
  import N = Native
  import opened IpForm
  import opened Protocol
  import opened Obligations
  import opened Control
  import opened Ledger
  import opened Boundary
  import opened Conservation

  ghost predicate Inv(s: State) {
    ControlOk(s) && LedgerOk(s) && BoundaryOk(s) && OwedOk(s) && NativeOk(s)
  }

  datatype Move = Move(step: Label, oracle: Oracle)

  ghost predicate Follows(s: State, m: Move, t: State) {
    Enabled(s, m.step) && WindowOk(s) && t == Step(s, m.step, m.oracle)
  }

  /** A run of the socket from its creation, under the assumption that ids are not outstanding for too long. */
  ghost predicate Run(family: nat, ss: seq<State>, moves: seq<Move>) {
    && |ss| == |moves| + 1
    && ss[0] == Init(family)
    && forall i | 0 <= i < |moves| :: Follows(ss[i], moves[i], ss[i + 1])
  }

  lemma RunStep(family: nat, ss: seq<State>, moves: seq<Move>, i: nat)
    requires Run(family, ss, moves) && i < |moves|
    ensures Enabled(ss[i], moves[i].step) && WindowOk(ss[i])
    ensures ss[i + 1] == Step(ss[i], moves[i].step, moves[i].oracle)
  {
    assert Follows(ss[i], moves[i], ss[i + 1]);
  }

  lemma InitInv(family: nat)
    ensures Inv(Init(family))
  {
  }

  // The native handle, step by step

  lemma NativeAfter(s: State, t: State)
    requires NativeOk(s) && NativeStep(s, t) && !s.native.exiting
    ensures NativeOk(t)
  {
  }

  lemma CloseNative(s: State, onclose: bool)
    requires NativeOk(s) && FlagsOk(s) && !s.native.exiting
    ensures NativeOk(Close(s, onclose))
  {
    N.CloseKeepsProtocol(s.native);
    OwnershipOnly(s.native, N.Close(s.native));
  }

  lemma UntouchedNative(s: State, t: State)
    requires NativeOk(s) && SameNative(s, t)
    requires t.native.queue == s.native.queue && t.native.freed == s.native.freed
    requires t.native.mallocs == s.native.mallocs
    requires s.native.exiting ==> t.frames == []
    ensures NativeOk(t)
  {
    OwnershipOnly(s.native, t.native);
  }

  lemma SendNative(s: State, list: seq<seq<byte>>, port: int, address: string, cb: bool, o: Oracle)
    requires NativeOk(s) && !s.native.exiting
    ensures NativeOk(Outcome(s, Send(s, list, port, address, cb, o)))
  {
    hide *;
    SendCases(s, list, port, address, cb, o);
    if SendThrows(s, port, address).None? {
      AcceptNative(s, NewReq(s, list, port, address, cb), o);
    }
  }

  lemma AcceptNative(s: State, req: Req, o: Oracle)
    requires NativeOk(s) && !s.native.exiting && Live(s)
    ensures NativeOk(BindMaybe(s.(accepted := s.accepted + 1), SendWork(req), o))
  {
    hide BindMaybe;
    var s1 := s.(accepted := s.accepted + 1);
    BindMaybeNative(s1, SendWork(req), o);
    NativeAfter(s1, BindMaybe(s1, SendWork(req), o));
  }

  lemma ConnectNative(s: State, port: int, address: string, o: Oracle)
    requires NativeOk(s) && !s.native.exiting
    ensures NativeOk(Outcome(s, Connect(s, port, address, o)))
  {
    hide BindMaybe, HostOk;
    if Connect(s, port, address, o).Done? {
      var s1 := s.(flags := s.flags.(connecting := true));
      var w := ConnectWork(port, if address == "" then Loopback(s) else address);
      BindMaybeNative(s1, w, o);
      NativeAfter(s1, BindMaybe(s1, w, o));
    }
  }

  lemma BindNative(s: State, port: int, address: string, o: Oracle)
    requires NativeOk(s) && !s.native.exiting
    ensures NativeOk(Outcome(s, Bind(s, port, address, o)))
  {
    hide StartBind;
    if Bind(s, port, address, o).Done? {
      var host := if address == "" then Wildcard(s) else address;
      StartBindNative(s, port, host, o);
      NativeAfter(s, StartBind(s, port, host, o));
    }
  }

  lemma ResumeNative(s: State, o: Oracle)
    requires NativeOk(s) && !s.native.exiting
    ensures NativeOk(Resume(s, o))
  {
    hide BindMaybe;
    if Live(s) {
      var s1 := s.(paused := false);
      BindMaybeNative(s1, ResumeWork, o);
      NativeAfter(s1, BindMaybe(s1, ResumeWork, o));
    }
  }

  lemma ApiNative(s: State, l: Label, o: Oracle)
    requires NativeOk(s) && FlagsOk(s) && IsApi(l) && Enabled(s, l)
    ensures NativeOk(Step(s, l, o))
  {
    hide Bind, Connect, Send, Resume, Close, NativeOk;
    if l.ApiBind? {
      BindNative(s, l.port, l.address, o);
    } else if l.ApiConnect? {
      ConnectNative(s, l.port, l.address, o);
    } else if l.ApiSend? {
      SendNative(s, l.list, l.port, l.address, l.cb, o);
    } else if l.ApiResume? {
      ResumeNative(s, o);
    } else if l.ApiClose? {
      CloseNative(s, l.onclose);
    } else {
      UntouchedNative(s, Step(s, l, o));
    }
  }

  lemma FlushNextNative(s: State, o: Oracle)
    requires NativeOk(s) && BoundaryOk(s) && Enabled(s, DoFlushNext)
    ensures NativeOk(FlushNext(s, o))
  {
    hide RunWork;
    var f := s.frames[0];
    var s1 := s.(frames := [f.(rest := f.rest[1..])] + s.frames[1..]);
    assert WorkOk(f.rest[0]);
    RunWorkNative(s1, f.rest[0], f.err, o);
    NativeAfter(s1, RunWork(s1, f.rest[0], f.err, o));
  }

  lemma AnswerNative(s: State, k: nat, answer: Answer, o: Oracle)
    requires NativeOk(s) && Enabled(s, DoAnswer(k, answer))
    ensures NativeOk(AnswerLookup(s, k, answer, o))
  {
    hide Continue;
    var s1 := s.(lookups := N.Remove(s.lookups, k));
    ContinueNative(s1, s.lookups[k].cont, Resolve(answer), o);
    NativeAfter(s1, Continue(s1, s.lookups[k].cont, Resolve(answer), o));
  }

  lemma SendDoneNative(s: State, k: nat, err: Option<Error>)
    requires NativeOk(s) && k < |s.native.queue|
    ensures NativeOk(SendDone(s, k, err))
  {
    var t := SendDone(s, k, err);
    N.OnSendOwnership(s.native, k);
    assert t.native == N.OnSend(s.native, k);
  }

  lemma CloseDoneNative(s: State)
    requires NativeOk(s) && s.frames == [] && N.CanClose(s.native)
    ensures NativeOk(CloseDone(s))
  {
    OwnershipOnly(s.native, N.OnClose(s.native));
    assert CloseDone(s).native == N.OnClose(s.native);
  }

  lemma TeardownNative(s: State)
    requires NativeOk(s) && Enabled(s, DoTeardown)
    ensures NativeOk(s.(native := N.OnTeardown(s.native)))
  {
    OwnershipOnly(s.native, N.OnTeardown(s.native));
  }

  lemma EnvironmentNative(s: State, l: Label, o: Oracle)
    requires NativeOk(s) && BoundaryOk(s) && !IsApi(l) && Enabled(s, l)
    ensures NativeOk(Step(s, l, o))
  {
    hide FlushNext, AnswerLookup, SendDone, CloseDone, NativeOk, BoundaryOk, FlushEnd, RunTask, OnMessage;
    if l.DoFlushNext? {
      FlushNextNative(s, o);
    } else if l.DoAnswer? {
      AnswerNative(s, l.k, l.answer, o);
    } else if l.DoSendDone? {
      SendDoneNative(s, l.k, l.err);
    } else if l.DoCloseDone? {
      CloseDoneNative(s);
    } else if l.DoTeardown? {
      TeardownNative(s);
    } else {
      OtherNative(s, l, o);
    }
  }

  lemma OtherNative(s: State, l: Label, o: Oracle)
    requires NativeOk(s) && Enabled(s, l) && (l.DoFlushEnd? || l.DoTask? || l.DoMessage?)
    ensures NativeOk(Step(s, l, o))
  {
    hide Bind, Open, Connect, Disconnect, Send, Pause, Resume, Close, SetUnrefed, FlushNext, AnswerLookup, SendDone,
         CloseDone, N.OwnershipOk;
    assert !s.native.exiting || s.frames == [];
    UntouchedNative(s, Step(s, l, o));
  }

  // Every step keeps the invariant

  /** A lookup that is still unanswered means that what it stands for is still going on. */
  lemma AnswerIsExpected(s: State, k: nat)
    requires Inv(s) && k < |s.lookups|
    ensures ContOk(s, s.lookups[k].cont)
  {
    if s.lookups[k].cont.ForBind? && Live(s) { BindExpected(s, k); }
  }

  lemma StepInv(s: State, l: Label, o: Oracle)
    requires Inv(s) && WindowOk(s) && Enabled(s, l)
    ensures Inv(Step(s, l, o))
  {
    hide Step, LedgerOk, BoundaryOk;
    var t := Step(s, l, o);
    if IsApi(l) {
      ApiKeeps(s, l, o);
      ApiLedger(s, l, o);
      ApiBoundary(s, l, o);
      ApiNative(s, l, o);
      forall ob ensures Tracked(t, ob) ==> Obs(t, ob) == Expected(t, ob) { ApiOwed(s, l, o, ob); }
    } else {
      if l.DoAnswer? { AnswerIsExpected(s, l.k); }
      EnvironmentKeeps(s, l, o);
      EnvironmentLedger(s, l, o);
      EnvironmentBoundary(s, l, o);
      EnvironmentNative(s, l, o);
      forall ob ensures Tracked(t, ob) ==> Obs(t, ob) == Expected(t, ob) { EnvironmentOwed(s, l, o, ob); }
    }
  }

  /** Every state of every run satisfies the invariant. */
  lemma {:induction false} RunInv(family: nat, ss: seq<State>, moves: seq<Move>, i: nat)
    requires Run(family, ss, moves) && i < |ss|
    ensures Inv(ss[i])
  {
    if i == 0 {
      InitInv(family);
    } else {
      RunInv(family, ss, moves, i - 1);
      RunStep(family, ss, moves, i - 1);
      StepInv(ss[i - 1], moves[i - 1].step, moves[i - 1].oracle);
    }
  }
}
