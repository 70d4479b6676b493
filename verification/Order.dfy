/**
 The order of sends to literal addresses: those that wait behind a bind and those that go straight through reach
 the native layer in the order in which `send()` was called, provided no callback calls back during a flush. The
 condition is exact: a send made on a bound socket overtakes whatever the flush in progress has not called yet.
 */
module Order {
  import N = Native
  import opened IpForm
  import opened IpAddress
  import opened Protocol
  import opened Control
  import opened Boundary
  import opened Conservation
  import opened Invariant
  import opened Closing

  /** A send that needs no lookup: to the connected peer, to the loopback address or to a literal. */
  predicate Direct(req: Req) {
    req.connected || req.address == "" || Family(req.address) != 0
  }

  predicate DirectCall(e: Event) { e.SendCall? && Direct(e.req) }

  predicate DirectWork(w: Work) { w.SendWork? && Direct(w.req) }

  /** Everything deferred, in the order in which it will be called. */
  function Queue(s: State): seq<Work> {
    (if s.frames == [] then [] else s.frames[0].rest) + s.pending
  }

  /** The direct sends handed over so far went in the order of the calls. */
  ghost predicate InCallOrder(log: seq<Event>) {
    forall a, b | 0 <= a < b < |log| && DirectCall(log[a]) && DirectCall(log[b]) :: log[a].req.tok < log[b].req.tok
  }

  /** ... and those that wait come after them, in order too. */
  ghost predicate InLine(s: State, queue: seq<Work>) {
    && InCallOrder(s.log)
    && (forall a, b | 0 <= a < |s.log| && 0 <= b < |queue| && DirectCall(s.log[a]) && DirectWork(queue[b]) ::
          s.log[a].req.tok < queue[b].req.tok)
    && (forall a, b | 0 <= a < b < |queue| && DirectWork(queue[a]) && DirectWork(queue[b]) ::
          queue[a].req.tok < queue[b].req.tok)
    && (forall a | 0 <= a < |s.log| && DirectCall(s.log[a]) :: s.log[a].req.tok < s.accepted)
    && (forall a | 0 <= a < |queue| && DirectWork(queue[a]) :: queue[a].req.tok < s.accepted)
  }

  /** At most one flush is in progress, no bind is under way meanwhile, and only hosts to look up are looked up. */
  ghost predicate Calm(s: State) {
    && |s.frames| <= 1
    && (s.frames != [] && Live(s) ==> !s.flags.binding)
    && (forall i | 0 <= i < |s.lookups| :: LookedUp(s.lookups[i]))
  }

  predicate LookedUp(l: Lookup) { l.cont.ForSend? ==> !Direct(l.cont.req) }

  ghost predicate OrderOk(s: State) {
    Calm(s) && InLine(s, Queue(s))
  }

  /** The only direct send among the new events is `w`, and it comes first. */
  ghost predicate Hands(s: State, t: State, w: Option<Work>) {
    && s.log <= t.log
    && forall i | |s.log| <= i < |t.log| && DirectCall(t.log[i]) :: i == |s.log| && w == Some(SendWork(t.log[i].req))
  }

  // What the functions hand over

  lemma HandOffHands(s: State, req: Req, dest: Option<Dest>, o: Oracle)
    ensures Hands(s, HandOff(s, req, dest, o), Some(SendWork(req)))
  {
  }

  lemma ContinueHands(s: State, cont: Cont, r: Resolution, o: Oracle)
    ensures Hands(s, Continue(s, cont, r, o), if cont.ForSend? then Some(SendWork(cont.req)) else None)
    ensures Continue(s, cont, r, o).lookups == s.lookups
  {
    hide Direct, HandOff;
    if cont.ForSend? && r.Resolved? && Live(s) {
      HandOffHands(s, cont.req, Some(Dest(cont.req.port, r.host, r.family)), o);
      HandOffKeeps(s, cont.req, Some(Dest(cont.req.port, r.host, r.family)), o);
    }
  }

  lemma HandOffKeeps(s: State, req: Req, dest: Option<Dest>, o: Oracle)
    ensures var t := HandOff(s, req, dest, o); t.pending == s.pending && t.frames == s.frames && t.lookups == s.lookups
  {
  }

  lemma LookupIsNotDirect(s: State, req: Req)
    requires !req.connected && Family(if req.address != "" then req.address else Loopback(s)) == 0
    ensures !Direct(req)
  {
    DefaultsAreLiterals(s);
  }

  /** Of the same call, only what is looked up can be late. */
  lemma RunWorkHands(s: State, w: Work, err: Option<Error>, o: Oracle)
    requires Calm(s)
    ensures var t := RunWork(s, w, err, o); Hands(s, t, Some(w)) && Calm(t) && t.pending == s.pending
  {
    hide Direct, HandOff, Family, Continue;
    var t := RunWork(s, w, err, o);
    RunWorkFrames(s, w, err, o);
    RunWorkFlags(s, w, err, o);
    if err.None? {
      if w.SendWork? && w.req.connected {
        HandOffHands(s, w.req, None, o);
        HandOffKeeps(s, w.req, None, o);
      } else if w.SendWork? {
        var host := if w.req.address != "" then w.req.address else Loopback(s);
        ResolveHands(s, host, ForSend(w.req), o);
      } else if w.ConnectWork? {
        ResolveHands(s, w.host, ForConnect(w.port), o);
      }
    }
  }

  lemma ResolveHands(s: State, host: string, cont: Cont, o: Oracle)
    requires !cont.ForBind? && (forall i | 0 <= i < |s.lookups| :: LookedUp(s.lookups[i]))
    requires cont.ForSend? ==>
               !cont.req.connected && host == if cont.req.address != "" then cont.req.address else Loopback(s)
    ensures var t := ResolveHost(s, host, cont, o);
            && Hands(s, t, if cont.ForSend? then Some(SendWork(cont.req)) else None)
            && (forall i | 0 <= i < |t.lookups| :: LookedUp(t.lookups[i]))
            && t.pending == s.pending
  {
    hide Direct, Family, Continue;
    if Family(host) != 0 {
      ContinueHands(s, cont, Resolved(host, Family(host)), o);
      ContinuePending(s, cont, Resolved(host, Family(host)), o);
    } else if cont.ForSend? {
      LookupIsNotDirect(s, cont.req);
    }
  }

  lemma ContinuePending(s: State, cont: Cont, r: Resolution, o: Oracle)
    requires !cont.ForBind?
    ensures Continue(s, cont, r, o).pending == s.pending
  {
  }

  // The line moves on

  /** The head of the line is called: it is handed over, looked up or refused. */
  lemma HeadCalled(s: State, t: State, queue: seq<Work>)
    requires queue != [] && InLine(s, queue) && Hands(s, t, Some(queue[0])) && t.accepted == s.accepted
    ensures InLine(t, queue[1..])
  {
  }

  /** Nothing direct is handed over. */
  lemma NothingHanded(s: State, t: State, queue: seq<Work>)
    requires InLine(s, queue) && Hands(s, t, None) && t.accepted >= s.accepted
    ensures InLine(t, queue)
  {
  }

  /** A new call joins the line at its end. */
  lemma Joins(s: State, queue: seq<Work>, w: Work, accepted: nat)
    requires InLine(s, queue) && accepted >= s.accepted
    requires w.SendWork? ==> w.req.tok == s.accepted < accepted
    ensures InLine(s.(accepted := accepted), queue + [w])
  {
    hide Direct;
  }

  // API calls, outside every flush

  lemma Steady(s: State, t: State)
    requires OrderOk(s) && t.frames == s.frames && t.pending == s.pending && t.lookups == s.lookups
    requires t.flags.binding == s.flags.binding && (Live(t) ==> Live(s))
    requires t.accepted == s.accepted && Hands(s, t, None)
    ensures OrderOk(t)
  {
  }

  /** A bind that starts with no flush in progress either waits, fails or moves the line into its own flush. */
  lemma StartBindOrder(s: State, port: int, host: string, o: Oracle)
    requires OrderOk(s) && s.frames == []
    ensures OrderOk(StartBind(s, port, host, o))
  {
    hide Family, InLine, Hands, Continue;
    var s1 := s.(flags := s.flags.(binding := true));
    assert InLine(s1, Queue(s1)) by { Relined(s, s1); }
    if Family(host) != 0 {
      BindResolvedOrder(s1, port, Resolved(host, Family(host)), o);
      ContinueBind(s1, port, Resolved(host, Family(host)), o);
    } else {
      Relined(s1, StartBind(s, port, host, o));
    }
  }

  lemma Relined(s: State, t: State)
    requires InLine(s, Queue(s)) && t.log == s.log && t.accepted == s.accepted && Queue(t) == Queue(s)
    ensures InLine(t, Queue(t))
  {
    hide Direct;
  }

  lemma BindResolvedOrder(s: State, port: int, r: Resolution, o: Oracle)
    requires Calm(s) && InLine(s, Queue(s)) && s.frames == []
    ensures OrderOk(BindResolved(s, port, r, o))
  {
    hide InLine, Direct;
    var t := BindResolved(s, port, r, o);
    assert Queue(t) == Queue(s);
    assert Hands(s, t, None);
    NothingHanded(s, t, Queue(s));
  }

  lemma BindMaybeOrder(s: State, w: Work, o: Oracle, accepted: nat)
    requires OrderOk(s) && s.frames == [] && Live(s) && PendingOk(s) && accepted >= s.accepted
    requires FlagsOk(s) && (w.SendWork? ==> w.req.tok == s.accepted < accepted)
    ensures OrderOk(BindMaybe(s.(accepted := accepted), w, o))
  {
    hide RunWork, StartBind, InLine, Hands;
    Joins(s, Queue(s), w, accepted);
    var s0 := s.(accepted := accepted);
    if s.flags.bound {
      assert Queue(s) == [] && Queue(s) + [w] == [w] && [w][1..] == [];
      RunWorkHands(s0, w, None, o);
      RunWorkFrames(s0, w, None, o);
      RunWorkFlags(s0, w, None, o);
      HeadCalled(s0, RunWork(s0, w, None, o), [w]);
    } else {
      var s1 := s0.(pending := s.pending + [w]);
      assert Queue(s1) == Queue(s) + [w];
      assert InLine(s1, Queue(s1)) by { Joined(s0, s1, Queue(s1)); }
      if !s.flags.binding { StartBindOrder(s1, 0, Wildcard(s1), o); }
    }
  }

  lemma Joined(s: State, t: State, queue: seq<Work>)
    requires InLine(s, queue) && t.log == s.log && t.accepted == s.accepted
    ensures InLine(t, queue)
  {
    hide Direct;
  }

  lemma ConnectOrder(s: State, port: int, address: string, o: Oracle)
    requires OrderOk(s) && s.frames == [] && PendingOk(s) && FlagsOk(s)
    ensures OrderOk(Outcome(s, Connect(s, port, address, o)))
  {
    hide BindMaybe, InLine, HostOk, Loopback;
    if Connect(s, port, address, o).Done? {
      var s1 := s.(flags := s.flags.(connecting := true));
      Relined(s, s1);
      BindMaybeOrder(s1, ConnectWork(port, if address == "" then Loopback(s) else address), o, s.accepted);
      assert s1.(accepted := s.accepted) == s1;
    }
  }

  lemma SendOrder(s: State, list: seq<seq<byte>>, port: int, address: string, cb: bool, o: Oracle)
    requires OrderOk(s) && s.frames == [] && PendingOk(s) && FlagsOk(s)
    ensures OrderOk(Outcome(s, Send(s, list, port, address, cb, o)))
  {
    hide BindMaybe, Send, SendThrows, OrderOk;
    SendCases(s, list, port, address, cb, o);
    if SendThrows(s, port, address).None? {
      BindMaybeOrder(s, SendWork(NewReq(s, list, port, address, cb)), o, s.accepted + 1);
    }
  }

  lemma ResumeOrder(s: State, o: Oracle)
    requires OrderOk(s) && s.frames == [] && PendingOk(s) && FlagsOk(s)
    ensures OrderOk(Resume(s, o))
  {
    hide BindMaybe, InLine;
    var s1 := s.(paused := false);
    Relined(s, s1);
    if Live(s) {
      BindMaybeOrder(s1, ResumeWork, o, s.accepted);
      assert s1.(accepted := s.accepted) == s1;
    }
  }

  lemma BindOrder(s: State, port: int, address: string, o: Oracle)
    requires OrderOk(s) && s.frames == []
    ensures OrderOk(Outcome(s, Bind(s, port, address, o)))
  {
    hide StartBind, OrderOk, HostOk;
    StartBindOrder(s, port, if address == "" then Wildcard(s) else address, o);
  }

  lemma OpenOrder(s: State, fd: int, o: Oracle)
    requires OrderOk(s) && s.frames == []
    ensures OrderOk(Outcome(s, Open(s, fd, o)))
  {
    hide InLine;
    Relined(s, Outcome(s, Open(s, fd, o)));
  }

  lemma CloseOrder(s: State, onclose: bool)
    requires OrderOk(s)
    ensures OrderOk(Close(s, onclose))
  {
    hide InLine;
    Relined(s, Close(s, onclose));
  }

  lemma ApiOrder(s: State, l: Label, o: Oracle)
    requires Inv(s) && OrderOk(s) && IsApi(l) && Enabled(s, l) && s.frames == []
    ensures OrderOk(Step(s, l, o))
  {
    assert PendingOk(s) && FlagsOk(s);
    hide Inv, OrderOk, Bind, Open, Connect, Send, Resume, Close;
    if l.ApiBind? {
      BindOrder(s, l.port, l.address, o);
    } else if l.ApiOpen? {
      OpenOrder(s, l.fd, o);
    } else if l.ApiConnect? {
      ConnectOrder(s, l.port, l.address, o);
    } else if l.ApiSend? {
      SendOrder(s, l.list, l.port, l.address, l.cb, o);
    } else if l.ApiResume? {
      ResumeOrder(s, o);
    } else if l.ApiClose? {
      CloseOrder(s, l.onclose);
    } else {
      SteadyApi(s, l, o);
    }
  }

  lemma SteadyApi(s: State, l: Label, o: Oracle)
    requires OrderOk(s) && Enabled(s, l)
    requires l.ApiDisconnect? || l.ApiPause? || l.ApiRef? || l.ApiUnref?
    ensures OrderOk(Step(s, l, o))
  {
    hide InLine;
    Steady(s, Step(s, l, o));
  }

  // The environment

  lemma FlushNextOrder(s: State, o: Oracle)
    requires OrderOk(s) && s.frames != [] && s.frames[0].rest != []
    ensures OrderOk(FlushNext(s, o))
  {
    hide RunWork, InLine, Hands;
    var f := s.frames[0];
    var s1 := s.(frames := [f.(rest := f.rest[1..])] + s.frames[1..]);
    RunWorkHands(s1, f.rest[0], f.err, o);
    RunWorkFrames(s1, f.rest[0], f.err, o);
    RunWorkFlags(s1, f.rest[0], f.err, o);
    Joined(s, s1, Queue(s));
    HeadCalled(s1, FlushNext(s, o), Queue(s));
    assert Queue(s)[1..] == Queue(FlushNext(s, o));
  }

  lemma FlushEndOrder(s: State)
    requires OrderOk(s) && s.frames != [] && s.frames[0].rest == []
    ensures OrderOk(FlushEnd(s))
  {
    hide InLine, Direct;
    var t := FlushEnd(s);
    assert Queue(t) == Queue(s);
    assert Hands(s, t, None);
    NothingHanded(s, t, Queue(s));
  }

  lemma AnswerBindOrder(s: State, k: nat, answer: Answer, o: Oracle)
    requires OrderOk(s) && s.frames == [] && k < |s.lookups| && s.lookups[k].cont.ForBind?
    ensures OrderOk(AnswerLookup(s, k, answer, o))
  {
    hide InLine, Continue, Resolve, Direct, BindResolved;
    var s1 := s.(lookups := N.Remove(s.lookups, k));
    var cont, r := s.lookups[k].cont, Resolve(answer);
    Relined(s, s1);
    BindResolvedOrder(s1, cont.port, r, o);
    ContinueBind(s1, cont.port, r, o);
  }

  lemma AnswerOrder(s: State, k: nat, answer: Answer, o: Oracle)
    requires Inv(s) && OrderOk(s) && k < |s.lookups|
    ensures OrderOk(AnswerLookup(s, k, answer, o))
  {
    AnswerIsExpected(s, k);
    BindIsBinding(s, k);
    hide InLine, Continue, Inv, Resolve, Direct;
    var s1 := s.(lookups := N.Remove(s.lookups, k));
    var cont, r := s.lookups[k].cont, Resolve(answer);
    Relined(s, s1);
    assert LookedUp(s.lookups[k]);
    if cont.ForBind? && Live(s) {
      AnswerBindOrder(s, k, answer, o);
    } else {
      ContinueHands(s1, cont, r, o);
      ContinueFlags(s1, cont, r, o);
      ContinueSteady(s1, cont, r, o);
      Steady(s1, Continue(s1, cont, r, o));
    }
  }

  lemma ContinueBind(s: State, port: int, r: Resolution, o: Oracle)
    ensures Continue(s, ForBind(port), r, o) == BindResolved(s, port, r, o)
  {
    hide BindResolved;
  }

  lemma ContinueSteady(s: State, cont: Cont, r: Resolution, o: Oracle)
    requires cont.ForBind? ==> !Live(s)
    ensures var t := Continue(s, cont, r, o); t.frames == s.frames && t.pending == s.pending
  {
  }

  /** A bind whose lookup is unanswered on a live socket is under way, so no flush is in progress. */
  lemma BindIsBinding(s: State, k: nat)
    requires Inv(s) && Calm(s) && k < |s.lookups|
    ensures s.lookups[k].cont.ForBind? && Live(s) ==> s.frames == []
  {
    if s.lookups[k].cont.ForBind? && Live(s) { BindExpected(s, k); }
  }

  lemma TaskOrder(s: State)
    requires OrderOk(s) && s.frames == [] && s.tasks != []
    ensures OrderOk(RunTask(s))
  {
    hide InLine, Direct;
    var t := RunTask(s);
    assert Queue(t) == Queue(s);
    assert Hands(s, t, None);
    NothingHanded(s, t, Queue(s));
  }

  lemma OtherOrder(s: State, l: Label, o: Oracle)
    requires OrderOk(s) && Enabled(s, l)
    requires l.DoSendDone? || l.DoCloseDone? || l.DoTeardown? || l.DoMessage?
    ensures OrderOk(Step(s, l, o))
  {
    hide InLine, Direct, Bind, Open, Connect, Disconnect, Send, Pause, Resume, Close, SetUnrefed, FlushNext,
         AnswerLookup, FlushEnd, RunTask;
    var t := Step(s, l, o);
    assert Queue(t) == Queue(s);
    assert Hands(s, t, None);
    NothingHanded(s, t, Queue(s));
  }

  lemma StepOrder(s: State, l: Label, o: Oracle)
    requires Inv(s) && OrderOk(s) && Enabled(s, l) && (IsApi(l) ==> s.frames == [])
    ensures OrderOk(Step(s, l, o))
  {
    hide Inv, OrderOk, FlushNext, FlushEnd, AnswerLookup, RunTask;
    if IsApi(l) {
      ApiOrder(s, l, o);
    } else if l.DoFlushNext? {
      FlushNextOrder(s, o);
    } else if l.DoFlushEnd? {
      FlushEndOrder(s);
    } else if l.DoAnswer? {
      AnswerOrder(s, l.k, l.answer, o);
    } else if l.DoTask? {
      TaskOrder(s);
    } else {
      OtherOrder(s, l, o);
    }
  }

  /** No callback calls the socket during a flush. */
  ghost predicate NoCallInFlush(ss: seq<State>, moves: seq<Move>)
    requires |ss| == |moves| + 1
  {
    forall i | 0 <= i < |moves| :: IsApi(moves[i].step) ==> ss[i].frames == []
  }

  lemma {:induction false} RunOrder(family: nat, ss: seq<State>, moves: seq<Move>, i: nat)
    requires Run(family, ss, moves) && NoCallInFlush(ss, moves) && i < |ss|
    ensures OrderOk(ss[i])
  {
    hide Step, Inv, OrderOk, Enabled;
    if i == 0 {
      assert OrderOk(Init(family)) by { InitOrder(family); }
    } else {
      RunInv(family, ss, moves, i - 1);
      RunStep(family, ss, moves, i - 1);
      RunOrder(family, ss, moves, i - 1);
      StepOrder(ss[i - 1], moves[i - 1].step, moves[i - 1].oracle);
    }
  }

  lemma InitOrder(family: nat)
    ensures OrderOk(Init(family))
  {
  }

  /** The sends to literals that reached the native layer did so in the order of the calls. */
  lemma SendsKeepCallOrder(family: nat, ss: seq<State>, moves: seq<Move>, i: nat)
    requires Run(family, ss, moves) && NoCallInFlush(ss, moves) && i < |ss|
    ensures InCallOrder(ss[i].log)
  {
    RunOrder(family, ss, moves, i);
  }

  // Why the hypothesis is needed

  /**
   A direct send on a bound socket goes out at once. It keeps the line in order exactly when no direct send is
   still waiting in a flush: otherwise, made from a callback, it overtakes them.
   */
  lemma OvertakesIff(s: State, list: seq<seq<byte>>, port: int, address: string, cb: bool, o: Oracle)
    requires Inv(s) && OrderOk(s) && s.flags.bound && SendThrows(s, port, address).None?
    requires Direct(NewReq(s, list, port, address, cb))
    ensures var t := Outcome(s, Send(s, list, port, address, cb, o));
            InLine(t, Queue(t)) <==> forall b | 0 <= b < |Queue(s)| :: !DirectWork(Queue(s)[b])
  {
    hide Inv, BindMaybe, Send, SendThrows, Direct, InLine, Calm, Hands, RunWork;
    var req := NewReq(s, list, port, address, cb);
    var s0 := s.(accepted := s.accepted + 1);
    SendCases(s, list, port, address, cb, o);
    BoundRuns(s0, SendWork(req), o);
    DirectGoesOut(s0, req, o);
    RunWorkFrames(s0, SendWork(req), None, o);
    DirectPending(s, s0, req, o);
    var t := RunWork(s0, SendWork(req), None, o);
    if b :| 0 <= b < |Queue(s)| && DirectWork(Queue(s)[b]) {
      Overtaken(s, t, req, b);
    } else {
      Joins(s, Queue(s), SendWork(req), s.accepted + 1);
      Alone(s0, t, Queue(s), SendWork(req));
    }
  }

  lemma BoundRuns(s: State, w: Work, o: Oracle)
    requires s.flags.bound
    ensures BindMaybe(s, w, o) == RunWork(s, w, None, o)
  {
    hide RunWork, StartBind;
  }

  lemma DirectPending(s: State, s0: State, req: Req, o: Oracle)
    requires Calm(s) && s0 == s.(accepted := s0.accepted)
    ensures var t := RunWork(s0, SendWork(req), None, o);
            t.pending == s.pending && t.accepted == s0.accepted && Hands(s0, t, Some(SendWork(req)))
  {
    hide RunWork, Direct;
    RunWorkHands(s0, SendWork(req), None, o);
    RunWorkFlags(s0, SendWork(req), None, o);
  }

  lemma DirectGoesOut(s: State, req: Req, o: Oracle)
    requires Live(s) && Direct(req)
    ensures var t := RunWork(s, SendWork(req), None, o);
            |t.log| > |s.log| && t.log[|s.log|].SendCall? && t.log[|s.log|].req == req
  {
    hide Family, N.Send;
    DefaultsAreLiterals(s);
  }

  lemma Overtaken(s: State, t: State, req: Req, b: nat)
    requires InLine(s, Queue(s)) && b < |Queue(s)| && DirectWork(Queue(s)[b]) && Queue(t) == Queue(s)
    requires |t.log| > |s.log| && t.log[|s.log|].SendCall? && t.log[|s.log|].req == req
    requires Direct(req) && req.tok == s.accepted
    ensures !InLine(t, Queue(t))
  {
  }

  lemma Alone(s: State, t: State, queue: seq<Work>, w: Work)
    requires InLine(s, queue + [w]) && Hands(s, t, Some(w)) && t.accepted == s.accepted
    requires forall b | 0 <= b < |queue| :: !DirectWork(queue[b])
    ensures InLine(t, queue)
  {
    hide Direct;
    forall a, b | 0 <= a < b < |t.log| && DirectCall(t.log[a]) && DirectCall(t.log[b])
      ensures t.log[a].req.tok < t.log[b].req.tok
    {
      assert a < |s.log| && t.log[a] == s.log[a];
      if b < |s.log| {
        assert t.log[b] == s.log[b];
      } else {
        assert (queue + [w])[|queue|] == w;
      }
    }
    forall a | 0 <= a < |t.log| && DirectCall(t.log[a]) ensures t.log[a].req.tok < t.accepted {
      if a < |s.log| { assert t.log[a] == s.log[a]; } else { assert (queue + [w])[|queue|] == w; }
    }
  }
}
