/**
 Receiving: the two-line specification of pause and resume, refined over every run, and what becomes of the
 READING flag when a callback closes the socket in the middle of a flush.
 */
module Gating {
  import N = Native
  import opened IpForm
  import opened IpAddress
  import opened Protocol
  import opened Ledger
  import opened Boundary
  import opened Conservation
  import opened Invariant
  import opened Closing

  /** Whether the most recent pause-or-resume call of a history was `pause()`. */
  function PausedBy(history: seq<Move>): bool {
    if history == [] then false
    else
      var last := history[|history| - 1].step;
      if last.ApiPause? then true else if last.ApiResume? then false else PausedBy(history[..|history| - 1])
  }

  lemma ApiPaused(s: State, l: Label, o: Oracle)
    requires IsApi(l) && Enabled(s, l)
    ensures Step(s, l, o).paused == if l.ApiPause? then true else if l.ApiResume? then false else s.paused
  {
    hide BindMaybe, Send, Connect, Bind, FlushNext, FlushEnd, AnswerLookup, RunTask, SendDone, CloseDone, OnMessage;
    if l.ApiSend? {
      SendPaused(s, l.list, l.port, l.address, l.cb, o);
    } else if l.ApiConnect? {
      ConnectPaused(s, l.port, l.address, o);
    } else if l.ApiBind? {
      BindPaused(s, l.port, l.address, o);
    } else if l.ApiResume? && Live(s) {
      BindMaybeFlags(s.(paused := false), ResumeWork, o);
    }
  }

  lemma ConnectPaused(s: State, port: int, address: string, o: Oracle)
    ensures Outcome(s, Connect(s, port, address, o)).paused == s.paused
  {
    hide BindMaybe, HostOk, Loopback;
    if Connect(s, port, address, o).Done? {
      BindMaybeFlags(s.(flags := s.flags.(connecting := true)),
                     ConnectWork(port, if address == "" then Loopback(s) else address), o);
    }
  }

  lemma BindPaused(s: State, port: int, address: string, o: Oracle)
    ensures Outcome(s, Bind(s, port, address, o)).paused == s.paused
  {
    hide StartBind, HostOk, Wildcard;
    if Bind(s, port, address, o).Done? {
      StartBindFlags(s, port, if address == "" then Wildcard(s) else address, o);
    }
  }

  lemma SendPaused(s: State, list: seq<seq<byte>>, port: int, address: string, cb: bool, o: Oracle)
    ensures SameLive(s, Outcome(s, Send(s, list, port, address, cb, o)))
  {
    hide BindMaybe, SendThrows, Send;
    SendCases(s, list, port, address, cb, o);
    if SendThrows(s, port, address).None? {
      BindMaybeFlags(s.(accepted := s.accepted + 1), SendWork(NewReq(s, list, port, address, cb)), o);
    }
  }

  predicate SameLive(s: State, t: State) {
    t.paused == s.paused && t.flags.closing == s.flags.closing && t.flags.closed == s.flags.closed
  }

  lemma EnvironmentPaused(s: State, l: Label, o: Oracle)
    requires !IsApi(l) && Enabled(s, l)
    ensures Step(s, l, o).paused == s.paused
  {
    hide RunWork, Continue;
    if l.DoFlushNext? {
      var f := s.frames[0];
      RunWorkFlags(s.(frames := [f.(rest := f.rest[1..])] + s.frames[1..]), f.rest[0], f.err, o);
    } else if l.DoAnswer? {
      ContinueFlags(s.(lookups := N.Remove(s.lookups, l.k)), s.lookups[l.k].cont, Resolve(l.answer), o);
    }
  }

  lemma {:induction false} PausedFollows(family: nat, ss: seq<State>, moves: seq<Move>, i: nat)
    requires Run(family, ss, moves) && i < |ss|
    ensures ss[i].paused == PausedBy(moves[..i])
  {
    hide Step, Enabled, WindowOk;
    if i > 0 {
      PausedFollows(family, ss, moves, i - 1);
      RunStep(family, ss, moves, i - 1);
      assert moves[..i][..i - 1] == moves[..i - 1];
      var l, o := moves[i - 1].step, moves[i - 1].oracle;
      if IsApi(l) { ApiPaused(ss[i - 1], l, o); } else { EnvironmentPaused(ss[i - 1], l, o); }
    }
  }

  /**
   For every history of calls, lookups and failures: a live bound socket is reading natively exactly when the
   most recent pause-or-resume call was not pause(), and an unbound one is not reading.
   */
  lemma GatingSpec(family: nat, ss: seq<State>, moves: seq<Move>, i: nat)
    requires Run(family, ss, moves) && i < |ss| && Live(ss[i]) && !ss[i].native.exiting
    ensures ss[i].native.reading == ss[i].flags.reading == (ss[i].flags.bound && !PausedBy(moves[..i]))
  {
    RunInv(family, ss, moves, i);
    PausedFollows(family, ss, moves, i);
  }

  // READING and re-entrant closes

  /** READING implies BOUND, and so neither CLOSING nor CLOSED coexists with it. */
  predicate ReadingOk(s: State) {
    s.flags.reading ==> s.flags.bound
  }

  /** The one step that breaks it: a queued resume is called by the flush of a bind, after the socket was closed. */
  predicate ResumesTooLate(s: State, l: Label) {
    && l.DoFlushNext? && s.frames != [] && s.frames[0].rest != []
    && s.frames[0].err.None? && s.frames[0].rest[0].ResumeWork? && !Live(s) && !s.paused
  }

  lemma ContinueReading(s: State, cont: Cont, r: Resolution, o: Oracle)
    requires !Live(s)
    ensures Continue(s, cont, r, o).flags.reading == s.flags.reading
  {
    hide HandOff;
  }

  lemma RunWorkReading(s: State, w: Work, err: Option<Error>, o: Oracle)
    requires !Live(s) && !s.flags.reading && (w.SendWork? ==> !w.req.connected)
    ensures RunWork(s, w, err, o).flags.reading == (w.ResumeWork? && err.None? && !s.paused)
  {
    hide Continue, HandOff;
    if err.None? {
      if w.SendWork? {
        var host := if w.req.address != "" then w.req.address else Loopback(s);
        ContinueReading(s, ForSend(w.req), Resolved(host, Family(host)), o);
      } else if w.ConnectWork? {
        ContinueReading(s, ForConnect(w.port), Resolved(w.host, Family(w.host)), o);
      }
    }
  }

  lemma ApiReading(s: State, l: Label, o: Oracle)
    requires IsApi(l) && Enabled(s, l) && !Live(s)
    ensures Step(s, l, o).flags.reading == s.flags.reading
  {
    hide BindMaybe, StartBind, HostOk, OnBind, Send, SendThrows;
    if l.ApiSend? {
      SendCases(s, l.list, l.port, l.address, l.cb, o);
    }
  }

  lemma FlushNextReading(s: State, o: Oracle)
    requires Inv(s) && !Live(s) && !s.flags.reading && Enabled(s, DoFlushNext)
    ensures FlushNext(s, o).flags.reading == ResumesTooLate(s, DoFlushNext)
  {
    hide RunWork;
    var f := s.frames[0];
    assert WorkOk(f.rest[0]);
    RunWorkReading(s.(frames := [f.(rest := f.rest[1..])] + s.frames[1..]), f.rest[0], f.err, o);
  }

  /** A step of a closing socket turns READING on exactly when it is a queued resume called too late. */
  lemma EndedReading(s: State, l: Label, o: Oracle)
    requires Inv(s) && !Live(s) && !s.flags.reading && Enabled(s, l)
    ensures Step(s, l, o).flags.reading == ResumesTooLate(s, l)
  {
    hide FlushNext, Continue, Inv, Bind, Connect, Send, Resume, Open, Resolve, Close, Pause, Disconnect, SetUnrefed;
    if IsApi(l) {
      ApiReading(s, l, o);
    } else if l.DoFlushNext? {
      FlushNextReading(s, o);
    } else if l.DoAnswer? {
      ContinueReading(s.(lookups := N.Remove(s.lookups, l.k)), s.lookups[l.k].cont, Resolve(l.answer), o);
    }
  }

  lemma LiveReading(s: State)
    requires Inv(s) && Live(s) && !s.native.exiting
    ensures ReadingOk(s)
  {
  }

  lemma CloseReading(s: State, onclose: bool)
    requires Live(s)
    ensures ReadingOk(Close(s, onclose))
  {
  }

  /**
   Whether READING still implies BOUND after a step, exactly: it does unless the step calls a queued resume on a
   socket that is no longer live and not paused.
   */
  lemma ReadingIff(s: State, l: Label, o: Oracle)
    requires Inv(s) && WindowOk(s) && ReadingOk(s) && Enabled(s, l)
    ensures ReadingOk(Step(s, l, o)) <==> !ResumesTooLate(s, l)
  {
    var t := Step(s, l, o);
    StepInv(s, l, o);
    assert l.ApiClose? ==> t == Close(s, l.onclose);
    assert s.native.exiting || l.DoTeardown? ==> t.flags == s.flags;
    hide Step, Inv;
    if s.native.exiting || l.DoTeardown? {
    } else if Live(s) {
      if l.ApiClose? {
        CloseReading(s, l.onclose);
      } else {
        StaysLive(s, l, o);
        LiveReading(t);
      }
    } else {
      EndedReading(s, l, o);
      StepEnds(s, l, o);
      Unbound(s);
      Unbound(t);
    }
  }

  lemma ConnectStaysLive(s: State, port: int, address: string, o: Oracle)
    requires Live(s) && !s.native.exiting
    ensures var t := Outcome(s, Connect(s, port, address, o)); Live(t) && !t.native.exiting
  {
    hide BindMaybe, HostOk;
    BindMaybeFlags(s.(flags := s.flags.(connecting := true)),
                   ConnectWork(port, if address == "" then Loopback(s) else address), o);
  }

  lemma BindStaysLive(s: State, port: int, address: string, o: Oracle)
    requires Live(s) && !s.native.exiting
    ensures var t := Outcome(s, Bind(s, port, address, o)); Live(t) && !t.native.exiting
  {
    hide StartBind, HostOk;
    StartBindFlags(s, port, if address == "" then Wildcard(s) else address, o);
  }

  lemma OpenStaysLive(s: State, fd: int, o: Oracle)
    requires Live(s) && !s.native.exiting
    ensures var t := Outcome(s, Open(s, fd, o)); Live(t) && !t.native.exiting
  {
  }

  /** Only close() and its completion end a live socket. */
  lemma StaysLive(s: State, l: Label, o: Oracle)
    requires Inv(s) && Enabled(s, l) && !l.ApiClose? && !l.DoTeardown? && !s.native.exiting
    requires Live(s)
    ensures Live(Step(s, l, o)) && !Step(s, l, o).native.exiting
  {
    hide BindMaybe, RunWork, Continue, Inv, Send, Bind, Connect, Open, Resolve, Pause, Disconnect, FlushEnd, RunTask,
         SendDone, CloseDone, OnMessage;
    if l.ApiSend? {
      SendStaysLive(s, l.list, l.port, l.address, l.cb, o);
    } else if l.ApiConnect? {
      ConnectStaysLive(s, l.port, l.address, o);
    } else if l.ApiBind? {
      BindStaysLive(s, l.port, l.address, o);
    } else if l.ApiOpen? {
      OpenStaysLive(s, l.fd, o);
    } else if l.ApiResume? {
      BindMaybeFlags(s.(paused := false), ResumeWork, o);
    } else if l.DoFlushNext? {
      var f := s.frames[0];
      RunWorkFlags(s.(frames := [f.(rest := f.rest[1..])] + s.frames[1..]), f.rest[0], f.err, o);
    } else if l.DoAnswer? {
      ContinueFlags(s.(lookups := N.Remove(s.lookups, l.k)), s.lookups[l.k].cont, Resolve(l.answer), o);
    } else if l.DoCloseDone? {
      NoCloseWhileLive(s);
    } else if IsApi(l) {
      PlainCallStaysLive(s, l, o);
    } else {
      ReactionStaysLive(s, l, o);
    }
  }

  lemma PlainCallStaysLive(s: State, l: Label, o: Oracle)
    requires Enabled(s, l) && !s.native.exiting && Live(s)
    requires l.ApiDisconnect? || l.ApiPause? || l.ApiRef? || l.ApiUnref?
    ensures Live(Step(s, l, o)) && !Step(s, l, o).native.exiting
  {
    hide Bind, Open, Connect, Send, Resume, Close, FlushNext, FlushEnd, AnswerLookup, RunTask, SendDone, CloseDone,
         OnMessage;
  }

  lemma TaskStaysLive(s: State)
    requires s.tasks != []
    ensures Live(RunTask(s)) == Live(s) && RunTask(s).native.exiting == s.native.exiting
  {
  }

  lemma CompletionStaysLive(s: State, k: nat, err: Option<Error>)
    requires k < |s.native.queue|
    ensures var t := SendDone(s, k, err); Live(t) == Live(s) && t.native.exiting == s.native.exiting
  {
  }

  lemma FlushEndStaysLive(s: State)
    requires s.frames != [] && s.frames[0].rest == []
    ensures Live(FlushEnd(s)) == Live(s) && FlushEnd(s).native.exiting == s.native.exiting
  {
  }

  lemma ReactionStaysLive(s: State, l: Label, o: Oracle)
    requires Enabled(s, l) && !s.native.exiting && Live(s)
    requires l.DoFlushEnd? || l.DoTask? || l.DoSendDone? || l.DoMessage?
    ensures Live(Step(s, l, o)) && !Step(s, l, o).native.exiting
  {
    hide RunTask, SendDone, FlushEnd;
    if l.DoTask? { TaskStaysLive(s); }
    if l.DoSendDone? { CompletionStaysLive(s, l.k, l.err); }
    if l.DoFlushEnd? { FlushEndStaysLive(s); }
    hide Bind, Open, Connect, Disconnect, Send, Pause, Resume, Close, SetUnrefed, FlushNext, AnswerLookup, CloseDone;
  }

  lemma NoCloseWhileLive(s: State)
    requires Inv(s) && Live(s) && !s.native.exiting
    ensures !N.CanClose(s.native)
  {
  }

  lemma SendStaysLive(s: State, list: seq<seq<byte>>, port: int, address: string, cb: bool, o: Oracle)
    ensures var t := Outcome(s, Send(s, list, port, address, cb, o));
            Live(t) == Live(s) && t.native.exiting == s.native.exiting
  {
    hide BindMaybe, SendThrows, Send;
    SendCases(s, list, port, address, cb, o);
    if SendThrows(s, port, address).None? {
      BindMaybeFlags(s.(accepted := s.accepted + 1), SendWork(NewReq(s, list, port, address, cb)), o);
    }
  }

  lemma Unbound(s: State)
    requires Inv(s) && !Live(s)
    ensures !s.flags.bound
  {
  }
}
