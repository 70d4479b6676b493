/**
 The close protocol of the socket: closing is final, `close` is emitted once and every callback given to close()
 runs once, no datagram is delivered after close(), and only sends with an unanswered lookup outlive `close`.
 */
module Closing {
  import N = Native
  import opened IpForm
  import opened Protocol
  import opened Obligations
  import opened Control
  import opened Ledger
  import opened Conservation
  import opened Invariant
  import opened Drain
  import opened Runs

  // Closing is final

  predicate Ended(s: State, t: State) {
    && (!Live(s) ==> !Live(t))
    && (s.flags.closed ==> t.flags.closed)
  }

  lemma ApiEnds(s: State, l: Label, o: Oracle)
    requires IsApi(l) && Enabled(s, l) && !Live(s)
    ensures Step(s, l, o).flags.closed == s.flags.closed && Step(s, l, o).flags.closing == s.flags.closing
    ensures Step(s, l, o).frames == s.frames && Step(s, l, o).pending == s.pending
  {
    hide BindMaybe, StartBind, HostOk, OnBind, Send, SendThrows;
    if l.ApiSend? { SendCases(s, l.list, l.port, l.address, l.cb, o); }
  }

  lemma EnvironmentEnds(s: State, l: Label, o: Oracle)
    requires !IsApi(l) && Enabled(s, l)
    ensures Ended(s, Step(s, l, o))
  {
    hide RunWork, Continue;
    if l.DoFlushNext? {
      var f := s.frames[0];
      RunWorkFlags(s.(frames := [f.(rest := f.rest[1..])] + s.frames[1..]), f.rest[0], f.err, o);
    } else if l.DoAnswer? {
      ContinueFlags(s.(lookups := N.Remove(s.lookups, l.k)), s.lookups[l.k].cont, Resolve(l.answer), o);
    }
  }

  /** CLOSED is absorbing, and a socket that has begun to close never becomes live again. */
  lemma StepEnds(s: State, l: Label, o: Oracle)
    requires Enabled(s, l)
    ensures Ended(s, Step(s, l, o))
    ensures l.ApiClose? ==> !Live(Step(s, l, o))
  {
    if IsApi(l) {
      if !Live(s) { ApiEnds(s, l, o); }
    } else {
      EnvironmentEnds(s, l, o);
    }
  }

  lemma {:induction false} RunEnds(family: nat, ss: seq<State>, moves: seq<Move>, i: nat, j: nat)
    requires Run(family, ss, moves) && i <= j < |ss|
    ensures Ended(ss[i], ss[j])
    decreases j
  {
    hide Step, Live, WindowOk, Enabled;
    if i < j {
      RunStep(family, ss, moves, j - 1);
      StepEnds(ss[j - 1], moves[j - 1].step, moves[j - 1].oracle);
      RunEnds(family, ss, moves, i, j - 1);
    }
  }

  /** Once close() has been called, no step delivers a datagram. */
  lemma NoMessageAfterClose(s: State, l: Label, o: Oracle)
    requires Inv(s) && Enabled(s, l) && !Live(s)
    ensures var t := Step(s, l, o); s.log <= t.log && forall i | |s.log| <= i < |t.log| :: !t.log[i].EmitMessage?
  {
    hide FlushNext, Continue, Bind, Open, Connect, Disconnect, Send, Pause, Resume, Close, SetUnrefed, Resolve;
    if IsApi(l) {
      ApiGrows(s, l, o);
    } else if l.DoFlushNext? {
      FlushNextGrows(s, o);
    } else if l.DoAnswer? {
      ContinueGrows(s.(lookups := N.Remove(s.lookups, l.k)), s.lookups[l.k].cont, Resolve(l.answer), o);
    }
  }

  // The state of a closed socket

  /** A closed socket has at most the flush of its own close to finish; after it, every close callback has run. */
  ghost predicate ClosedOk(s: State) {
    && (s.flags.closed ==> forall i | 0 <= i < |s.frames| :: s.frames[i].tail.ThenClose? || s.frames[i].rest == [])
    && (s.flags.closed && s.listeners != [] ==> exists i | 0 <= i < |s.frames| :: s.frames[i].tail.ThenClose?)
    && (forall i | 0 <= i < |s.frames| :: s.frames[i].tail.ThenClose? ==> i == |s.frames| - 1)
  }

  lemma RunWorkFrames(s: State, w: Work, err: Option<Error>, o: Oracle)
    ensures RunWork(s, w, err, o).frames == s.frames && RunWork(s, w, err, o).listeners == s.listeners
  {
    hide ResolveHost;
    if err.None? {
      if w.SendWork? && !w.req.connected {
        ResolveHostFrames(s, if w.req.address != "" then w.req.address else Loopback(s), ForSend(w.req), o);
      } else if w.ConnectWork? {
        ResolveHostFrames(s, w.host, ForConnect(w.port), o);
      }
    }
  }

  lemma FlushNextShrinks(s: State, o: Oracle)
    requires s.frames != [] && s.frames[0].rest != []
    ensures var t := FlushNext(s, o); t.frames != [] && t.frames[0].rest == s.frames[0].rest[1..]
  {
    hide RunWork;
    var f := s.frames[0];
    RunWorkFrames(s.(frames := [f.(rest := f.rest[1..])] + s.frames[1..]), f.rest[0], f.err, o);
  }

  /** The innermost flush run to its end with no call in between; the k-th closure gets the k-th oracle. */
  function FlushRest(s: State, oracles: nat -> Oracle, k: nat): State
    requires s.frames != []
    decreases |s.frames[0].rest|
  {
    if s.frames[0].rest == [] then FlushEnd(s)
    else
      FlushNextShrinks(s, oracles(k));
      FlushRest(FlushNext(s, oracles(k)), oracles, k + 1)
  }

  lemma ResolveHostFrames(s: State, host: string, cont: Cont, o: Oracle)
    requires !cont.ForBind?
    ensures ResolveHost(s, host, cont, o).frames == s.frames && ResolveHost(s, host, cont, o).listeners == s.listeners
  {
  }

  lemma FlushNextClosed(s: State, o: Oracle)
    requires ClosedOk(s) && s.frames != [] && s.frames[0].rest != []
    ensures ClosedOk(FlushNext(s, o))
  {
    hide RunWork;
    var f := s.frames[0];
    var s1 := s.(frames := [f.(rest := f.rest[1..])] + s.frames[1..]);
    RunWorkFrames(s1, f.rest[0], f.err, o);
    RunWorkFlags(s1, f.rest[0], f.err, o);
    var t := FlushNext(s, o);
    assert t.frames == s1.frames;
    assert forall i | 0 <= i < |t.frames| :: t.frames[i].tail == s.frames[i].tail;
  }

  lemma FlushEndClosed(s: State)
    requires ClosedOk(s) && s.frames != [] && s.frames[0].rest == []
    ensures ClosedOk(FlushEnd(s))
  {
    var t := FlushEnd(s);
    assert forall i | 0 <= i < |t.frames| :: t.frames[i] == s.frames[i + 1];
    if s.flags.closed && t.listeners != [] {
      var i :| 0 <= i < |s.frames| && s.frames[i].tail.ThenClose?;
      assert t.frames[i - 1].tail.ThenClose?;
    }
  }

  lemma PushClosed(s: State, err: Option<Error>, tail: Tail)
    requires ClosedOk(s) && (s.flags.closed ==> s.pending == []) && !tail.ThenClose?
    ensures ClosedOk(Push(s, err, tail))
  {
    var t := Push(s, err, tail);
    assert forall i | 1 <= i < |t.frames| :: t.frames[i] == s.frames[i - 1];
    if t.flags.closed && t.listeners != [] {
      var i :| 0 <= i < |s.frames| && s.frames[i].tail.ThenClose?;
      assert t.frames[i + 1].tail.ThenClose?;
    }
  }

  /** Either nothing a closed socket depends on has changed, or a live one has started a flush of its own. */
  predicate LivePush(s: State, t: State) {
    || (t.frames == s.frames && t.listeners == s.listeners && t.flags.closed == s.flags.closed)
    || (Live(s) && Live(t) && |t.frames| == |s.frames| + 1 && t.frames[1..] == s.frames
        && t.frames[0].tail.ThenListening? && t.listeners == s.listeners)
  }

  lemma LivePushClosed(s: State, t: State)
    requires ClosedOk(s) && LivePush(s, t)
    ensures ClosedOk(t)
  {
  }

  lemma ContinuePush(s: State, cont: Cont, r: Resolution, o: Oracle)
    ensures LivePush(s, Continue(s, cont, r, o))
  {
  }

  lemma StartBindPush(s: State, port: int, host: string, o: Oracle)
    ensures LivePush(s, StartBind(s, port, host, o))
  {
  }

  lemma BindMaybePush(s: State, w: Work, o: Oracle)
    requires Live(s)
    ensures LivePush(s, BindMaybe(s, w, o))
  {
    hide RunWork, StartBind;
    if s.flags.bound {
      RunWorkFrames(s, w, None, o);
      RunWorkFlags(s, w, None, o);
    } else if !s.flags.binding {
      StartBindPush(s.(pending := s.pending + [w]), 0, Wildcard(s), o);
    }
  }

  lemma SendPush(s: State, list: seq<seq<byte>>, port: int, address: string, cb: bool, o: Oracle)
    ensures LivePush(s, Outcome(s, Send(s, list, port, address, cb, o)))
  {
    hide BindMaybe, SendThrows, Send;
    SendCases(s, list, port, address, cb, o);
    if SendThrows(s, port, address).None? {
      BindMaybePush(s.(accepted := s.accepted + 1), SendWork(NewReq(s, list, port, address, cb)), o);
    }
  }

  lemma ConnectPush(s: State, port: int, address: string, o: Oracle)
    ensures LivePush(s, Outcome(s, Connect(s, port, address, o)))
  {
    hide BindMaybe, HostOk;
    if Connect(s, port, address, o).Done? {
      BindMaybePush(s.(flags := s.flags.(connecting := true)),
                    ConnectWork(port, if address == "" then Loopback(s) else address), o);
    }
  }

  lemma BindPush(s: State, port: int, address: string, o: Oracle)
    ensures LivePush(s, Outcome(s, Bind(s, port, address, o)))
  {
    hide StartBind, HostOk;
    StartBindPush(s, port, if address == "" then Wildcard(s) else address, o);
  }

  lemma ResumePush(s: State, o: Oracle)
    ensures LivePush(s, Resume(s, o))
  {
    hide BindMaybe;
    if Live(s) { BindMaybePush(s.(paused := false), ResumeWork, o); }
  }

  lemma CloseClosed(s: State, onclose: bool)
    requires ClosedOk(s)
    ensures ClosedOk(Close(s, onclose))
  {
  }

  lemma ApiClosed(s: State, l: Label, o: Oracle)
    requires ClosedOk(s) && IsApi(l) && Enabled(s, l)
    ensures ClosedOk(Step(s, l, o))
  {
    hide Bind, Connect, Send, Resume, Close, ClosedOk;
    if l.ApiClose? {
      CloseClosed(s, l.onclose);
    } else {
      if l.ApiBind? {
        BindPush(s, l.port, l.address, o);
      } else if l.ApiConnect? {
        ConnectPush(s, l.port, l.address, o);
      } else if l.ApiSend? {
        SendPush(s, l.list, l.port, l.address, l.cb, o);
      } else if l.ApiResume? {
        ResumePush(s, o);
      }
      LivePushClosed(s, Step(s, l, o));
    }
  }

  lemma AnswerClosed(s: State, k: nat, answer: Answer, o: Oracle)
    requires ClosedOk(s) && k < |s.lookups|
    ensures ClosedOk(AnswerLookup(s, k, answer, o))
  {
    hide Continue;
    var s1 := s.(lookups := N.Remove(s.lookups, k));
    ContinuePush(s1, s.lookups[k].cont, Resolve(answer), o);
    LivePushClosed(s1, AnswerLookup(s, k, answer, o));
  }

  lemma TaskClosed(s: State)
    requires ClosedOk(s) && PendingOk(s) && FlagsOk(s) && s.tasks != []
    ensures ClosedOk(RunTask(s))
  {
    hide Push;
    if s.tasks[0].BindFailed? {
      var err := s.tasks[0].err;
      var s1 := s.(tasks := s.tasks[1..], flags := s.flags.(binding := false));
      PushClosed(s1, Some(err), ThenReport(err));
    }
  }

  lemma StepClosed(s: State, l: Label, o: Oracle)
    requires Inv(s) && ClosedOk(s) && Enabled(s, l)
    ensures ClosedOk(Step(s, l, o))
  {
    hide FlushNext, FlushEnd, AnswerLookup, RunTask, Inv, ClosedOk;
    if IsApi(l) {
      ApiClosed(s, l, o);
    } else if l.DoFlushNext? {
      FlushNextClosed(s, o);
    } else if l.DoFlushEnd? {
      FlushEndClosed(s);
    } else if l.DoAnswer? {
      AnswerClosed(s, l.k, l.answer, o);
    } else if l.DoTask? {
      ControlOfInv(s);
      TaskClosed(s);
    } else if l.DoCloseDone? {
      CloseDoneClosed(s);
    } else {
      LivePushClosed(s, Step(s, l, o));
    }
  }

  lemma ControlOfInv(s: State)
    requires Inv(s)
    ensures PendingOk(s) && FlagsOk(s)
  {
  }

  lemma CloseDoneClosed(s: State)
    requires ClosedOk(s) && s.frames == [] && N.CanClose(s.native)
    ensures ClosedOk(CloseDone(s))
  {
    var t := CloseDone(s);
    if !s.native.exiting {
      assert t.frames[0].tail.ThenClose?;
    }
  }

  lemma {:induction false} RunClosed(family: nat, ss: seq<State>, moves: seq<Move>, i: nat)
    requires Run(family, ss, moves) && i < |ss|
    ensures ClosedOk(ss[i])
  {
    hide Step, Inv;
    if i > 0 {
      RunInv(family, ss, moves, i - 1);
      RunClosed(family, ss, moves, i - 1);
      RunStep(family, ss, moves, i - 1);
      StepClosed(ss[i - 1], moves[i - 1].step, moves[i - 1].oracle);
    }
  }

  // After the close event

  function Closes(s: State): nat { Sum(s.log, EventOb, CloseEventOb) }

  lemma {:induction false} SumPositive<T, K>(xs: seq<T>, i: nat, f: (T, K) -> nat, k: K)
    requires i < |xs|
    ensures Sum(xs, f, k) >= f(xs[i], k)
  {
    SumRemove(xs, i, f, k);
  }

  /** `close` is emitted at most once, and only by a closed socket whose flush is over. */
  lemma CloseOnce(s: State)
    requires Inv(s)
    ensures Closes(s) <= 1
    ensures Closes(s) == 1 ==> s.flags.closed && forall i | 0 <= i < |s.frames| :: !s.frames[i].tail.ThenClose?
  {
    assert Tracked(s, CloseEventOb);
    if Closes(s) == 1 {
      forall i | 0 <= i < |s.frames| ensures !s.frames[i].tail.ThenClose? {
        SumPositive(s.frames, i, FrameOb, CloseEventOb);
      }
    }
  }

  /**
   Once `close` has been emitted, nothing is queued or in flight any more: a send that is not settled yet is
   waiting for its lookup and for nothing else, and every callback given to close() has been queued or run.
   */
  lemma AfterClose(s: State, t: nat)
    requires Inv(s) && ClosedOk(s) && Closes(s) == 1
    ensures s.pending == [] && s.sends == map[] && s.listeners == []
    ensures t < s.accepted ==> TimesSettled(s, t) + Resolving(s, t) == 1
  {
    CloseOnce(s);
    assert s.flags.closed && !s.flags.closing;
    assert s.native.queue == [] && Ids([]) == {};
    OnePlace(s, t);
    forall i | 0 <= i < |s.frames| ensures FrameOb(s.frames[i], SendOb(t)) == 0 {
      assert s.frames[i].rest == [];
    }
    SumZero(s.frames, FrameOb, SendOb(t));
  }

  /** A send whose lookup is answered after the socket began to close is settled by that answer, with an error. */
  lemma LateAnswerSettles(s: State, k: nat, answer: Answer, o: Oracle)
    requires !Live(s) && k < |s.lookups| && s.lookups[k].cont.ForSend?
    ensures var t := AnswerLookup(s, k, answer, o);
            exists err :: t.settled == s.settled + [Settled(s.lookups[k].cont.req, Some(err), 0)]
  {
  }

  /** At rest after a close: `close` was emitted exactly once and every callback given to close() ran exactly once. */
  lemma EveryCallbackRan(s: State, c: nat)
    requires Inv(s) && ClosedOk(s) && Quiet(s) && !s.native.exiting && !Live(s)
    ensures Closes(s) == 1
    ensures Sum(s.log, EventOb, CloseOb(c)) == if c < s.closeCalls then 1 else 0
  {
    QuietMeans(s);
    AtRest(s);
    assert s.flags.closed && s.listeners == [];
    assert Tracked(s, CloseEventOb) && Tracked(s, CloseOb(c));
    SumZero(s.settled, SettledOb, CloseEventOb);
    SumZero(s.settled, SettledOb, CloseOb(c));
  }

  /** Once close() has been called, the socket comes to rest closed, with `close` emitted once. */
  lemma ClosedAtRest(family: nat, ss: seq<State>, moves: seq<Move>, i: nat, j: nat)
    requires Run(family, ss, moves) && i < j < |ss| && moves[i].step.ApiClose?
    requires Quiet(ss[j]) && !ss[j].native.exiting
    ensures ss[j].flags.closed && !ss[j].flags.closing && Closes(ss[j]) == 1
    ensures forall c: nat :: Sum(ss[j].log, EventOb, CloseOb(c)) == if c < ss[j].closeCalls then 1 else 0
  {
    hide Step, Inv, Quiet, Sum, Enabled, WindowOk;
    RunStep(family, ss, moves, i);
    StepEnds(ss[i], moves[i].step, moves[i].oracle);
    RunEnds(family, ss, moves, i + 1, j);
    RunInv(family, ss, moves, j);
    RunClosed(family, ss, moves, j);
    AtRest(ss[j]);
    forall c: nat ensures Sum(ss[j].log, EventOb, CloseOb(c)) == if c < ss[j].closeCalls then 1 else 0 {
      EveryCallbackRan(ss[j], c);
    }
    EveryCallbackRan(ss[j], 0);
  }
}
