/**
 A bind that has failed but has not been reported yet. Until the report runs, the socket stays unbound and nothing
 starts another bind; the report then settles the queued sends with that bind's error, in order, and abandons a
 queued connect; and afterwards the socket can be bound again.
 */
module Containment {
  import N = Native
  import opened Sequences
  import opened IpForm
  import opened IpAddress
  import opened Protocol
  import opened Obligations
  import opened Ledger
  import opened Boundary
  import opened Conservation
  import opened Invariant
  import opened Drain
  import opened Runs
  import opened Closing
  import opened Gating

  /** A live socket whose bind has failed with `err`, the error being queued but not reported. */
  ghost predicate Unreported(s: State, err: Error) {
    Live(s) && !s.native.exiting && exists i | 0 <= i < |s.tasks| :: s.tasks[i] == BindFailed(err)
  }

  lemma UnreportedMeans(s: State, err: Error)
    requires Inv(s) && Unreported(s, err)
    ensures s.flags.binding && !s.flags.bound
    ensures forall i | 0 <= i < |s.lookups| :: !s.lookups[i].cont.ForBind? && !s.lookups[i].cont.ForConnect?
  {
    var i :| 0 <= i < |s.tasks| && s.tasks[i] == BindFailed(err);
    SumRemove(s.tasks, i, TaskOb, BindOb);
    assert Tracked(s, BindOb);
    forall k | 0 <= k < |s.lookups| ensures !s.lookups[k].cont.ForBind? && !s.lookups[k].cont.ForConnect? {
      SumRemove(s.lookups, k, LookupOb, BindOb);
    }
  }

  /** Sends, connects and resumes issued in the meantime start no bind and reach no native call: they only queue. */
  lemma OnlyQueues(s: State, err: Error, w: Work, o: Oracle)
    requires Inv(s) && Unreported(s, err)
    ensures BindMaybe(s, w, o) == s.(pending := s.pending + [w])
  {
    UnreportedMeans(s, err);
  }

  /** The log gets no native bind. */
  ghost predicate NoBindCall(s: State, t: State) {
    s.log <= t.log && forall i | |s.log| <= i < |t.log| :: !t.log[i].BindCall?
  }

  lemma ContinueNoBind(s: State, cont: Cont, r: Resolution, o: Oracle)
    requires !cont.ForBind?
    ensures NoBindCall(s, Continue(s, cont, r, o))
  {
  }

  lemma RunWorkNoBind(s: State, w: Work, err: Option<Error>, o: Oracle)
    ensures NoBindCall(s, RunWork(s, w, err, o))
  {
    hide Continue;
    if err.None? {
      if w.SendWork? && !w.req.connected {
        var host := if w.req.address != "" then w.req.address else Loopback(s);
        ContinueNoBind(s, ForSend(w.req), Resolved(host, Family(host)), o);
      } else if w.ConnectWork? {
        ContinueNoBind(s, ForConnect(w.port), Resolved(w.host, Family(w.host)), o);
      }
    }
  }

  lemma ApiContained(s: State, l: Label, o: Oracle, err: Error)
    requires Inv(s) && Unreported(s, err) && IsApi(l) && Enabled(s, l)
    ensures var t := Step(s, l, o); t.log == s.log && (Live(t) ==> Unreported(t, err))
  {
    UnreportedMeans(s, err);
    hide StartBind, HostOk, Send, SendThrows, RunWork, OnBind, Inv;
    if l.ApiSend? {
      SendCases(s, l.list, l.port, l.address, l.cb, o);
    }
    assert Step(s, l, o).tasks == s.tasks;
  }

  lemma FlushNextContained(s: State, o: Oracle, err: Error)
    requires Inv(s) && Unreported(s, err) && Enabled(s, DoFlushNext)
    ensures var t := FlushNext(s, o); NoBindCall(s, t) && Unreported(t, err)
  {
    hide RunWork, Inv;
    var f := s.frames[0];
    var s1 := s.(frames := [f.(rest := f.rest[1..])] + s.frames[1..]);
    RunWorkNoBind(s1, f.rest[0], f.err, o);
    RunWorkFlags(s1, f.rest[0], f.err, o);
    RunWorkGrows(s1, f.rest[0], f.err, o);
    StillQueued(s, FlushNext(s, o), err);
  }

  lemma StillQueued(s: State, t: State, err: Error)
    requires Unreported(s, err) && s.tasks <= t.tasks && Live(t) && !t.native.exiting
    ensures Unreported(t, err)
  {
  }

  lemma AnswerContained(s: State, k: nat, answer: Answer, o: Oracle, err: Error)
    requires Inv(s) && Unreported(s, err) && k < |s.lookups|
    ensures var t := AnswerLookup(s, k, answer, o); NoBindCall(s, t) && Unreported(t, err)
  {
    UnreportedMeans(s, err);
    hide Continue, Inv;
    var s1 := s.(lookups := N.Remove(s.lookups, k));
    var cont := s.lookups[k].cont;
    ContinueNoBind(s1, cont, Resolve(answer), o);
    ContinueFlags(s1, cont, Resolve(answer), o);
    ContinueGrows(s1, cont, Resolve(answer), o);
    StillQueued(s, AnswerLookup(s, k, answer, o), err);
  }

  lemma TaskContained(s: State, err: Error)
    requires Unreported(s, err) && Enabled(s, DoTask) && !s.tasks[0].BindFailed?
    ensures var t := RunTask(s); NoBindCall(s, t) && Unreported(t, err)
  {
  }

  lemma OtherContained(s: State, l: Label, o: Oracle, err: Error)
    requires Inv(s) && Unreported(s, err) && Enabled(s, l)
    requires l.DoFlushEnd? || l.DoSendDone? || l.DoCloseDone? || l.DoMessage?
    ensures var t := Step(s, l, o); NoBindCall(s, t) && Unreported(t, err)
  {
    hide Inv, Bind, Open, Connect, Disconnect, Send, Pause, Resume, Close, SetUnrefed, FlushNext, AnswerLookup, RunTask;
    NoCloseWhileLive(s);
    var t := Step(s, l, o);
    StillQueued(s, t, err);
  }

  /**
   Whatever happens between the failure of a bind and its report, re-entrant calls included, the socket stays
   unbound with that failure still to report, and no native bind is attempted, unless the socket is closed.
   */
  lemma StaysContained(s: State, l: Label, o: Oracle, err: Error)
    requires Inv(s) && Unreported(s, err) && WindowOk(s) && Enabled(s, l) && !l.DoTeardown?
    requires !(l.DoTask? && s.tasks[0].BindFailed?)
    ensures var t := Step(s, l, o);
            NoBindCall(s, t) && (Live(t) ==> Unreported(t, err) && t.flags.binding && !t.flags.bound)
  {
    var t := Step(s, l, o);
    StepInv(s, l, o);
    hide FlushNext, AnswerLookup, RunTask, Inv, Unreported;
    if IsApi(l) {
      ApiContained(s, l, o, err);
    } else if l.DoFlushNext? {
      FlushNextContained(s, o, err);
    } else if l.DoAnswer? {
      AnswerContained(s, l.k, l.answer, o, err);
    } else if l.DoTask? {
      TaskContained(s, err);
    } else {
      OtherContained(s, l, o, err);
    }
    if Live(t) { UnreportedMeans(t, err); }
  }

  // The report

  /** What refusing queued work with `err` settles: its sends, in order. */
  function Refused(ws: seq<Work>, err: Error): seq<Settled> {
    if ws == [] then []
    else (if ws[0].SendWork? then [Settled(ws[0].req, Some(err), 0)] else []) + Refused(ws[1..], err)
  }

  ghost predicate HasConnect(ws: seq<Work>) {
    exists i | 0 <= i < |ws| :: ws[i].ConnectWork?
  }

  lemma HasConnectHead(ws: seq<Work>)
    requires ws != []
    ensures HasConnect(ws) == (ws[0].ConnectWork? || HasConnect(ws[1..]))
  {
  }

  /** A closure called with an error: a send is settled, a connect is abandoned, a resume is dropped. */
  lemma RefuseWork(s: State, w: Work, err: Error, o: Oracle)
    ensures RunWork(s, w, Some(err), o) ==
            s.(settled := s.settled + Refused([w], err),
               flags := s.flags.(connecting := s.flags.connecting && !w.ConnectWork?))
  {
    assert Refused([w], err) == if w.SendWork? then [Settled(w.req, Some(err), 0)] else [] by {
      assert [w][1..] == [];
    }
    hide ResolveHost, HandOff, StartReading, Refused;
    assert s.settled + [] == s.settled;
  }

  lemma RefuseOne(s: State, o: Oracle)
    requires s.frames != [] && s.frames[0].rest != [] && s.frames[0].err.Some?
    ensures var f := s.frames[0];
            FlushNext(s, o) == s.(frames := [f.(rest := f.rest[1..])] + s.frames[1..],
                                  settled := s.settled + Refused(f.rest[..1], f.err.value),
                                  flags := s.flags.(connecting := s.flags.connecting && !f.rest[0].ConnectWork?))
  {
    hide RunWork, Refused;
    var f := s.frames[0];
    var s1 := s.(frames := [f.(rest := f.rest[1..])] + s.frames[1..]);
    assert f.rest[..1] == [f.rest[0]];
    RefuseWork(s1, f.rest[0], f.err.value, o);
  }

  /** The state once a refusing flush has called everything it had left. */
  ghost function Drained(s: State, err: Error): State
    requires s.frames != []
  {
    var f := s.frames[0];
    s.(settled := s.settled + Refused(f.rest, err), frames := [f.(rest := [])] + s.frames[1..],
       flags := s.flags.(connecting := s.flags.connecting && !HasConnect(f.rest)))
  }

  lemma DrainedStep(s: State, s1: State, err: Error)
    requires s.frames != [] && s.frames[0].rest != []
    requires var f := s.frames[0];
             s1 == s.(frames := [f.(rest := f.rest[1..])] + s.frames[1..],
                      settled := s.settled + Refused(f.rest[..1], err),
                      flags := s.flags.(connecting := s.flags.connecting && !f.rest[0].ConnectWork?))
    ensures Drained(s1, err) == Drained(s, err)
  {
    var rest := s.frames[0].rest;
    HasConnectHead(rest);
    RefusedHead(rest, err);
    hide HasConnect, Refused;
    assert s1.frames[1..] == s.frames[1..];
    Bracket(s.settled, Refused(rest[..1], err), Refused(rest[1..], err));
  }

  lemma RefusedHead(ws: seq<Work>, err: Error)
    requires ws != []
    ensures Refused(ws, err) == Refused(ws[..1], err) + Refused(ws[1..], err)
  {
    assert ws[..1][1..] == [];
  }

  lemma DrainedNone(s: State, err: Error)
    requires s.frames != [] && s.frames[0].rest == []
    ensures Drained(s, err) == s
  {
  }

  /** A flush with an error, with callbacks that do not call back: every queued send is settled, in order. */
  lemma {:induction false} FlushRefuses(s: State, oracles: nat -> Oracle, k: nat, err: Error)
    requires s.frames != [] && s.frames[0].err == Some(err)
    ensures FlushRest(s, oracles, k) == FlushEnd(Drained(s, err))
    decreases |s.frames[0].rest|
  {
    hide FlushNext, FlushEnd, Refused, HasConnect, Drained;
    DrainedRest(s, err);
    if s.frames[0].rest == [] {
      DrainedNone(s, err);
    } else {
      RefuseOne(s, oracles(k));
      var s1 := FlushNext(s, oracles(k));
      FlushRefuses(s1, oracles, k + 1, err);
      DrainedStep(s, s1, err);
    }
  }

  lemma DrainedRest(s: State, err: Error)
    requires s.frames != []
    ensures var t := Drained(s, err); t.frames != [] && t.frames[0].rest == []
  {
    hide Refused, HasConnect;
  }

  /** A bind that the native layer accepts binds a live socket that is neither bound nor binding. */
  lemma BindSucceeds(s: State, port: int, address: string, o: Oracle)
    requires Live(s) && !s.flags.binding && !s.flags.bound
    requires 0 <= port <= 0xffff && (address == "" || (Family(address) != 0 && HostOk(address))) && o.native.Queued?
    ensures var api := Bind(s, port, address, o); api.Done? && api.state.flags.bound && !api.state.flags.binding
  {
    hide Family, HostOk, Wildcard;
    DefaultsAreLiterals(s);
  }

  /**
   The report of a failed bind, with callbacks that do not call back: every queued send is settled with the error
   of that bind, in the order of the calls; a queued connect is abandoned; nothing is left queued or in progress;
   and a later bind to a literal that the native layer accepts binds the socket.
   */
  lemma ReportSettles(s: State, err: Error, oracles: nat -> Oracle, port: int, address: string, o: Oracle)
    requires Inv(s) && Live(s) && Enabled(s, DoTask) && s.tasks[0] == BindFailed(err)
    ensures var t := FlushRest(RunTask(s), oracles, 0);
            && t.settled == s.settled + Refused(s.pending, err)
            && t.pending == [] && t.frames == []
            && !t.flags.binding && !t.flags.bound && !t.flags.connecting && Live(t)
            && t.log == s.log + [EmitError(err)] && t.native == s.native
    ensures var t := FlushRest(RunTask(s), oracles, 0);
            0 <= port <= 0xffff && (address == "" || (Family(address) != 0 && HostOk(address))) && o.native.Queued? ==>
            Bind(t, port, address, o).Done? && Bind(t, port, address, o).state.flags.bound
  {
    hide Inv, FlushRest, Bind, Family, HostOk, Refused, HasConnect;
    UnreportedMeans(s, err);
    NoConnectElsewhere(s);
    FlushRefuses(RunTask(s), oracles, 0, err);
    DrainedRest(RunTask(s), err);
    var t := FlushRest(RunTask(s), oracles, 0);
    if 0 <= port <= 0xffff && (address == "" || (Family(address) != 0 && HostOk(address))) && o.native.Queued? {
      BindSucceeds(t, port, address, o);
    }
  }

  lemma {:induction false} SumConnect(ws: seq<Work>)
    ensures Sum(ws, WorkOb, ConnectOb) > 0 ==> HasConnect(ws)
  {
    if Sum(ws, WorkOb, ConnectOb) > 0 && ws != [] {
      var n := |ws| - 1;
      if !ws[n].ConnectWork? {
        SumConnect(ws[..n]);
        var i :| 0 <= i < n && ws[..n][i].ConnectWork?;
        assert ws[i].ConnectWork?;
      }
    }
  }

  /** While unbound, a connect in progress is a queued one. */
  lemma NoConnectElsewhere(s: State)
    requires Inv(s) && Live(s) && !s.flags.bound && s.frames == []
    ensures s.flags.connecting ==> HasConnect(s.pending)
  {
    assert Tracked(s, ConnectOb);
    SumZero(s.lookups, LookupOb, ConnectOb);
    SumZero(s.tasks, TaskOb, ConnectOb);
    SumZero(s.native.queue, BlockOb, ConnectOb);
    SumZero(s.settled, SettledOb, ConnectOb);
    SumZero(s.listeners, ListenerOb, ConnectOb);
    SumZero(s.log, EventOb, ConnectOb);
    SumConnect(s.pending);
  }

  /**
   The end of a close, with callbacks that do not call back: what was still queued is settled with SOCKET_IS_CLOSED,
   in the order of the calls, and only then is `close` emitted and every callback given to close() run, in order.
   */
  lemma CloseSettles(s: State, oracles: nat -> Oracle)
    requires Inv(s) && Enabled(s, DoCloseDone) && !s.native.exiting
    ensures var t := FlushRest(CloseDone(s), oracles, 0);
            && t.settled == s.settled + Refused(s.pending, SocketClosed)
            && t.log == s.log + [EmitClose] + Ran(s.listeners)
            && t.pending == [] && t.frames == [] && t.listeners == [] && t.sends == map[]
            && t.flags.closed && !t.flags.closing && t.lookups == s.lookups
  {
    hide Inv, FlushRest, Refused, HasConnect;
    FlushRefuses(CloseDone(s), oracles, 0, SocketClosed);
    DrainedRest(CloseDone(s), SocketClosed);
  }
}
