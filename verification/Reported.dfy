/**
 The accounts over whole runs: every error is emitted as often as it was brought about with nobody else to tell, a
 socket is connected exactly while its last native connect has not been undone, `connect` is emitted once for each that
 succeeded, and a send is reported as sent only when the native layer has completed it.
 */
module Reported {
  import N = Native
  import opened Ip
  import opened IpForm
  import opened Protocol
  import opened Obligations
  import opened Ledger
  import opened Invariant
  import opened Drain
  import R = Runs
  import opened Closing
  import opened Effects
  import opened Accounts

  // One step

  /** A native connect was made and succeeded. */
  predicate Succeeds(s: State, m: Move, t: State) { m.oracle.native.Queued? && ConnectCalls(t) > ConnectCalls(s) }

  /** A `disconnect()` did not throw. */
  predicate Undone(s: State, m: Move) { m.step.ApiDisconnect? && s.flags.connected && m.oracle.native.Queued? }

  /** What a step does to the accounts. */
  ghost predicate InBooks(s: State, m: Move, t: State, e: Error) {
    && Balanced(s, m.step, m.oracle, e, t)
    && (!m.step.DoSendDone? ==> OnlyFailures(s, t))
    && t.flags.unrefed == (if m.step.ApiRef? then false else if m.step.ApiUnref? then true else s.flags.unrefed)
    && (s.family != 0 ==> t.family == s.family)
    && (!Over(s) && !Over(t) ==>
          && t.flags.connected == (if Undone(s, m) then false else s.flags.connected || Succeeds(s, m, t))
          && ConnectEvents(t) == ConnectEvents(s) + Once(Succeeds(s, m, t)))
  }

  lemma Mirrored(s: State, k: nat)
    requires Inv(s) && k < |s.native.queue| && !s.native.exiting
    ensures s.native.queue[k].id in s.sends
  {
    R.MirrorOfInv(s);
    CompletionFindsItsSend(s, k);
  }

  lemma KeptInBooks(s: State, m: Move, t: State, e: Error)
    requires Kept(s, t, m.oracle) && Fresh(s, m.step, m.oracle, e) == 0 && Dropped(s, m.step, e) == 0
    requires !m.step.ApiDisconnect? && !m.step.ApiRef? && !m.step.ApiUnref?
    ensures InBooks(s, m, t, e)
  {
    hide ErrorBalance, Fresh, Dropped, ConnectCalls, ConnectEvents, OnlyFailures;
  }

  lemma LinkedInBooks(s: State, m: Move, t: State, e: Error)
    requires Balanced(s, m.step, m.oracle, e, t) && Linked(s, t, m.oracle) && SameKind(s, t)
    requires !m.step.DoSendDone? ==> OnlyFailures(s, t)
    requires !m.step.ApiDisconnect? && !m.step.ApiRef? && !m.step.ApiUnref?
    ensures InBooks(s, m, t, e)
  {
    hide ErrorBalance, Fresh, Dropped, ConnectCalls, ConnectEvents, OnlyFailures;
  }

  lemma TeardownKept(s: State, o: Oracle)
    requires Enabled(s, DoTeardown)
    ensures Kept(s, Step(s, DoTeardown, o), o)
  {
    hide Kept;
    SameKept(s, Step(s, DoTeardown, o), o);
  }

  lemma PlainConnected(s: State, l: Label, o: Oracle)
    requires Enabled(s, l) && (l.ApiDisconnect? || l.ApiClose? || l.ApiRef? || l.ApiUnref?)
    requires !Over(Step(s, l, o))
    ensures Step(s, l, o).flags.connected ==
            (s.flags.connected && !(l.ApiDisconnect? && o.native.Queued?))
  {
    hide Bind, Open, Connect, Send, Resume, FlushNext, FlushEnd, AnswerLookup, RunTask, SendDone, CloseDone, Disconnect;
    DisconnectMeans(s, o);
  }

  lemma PlainUnrefed(s: State, l: Label, o: Oracle)
    requires Enabled(s, l) && (l.ApiDisconnect? || l.ApiClose? || l.ApiRef? || l.ApiUnref?)
    ensures Step(s, l, o).flags.unrefed == if l.ApiRef? then false else if l.ApiUnref? then true else s.flags.unrefed
  {
    hide Bind, Open, Connect, Send, Resume, FlushNext, FlushEnd, AnswerLookup, RunTask, SendDone, CloseDone;
  }

  lemma PlainInBooks(s: State, m: Move, e: Error)
    requires Enabled(s, m.step)
    requires m.step.ApiDisconnect? || m.step.ApiClose? || m.step.ApiRef? || m.step.ApiUnref?
    ensures InBooks(s, m, Step(s, m.step, m.oracle), e)
  {
    hide Step, ErrorBalance, Fresh, Dropped, ConnectCalls, ConnectEvents, OnlyFailures;
    PlainBooks(s, m.step, m.oracle, e);
    PlainUnrefed(s, m.step, m.oracle);
    if !Over(Step(s, m.step, m.oracle)) { PlainConnected(s, m.step, m.oracle); }
  }

  lemma TaskInBooks(s: State, m: Move, e: Error)
    requires Enabled(s, m.step) && m.step.DoTask?
    ensures InBooks(s, m, Step(s, m.step, m.oracle), e)
  {
    hide Step, ErrorBalance, Fresh, Dropped, ConnectCalls, ConnectEvents, OnlyFailures;
    TaskBooks(s, m.oracle, e);
  }

  /** Every step keeps the accounts, whatever happens. */
  lemma StepBooks(s: State, m: Move, e: Error)
    requires Inv(s) && Enabled(s, m.step)
    ensures InBooks(s, m, Step(s, m.step, m.oracle), e)
  {
    hide Inv, Step, Balanced, Kept, Linked, OnlyFailures, SameKind, InBooks;
    var l, o := m.step, m.oracle;
    var t := Step(s, l, o);
    if l.ApiOpen? {
      OpenBooks(s, l.fd, o, e);
      LinkedInBooks(s, m, t, e);
    } else if l.ApiDisconnect? || l.ApiClose? || l.ApiRef? || l.ApiUnref? {
      PlainInBooks(s, m, e);
    } else if IsApi(l) {
      ApiBooks(s, l, o);
      KeptInBooks(s, m, t, e);
    } else if l.DoFlushNext? {
      FlushNextBooks(s, o);
      KeptInBooks(s, m, t, e);
    } else if l.DoFlushEnd? {
      FlushEndBooks(s, o, e);
      LinkedInBooks(s, m, t, e);
    } else if l.DoAnswer? {
      AnswerBooks(s, l.k, l.answer, o, e);
      LinkedInBooks(s, m, t, e);
    } else if l.DoTask? {
      TaskInBooks(s, m, e);
    } else if l.DoSendDone? {
      if !s.native.exiting { Mirrored(s, l.k); }
      CompletionBooks(s, l.k, l.err, o, e);
      LinkedInBooks(s, m, t, e);
    } else if l.DoCloseDone? {
      CloseDoneBooks(s, o, e);
      LinkedInBooks(s, m, t, e);
    } else if l.DoMessage? {
      MessageBooks(s, l.read, o, e);
      LinkedInBooks(s, m, t, e);
    } else {
      TeardownKept(s, o);
      KeptInBooks(s, m, t, e);
    }
  }

  // Errors

  /** How often a step brings `e` about with no callback to tell: through a native call, or otherwise. */
  ghost function Cause(s: State, m: Move, t: State, e: Error): int {
    Fresh(s, m.step, m.oracle, e) +
    if FailsWith(m.oracle, e) then Sum(t.log, Unheard, ()) - Sum(s.log, Unheard, ()) else 0
  }

  ghost function Caused(ss: seq<State>, moves: seq<Move>, i: nat, e: Error): int
    requires i <= |moves| < |ss|
  {
    if i == 0 then 0 else Caused(ss, moves, i - 1, e) + Cause(ss[i - 1], moves[i - 1], ss[i], e)
  }

  ghost function DroppedSoFar(ss: seq<State>, moves: seq<Move>, i: nat, e: Error): nat
    requires i <= |moves| < |ss|
  {
    if i == 0 then 0 else DroppedSoFar(ss, moves, i - 1, e) + Dropped(ss[i - 1], moves[i - 1].step, e)
  }

  /** In every run, an error has been emitted, is on its way or was dropped as often as it was brought about. */
  lemma {:induction false} RunErrors(family: nat, ss: seq<State>, moves: seq<Move>, i: nat, e: Error)
    requires Run(family, ss, moves) && i < |ss|
    ensures Errors(ss[i], e) + DroppedSoFar(ss, moves, i, e) == Caused(ss, moves, i, e)
  {
    hide Step, Inv, Enabled, WindowOk, Fresh, Dropped, Errors, Sum;
    if i == 0 {
      NothingYet(family, e);
    } else {
      RunErrors(family, ss, moves, i - 1, e);
      RunInv(family, ss, moves, i - 1);
      RunStep(family, ss, moves, i - 1);
      StepBooks(ss[i - 1], moves[i - 1], e);
    }
  }

  lemma NothingYet(family: nat, e: Error)
    ensures Errors(Init(family), e) == 0
  {
  }

  lemma {:induction false} NothingDropped(family: nat, ss: seq<State>, moves: seq<Move>, i: nat, e: Error)
    requires Run(family, ss, moves) && i < |ss| && !ss[i].flags.closed
    ensures DroppedSoFar(ss, moves, i, e) == 0
  {
    hide Step, Enabled, WindowOk;
    if i > 0 {
      RunEnds(family, ss, moves, i - 1, i);
      NothingDropped(family, ss, moves, i - 1, e);
    }
  }

  /** At rest before the close, every error was emitted exactly as often as it was brought about. */
  lemma ErrorsReported(family: nat, ss: seq<State>, moves: seq<Move>, i: nat, e: Error)
    requires Run(family, ss, moves) && i < |ss| && !ss[i].flags.closed
    requires ss[i].frames == [] && ss[i].tasks == []
    ensures Sum(ss[i].log, EmittedError, e) == Caused(ss, moves, i, e)
  {
    RunErrors(family, ss, moves, i, e);
    NothingDropped(family, ss, moves, i, e);
  }

  // Connects

  /** Whether the last successful native connect has not been followed by a successful `disconnect()`. */
  function ConnectedBy(ss: seq<State>, moves: seq<Move>, i: nat): bool
    requires i <= |moves| < |ss|
  {
    if i == 0 then false
    else if Undone(ss[i - 1], moves[i - 1]) then false
    else if Succeeds(ss[i - 1], moves[i - 1], ss[i]) then true
    else ConnectedBy(ss, moves, i - 1)
  }

  function Successes(ss: seq<State>, moves: seq<Move>, i: nat): nat
    requires i <= |moves| < |ss|
  {
    if i == 0 then 0 else Successes(ss, moves, i - 1) + Once(Succeeds(ss[i - 1], moves[i - 1], ss[i]))
  }

  /** In every run, a live socket is connected exactly while its last native connect stands, and owes its events. */
  lemma {:induction false} RunConnected(family: nat, ss: seq<State>, moves: seq<Move>, i: nat)
    requires Run(family, ss, moves) && i < |ss| && !Over(ss[i])
    ensures ss[i].flags.connected == ConnectedBy(ss, moves, i)
    ensures ConnectEvents(ss[i]) == Successes(ss, moves, i)
  {
    hide Step, Inv, Enabled, WindowOk, Succeeds, Undone, Sum;
    if i > 0 {
      RunEnds(family, ss, moves, i - 1, i);
      RunConnected(family, ss, moves, i - 1);
      RunInv(family, ss, moves, i - 1);
      RunStep(family, ss, moves, i - 1);
      StepBooks(ss[i - 1], moves[i - 1], InvalidHost);
    } else {
      NotConnectedYet(family);
    }
  }

  lemma NotConnectedYet(family: nat)
    ensures ConnectEvents(Init(family)) == 0 && !Init(family).flags.connected
  {
  }

  /** At rest, `connect` was emitted once for each native connect that succeeded. */
  lemma ConnectReported(family: nat, ss: seq<State>, moves: seq<Move>, i: nat)
    requires Run(family, ss, moves) && i < |ss| && !Over(ss[i]) && ss[i].tasks == []
    ensures Sum(ss[i].log, ConnectEmitted, ()) == Successes(ss, moves, i)
  {
    RunConnected(family, ss, moves, i);
  }

  // Sends

  /** A send settled with success was completed by this very step, and successfully. */
  lemma StepSucceeds(s: State, l: Label, o: Oracle, i: nat)
    requires Inv(s) && Enabled(s, l)
    requires var t := Step(s, l, o); |s.settled| <= i < |t.settled| && t.settled[i].err.None?
    ensures l.DoSendDone? && l.err.None? && s.native.queue[l.k].tok == Step(s, l, o).settled[i].req.tok
  {
    hide Step, Balanced, Kept, ConnectCalls, ConnectEvents, Linked, SameKind;
    if l.DoSendDone? {
      NoneSettledByTeardown(s, l, o);
      R.CompletionSettles(s, l.k, l.err);
      CompletionMeans(s, l.k, l.err, o);
    } else {
      StepBooks(s, Move(l, o), InvalidHost);
    }
  }

  lemma NoneSettledByTeardown(s: State, l: Label, o: Oracle)
    requires Enabled(s, l) && l.DoSendDone? && |Step(s, l, o).settled| > |s.settled|
    ensures !s.native.exiting
  {
  }

  /** In every run, a send reported as sent was completed by the native layer without an error. */
  lemma {:induction false} SuccessIsCompletion(family: nat, ss: seq<State>, moves: seq<Move>, i: nat, k: nat)
    returns (j: nat)
    requires Run(family, ss, moves) && i < |ss| && k < |ss[i].settled| && ss[i].settled[k].err.None?
    ensures j < i && moves[j].step.DoSendDone? && moves[j].step.err.None?
    ensures moves[j].step.k < |ss[j].native.queue|
    ensures ss[j].native.queue[moves[j].step.k].tok == ss[i].settled[k].req.tok
  {
    hide Step, Inv, WindowOk;
    assert ss[0].settled == [];
    RunInv(family, ss, moves, i - 1);
    RunStep(family, ss, moves, i - 1);
    if k < |ss[i - 1].settled| {
      SettledStays(ss[i - 1], moves[i - 1].step, moves[i - 1].oracle);
      j := SuccessIsCompletion(family, ss, moves, i - 1, k);
    } else {
      StepSucceeds(ss[i - 1], moves[i - 1].step, moves[i - 1].oracle, k);
      j := i - 1;
    }
  }

  lemma SettledStays(s: State, l: Label, o: Oracle)
    requires Inv(s) && Enabled(s, l)
    ensures s.settled <= Step(s, l, o).settled
  {
    hide Step, Inv;
    if l.DoSendDone? {
      if s.native.exiting {
        SettledInTeardown(s, l, o);
      } else {
        Mirrored(s, l.k);
        CompletionMeans(s, l.k, l.err, o);
      }
    } else {
      StepBooks(s, Move(l, o), InvalidHost);
    }
  }

  lemma SettledInTeardown(s: State, l: Label, o: Oracle)
    requires Enabled(s, l) && l.DoSendDone? && s.native.exiting
    ensures Step(s, l, o).settled == s.settled
  {
  }

  // Sends that fail

  /** A send that fails by a native call: settled with its error, which is emitted exactly if it has no callback. */
  ghost predicate FailsNatively(s: State, t: State, o: Oracle, req: Req, id: nat, dest: Option<Dest>) {
    && !o.native.Queued?
    && t.settled == s.settled + [Settled(req, Some(NativeError(o.native.code)), 0)]
    && t.log == s.log + [SendCall(req, id, dest)] + Report(req, NativeError(o.native.code))
  }

  /** A send found on a socket that has been closed meanwhile: its callback is told, and nothing is emitted. */
  ghost predicate FailsClosed(s: State, t: State, req: Req) {
    t.settled == s.settled + [Settled(req, Some(SocketClosed), 0)] && t.log == s.log
  }

  ghost predicate FailsOpenly(s: State, t: State, o: Oracle) {
    || t.settled == s.settled
    || (exists req :: FailsClosed(s, t, req))
    || (exists req, id, dest :: FailsNatively(s, t, o, req, id, dest))
  }

  lemma GoesOpenly(s: State, cont: Cont, text: string, o: Oracle, t: State)
    requires Goes(s, cont, Found(text), o, t)
    ensures FailsOpenly(s, t, o)
  {
    hide IsIP;
    if cont.ForSend? {
      if Over(s) {
        assert FailsClosed(s, t, cont.req);
      } else {
        OutOpenly(s, cont.req, Some(Dest(cont.req.port, text, IsIP(text))), o, t);
      }
    }
  }

  lemma OutOpenly(s: State, req: Req, dest: Option<Dest>, o: Oracle, t: State)
    requires GoesOut(s, req, dest, o, t)
    ensures FailsOpenly(s, t, o)
  {
    if !o.native.Queued? { assert FailsNatively(s, t, o, req, s.sendId, dest); }
  }

  lemma ReachesOpenly(s: State, host: string, cont: Cont, o: Oracle, t: State)
    requires Reaches(s, host, cont, o, t)
    ensures FailsOpenly(s, t, o)
  {
    hide Goes, IsIP;
    if IsIP(host) != 0 { GoesOpenly(s, cont, host, o, t); }
  }

  lemma PerformsOpenly(s: State, w: Work, o: Oracle, t: State)
    requires Performs(s, w, o, t)
    ensures FailsOpenly(s, t, o)
  {
    hide Reaches, GoesOut;
    if w.SendWork? {
      if w.req.connected {
        OutOpenly(s, w.req, None, o, t);
      } else {
        ReachesOpenly(s, if w.req.address == "" then OwnAddress(s.family) else w.req.address, ForSend(w.req), o, t);
      }
    } else if w.ConnectWork? {
      ReachesOpenly(s, w.host, ForConnect(w.port), o, t);
    }
  }

  lemma SameOpenly(s: State, s1: State, t: State, o: Oracle)
    requires FailsOpenly(s1, t, o) && s1.settled == s.settled && s1.log == s.log
    ensures FailsOpenly(s, t, o)
  {
    if req :| FailsClosed(s1, t, req) { assert FailsClosed(s, t, req); }
    if req, id, dest :| FailsNatively(s1, t, o, req, id, dest) { assert FailsNatively(s, t, o, req, id, dest); }
  }

  /** Calling send() directly, and a turn of a flush without an error, fail openly or not at all. */
  lemma SendFailsOpenly(s: State, l: Label, o: Oracle)
    requires Enabled(s, l) && (l.ApiSend? || (l.DoFlushNext? && s.frames[0].err.None?))
    ensures FailsOpenly(s, Step(s, l, o), o)
  {
    hide Step, Performs, Reaches, Flat, FailsOpenly;
    var t := Step(s, l, o);
    if l.DoFlushNext? {
      var f := s.frames[0];
      var s1 := s.(frames := [f.(rest := f.rest[1..])] + s.frames[1..]);
      FlushMeans(s, o);
      PerformsOpenly(s1, f.rest[0], o, t);
      SameOpenly(s, s1, t, o);
    } else {
      SentOpenly(s, l, o);
    }
  }

  lemma SentOpenly(s: State, l: Label, o: Oracle)
    requires Enabled(s, l) && l.ApiSend?
    ensures FailsOpenly(s, Step(s, l, o), o)
  {
    hide Performs, Reaches, Flat, Send, SendRefusal;
    SendMeans(s, l.list, l.port, l.address, l.cb, o);
    var s1 := s.(accepted := s.accepted + 1);
    if Send(s, l.list, l.port, l.address, l.cb, o).Done? {
      var req := Req(s.accepted, l.list, |Flat(l.list)|, l.port, l.address, s.flags.connected, l.cb);
      if s.flags.bound {
        PerformsOpenly(s1, SendWork(req), o, Step(s, l, o));
        SameOpenly(s, s1, Step(s, l, o), o);
      } else if !s.flags.binding {
        var s2 := s1.(pending := s1.pending + [SendWork(req)], flags := s1.flags.(binding := true));
        ReachesOpenly(s2, AnyAddress(s.family), ForBind(0), o, Step(s, l, o));
        SameOpenly(s, s2, Step(s, l, o), o);
      }
    }
  }

  /** The answer to a send's lookup: a failure is told to the callback, or emitted if there is none, and not both. */
  lemma SendAnswered(s: State, k: nat, answer: Answer, o: Oracle)
    requires Enabled(s, DoAnswer(k, answer)) && s.lookups[k].cont.ForSend?
    ensures var t, req := Step(s, DoAnswer(k, answer), o), s.lookups[k].cont.req;
            match TargetOf(answer)
            case Lost(err) =>
              t.settled == s.settled + [Settled(req, Some(err), 0)] && t.log == s.log + Report(req, err)
            case Found(text) =>
              var dest := Some(Dest(req.port, text, IsIP(text)));
              if Over(s) then FailsClosed(s, t, req)
              else if o.native.Queued? then
                t.settled == s.settled && t.log == s.log + [SendCall(req, s.sendId, dest)]
              else FailsNatively(s, t, o, req, s.sendId, dest)
  {
    hide Step, TargetOf, IsIP;
    AnswerMeans(s, k, answer, o);
  }

  // UNREFED and the family

  /** Whether the last of `ref()` and `unref()` in a history was `unref()`. */
  function UnrefedBy(history: seq<Move>): bool {
    if history == [] then false
    else
      var last := history[|history| - 1].step;
      if last.ApiUnref? then true else if last.ApiRef? then false else UnrefedBy(history[..|history| - 1])
  }

  /** In every run, UNREFED follows the calls, and the family given at creation stays. */
  lemma {:induction false} RunKind(family: nat, ss: seq<State>, moves: seq<Move>, i: nat)
    requires Run(family, ss, moves) && i < |ss|
    ensures ss[i].flags.unrefed == UnrefedBy(moves[..i])
    ensures family != 0 ==> ss[i].family == family
  {
    hide Step, Inv, Enabled, WindowOk;
    if i > 0 {
      RunKind(family, ss, moves, i - 1);
      RunInv(family, ss, moves, i - 1);
      RunStep(family, ss, moves, i - 1);
      StepBooks(ss[i - 1], moves[i - 1], InvalidHost);
      assert moves[..i][..i - 1] == moves[..i - 1];
    }
  }
}
