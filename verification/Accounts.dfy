/**
 Three accounts that every step keeps, whatever it does: errors that have nobody else to tell are reported once each,
 CONNECTED and `connect` follow the native connects that succeed, and only a native completion settles a send with
 success. The accounts are kept from the effects of a step alone.
 */
module Accounts {
  import N = Native
  import opened Ip
  import opened IpForm
  import opened Protocol
  import opened Obligations
  import opened Ledger
  import opened Invariant
  import opened Containment
  import opened Effects
  import A = SendArgs

  // Errors

  function EmittedError(ev: Event, e: Error): nat { if ev == EmitError(e) then 1 else 0 }

  function QueuedError(t: Task, e: Error): nat { if t == Failure(e) || t == BindFailed(e) then 1 else 0 }

  function FlushedError(f: Frame, e: Error): nat { if f.tail == ThenReport(e) then 1 else 0 }

  /** How often `e` has been emitted or is on its way to be. */
  function Errors(s: State, e: Error): nat {
    Sum(s.log, EmittedError, e) + Sum(s.tasks, QueuedError, e) + Sum(s.frames, FlushedError, e)
  }

  /** The native calls whose failure no callback is told: all but those of sends that have one. */
  function Unheard(ev: Event, u: ()): nat {
    if ev.BindCall? || ev.ConnectCall? || (ev.SendCall? && !ev.req.cb) then 1 else 0
  }

  predicate FailsWith(o: Oracle, e: Error) { !o.native.Queued? && e == NativeError(o.native.code) }

  /** The errors less those that the native calls of this step have to answer for. */
  function ErrorBalance(s: State, o: Oracle, e: Error): int {
    Errors(s, e) - if FailsWith(o, e) then Sum(s.log, Unheard, ()) else 0
  }

  // Connects

  function ConnectMade(ev: Event, u: ()): nat { if ev.ConnectCall? then 1 else 0 }

  function ConnectEmitted(ev: Event, u: ()): nat { if ev.EmitConnect? then 1 else 0 }

  function ConnectQueued(t: Task, u: ()): nat { if t.Connected? then 1 else 0 }

  function ConnectCalls(s: State): nat { Sum(s.log, ConnectMade, ()) }

  /** How often `connect` has been emitted or is queued. */
  function ConnectEvents(s: State): nat { Sum(s.log, ConnectEmitted, ()) + Sum(s.tasks, ConnectQueued, ()) }

  /** At most one native connect, and CONNECTED and one `connect` exactly if it succeeds. */
  ghost predicate Linked(s: State, t: State, o: Oracle) {
    var made := ConnectCalls(t) - ConnectCalls(s);
    && 0 <= made <= 1
    && ConnectEvents(t) == ConnectEvents(s) + (if o.native.Queued? then made else 0)
    && t.flags.connected == (s.flags.connected || (o.native.Queued? && made == 1))
  }

  predicate NoConnect(s: State, t: State) {
    ConnectCalls(t) == ConnectCalls(s) && ConnectEvents(t) == ConnectEvents(s) && t.flags.connected == s.flags.connected
  }

  // Sends

  ghost predicate OnlyFailures(s: State, t: State) {
    s.settled <= t.settled && forall i | |s.settled| <= i < |t.settled| :: t.settled[i].err.Some?
  }

  /** UNREFED is nobody else's business, and the family is adopted once. */
  predicate SameKind(s: State, t: State) {
    t.flags.unrefed == s.flags.unrefed && (s.family != 0 ==> t.family == s.family)
  }

  ghost predicate Kept(s: State, t: State, o: Oracle) {
    && Linked(s, t, o) && OnlyFailures(s, t) && SameKind(s, t)
    && forall e :: ErrorBalance(t, o, e) == ErrorBalance(s, o, e)
  }

  /** The parts that the accounts look at. */
  predicate SameBooks(s: State, t: State) {
    && t.log == s.log && t.tasks == s.tasks && t.frames == s.frames && t.settled == s.settled
    && t.flags.connected == s.flags.connected && t.flags.unrefed == s.flags.unrefed && t.family == s.family
  }

  lemma SameKept(s: State, t: State, o: Oracle)
    requires SameBooks(s, t)
    ensures Kept(s, t, o)
  {
  }

  lemma KeptFrom(s: State, s1: State, t: State, o: Oracle)
    requires SameBooks(s, s1) && Kept(s1, t, o)
    ensures Kept(s, t, o)
  {
  }

  // What one event, microtask or flush adds

  lemma LogAdds(log: seq<Event>, ev: Event, e: Error)
    ensures Sum(log + [ev], EmittedError, e) == Sum(log, EmittedError, e) + EmittedError(ev, e)
    ensures Sum(log + [ev], Unheard, ()) == Sum(log, Unheard, ()) + Unheard(ev, ())
    ensures Sum(log + [ev], ConnectMade, ()) == Sum(log, ConnectMade, ()) + ConnectMade(ev, ())
    ensures Sum(log + [ev], ConnectEmitted, ()) == Sum(log, ConnectEmitted, ()) + ConnectEmitted(ev, ())
  {
    hide Sum;
    Snoc(log, ev, EmittedError, e);
    Snoc(log, ev, Unheard, ());
    Snoc(log, ev, ConnectMade, ());
    Snoc(log, ev, ConnectEmitted, ());
  }

  /** An event that is neither a native call nor a `connect`. */
  lemma EmitBooks(s: State, ev: Event, o: Oracle, e: Error)
    requires !ev.BindCall? && !ev.ConnectCall? && !ev.SendCall? && !ev.EmitConnect?
    ensures var t := s.(log := s.log + [ev]);
            && ErrorBalance(t, o, e) == ErrorBalance(s, o, e) + EmittedError(ev, e)
            && NoConnect(s, t) && OnlyFailures(s, t) && SameKind(s, t)
  {
    hide Sum;
    LogAdds(s.log, ev, e);
  }

  lemma TasksAdd(tasks: seq<Task>, task: Task, e: Error)
    ensures Sum(tasks + [task], QueuedError, e) == Sum(tasks, QueuedError, e) + QueuedError(task, e)
    ensures Sum(tasks + [task], ConnectQueued, ()) == Sum(tasks, ConnectQueued, ()) + ConnectQueued(task, ())
  {
    hide Sum;
    Snoc(tasks, task, QueuedError, e);
    Snoc(tasks, task, ConnectQueued, ());
  }

  lemma FrameAdds(f: Frame, frames: seq<Frame>, e: Error)
    ensures Sum([f] + frames, FlushedError, e) == FlushedError(f, e) + Sum(frames, FlushedError, e)
  {
    SumHead([f] + frames, FlushedError, e);
    assert ([f] + frames)[1..] == frames;
  }

  // Native calls

  lemma BindsKept(s: State, port: int, text: string, o: Oracle, t: State)
    requires Binds(s, port, Found(text), o, t)
    ensures Kept(s, t, o)
  {
    hide Sum, IsIP;
    var call := BindCall(port, text, IsIP(text));
    forall e ensures ErrorBalance(t, o, e) == ErrorBalance(s, o, e) {
      LogAdds(s.log, call, e);
      if !o.native.Queued? { TasksAdd(s.tasks, BindFailed(NativeError(o.native.code)), e); }
      FrameAdds(Frame(None, s.pending, ThenListening), s.frames, e);
    }
    LogAdds(s.log, call, InvalidHost);
    if !o.native.Queued? { TasksAdd(s.tasks, BindFailed(NativeError(o.native.code)), InvalidHost); }
  }

  lemma ConnectsKept(s: State, port: int, text: string, o: Oracle, t: State)
    requires Connects(s, port, Found(text), o, t)
    ensures Kept(s, t, o)
  {
    hide Sum, IsIP;
    var call := ConnectCall(port, text, IsIP(text));
    var task := if o.native.Queued? then Connected else Failure(NativeError(o.native.code));
    forall e ensures ErrorBalance(t, o, e) == ErrorBalance(s, o, e) {
      LogAdds(s.log, call, e);
      TasksAdd(s.tasks, task, e);
    }
    LogAdds(s.log, call, InvalidHost);
    TasksAdd(s.tasks, task, InvalidHost);
  }

  lemma GoesOutKept(s: State, req: Req, dest: Option<Dest>, o: Oracle, t: State)
    requires GoesOut(s, req, dest, o, t)
    ensures Kept(s, t, o)
  {
    hide Sum;
    var call := SendCall(req, s.sendId, dest);
    if o.native.Queued? || req.cb {
      assert t.log == s.log + [call];
      forall e ensures ErrorBalance(t, o, e) == ErrorBalance(s, o, e) { LogAdds(s.log, call, e); }
      LogAdds(s.log, call, InvalidHost);
    } else {
      var report := EmitError(NativeError(o.native.code));
      assert t.log == s.log + [call] + [report];
      forall e ensures ErrorBalance(t, o, e) == ErrorBalance(s, o, e) {
        LogAdds(s.log, call, e);
        LogAdds(s.log + [call], report, e);
      }
      LogAdds(s.log, call, InvalidHost);
      LogAdds(s.log + [call], report, InvalidHost);
    }
  }

  lemma GoesKept(s: State, cont: Cont, text: string, o: Oracle, t: State)
    requires Goes(s, cont, Found(text), o, t)
    ensures Kept(s, t, o)
  {
    hide Kept, Binds, Connects, GoesOut, IsIP;
    match cont {
      case ForBind(port) => BindsKept(s, port, text, o, t);
      case ForConnect(port) => ConnectsKept(s, port, text, o, t);
      case ForSend(req) =>
        if Over(s) {
          ClosedKept(s, req, o);
        } else {
          GoesOutKept(s, req, Some(Dest(req.port, text, IsIP(text))), o, t);
        }
    }
  }

  lemma ClosedKept(s: State, req: Req, o: Oracle)
    ensures Kept(s, s.(settled := s.settled + [Settled(req, Some(SocketClosed), 0)]), o)
  {
    hide Sum;
  }

  lemma ReachesKept(s: State, host: string, cont: Cont, o: Oracle, t: State)
    requires Reaches(s, host, cont, o, t)
    ensures Kept(s, t, o)
  {
    hide Kept, Goes, IsIP;
    if IsIP(host) != 0 { GoesKept(s, cont, host, o, t); } else { SameKept(s, t, o); }
  }

  lemma RunsKept(s: State, w: Work, o: Oracle, t: State)
    requires Performs(s, w, o, t)
    ensures Kept(s, t, o)
  {
    hide Kept, Reaches, GoesOut;
    match w {
      case SendWork(req) =>
        if req.connected {
          GoesOutKept(s, req, None, o, t);
        } else {
          ReachesKept(s, if req.address == "" then OwnAddress(s.family) else req.address, ForSend(req), o, t);
        }
      case ConnectWork(port, host) => ReachesKept(s, host, ForConnect(port), o, t);
      case ResumeWork => SameKept(s, t, o);
    }
  }

  lemma DefersKept(s: State, w: Work, o: Oracle, t: State)
    requires Defers(s, w, o, t)
    ensures Kept(s, t, o)
  {
    hide Kept, Performs, Reaches;
    var queued := s.(pending := s.pending + [w]);
    if s.flags.bound {
      RunsKept(s, w, o, t);
    } else if s.flags.binding {
      SameKept(s, t, o);
    } else {
      var s1 := queued.(flags := s.flags.(binding := true));
      ReachesKept(s1, AnyAddress(s.family), ForBind(0), o, t);
      KeptFrom(s, s1, t, o);
    }
  }

  // What a step brings about by itself

  function Once(b: bool): nat { if b then 1 else 0 }

  /** The errors of `e` that a step brings about other than through a native call that is logged. */
  ghost function Fresh(s: State, l: Label, o: Oracle, e: Error): nat {
    match l
    case ApiOpen(fd) =>
      Once(!s.flags.binding && !s.flags.bound && !Over(s) && 0 <= fd <= 0x7fff_ffff && FailsWith(o, e))
    case DoAnswer(k, answer) =>
      if k >= |s.lookups| then 0
      else
        var cont := s.lookups[k].cont;
        Once(TargetOf(answer) == Lost(e) && if cont.ForSend? then !cont.req.cb else !Over(s))
    case DoSendDone(k, err) =>
      if k >= |s.native.queue| || s.native.exiting || s.native.queue[k].id !in s.sends then 0
      else Once(err == Some(e) && !s.sends[s.native.queue[k].id].cb && !Over(s))
    case DoMessage(read) =>
      Once(!s.native.closing && !s.native.exiting &&
           ((read.Truncated? && e == NativeError(N.EMSGSIZE)) || (read.ReadError? && e == NativeError(read.code))))
    case _ => 0
  }

  /** The report of a failed bind is dropped only once the socket is closed. */
  function Dropped(s: State, l: Label, e: Error): nat {
    Once(l.DoFlushEnd? && s.frames != [] && s.frames[0].tail == ThenReport(e) && s.flags.closed)
  }

  ghost predicate Balanced(s: State, l: Label, o: Oracle, e: Error, t: State) {
    ErrorBalance(t, o, e) + Dropped(s, l, e) == ErrorBalance(s, o, e) + Fresh(s, l, o, e)
  }

  lemma LostSendBalance(s: State, req: Req, err: Error, o: Oracle, t: State, e: Error)
    requires Sends(s, req, Lost(err), o, t)
    ensures ErrorBalance(t, o, e) == ErrorBalance(s, o, e) + Once(err == e && !req.cb)
    ensures Linked(s, t, o) && OnlyFailures(s, t) && SameKind(s, t)
  {
    hide Sum;
    EmitBooks(s, EmitError(err), o, e);
    assert s.log + [] == s.log;
  }

  lemma LostBalance(s: State, cont: Cont, err: Error, o: Oracle, t: State, e: Error)
    requires Goes(s, cont, Lost(err), o, t)
    ensures ErrorBalance(t, o, e) ==
            ErrorBalance(s, o, e) + Once(err == e && if cont.ForSend? then !cont.req.cb else !Over(s))
    ensures Linked(s, t, o) && OnlyFailures(s, t) && SameKind(s, t)
  {
    hide Sum;
    match cont {
      case ForBind(port) => TasksAdd(s.tasks, BindFailed(err), e);
      case ForConnect(port) => TasksAdd(s.tasks, Failure(err), e);
      case ForSend(req) => LostSendBalance(s, req, err, o, t, e);
    }
  }

  /** What a step that is not an answer, a completion or a microtask does to everything but the errors. */
  ghost predicate Settles(s: State, l: Label, o: Oracle, t: State) {
    && OnlyFailures(s, t) && Linked(s, t, o) && SameKind(s, t)
  }

  lemma ApiBooks(s: State, l: Label, o: Oracle)
    requires IsApi(l) && Enabled(s, l) && !l.ApiOpen? && !l.ApiDisconnect? && !l.ApiClose? && !l.ApiRef? && !l.ApiUnref?
    ensures Kept(s, Step(s, l, o), o)
  {
    hide Kept, Reaches, Defers, Bind, Connect, Send, Resume, IsIP, A.Utf8, Flat, MayGive;
    var t := Step(s, l, o);
    SameKept(s, s, o);
    if l.ApiBind? {
      BindMeans(s, l.port, l.address, o);
      if Bind(s, l.port, l.address, o).Done? {
        var s1 := s.(flags := s.flags.(binding := true));
        ReachesKept(s1, if l.address == "" then AnyAddress(s.family) else l.address, ForBind(l.port), o, t);
        KeptFrom(s, s1, t, o);
      }
    } else if l.ApiConnect? {
      ConnectMeans(s, l.port, l.address, o);
      if Connect(s, l.port, l.address, o).Done? {
        var s1 := s.(flags := s.flags.(connecting := true));
        DefersKept(s1, ConnectWork(l.port, if l.address == "" then OwnAddress(s.family) else l.address), o, t);
        KeptFrom(s, s1, t, o);
      }
    } else if l.ApiSend? {
      SendMeans(s, l.list, l.port, l.address, l.cb, o);
      if Send(s, l.list, l.port, l.address, l.cb, o).Done? {
        var s1 := s.(accepted := s.accepted + 1);
        var req := Req(s.accepted, l.list, |Flat(l.list)|, l.port, l.address, s.flags.connected, l.cb);
        DefersKept(s1, SendWork(req), o, t);
        KeptFrom(s, s1, t, o);
      }
    } else if l.ApiResume? {
      ResumeMeans(s, o);
      var s1 := s.(paused := false);
      SameKept(s, s1, o);
      if !Over(s) {
        DefersKept(s1, ResumeWork, o, t);
        KeptFrom(s, s1, t, o);
      }
    } else {
      SameKept(s, t, o);
    }
  }

  lemma OpenBooks(s: State, fd: int, o: Oracle, e: Error)
    requires Enabled(s, ApiOpen(fd))
    ensures var t := Step(s, ApiOpen(fd), o);
            Balanced(s, ApiOpen(fd), o, e, t) && Linked(s, t, o) && OnlyFailures(s, t) && SameKind(s, t)
  {
    hide Sum, Open;
    OpenMeans(s, fd, o);
    FrameAdds(Frame(None, s.pending, ThenListening), s.frames, e);
    if !o.native.Queued? { TasksAdd(s.tasks, BindFailed(NativeError(o.native.code)), e); }
  }

  lemma PlainBooks(s: State, l: Label, o: Oracle, e: Error)
    requires Enabled(s, l) && (l.ApiDisconnect? || l.ApiClose? || l.ApiRef? || l.ApiUnref?)
    ensures var t := Step(s, l, o); Balanced(s, l, o, e, t) && OnlyFailures(s, t) && t.family == s.family
    ensures var t := Step(s, l, o); ConnectCalls(t) == ConnectCalls(s) && ConnectEvents(t) == ConnectEvents(s)
  {
    hide Sum, Bind, Open, Connect, Send, Resume, FlushNext, FlushEnd, AnswerLookup, RunTask, SendDone, CloseDone;
    if l.ApiClose? { TasksAdd(s.tasks, OnClose(s.closeCalls), e); }
  }

  lemma FlushNextBooks(s: State, o: Oracle)
    requires Enabled(s, DoFlushNext)
    ensures Kept(s, Step(s, DoFlushNext, o), o)
  {
    hide Kept, Performs, Sum, FlushNext;
    var f := s.frames[0];
    var s1 := s.(frames := [f.(rest := f.rest[1..])] + s.frames[1..]);
    var t := FlushNext(s, o);
    if f.err.None? {
      FlushMeans(s, o);
      RunsKept(s1, f.rest[0], o, t);
    } else {
      RefuseOne(s, o);
      RefusedKept(s1, f.rest[..1], f.err.value, o, t);
    }
    PoppedKept(s, s1, t, o);
  }

  lemma RefusedKept(s: State, ws: seq<Work>, err: Error, o: Oracle, t: State)
    requires t == s.(settled := s.settled + Refused(ws, err), flags := s.flags.(connecting := t.flags.connecting))
    ensures Kept(s, t, o)
  {
    hide Sum;
    AllFailures(ws, err);
  }

  lemma {:induction false} AllFailures(ws: seq<Work>, err: Error)
    ensures forall i | 0 <= i < |Refused(ws, err)| :: Refused(ws, err)[i].err.Some?
  {
    if ws != [] { AllFailures(ws[1..], err); }
  }

  /** Calling a closure takes it off its flush and leaves the flush's tail alone. */
  lemma PoppedKept(s: State, s1: State, t: State, o: Oracle)
    requires s.frames != [] && s.frames[0].rest != [] && Kept(s1, t, o)
    requires s1 == s.(frames := [s.frames[0].(rest := s.frames[0].rest[1..])] + s.frames[1..])
    ensures Kept(s, t, o)
  {
    hide Sum;
    forall e ensures ErrorBalance(s1, o, e) == ErrorBalance(s, o, e) {
      FrameAdds(s.frames[0], s.frames[1..], e);
      FrameAdds(s1.frames[0], s.frames[1..], e);
      assert s.frames == [s.frames[0]] + s.frames[1..];
    }
  }

  /** The end of a flush takes its report, if it has one, off the books. */
  lemma PoppedBooks(s: State, o: Oracle, e: Error)
    requires s.frames != []
    ensures var s1 := s.(frames := s.frames[1..]);
            && ErrorBalance(s1, o, e) + FlushedError(s.frames[0], e) == ErrorBalance(s, o, e)
            && NoConnect(s, s1) && OnlyFailures(s, s1) && SameKind(s, s1)
  {
    hide Sum;
    FrameAdds(s.frames[0], s.frames[1..], e);
    assert s.frames == [s.frames[0]] + s.frames[1..];
  }

  lemma CloseEmitted(s: State, o: Oracle, e: Error)
    ensures var t := s.(listeners := [], log := s.log + [EmitClose] + Ran(s.listeners));
            && ErrorBalance(t, o, e) == ErrorBalance(s, o, e)
            && NoConnect(s, t) && OnlyFailures(s, t) && SameKind(s, t)
  {
    hide Sum, Ran;
    LogAdds(s.log, EmitClose, e);
    RanAdds(s.log + [EmitClose], s.listeners, e);
  }

  lemma ListeningQueued(s: State, o: Oracle, e: Error)
    ensures var t := s.(tasks := s.tasks + [Listening]);
            && ErrorBalance(t, o, e) == ErrorBalance(s, o, e)
            && NoConnect(s, t) && OnlyFailures(s, t) && SameKind(s, t)
  {
    hide Sum;
    TasksAdd(s.tasks, Listening, e);
  }

  lemma FlushEndBooks(s: State, o: Oracle, e: Error)
    requires Enabled(s, DoFlushEnd)
    ensures var t := Step(s, DoFlushEnd, o);
            Balanced(s, DoFlushEnd, o, e, t) && Linked(s, t, o) && OnlyFailures(s, t) && SameKind(s, t)
  {
    hide Sum, Ran, Errors, ConnectCalls, ConnectEvents, Bind, Open, Connect, Send, Resume, Close, FlushNext,
         AnswerLookup, RunTask, SendDone, CloseDone;
    var s1 := s.(frames := s.frames[1..]);
    PoppedBooks(s, o, e);
    match s.frames[0].tail {
      case ThenListening => ListeningQueued(s1, o, e);
      case ThenReport(err) => EmitBooks(s1, EmitError(err), o, e);
      case ThenClose => CloseEmitted(s1, o, e);
    }
  }

  lemma {:induction false} RanAdds(log: seq<Event>, ids: seq<nat>, e: Error)
    ensures Sum(log + Ran(ids), EmittedError, e) == Sum(log, EmittedError, e)
    ensures Sum(log + Ran(ids), Unheard, ()) == Sum(log, Unheard, ())
    ensures Sum(log + Ran(ids), ConnectMade, ()) == Sum(log, ConnectMade, ())
    ensures Sum(log + Ran(ids), ConnectEmitted, ()) == Sum(log, ConnectEmitted, ())
  {
    hide Sum;
    if ids == [] {
      assert log + Ran(ids) == log;
    } else {
      var n := |ids| - 1;
      RanAdds(log, ids[..n], e);
      assert log + Ran(ids) == (log + Ran(ids[..n])) + [RanOnClose(ids[n])];
      LogAdds(log + Ran(ids[..n]), RanOnClose(ids[n]), e);
    }
  }

  lemma AnswerBooks(s: State, k: nat, answer: Answer, o: Oracle, e: Error)
    requires Enabled(s, DoAnswer(k, answer))
    ensures var t := Step(s, DoAnswer(k, answer), o);
            Balanced(s, DoAnswer(k, answer), o, e, t) && Linked(s, t, o) && OnlyFailures(s, t) && SameKind(s, t)
  {
    hide Goes, Step, TargetOf, Sum;
    var s1 := s.(lookups := s.lookups[..k] + s.lookups[k + 1..]);
    var t := Step(s, DoAnswer(k, answer), o);
    AnswerMeans(s, k, answer, o);
    SameKept(s, s1, o);
    match TargetOf(answer) {
      case Found(text) =>
        GoesKept(s1, s.lookups[k].cont, text, o, t);
        KeptFrom(s, s1, t, o);
      case Lost(err) => LostBalance(s1, s.lookups[k].cont, err, o, t, e);
    }
  }

  /** A microtask leaves the queue, and one event is emitted in its place or none. */
  lemma TaskLeaves(s: State, evs: seq<Event>, e: Error)
    requires s.tasks != [] && |evs| <= 1
    ensures var t := s.(tasks := s.tasks[1..], log := s.log + evs);
            && Errors(t, e) + QueuedError(s.tasks[0], e) == Errors(s, e) + Sum(evs, EmittedError, e)
            && Sum(t.log, Unheard, ()) == Sum(s.log, Unheard, ()) + Sum(evs, Unheard, ())
            && ConnectCalls(t) == ConnectCalls(s) + Sum(evs, ConnectMade, ())
            && ConnectEvents(t) + ConnectQueued(s.tasks[0], ()) == ConnectEvents(s) + Sum(evs, ConnectEmitted, ())
  {
    hide Sum;
    SumHead(s.tasks, QueuedError, e);
    SumHead(s.tasks, ConnectQueued, ());
    SumAppend(s.log, evs, EmittedError, e);
    SumAppend(s.log, evs, Unheard, ());
    SumAppend(s.log, evs, ConnectMade, ());
    SumAppend(s.log, evs, ConnectEmitted, ());
  }

  /** What a microtask emits. */
  function Emission(s: State): seq<Event>
    requires s.tasks != []
  {
    match s.tasks[0]
    case Listening => if Over(s) then [] else [EmitListening]
    case Connected => if Over(s) then [] else [EmitConnect]
    case Failure(err) => [EmitError(err)]
    case OnClose(id) => [RanOnClose(id)]
    case BindFailed(err) => []
  }

  lemma EmissionCounts(s: State, e: Error)
    requires s.tasks != []
    ensures var evs := Emission(s);
            && |evs| <= 1 && Sum(evs, Unheard, ()) == Sum(evs, ConnectMade, ()) == 0
            && Sum(evs, ConnectEmitted, ()) == Once(s.tasks[0].Connected? && !Over(s))
            && Sum(evs, EmittedError, e) == Once(s.tasks[0] == Failure(e))
  {
    var evs := Emission(s);
    if evs != [] { assert evs[..0] == []; }
  }

  lemma TaskBooks(s: State, o: Oracle, e: Error)
    requires Enabled(s, DoTask)
    ensures var t := Step(s, DoTask, o);
            Balanced(s, DoTask, o, e, t) && OnlyFailures(s, t) && SameKind(s, t)
    ensures var t := Step(s, DoTask, o);
            && ConnectCalls(t) == ConnectCalls(s) && t.flags.connected == s.flags.connected
            && ConnectEvents(t) + Once(s.tasks[0].Connected? && Over(s)) == ConnectEvents(s)
  {
    hide Sum, Step, Emission;
    EmissionCounts(s, e);
    TaskLeaves(s, Emission(s), e);
    TaskEmits(s, o);
    FrameAdds(Frame(Some(QueuedErr(s)), s.pending, ThenReport(QueuedErr(s))), s.frames, e);
  }

  function QueuedErr(s: State): Error
    requires s.tasks != []
  {
    if s.tasks[0].BindFailed? then s.tasks[0].err else InvalidHost
  }

  lemma TaskEmits(s: State, o: Oracle)
    requires Enabled(s, DoTask)
    ensures var s1, t := s.(tasks := s.tasks[1..], log := s.log + Emission(s)), Step(s, DoTask, o);
            if s.tasks[0].BindFailed? then
              var err := QueuedErr(s);
              t == s1.(flags := s.flags.(binding := false), pending := [],
                       frames := [Frame(Some(err), s.pending, ThenReport(err))] + s.frames)
            else t == s1
  {
    hide Step;
    TaskMeans(s, o);
    assert s.log + [] == s.log;
  }

  lemma CompletionBooks(s: State, k: nat, err: Option<Error>, o: Oracle, e: Error)
    requires Enabled(s, DoSendDone(k, err)) && (!s.native.exiting ==> s.native.queue[k].id in s.sends)
    ensures var t := Step(s, DoSendDone(k, err), o);
            Balanced(s, DoSendDone(k, err), o, e, t) && Linked(s, t, o) && SameKind(s, t)
  {
    hide Sum;
    if !s.native.exiting {
      CompletionMeans(s, k, err, o);
      if err.Some? { LogAdds(s.log, EmitError(err.value), e); }
      assert s.log + [] == s.log;
    }
  }

  lemma CloseDoneBooks(s: State, o: Oracle, e: Error)
    requires Enabled(s, DoCloseDone)
    ensures var t := Step(s, DoCloseDone, o);
            Balanced(s, DoCloseDone, o, e, t) && Linked(s, t, o) && OnlyFailures(s, t) && SameKind(s, t)
  {
    hide Sum, Bind, Open, Connect, Send, Resume, Close, FlushNext, FlushEnd, AnswerLookup, RunTask, SendDone;
    FrameAdds(Frame(Some(SocketClosed), s.pending, ThenClose), s.frames, e);
  }

  lemma MessageBooks(s: State, read: N.Read, o: Oracle, e: Error)
    requires Enabled(s, DoMessage(read))
    ensures var t := Step(s, DoMessage(read), o);
            Balanced(s, DoMessage(read), o, e, t) && Linked(s, t, o) && OnlyFailures(s, t) && SameKind(s, t)
  {
    hide Sum, Step, OnlyFailures, ErrorBalance, ConnectCalls, ConnectEvents;
    SameKept(s, s, o);
    MessageMeans(s, read, o);
    match read {
      case Datagram(length) => EmitBooks(s, EmitMessage(length), o, e);
      case Truncated(_) => EmitBooks(s, EmitError(NativeError(N.EMSGSIZE)), o, e);
      case ReadError(code) => EmitBooks(s, EmitError(NativeError(code)), o, e);
      case Nothing =>
    }
  }
}
