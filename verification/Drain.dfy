/**
 Drain and termination: left to itself, with no new API calls or datagrams, the socket comes to rest. Every step
 of the environment decreases a measure, and a state in which none is possible owes nothing to anybody.
 */
module Drain {
  import N = Native
  import opened IpForm
  import opened IpAddress
  import opened Protocol
  import opened Obligations
  import opened Ledger
  import opened Conservation
  import opened Invariant

  predicate IsDrain(l: Label) {
    l.DoFlushNext? || l.DoFlushEnd? || l.DoAnswer? || l.DoTask? || l.DoSendDone? || l.DoCloseDone?
  }

  // Each item weighs more than what it can turn into

  function WorkWeight(w: Work, u: ()): nat { if w.ResumeWork? then 1 else 3 }

  function FrameWeight(f: Frame, u: ()): nat { 2 + Sum(f.rest, WorkWeight, u) }

  function LookupWeight(l: Lookup, u: ()): nat { if l.cont.ForBind? then 4 else 2 }

  function TaskWeight(t: Task, u: ()): nat { if t.BindFailed? then 3 else 1 }

  function Measure(s: State): nat {
    Sum(s.pending, WorkWeight, ()) + Sum(s.frames, FrameWeight, ()) + Sum(s.lookups, LookupWeight, ())
    + Sum(s.tasks, TaskWeight, ()) + |s.native.queue|
    + if s.native.closesDone < s.native.uvCloses then 3 else 0
  }

  lemma EnqueueWeight(s: State, t: Task)
    ensures Measure(Enqueue(s, t)) == Measure(s) + TaskWeight(t, ())
  {
    Snoc(s.tasks, t, TaskWeight, ());
  }

  lemma PushWeight(s: State, err: Option<Error>, tail: Tail)
    ensures Measure(Push(s, err, tail)) == Measure(s) + 2
  {
    var f := Frame(err, s.pending, tail);
    SumHead([f] + s.frames, FrameWeight, ());
    assert ([f] + s.frames)[1..] == s.frames;
  }

  lemma HandOffWeight(s: State, req: Req, dest: Option<Dest>, o: Oracle)
    ensures Measure(HandOff(s, req, dest, o)) <= Measure(s) + 1
  {
  }

  lemma SendResolvedWeight(s: State, req: Req, r: Resolution, o: Oracle)
    ensures Measure(SendResolved(s, req, r, o)) <= Measure(s) + 1
  {
    hide HandOff;
    if r.Resolved? && Live(s) {
      HandOffWeight(s, req, Some(Dest(req.port, r.host, r.family)), o);
    }
  }

  lemma ConnectResolvedWeight(s: State, port: int, r: Resolution, o: Oracle)
    ensures Measure(ConnectResolved(s, port, r, o)) <= Measure(s) + 1
  {
    hide Enqueue;
    var s1 := s.(flags := s.flags.(connecting := false));
    assert Measure(s1) == Measure(s);
    if Live(s1) {
      if r.Unresolved? {
        EnqueueWeight(s1, Failure(r.err));
      } else {
        var s2 := Emit(s1, ConnectCall(port, r.host, r.family));
        var s3 := s2.(flags := s2.flags.(connected := true));
        assert Measure(s3) == Measure(s2) == Measure(s);
        EnqueueWeight(s3, Connected);
        if Failed(o).Some? { EnqueueWeight(s2, Failure(Failed(o).value)); }
      }
    }
  }

  lemma OnBindWeight(s: State, local: nat)
    ensures Measure(OnBind(s, local)) == Measure(s) + 2
  {
    hide Push;
    var s1 := s.(flags := s.flags.(bound := true, binding := false),
                 family := if s.family == 0 then local else s.family);
    assert Measure(StartReading(s1)) == Measure(s);
    PushWeight(StartReading(s1), None, ThenListening);
  }

  lemma BindResolvedWeight(s: State, port: int, r: Resolution, o: Oracle)
    ensures Measure(BindResolved(s, port, r, o)) <= Measure(s) + 3
  {
    hide Enqueue, OnBind;
    if Live(s) {
      if r.Unresolved? {
        EnqueueWeight(s, BindFailed(r.err));
      } else {
        var s1 := Emit(s, BindCall(port, r.host, r.family));
        assert Measure(s1) == Measure(s);
        OnBindWeight(s1, o.local);
        if Failed(o).Some? { EnqueueWeight(s1, BindFailed(Failed(o).value)); }
      }
    }
  }

  lemma ContinueWeight(s: State, cont: Cont, r: Resolution, o: Oracle)
    ensures Measure(Continue(s, cont, r, o)) <= Measure(s) + if cont.ForBind? then 3 else 1
  {
    match cont {
      case ForBind(port) => BindResolvedWeight(s, port, r, o);
      case ForConnect(port) => ConnectResolvedWeight(s, port, r, o);
      case ForSend(req) => SendResolvedWeight(s, req, r, o);
    }
  }

  lemma ResolveHostWeight(s: State, host: string, cont: Cont, o: Oracle)
    requires !cont.ForBind?
    ensures Measure(ResolveHost(s, host, cont, o)) <= Measure(s) + 2
  {
    hide Continue;
    if Family(host) != 0 {
      ContinueWeight(s, cont, Resolved(host, Family(host)), o);
    } else {
      Snoc(s.lookups, Lookup(host, s.family, cont), LookupWeight, ());
    }
  }

  lemma RunWorkWeight(s: State, w: Work, err: Option<Error>, o: Oracle)
    ensures Measure(RunWork(s, w, err, o)) < Measure(s) + WorkWeight(w, ())
  {
    hide ResolveHost, HandOff;
    match w {
      case SendWork(req) =>
        if err.None? && req.connected {
          HandOffWeight(s, req, None, o);
        } else if err.None? {
          ResolveHostWeight(s, if req.address != "" then req.address else Loopback(s), ForSend(req), o);
        }
      case ConnectWork(port, host) =>
        if err.None? { ResolveHostWeight(s, host, ForConnect(port), o); }
      case ResumeWork =>
    }
  }

  lemma FlushNextDrains(s: State, o: Oracle)
    requires s.frames != [] && s.frames[0].rest != []
    ensures Measure(FlushNext(s, o)) < Measure(s)
  {
    hide RunWork;
    var f := s.frames[0];
    var f' := f.(rest := f.rest[1..]);
    var s1 := s.(frames := [f'] + s.frames[1..]);
    SumHead(s.frames, FrameWeight, ());
    SumHead(s1.frames, FrameWeight, ());
    assert s1.frames[1..] == s.frames[1..];
    SumHead(f.rest, WorkWeight, ());
    RunWorkWeight(s1, f.rest[0], f.err, o);
  }

  lemma FlushEndDrains(s: State)
    requires s.frames != [] && s.frames[0].rest == []
    ensures Measure(FlushEnd(s)) < Measure(s)
  {
    hide Sum, Enqueue;
    var s1 := s.(frames := s.frames[1..]);
    SumHead(s.frames, FrameWeight, ());
    EnqueueWeight(s1, Listening);
  }

  lemma AnswerDrains(s: State, k: nat, answer: Answer, o: Oracle)
    requires k < |s.lookups|
    ensures Measure(AnswerLookup(s, k, answer, o)) < Measure(s)
  {
    hide Continue;
    SumRemove(s.lookups, k, LookupWeight, ());
    ContinueWeight(s.(lookups := N.Remove(s.lookups, k)), s.lookups[k].cont, Resolve(answer), o);
  }

  lemma TaskDrains(s: State)
    requires s.tasks != []
    ensures Measure(RunTask(s)) < Measure(s)
  {
    hide Push, Sum;
    var s1 := s.(tasks := s.tasks[1..]);
    SumHead(s.tasks, TaskWeight, ());
    if s.tasks[0].BindFailed? {
      var err := s.tasks[0].err;
      PushWeight(s1.(flags := s.flags.(binding := false)), Some(err), ThenReport(err));
    }
  }

  lemma CloseDoneDrains(s: State)
    requires N.CanClose(s.native) && s.native.uvCloses <= 1
    ensures Measure(CloseDone(s)) < Measure(s)
  {
    hide Push;
    var s1 := s.(native := N.OnClose(s.native),
                 flags := s.flags.(closed := true, closing := false), sends := map[]);
    PushWeight(s1, Some(SocketClosed), ThenClose);
  }

  /** Every step of the environment brings the socket closer to rest, whatever lookups and native calls answer. */
  lemma DrainDecreases(s: State, l: Label, o: Oracle)
    requires Inv(s) && IsDrain(l) && Enabled(s, l)
    ensures Measure(Step(s, l, o)) < Measure(s)
  {
    hide FlushNext, FlushEnd, AnswerLookup, RunTask, CloseDone, Sum;
    match l {
      case DoFlushNext => FlushNextDrains(s, o);
      case DoFlushEnd => FlushEndDrains(s);
      case DoAnswer(k, answer) => AnswerDrains(s, k, answer, o);
      case DoTask => TaskDrains(s);
      case DoSendDone(k, err) =>
      case DoCloseDone => CloseDoneDrains(s);
    }
  }

  /** A stretch of a run in which only the environment moves is never longer than the measure at its start. */
  lemma {:induction false} DrainTerminates(family: nat, ss: seq<State>, moves: seq<Move>, from: nat, to: nat)
    requires Run(family, ss, moves) && from <= to < |ss|
    requires forall i | from <= i < to :: IsDrain(moves[i].step)
    ensures to - from + Measure(ss[to]) <= Measure(ss[from])
    decreases |ss| - from
  {
    hide Step, Inv, Enabled, WindowOk, Measure, IsDrain;
    if from < to {
      RunInv(family, ss, moves, from);
      RunStep(family, ss, moves, from);
      DrainDecreases(ss[from], moves[from].step, moves[from].oracle);
      DrainTerminates(family, ss, moves, from + 1, to);
    }
  }

  // At rest

  /** No step of the environment is possible. */
  ghost predicate Quiet(s: State) {
    forall l | IsDrain(l) :: !Enabled(s, l)
  }

  lemma QuietMeans(s: State)
    requires Quiet(s) && !s.native.exiting
    ensures s.frames == [] && s.lookups == [] && s.tasks == [] && s.native.queue == [] && !N.CanClose(s.native)
  {
    assert !Enabled(s, DoFlushNext) && !Enabled(s, DoFlushEnd);
    assert !Enabled(s, DoAnswer(0, NotAString)) && !Enabled(s, DoTask);
    assert !Enabled(s, DoSendDone(0, None)) && !Enabled(s, DoCloseDone);
  }

  /**
   At rest nothing is stranded: no work is queued, no send is in flight, no bind or connect is in progress, every
   accepted send has been settled exactly once, a bound socket has emitted `listening` exactly once, every request
   block has been freed exactly once, and a socket whose close has begun is closed.
   */
  lemma AtRest(s: State)
    requires Inv(s) && Quiet(s) && !s.native.exiting
    ensures s.pending == [] && s.sends == map[]
    ensures !s.flags.binding && !s.flags.connecting && !s.flags.closing
    ensures forall t: nat :: Sum(s.settled, SettledOb, SendOb(t)) == if t < s.accepted then 1 else 0
    ensures Live(s) ==> Sum(s.log, EventOb, ListenOb) == if s.flags.bound then 1 else 0
    ensures AllFreed(s.native)
  {
    QuietMeans(s);
    FreedAll(s.native);
    if Live(s) { ListeningEmitted(s); }
    forall t: nat ensures Sum(s.settled, SettledOb, SendOb(t)) == if t < s.accepted then 1 else 0 {
      OnlySends(s, t);
    }
    assert !s.flags.binding && !s.flags.connecting by {
      if Live(s) {
        NothingPending(s, BindOb);
        NothingPending(s, ConnectOb);
      }
    }
    assert Ids([]) == {};
  }

  /** Every request block ever allocated has been freed, and freed once. */
  ghost predicate AllFreed(n: N.Native) {
    forall a: nat :: multiset(n.freed)[a] == if a < n.mallocs then 1 else 0
  }

  lemma FreedAll(n: N.Native)
    requires N.OwnershipOk(n) && n.queue == []
    ensures AllFreed(n)
  {
    assert N.Owned(n) == multiset(n.freed);
  }

  /**
   At rest after the environment's teardown: uv_close was called once and completed, the references were deleted and
   the deferred teardown finished once, and every request block was freed exactly once.
   */
  lemma AtRestAfterTeardown(s: State)
    requires Inv(s) && Quiet(s) && s.native.exiting
    ensures s.native.queue == [] && s.frames == []
    ensures s.native.uvCloses == s.native.closesDone == s.native.refsDeleted == s.native.teardownsFinished == 1
    ensures AllFreed(s.native)
  {
    assert !Enabled(s, DoSendDone(0, None)) && !Enabled(s, DoCloseDone);
    FreedAll(s.native);
  }

  /** At rest, `listening` has been emitted exactly once by a bound socket and never by an unbound one. */
  lemma ListeningEmitted(s: State)
    requires Inv(s) && Quiet(s) && !s.native.exiting && Live(s)
    ensures Sum(s.log, EventOb, ListenOb) == if s.flags.bound then 1 else 0
  {
    QuietMeans(s);
    assert Tracked(s, ListenOb);
    SumZero(s.pending, WorkOb, ListenOb);
    SumZero(s.settled, SettledOb, ListenOb);
    SumZero(s.listeners, ListenerOb, ListenOb);
  }

  /** Events, microtasks and listeners hold no sends, so a send is in one of five places. */
  lemma OnlySends(s: State, t: nat)
    requires Inv(s) && Quiet(s) && !s.native.exiting
    ensures Sum(s.settled, SettledOb, SendOb(t)) == if t < s.accepted then 1 else 0
  {
    QuietMeans(s);
    NoSends(s, t);
    assert Tracked(s, SendOb(t));
    assert s.pending == [] by { NothingQueued(s); }
  }

  lemma {:induction false} SumZero<T, K>(xs: seq<T>, f: (T, K) -> nat, k: K)
    requires forall i | 0 <= i < |xs| :: f(xs[i], k) == 0
    ensures Sum(xs, f, k) == 0
  {
    if xs != [] {
      SumZero(xs[..|xs| - 1], f, k);
    }
  }

  lemma NoSends(s: State, t: nat)
    ensures Sum(s.tasks, TaskOb, SendOb(t)) == Sum(s.listeners, ListenerOb, SendOb(t)) == 0
    ensures Sum(s.log, EventOb, SendOb(t)) == 0
  {
    SumZero(s.tasks, TaskOb, SendOb(t));
    SumZero(s.listeners, ListenerOb, SendOb(t));
    SumZero(s.log, EventOb, SendOb(t));
  }

  lemma NothingPending(s: State, ob: Ob)
    requires Inv(s) && Quiet(s) && !s.native.exiting && Live(s) && (ob.BindOb? || ob.ConnectOb?)
    ensures Expected(s, ob) == 0
    decreases ob.ConnectOb?
  {
    QuietMeans(s);
    SumZero(s.settled, SettledOb, ob);
    SumZero(s.listeners, ListenerOb, ob);
    SumZero(s.log, EventOb, ob);
    assert Tracked(s, ob);
    if ob.BindOb? {
      SumZero(s.pending, WorkOb, ob);
    } else {
      NothingPending(s, BindOb);
    }
  }

  lemma NothingQueued(s: State)
    requires Inv(s) && Quiet(s) && !s.native.exiting
    ensures s.pending == []
  {
    QuietMeans(s);
    if s.flags.binding { NothingPending(s, BindOb); }
  }
}
