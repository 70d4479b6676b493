/**
 What a state still owes: each accepted send, each connect and bind in progress, each `onclose` callback and the
 `listening` and `close` events. Every place that can hold such a debt is counted, so that "in exactly one place" is
 "counted once". The lemmas say exactly what each function of the protocol adds.
 */
module Obligations {
  import N = Native
  import opened IpForm
  import opened IpAddress
  import opened Protocol

  datatype Ob = BindOb | ListenOb | ConnectOb | SendOb(tok: nat) | CloseOb(id: nat) | CloseEventOb

  function One(a: Ob, ob: Ob): nat { if a == ob then 1 else 0 }

  /** The sum of `f(x, k)` over the elements of `xs`; with an obligation for `k`, how often they hold it. */
  function Sum<T, K>(xs: seq<T>, f: (T, K) -> nat, k: K): nat {
    if xs == [] then 0 else Sum(xs[..|xs| - 1], f, k) + f(xs[|xs| - 1], k)
  }

  function WorkOb(w: Work, ob: Ob): nat {
    match w
    case SendWork(req) => One(SendOb(req.tok), ob)
    case ConnectWork(_, _) => One(ConnectOb, ob)
    case ResumeWork => 0
  }

  function LookupOb(l: Lookup, ob: Ob): nat {
    match l.cont
    case ForBind(_) => One(BindOb, ob)
    case ForConnect(_) => One(ConnectOb, ob)
    case ForSend(req) => One(SendOb(req.tok), ob)
  }

  function TaskOb(t: Task, ob: Ob): nat {
    match t
    case BindFailed(_) => One(BindOb, ob)
    case Listening => One(ListenOb, ob)
    case OnClose(id) => One(CloseOb(id), ob)
    case _ => 0
  }

  function TailOb(t: Tail, ob: Ob): nat {
    match t
    case ThenListening => One(ListenOb, ob)
    case ThenReport(_) => 0
    case ThenClose => One(CloseEventOb, ob)
  }

  function FrameOb(f: Frame, ob: Ob): nat {
    Sum(f.rest, WorkOb, ob) + TailOb(f.tail, ob)
  }

  function BlockOb(b: N.Block, ob: Ob): nat { One(SendOb(b.tok), ob) }

  function SettledOb(d: Settled, ob: Ob): nat { One(SendOb(d.req.tok), ob) }

  function ListenerOb(id: nat, ob: Ob): nat { One(CloseOb(id), ob) }

  function EventOb(e: Event, ob: Ob): nat {
    match e
    case EmitListening => One(ListenOb, ob)
    case EmitClose => One(CloseEventOb, ob)
    case RanOnClose(id) => One(CloseOb(id), ob)
    case _ => 0
  }

  /** In how many places the state holds `ob`, as a debt or as a debt paid. */
  function Obs(s: State, ob: Ob): nat {
    Sum(s.pending, WorkOb, ob) + Sum(s.frames, FrameOb, ob) + Sum(s.lookups, LookupOb, ob)
    + Sum(s.tasks, TaskOb, ob) + Sum(s.native.queue, BlockOb, ob) + Sum(s.settled, SettledOb, ob)
    + Sum(s.listeners, ListenerOb, ob) + Sum(s.log, EventOb, ob)
  }

  // Sums

  lemma Snoc<T, K>(xs: seq<T>, x: T, f: (T, K) -> nat, k: K)
    ensures Sum(xs + [x], f, k) == Sum(xs, f, k) + f(x, k)
  {
    assert (xs + [x])[..|xs|] == xs;
  }

  lemma {:induction false} SumAppend<T, K>(xs: seq<T>, ys: seq<T>, f: (T, K) -> nat, k: K)
    ensures Sum(xs + ys, f, k) == Sum(xs, f, k) + Sum(ys, f, k)
  {
    if ys == [] {
      assert xs + ys == xs;
    } else {
      assert (xs + ys)[..|xs + ys| - 1] == xs + ys[..|ys| - 1];
      SumAppend(xs, ys[..|ys| - 1], f, k);
    }
  }

  lemma SumOne<T, K>(x: T, f: (T, K) -> nat, k: K)
    ensures Sum([x], f, k) == f(x, k)
  {
    assert Sum([x][..0], f, k) == 0;
  }

  lemma SumRemove<T, K>(xs: seq<T>, i: nat, f: (T, K) -> nat, k: K)
    requires i < |xs|
    ensures Sum(xs, f, k) == Sum(N.Remove(xs, i), f, k) + f(xs[i], k)
  {
    hide Sum;
    assert xs == xs[..i] + ([xs[i]] + xs[i + 1..]);
    SumAppend(xs[..i], [xs[i]] + xs[i + 1..], f, k);
    SumAppend([xs[i]], xs[i + 1..], f, k);
    SumOne(xs[i], f, k);
    SumAppend(xs[..i], xs[i + 1..], f, k);
  }

  lemma SumHead<T, K>(xs: seq<T>, f: (T, K) -> nat, k: K)
    requires xs != []
    ensures Sum(xs, f, k) == f(xs[0], k) + Sum(xs[1..], f, k)
  {
    SumRemove(xs, 0, f, k);
    assert N.Remove(xs, 0) == xs[1..];
  }

  /** A longer sequence cannot sum to less. */
  lemma SumPrefix<T, K>(xs: seq<T>, ys: seq<T>, f: (T, K) -> nat, k: K)
    requires xs <= ys
    ensures Sum(xs, f, k) <= Sum(ys, f, k)
  {
  }

  // What each function adds

  lemma SameObs(s: State, t: State, ob: Ob)
    requires t.pending == s.pending && t.frames == s.frames && t.lookups == s.lookups && t.tasks == s.tasks
    requires t.native.queue == s.native.queue && t.settled == s.settled && t.listeners == s.listeners && t.log == s.log
    ensures Obs(t, ob) == Obs(s, ob)
  {
  }

  lemma SettleObs(s: State, req: Req, err: Option<Error>, bytes: nat, ob: Ob)
    ensures Obs(Settle(s, req, err, bytes), ob) == Obs(s, ob) + One(SendOb(req.tok), ob)
  {
    Snoc(s.settled, Settled(req, err, bytes), SettledOb, ob);
  }

  lemma EmitObs(s: State, e: Event, ob: Ob)
    ensures Obs(Emit(s, e), ob) == Obs(s, ob) + EventOb(e, ob)
  {
    Snoc(s.log, e, EventOb, ob);
  }

  lemma EnqueueObs(s: State, t: Task, ob: Ob)
    ensures Obs(Enqueue(s, t), ob) == Obs(s, ob) + TaskOb(t, ob)
  {
    Snoc(s.tasks, t, TaskOb, ob);
  }

  lemma PushObs(s: State, err: Option<Error>, tail: Tail, ob: Ob)
    ensures Obs(Push(s, err, tail), ob) == Obs(s, ob) + TailOb(tail, ob)
  {
    var f := Frame(err, s.pending, tail);
    SumHead([f] + s.frames, FrameOb, ob);
    assert ([f] + s.frames)[1..] == s.frames;
  }

  lemma OnSendErrorObs(s: State, req: Req, err: Error, ob: Ob)
    ensures Obs(OnSendError(s, req, err), ob) == Obs(s, ob) + One(SendOb(req.tok), ob)
  {
    SettleObs(s, req, Some(err), 0, ob);
    EmitObs(Settle(s, req, Some(err), 0), EmitError(err), ob);
  }

  /** A send handed to the native layer is in flight or settled, never both and never neither. */
  lemma QueueObs(s: State, b: N.Block, t: State, ob: Ob)
    requires t.pending == s.pending && t.frames == s.frames && t.lookups == s.lookups && t.tasks == s.tasks
    requires t.native.queue == s.native.queue + [b] && t.settled == s.settled && t.listeners == s.listeners
    requires t.log == s.log
    ensures Obs(t, ob) == Obs(s, ob) + One(SendOb(b.tok), ob)
  {
  }

  lemma HandOffObs(s: State, req: Req, dest: Option<Dest>, o: Oracle, ob: Ob)
    ensures Obs(HandOff(s, req, dest, o), ob) == Obs(s, ob) + One(SendOb(req.tok), ob)
  {
    hide Obs, OnSendError;
    var id := s.sendId;
    var called := Emit(s, SendCall(req, id, dest));
    EmitObs(s, SendCall(req, id, dest), ob);
    var t := HandOff(s, req, dest, o);
    if o.native.Queued? {
      QueueObs(called, N.Block(s.native.mallocs, id, req.tok, s.draws), t, ob);
    } else {
      var s1 := called.(sendId := (id + 1) % ID_RANGE, draws := s.draws + 1, sends := s.sends - {id},
                        native := N.Send(s.native, id, req.tok, s.draws, o.native));
      SameObs(called, s1, ob);
      OnSendErrorObs(s1, req, NativeError(o.native.code), ob);
    }
  }

  lemma OnBindObs(s: State, local: nat, ob: Ob)
    ensures Obs(OnBind(s, local), ob) == Obs(s, ob) + One(ListenOb, ob)
  {
    var s1 := s.(flags := s.flags.(bound := true, binding := false),
                 family := if s.family == 0 then local else s.family);
    PushObs(StartReading(s1), None, ThenListening, ob);
  }

  /** Whether a bind attempt ends in an error microtask. */
  predicate BindFails(r: Resolution, o: Oracle) {
    r.Unresolved? || Failed(o).Some?
  }

  /** What is owed after a bind attempt on a resolved host: the report of its failure, or the `listening` event. */
  function BoundOb(s: State, r: Resolution, o: Oracle, ob: Ob): nat {
    if !Live(s) then 0 else One(if BindFails(r, o) then BindOb else ListenOb, ob)
  }

  lemma BindResolvedObs(s: State, port: int, r: Resolution, o: Oracle, ob: Ob)
    ensures Obs(BindResolved(s, port, r, o), ob) == Obs(s, ob) + BoundOb(s, r, o, ob)
  {
    hide Obs, Emit, Enqueue, OnBind;
    if Live(s) {
      if r.Unresolved? {
        EnqueueObs(s, BindFailed(r.err), ob);
      } else {
        var e := BindCall(port, r.host, r.family);
        EmitObs(s, e, ob);
        if Failed(o).Some? {
          EnqueueObs(Emit(s, e), BindFailed(Failed(o).value), ob);
        } else {
          OnBindObs(Emit(s, e), o.local, ob);
        }
      }
    }
  }

  lemma ConnectResolvedObs(s: State, port: int, r: Resolution, o: Oracle, ob: Ob)
    ensures Obs(ConnectResolved(s, port, r, o), ob) == Obs(s, ob)
  {
    var s1 := s.(flags := s.flags.(connecting := false));
    hide Sum;
    if Live(s1) {
      if r.Unresolved? {
        EnqueueObs(s1, Failure(r.err), ob);
      } else {
        var e := ConnectCall(port, r.host, r.family);
        EmitObs(s1, e, ob);
        var s2 := Emit(s1, e);
        if Failed(o).Some? {
          EnqueueObs(s2, Failure(Failed(o).value), ob);
        } else {
          EnqueueObs(s2.(flags := s2.flags.(connected := true)), Connected, ob);
        }
      }
    }
  }

  lemma SendResolvedObs(s: State, req: Req, r: Resolution, o: Oracle, ob: Ob)
    ensures Obs(SendResolved(s, req, r, o), ob) == Obs(s, ob) + One(SendOb(req.tok), ob)
  {
    if r.Unresolved? {
      OnSendErrorObs(s, req, r.err, ob);
    } else if !Live(s) {
      SettleObs(s, req, Some(SocketClosed), 0, ob);
    } else {
      HandOffObs(s, req, Some(Dest(req.port, r.host, r.family)), o, ob);
    }
  }

  /** What is owed after a continuation has run with `r`. */
  function ContOb(s: State, cont: Cont, r: Resolution, o: Oracle, ob: Ob): nat {
    match cont
    case ForBind(_) => BoundOb(s, r, o, ob)
    case ForConnect(_) => 0
    case ForSend(req) => One(SendOb(req.tok), ob)
  }

  lemma ContinueObs(s: State, cont: Cont, r: Resolution, o: Oracle, ob: Ob)
    ensures Obs(Continue(s, cont, r, o), ob) == Obs(s, ob) + ContOb(s, cont, r, o, ob)
  {
    match cont {
      case ForBind(port) => BindResolvedObs(s, port, r, o, ob);
      case ForConnect(port) => ConnectResolvedObs(s, port, r, o, ob);
      case ForSend(req) => SendResolvedObs(s, req, r, o, ob);
    }
  }

  lemma ResolveHostObs(s: State, host: string, cont: Cont, o: Oracle, ob: Ob)
    ensures Obs(ResolveHost(s, host, cont, o), ob) == Obs(s, ob) +
            if Family(host) != 0 then ContOb(s, cont, Resolved(host, Family(host)), o, ob)
            else LookupOb(Lookup(host, s.family, cont), ob)
  {
    if Family(host) != 0 {
      ContinueObs(s, cont, Resolved(host, Family(host)), o, ob);
    } else {
      Snoc(s.lookups, Lookup(host, s.family, cont), LookupOb, ob);
    }
  }

  /** What is owed after one closure has been called with `err`. */
  function RunOb(w: Work, err: Option<Error>, ob: Ob): nat {
    match w
    case SendWork(req) => One(SendOb(req.tok), ob)
    case ConnectWork(_, host) => if err.None? && Family(host) == 0 then One(ConnectOb, ob) else 0
    case ResumeWork => 0
  }

  lemma RunWorkObs(s: State, w: Work, err: Option<Error>, o: Oracle, ob: Ob)
    ensures Obs(RunWork(s, w, err, o), ob) == Obs(s, ob) + RunOb(w, err, ob)
  {
    hide ResolveHost, HandOff, Obs;
    match w {
      case SendWork(req) =>
        if err.Some? {
          SettleObs(s, req, err, 0, ob);
        } else if req.connected {
          HandOffObs(s, req, None, o, ob);
        } else {
          ResolveHostObs(s, if req.address != "" then req.address else Loopback(s), ForSend(req), o, ob);
        }
      case ConnectWork(port, host) =>
        SameObs(s, s.(flags := s.flags.(connecting := false)), ob);
        if err.None? { ResolveHostObs(s, host, ForConnect(port), o, ob); }
      case ResumeWork => SameObs(s, RunWork(s, w, err, o), ob);
    }
  }

  function StartBindOb(s: State, host: string, o: Oracle, ob: Ob): nat {
    if Family(host) == 0 then One(BindOb, ob) else BoundOb(s, Resolved(host, Family(host)), o, ob)
  }

  lemma StartBindObs(s: State, port: int, host: string, o: Oracle, ob: Ob)
    ensures Obs(StartBind(s, port, host, o), ob) == Obs(s, ob) + StartBindOb(s, host, o, ob)
  {
    var s1 := s.(flags := s.flags.(binding := true));
    ResolveHostObs(s1, host, ForBind(port), o, ob);
  }

  function MaybeOb(s: State, w: Work, o: Oracle, ob: Ob): nat {
    if s.flags.bound then RunOb(w, None, ob)
    else if s.flags.binding then WorkOb(w, ob)
    else WorkOb(w, ob) + StartBindOb(s, Wildcard(s), o, ob)
  }

  lemma PendObs(s: State, w: Work, ob: Ob)
    ensures Obs(s.(pending := s.pending + [w]), ob) == Obs(s, ob) + WorkOb(w, ob)
  {
    Snoc(s.pending, w, WorkOb, ob);
  }

  lemma SameWildcard(s: State, t: State)
    requires t.family == s.family
    ensures Wildcard(t) == Wildcard(s) && Loopback(t) == Loopback(s)
  {
  }

  lemma BindMaybeObs(s: State, w: Work, o: Oracle, ob: Ob)
    ensures Obs(BindMaybe(s, w, o), ob) == Obs(s, ob) + MaybeOb(s, w, o, ob)
  {
    hide Obs, RunWork, StartBind, Family, BindFails, Wildcard;
    if s.flags.bound {
      RunWorkObs(s, w, None, o, ob);
    } else {
      var s1 := s.(pending := s.pending + [w]);
      PendObs(s, w, ob);
      SameWildcard(s, s1);
      if !s.flags.binding {
        StartBindObs(s1, 0, Wildcard(s1), o, ob);
      }
    }
  }

  lemma FlushNextObs(s: State, o: Oracle, ob: Ob)
    requires s.frames != [] && s.frames[0].rest != []
    ensures var f := s.frames[0];
            Obs(FlushNext(s, o), ob) + WorkOb(f.rest[0], ob) == Obs(s, ob) + RunOb(f.rest[0], f.err, ob)
  {
    var f := s.frames[0];
    var f' := f.(rest := f.rest[1..]);
    var s1 := s.(frames := [f'] + s.frames[1..]);
    SumHead(s.frames, FrameOb, ob);
    SumHead(s1.frames, FrameOb, ob);
    assert s1.frames[1..] == s.frames[1..];
    SumHead(f.rest, WorkOb, ob);
    assert Obs(s1, ob) + WorkOb(f.rest[0], ob) == Obs(s, ob);
    RunWorkObs(s1, f.rest[0], f.err, o, ob);
  }

  lemma {:induction false} RanObs(ids: seq<nat>, ob: Ob)
    ensures Sum(Ran(ids), EventOb, ob) == Sum(ids, ListenerOb, ob)
  {
    if ids != [] {
      var n := |ids| - 1;
      assert Ran(ids)[..n] == Ran(ids[..n]);
      RanObs(ids[..n], ob);
    }
  }

  lemma PopObs(s: State, ob: Ob)
    requires s.frames != [] && s.frames[0].rest == []
    ensures Obs(s.(frames := s.frames[1..]), ob) + TailOb(s.frames[0].tail, ob) == Obs(s, ob)
  {
    SumHead(s.frames, FrameOb, ob);
  }

  lemma FlushEndObs(s: State, ob: Ob)
    requires s.frames != [] && s.frames[0].rest == []
    ensures Obs(FlushEnd(s), ob) == Obs(s, ob)
  {
    hide Obs, Enqueue, Emit, RunListeners;
    var s1 := s.(frames := s.frames[1..]);
    PopObs(s, ob);
    match s.frames[0].tail {
      case ThenListening => EnqueueObs(s1, Listening, ob);
      case ThenReport(err) => EmitObs(s1, EmitError(err), ob);
      case ThenClose =>
        EmitObs(s1, EmitClose, ob);
        RunListenersObs(Emit(s1, EmitClose), ob);
    }
  }

  lemma RunListenersObs(s: State, ob: Ob)
    ensures Obs(RunListeners(s), ob) == Obs(s, ob)
  {
    RanObs(s.listeners, ob);
    SumAppend(s.log, Ran(s.listeners), EventOb, ob);
  }

  lemma AnswerObs(s: State, k: nat, answer: Answer, o: Oracle, ob: Ob)
    requires k < |s.lookups|
    ensures Obs(AnswerLookup(s, k, answer, o), ob) + LookupOb(s.lookups[k], ob)
            == Obs(s, ob) + ContOb(s, s.lookups[k].cont, Resolve(answer), o, ob)
  {
    var s1 := s.(lookups := N.Remove(s.lookups, k));
    SumRemove(s.lookups, k, LookupOb, ob);
    assert Obs(s1, ob) + LookupOb(s.lookups[k], ob) == Obs(s, ob);
    ContinueObs(s1, s.lookups[k].cont, Resolve(answer), o, ob);
  }

  lemma NextTaskObs(s: State, ob: Ob)
    requires s.tasks != []
    ensures Obs(s.(tasks := s.tasks[1..]), ob) + TaskOb(s.tasks[0], ob) == Obs(s, ob)
  {
    SumHead(s.tasks, TaskOb, ob);
  }

  lemma RunTaskObs(s: State, ob: Ob)
    requires s.tasks != []
    ensures Obs(RunTask(s), ob) +
            (if s.tasks[0].BindFailed? || (s.tasks[0].Listening? && !Live(s)) then TaskOb(s.tasks[0], ob) else 0)
            == Obs(s, ob)
  {
    hide Obs, Push;
    var s1 := s.(tasks := s.tasks[1..]);
    NextTaskObs(s, ob);
    match s.tasks[0] {
      case Listening => EmitObs(s1, EmitListening, ob);
      case Connected => EmitObs(s1, EmitConnect, ob);
      case Failure(err) => EmitObs(s1, EmitError(err), ob);
      case OnClose(id) => EmitObs(s1, RanOnClose(id), ob);
      case BindFailed(err) =>
        SameObs(s1, s1.(flags := s.flags.(binding := false)), ob);
        PushObs(s1.(flags := s.flags.(binding := false)), Some(err), ThenReport(err), ob);
    }
  }
}
