/** What the invariant means for whole runs: sends only move forward, closing is final, reading follows the calls. */
module Runs {
  import N = Native
  import opened IpForm
  import opened IpAddress
  import opened Protocol
  import opened Obligations
  import opened Ledger
  import opened Boundary
  import opened Conservation
  import opened Invariant
  import opened Drain

  // Records only grow

  /** Nothing unanswered, in flight, settled, logged or queued as a microtask is taken back, and no datagram arrives. */
  ghost predicate Grows(s: State, t: State) {
    && s.lookups <= t.lookups && s.native.queue <= t.native.queue && s.settled <= t.settled
    && s.log <= t.log && s.tasks <= t.tasks
    && forall i | |s.log| <= i < |t.log| :: !t.log[i].EmitMessage?
  }

  lemma HandOffGrows(s: State, req: Req, dest: Option<Dest>, o: Oracle)
    ensures Grows(s, HandOff(s, req, dest, o))
  {
  }

  lemma ContinueGrows(s: State, cont: Cont, r: Resolution, o: Oracle)
    ensures Grows(s, Continue(s, cont, r, o))
  {
    hide HandOff;
    if cont.ForSend? && r.Resolved? && Live(s) {
      HandOffGrows(s, cont.req, Some(Dest(cont.req.port, r.host, r.family)), o);
    }
  }

  lemma ResolveHostGrows(s: State, host: string, cont: Cont, o: Oracle)
    ensures Grows(s, ResolveHost(s, host, cont, o))
  {
    hide Continue;
    if Family(host) != 0 { ContinueGrows(s, cont, Resolved(host, Family(host)), o); }
  }

  lemma RunWorkGrows(s: State, w: Work, err: Option<Error>, o: Oracle)
    ensures Grows(s, RunWork(s, w, err, o))
  {
    hide ResolveHost, HandOff;
    if w.SendWork? && err.None? {
      HandOffGrows(s, w.req, None, o);
      ResolveHostGrows(s, if w.req.address != "" then w.req.address else Loopback(s), ForSend(w.req), o);
    } else if w.ConnectWork? && err.None? {
      ResolveHostGrows(s, w.host, ForConnect(w.port), o);
    }
  }

  lemma BindMaybeGrows(s: State, w: Work, o: Oracle)
    ensures Grows(s, BindMaybe(s, w, o))
  {
    hide RunWork, ResolveHost;
    if s.flags.bound {
      RunWorkGrows(s, w, None, o);
    } else if !s.flags.binding {
      var s1 := s.(pending := s.pending + [w]);
      ResolveHostGrows(s1.(flags := s1.flags.(binding := true)), Wildcard(s1), ForBind(0), o);
    }
  }

  lemma SendGrows(s: State, list: seq<seq<byte>>, port: int, address: string, cb: bool, o: Oracle)
    ensures Grows(s, Outcome(s, Send(s, list, port, address, cb, o)))
  {
    SendCases(s, list, port, address, cb, o);
    BindMaybeGrows(s.(accepted := s.accepted + 1), SendWork(NewReq(s, list, port, address, cb)), o);
    hide BindMaybe, SendThrows, Send;
  }

  lemma ConnectGrows(s: State, port: int, address: string, o: Oracle)
    ensures Grows(s, Outcome(s, Connect(s, port, address, o)))
  {
    hide BindMaybe, HostOk;
    BindMaybeGrows(s.(flags := s.flags.(connecting := true)),
                   ConnectWork(port, if address == "" then Loopback(s) else address), o);
  }

  lemma BindGrows(s: State, port: int, address: string, o: Oracle)
    ensures Grows(s, Outcome(s, Bind(s, port, address, o)))
  {
    hide ResolveHost, HostOk;
    ResolveHostGrows(s.(flags := s.flags.(binding := true)),
                     if address == "" then Wildcard(s) else address, ForBind(port), o);
  }

  lemma ResumeGrows(s: State, o: Oracle)
    ensures Grows(s, Resume(s, o))
  {
    hide BindMaybe;
    BindMaybeGrows(s.(paused := false), ResumeWork, o);
  }

  lemma ApiGrows(s: State, l: Label, o: Oracle)
    requires IsApi(l) && Enabled(s, l)
    ensures Grows(s, Step(s, l, o))
  {
    hide Bind, Connect, Send, Resume, Open, Disconnect, Pause, Close, Grows;
    if l.ApiBind? {
      BindGrows(s, l.port, l.address, o);
    } else if l.ApiConnect? {
      ConnectGrows(s, l.port, l.address, o);
    } else if l.ApiSend? {
      SendGrows(s, l.list, l.port, l.address, l.cb, o);
    } else if l.ApiResume? {
      ResumeGrows(s, o);
    } else {
      PlainGrows(s, l, o);
    }
  }

  lemma PlainGrows(s: State, l: Label, o: Oracle)
    requires Enabled(s, l)
    requires l.ApiOpen? || l.ApiDisconnect? || l.ApiPause? || l.ApiClose? || l.ApiRef? || l.ApiUnref?
    ensures Grows(s, Step(s, l, o))
  {
    hide Bind, Connect, Send, Resume, FlushNext, FlushEnd, AnswerLookup, RunTask, SendDone, CloseDone, OnMessage;
  }

  lemma FlushNextGrows(s: State, o: Oracle)
    requires s.frames != [] && s.frames[0].rest != []
    ensures Grows(s, FlushNext(s, o))
  {
    hide RunWork;
    var f := s.frames[0];
    RunWorkGrows(s.(frames := [f.(rest := f.rest[1..])] + s.frames[1..]), f.rest[0], f.err, o);
  }

  // Where a send is

  function Waiting(s: State, t: nat): nat {
    Sum(s.pending, WorkOb, SendOb(t)) + Sum(s.frames, FrameOb, SendOb(t))
  }

  function Resolving(s: State, t: nat): nat { Sum(s.lookups, LookupOb, SendOb(t)) }

  function InFlight(s: State, t: nat): nat { Sum(s.native.queue, BlockOb, SendOb(t)) }

  function TimesSettled(s: State, t: nat): nat { Sum(s.settled, SettledOb, SendOb(t)) }

  /** 0 queued behind a bind, 1 waiting for a lookup, 2 in flight, 3 settled. */
  function Stage(s: State, t: nat): nat {
    if TimesSettled(s, t) > 0 then 3 else if InFlight(s, t) > 0 then 2 else if Resolving(s, t) > 0 then 1 else 0
  }

  /** Every accepted send is in exactly one place, once; in particular its callback never fires twice. */
  lemma OnePlace(s: State, t: nat)
    requires Inv(s) && !s.native.exiting
    ensures Waiting(s, t) + Resolving(s, t) + InFlight(s, t) + TimesSettled(s, t) == if t < s.accepted then 1 else 0
  {
    NoSends(s, t);
    assert Tracked(s, SendOb(t));
  }

  /** On a live socket BINDING holds exactly while one bind lookup is unanswered or one bind error unreported. */
  lemma BindingMeans(s: State)
    requires Inv(s) && Live(s)
    ensures Sum(s.lookups, LookupOb, BindOb) + Sum(s.tasks, TaskOb, BindOb) == if s.flags.binding then 1 else 0
  {
    assert Tracked(s, BindOb);
    forall i | 0 <= i < |s.frames| ensures FrameOb(s.frames[i], BindOb) == 0 {
      SumZero(s.frames[i].rest, WorkOb, BindOb);
    }
    SumZero(s.pending, WorkOb, BindOb);
    SumZero(s.frames, FrameOb, BindOb);
    OnlyQueued(s, BindOb);
  }

  /** CONNECTING holds exactly while one connect is queued or one connect lookup unanswered. */
  lemma ConnectingMeans(s: State)
    requires Inv(s) && Live(s)
    ensures Sum(s.pending, WorkOb, ConnectOb) + Sum(s.frames, FrameOb, ConnectOb) + Sum(s.lookups, LookupOb, ConnectOb)
            == if s.flags.connecting then 1 else 0
  {
    assert Tracked(s, ConnectOb);
    SumZero(s.tasks, TaskOb, ConnectOb);
    OnlyQueued(s, ConnectOb);
  }

  lemma OnlyQueued(s: State, ob: Ob)
    requires ob.BindOb? || ob.ConnectOb?
    ensures Sum(s.native.queue, BlockOb, ob) == Sum(s.settled, SettledOb, ob) == Sum(s.listeners, ListenerOb, ob)
            == Sum(s.log, EventOb, ob) == 0
  {
    SumZero(s.native.queue, BlockOb, ob);
    SumZero(s.settled, SettledOb, ob);
    SumZero(s.listeners, ListenerOb, ob);
    SumZero(s.log, EventOb, ob);
  }

  lemma GrowsForward(s: State, u: State, t: nat)
    requires Grows(s, u)
    ensures Stage(s, t) <= Stage(u, t)
  {
    SumPrefix(s.lookups, u.lookups, LookupOb, SendOb(t));
    SumPrefix(s.native.queue, u.native.queue, BlockOb, SendOb(t));
    SumPrefix(s.settled, u.settled, SettledOb, SendOb(t));
  }

  lemma AnswerForward(s: State, k: nat, answer: Answer, o: Oracle, t: nat)
    requires k < |s.lookups|
    ensures Stage(s, t) <= Stage(AnswerLookup(s, k, answer, o), t)
  {
    var s1 := s.(lookups := N.Remove(s.lookups, k));
    var cont := s.lookups[k].cont;
    SumRemove(s.lookups, k, LookupOb, SendOb(t));
    hide Continue;
    ContinueGrows(s1, cont, Resolve(answer), o);
    GrowsForward(s1, Continue(s1, cont, Resolve(answer), o), t);
    if cont.ForSend? && cont.req.tok == t {
      AnswerSettlesOrSends(s1, cont.req, Resolve(answer), o);
    }
  }

  lemma AnswerSettlesOrSends(s: State, req: Req, r: Resolution, o: Oracle)
    ensures Stage(Continue(s, ForSend(req), r, o), req.tok) >= 2
  {
    hide Sum, Resolving;
    if r.Unresolved? {
      Snoc(s.settled, Settled(req, Some(r.err), 0), SettledOb, SendOb(req.tok));
    } else if !Live(s) {
      Snoc(s.settled, Settled(req, Some(SocketClosed), 0), SettledOb, SendOb(req.tok));
    } else if o.native.Queued? {
      Snoc(s.native.queue, N.Block(s.native.mallocs, s.sendId, req.tok, s.draws), BlockOb, SendOb(req.tok));
    } else {
      Snoc(s.settled, Settled(req, Some(NativeError(o.native.code)), 0), SettledOb, SendOb(req.tok));
    }
  }

  lemma SendDoneForward(s: State, k: nat, err: Option<Error>, t: nat)
    requires MirrorOk(s) && k < |s.native.queue| && !s.native.exiting
    ensures Stage(s, t) <= Stage(SendDone(s, k, err), t)
  {
    var u := SendDone(s, k, err);
    SumRemove(s.native.queue, k, BlockOb, SendOb(t));
    CompletionFindsItsSend(s, k);
    var req := s.sends[s.native.queue[k].id];
    var d := Settled(req, err, if err.Some? then 0 else req.size);
    assert u.settled == s.settled + [d];
    Snoc(s.settled, d, SettledOb, SendOb(t));
  }

  /**
   A native completion settles the very send that it completes, exactly once: with the native result, and with the
   length of its datagram on success or 0 on failure.
   */
  lemma CompletionSettles(s: State, k: nat, err: Option<Error>)
    requires Inv(s) && k < |s.native.queue| && !s.native.exiting
    ensures s.native.queue[k].id in s.sends
    ensures var t, req := SendDone(s, k, err), s.sends[s.native.queue[k].id];
            && req.tok == s.native.queue[k].tok && s.native.queue[k].id !in t.sends
            && t.settled == s.settled + [Settled(req, err, if err.Some? then 0 else Total(req.list))]
  {
  }

  /** A send only ever moves forward: from the queue to a lookup to the native layer to being settled. */
  lemma StepForward(s: State, l: Label, o: Oracle, t: nat)
    requires Inv(s) && Enabled(s, l) && !s.native.exiting
    ensures Stage(s, t) <= Stage(Step(s, l, o), t)
  {
    hide Stage, FlushNext, AnswerLookup, SendDone, Inv;
    if IsApi(l) {
      ApiGrows(s, l, o);
      GrowsForward(s, Step(s, l, o), t);
    } else if l.DoAnswer? {
      AnswerForward(s, l.k, l.answer, o, t);
    } else if l.DoSendDone? {
      MirrorOfInv(s);
      SendDoneForward(s, l.k, l.err, t);
    } else if l.DoFlushNext? {
      FlushNextGrows(s, o);
      GrowsForward(s, FlushNext(s, o), t);
    } else {
      SameStage(s, Step(s, l, o), t);
    }
  }

  lemma MirrorOfInv(s: State)
    requires Inv(s) && !s.native.exiting
    ensures MirrorOk(s)
  {
  }

  lemma SameStage(s: State, u: State, t: nat)
    requires u.settled == s.settled && u.native.queue == s.native.queue && u.lookups == s.lookups
    ensures Stage(u, t) == Stage(s, t)
  {
  }

  /** In every run, the stage of a send never decreases. */
  lemma {:induction false} RunForward(family: nat, ss: seq<State>, moves: seq<Move>, i: nat, j: nat, t: nat)
    requires Run(family, ss, moves) && i <= j < |ss| && !ss[j].native.exiting
    ensures Stage(ss[i], t) <= Stage(ss[j], t)
    decreases j
  {
    hide Step, Inv, Stage, Enabled, WindowOk;
    if i < j {
      RunStep(family, ss, moves, j - 1);
      StaysExiting(ss[j - 1], moves[j - 1].step, moves[j - 1].oracle);
      RunInv(family, ss, moves, j - 1);
      StepForward(ss[j - 1], moves[j - 1].step, moves[j - 1].oracle, t);
      RunForward(family, ss, moves, i, j - 1, t);
    }
  }

  /**
   In every run, whatever hosts are given and whatever lookups answer: the addresses that reached the native layer
   are literals of the family passed with them and fit its buffer, and callbacks were told their size or 0.
   */
  lemma RunBoundary(family: nat, ss: seq<State>, moves: seq<Move>, i: nat)
    requires Run(family, ss, moves) && i < |ss|
    ensures forall k | 0 <= k < |ss[i].log| :: EventOk(ss[i].log[k])
    ensures forall k | 0 <= k < |ss[i].settled| :: SettledOk(ss[i].settled[k])
  {
    RunInv(family, ss, moves, i);
  }

  lemma StaysExiting(s: State, l: Label, o: Oracle)
    requires Enabled(s, l)
    ensures s.native.exiting ==> Step(s, l, o).native.exiting
  {
  }
}
