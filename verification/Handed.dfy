/** An accepted send is handed to the native layer at most once, in every run and whatever callbacks do. */
module Handed {
  import N = Native
  import opened IpForm
  import opened IpAddress
  import opened Protocol
  import opened Obligations
  import opened Ledger
  import opened Invariant
  import opened Drain
  import opened Runs
  import opened Provenance

  function CallOb(e: Event, t: nat): nat { if e.SendCall? && e.req.tok == t then 1 else 0 }

  /** How often send `t` was handed to the native layer. */
  function Calls(s: State, t: nat): nat { Sum(s.log, CallOb, t) }

  function Handled(s: State, t: nat): nat { InFlight(s, t) + TimesSettled(s, t) }

  /** Every new call is matched by a request in flight or a settled send. */
  ghost predicate Covered(s: State, u: State, t: nat) {
    Calls(u, t) + Handled(s, t) <= Calls(s, t) + Handled(u, t)
  }

  ghost predicate NoCalls(s: State, u: State) {
    s.log <= u.log && forall i | |s.log| <= i < |u.log| :: !u.log[i].SendCall?
  }

  lemma QuietCovered(s: State, u: State, t: nat)
    requires s.native.queue <= u.native.queue && s.settled <= u.settled && NoCalls(s, u)
    ensures Covered(s, u, t)
  {
    hide Sum;
    var es := u.log[|s.log|..];
    assert u.log == s.log + es;
    SumAppend(s.log, es, CallOb, t);
    SumZero(es, CallOb, t);
    SumPrefix(s.native.queue, u.native.queue, BlockOb, SendOb(t));
    SumPrefix(s.settled, u.settled, SettledOb, SendOb(t));
  }

  lemma HandOffCovered(s: State, req: Req, dest: Option<Dest>, o: Oracle, t: nat)
    ensures Covered(s, HandOff(s, req, dest, o), t)
  {
    hide Sum;
    var e := SendCall(req, s.sendId, dest);
    var u := HandOff(s, req, dest, o);
    Snoc(s.log, e, CallOb, t);
    if o.native.Queued? {
      Snoc(s.native.queue, N.Block(s.native.mallocs, s.sendId, req.tok, s.draws), BlockOb, SendOb(t));
    } else {
      var err := NativeError(o.native.code);
      Snoc(s.settled, Settled(req, Some(err), 0), SettledOb, SendOb(t));
      Snoc(s.log + [e], EmitError(err), CallOb, t);
    }
  }

  lemma ContinueCovered(s: State, cont: Cont, r: Resolution, o: Oracle, t: nat)
    ensures Covered(s, Continue(s, cont, r, o), t)
  {
    hide HandOff, Covered;
    if cont.ForSend? && r.Resolved? && Live(s) {
      HandOffCovered(s, cont.req, Some(Dest(cont.req.port, r.host, r.family)), o, t);
    } else {
      ContinueGrows(s, cont, r, o);
      QuietCovered(s, Continue(s, cont, r, o), t);
    }
  }

  lemma ResolveHostCovered(s: State, host: string, cont: Cont, o: Oracle, t: nat)
    ensures Covered(s, ResolveHost(s, host, cont, o), t)
  {
    hide Continue, Covered, Family;
    if Family(host) != 0 {
      ContinueCovered(s, cont, Resolved(host, Family(host)), o, t);
    } else {
      ResolveHostGrows(s, host, cont, o);
      QuietCovered(s, ResolveHost(s, host, cont, o), t);
    }
  }

  lemma RunWorkCovered(s: State, w: Work, err: Option<Error>, o: Oracle, t: nat)
    ensures Covered(s, RunWork(s, w, err, o), t)
  {
    hide ResolveHost, HandOff, Covered, Loopback;
    if w.SendWork? && err.None? {
      if w.req.connected {
        HandOffCovered(s, w.req, None, o, t);
      } else {
        ResolveHostCovered(s, if w.req.address != "" then w.req.address else Loopback(s), ForSend(w.req), o, t);
      }
    } else if w.ConnectWork? && err.None? {
      ResolveHostCovered(s, w.host, ForConnect(w.port), o, t);
    } else {
      RunWorkGrows(s, w, err, o);
      QuietCovered(s, RunWork(s, w, err, o), t);
    }
  }

  /** `Covered` looks at nothing else. */
  lemma CoveredFrom(s: State, s1: State, u: State, t: nat)
    requires s1.log == s.log && s1.native.queue == s.native.queue && s1.settled == s.settled && Covered(s1, u, t)
    ensures Covered(s, u, t)
  {
  }

  lemma StartBindCovered(s: State, port: int, host: string, o: Oracle, t: nat)
    ensures Covered(s, StartBind(s, port, host, o), t)
  {
    hide ResolveHost, Covered;
    var s1 := s.(flags := s.flags.(binding := true));
    ResolveHostCovered(s1, host, ForBind(port), o, t);
    CoveredFrom(s, s1, StartBind(s, port, host, o), t);
  }

  lemma BindMaybeCovered(s: State, w: Work, o: Oracle, t: nat)
    ensures Covered(s, BindMaybe(s, w, o), t)
  {
    hide RunWork, StartBind, Covered, Wildcard;
    if s.flags.bound {
      RunWorkCovered(s, w, None, o, t);
    } else {
      var s1 := s.(pending := s.pending + [w]);
      if s.flags.binding { QuietCovered(s, s1, t); } else { StartBindCovered(s1, 0, Wildcard(s1), o, t); }
      CoveredFrom(s, s1, BindMaybe(s, w, o), t);
    }
  }

  lemma SendCovered(s: State, list: seq<seq<byte>>, port: int, address: string, cb: bool, o: Oracle, t: nat)
    ensures Covered(s, Outcome(s, Send(s, list, port, address, cb, o)), t)
  {
    hide BindMaybe, Send, SendThrows, Covered;
    SendCases(s, list, port, address, cb, o);
    if SendThrows(s, port, address).None? {
      var s1 := s.(accepted := s.accepted + 1);
      var w := SendWork(NewReq(s, list, port, address, cb));
      BindMaybeCovered(s1, w, o, t);
      CoveredFrom(s, s1, BindMaybe(s1, w, o), t);
    } else {
      QuietCovered(s, s, t);
    }
  }

  lemma ConnectCovered(s: State, port: int, address: string, o: Oracle, t: nat)
    ensures Covered(s, Outcome(s, Connect(s, port, address, o)), t)
  {
    hide BindMaybe, HostOk, Loopback, Covered;
    var s1 := s.(flags := s.flags.(connecting := true));
    var w := ConnectWork(port, if address == "" then Loopback(s) else address);
    QuietCovered(s, s, t);
    BindMaybeCovered(s1, w, o, t);
    CoveredFrom(s, s1, BindMaybe(s1, w, o), t);
  }

  lemma BindCovered(s: State, port: int, address: string, o: Oracle, t: nat)
    ensures Covered(s, Outcome(s, Bind(s, port, address, o)), t)
  {
    hide StartBind, HostOk, Wildcard, Covered;
    QuietCovered(s, s, t);
    StartBindCovered(s, port, if address == "" then Wildcard(s) else address, o, t);
  }

  lemma ResumeCovered(s: State, o: Oracle, t: nat)
    ensures Covered(s, Resume(s, o), t)
  {
    hide BindMaybe, Covered;
    var s1 := s.(paused := false);
    QuietCovered(s, s1, t);
    BindMaybeCovered(s1, ResumeWork, o, t);
    CoveredFrom(s, s1, BindMaybe(s1, ResumeWork, o), t);
  }

  lemma ApiCovered(s: State, l: Label, o: Oracle, t: nat)
    requires IsApi(l) && Enabled(s, l)
    ensures Covered(s, Step(s, l, o), t)
  {
    hide Bind, Connect, Send, Resume, Covered;
    if l.ApiBind? {
      BindCovered(s, l.port, l.address, o, t);
    } else if l.ApiConnect? {
      ConnectCovered(s, l.port, l.address, o, t);
    } else if l.ApiSend? {
      SendCovered(s, l.list, l.port, l.address, l.cb, o, t);
    } else if l.ApiResume? {
      ResumeCovered(s, o, t);
    } else {
      QuietCovered(s, Step(s, l, o), t);
    }
  }

  lemma SendDoneCovered(s: State, k: nat, err: Option<Error>, t: nat)
    requires Inv(s) && k < |s.native.queue| && !s.native.exiting
    ensures Covered(s, SendDone(s, k, err), t)
  {
    CompletionSettles(s, k, err);
    hide Sum, Inv;
    var u, req := SendDone(s, k, err), s.sends[s.native.queue[k].id];
    SumRemove(s.native.queue, k, BlockOb, SendOb(t));
    Snoc(s.settled, Settled(req, err, if err.Some? then 0 else Total(req.list)), SettledOb, SendOb(t));
    if u.log != s.log { Snoc(s.log, u.log[|s.log|], CallOb, t); }
  }

  lemma EnvironmentCovered(s: State, l: Label, o: Oracle, t: nat)
    requires Inv(s) && !IsApi(l) && Enabled(s, l) && !s.native.exiting
    ensures Covered(s, Step(s, l, o), t)
  {
    hide RunWork, Continue, Covered, Inv, SendDone, Resolve;
    if l.DoFlushNext? {
      var f := s.frames[0];
      var s1 := s.(frames := [f.(rest := f.rest[1..])] + s.frames[1..]);
      RunWorkCovered(s1, f.rest[0], f.err, o, t);
      CoveredFrom(s, s1, Step(s, l, o), t);
    } else if l.DoAnswer? {
      var s1 := s.(lookups := N.Remove(s.lookups, l.k));
      ContinueCovered(s1, s.lookups[l.k].cont, Resolve(l.answer), o, t);
      CoveredFrom(s, s1, Step(s, l, o), t);
    } else if l.DoSendDone? {
      SendDoneCovered(s, l.k, l.err, t);
    } else {
      OtherCovered(s, l, o, t);
    }
  }

  lemma OtherCovered(s: State, l: Label, o: Oracle, t: nat)
    requires Enabled(s, l)
    requires l.DoFlushEnd? || l.DoTask? || l.DoCloseDone? || l.DoTeardown? || l.DoMessage?
    ensures Covered(s, Step(s, l, o), t)
  {
    hide Covered, Bind, Open, Connect, Disconnect, Send, Pause, Resume, Close, SetUnrefed, FlushNext, AnswerLookup,
         SendDone;
    QuietCovered(s, Step(s, l, o), t);
  }

  /** At most one call, and none that is neither in flight nor settled. */
  ghost predicate HandedOnce(s: State) {
    forall t: nat :: Calls(s, t) <= 1 && (!s.native.exiting ==> Calls(s, t) <= Handled(s, t))
  }

  lemma StepHanded(s: State, l: Label, o: Oracle)
    requires Inv(s) && WindowOk(s) && Enabled(s, l) && HandedOnce(s)
    ensures HandedOnce(Step(s, l, o))
  {
    var u := Step(s, l, o);
    StepInv(s, l, o);
    forall t: nat ensures Calls(u, t) <= 1 && (!u.native.exiting ==> Calls(u, t) <= Handled(u, t)) {
      StepHandedFor(s, l, o, t);
    }
  }

  lemma StepHandedFor(s: State, l: Label, o: Oracle, t: nat)
    requires Inv(s) && Enabled(s, l) && HandedOnce(s) && Inv(Step(s, l, o))
    ensures var u := Step(s, l, o); Calls(u, t) <= 1 && (!u.native.exiting ==> Calls(u, t) <= Handled(u, t))
  {
    hide Step, Inv, Sum, Handled, Enabled;
    var u := Step(s, l, o);
    assert Calls(s, t) <= 1 && (!s.native.exiting ==> Calls(s, t) <= Handled(s, t));
    if s.native.exiting || l.DoTeardown? {
      NothingLogged(s, l, o);
    } else {
      if IsApi(l) { ApiCovered(s, l, o, t); } else { EnvironmentCovered(s, l, o, t); }
      StepAccepts(s, l, o);
      AtMostOnce(u, t);
      assert Covered(s, u, t);
    }
  }

  lemma NothingLogged(s: State, l: Label, o: Oracle)
    requires Inv(s) && Enabled(s, l) && (s.native.exiting || l.DoTeardown?)
    ensures Step(s, l, o).log == s.log && Step(s, l, o).native.exiting
  {
  }

  lemma AtMostOnce(s: State, t: nat)
    requires Inv(s) && !s.native.exiting
    ensures Handled(s, t) <= 1
  {
    OnePlace(s, t);
  }

  /** In every run, whatever callbacks do, no accepted send is handed to the native layer twice. */
  lemma {:induction false} RunHanded(family: nat, ss: seq<State>, moves: seq<Move>, i: nat)
    requires Run(family, ss, moves) && i < |ss|
    ensures HandedOnce(ss[i])
  {
    hide Step, Inv, Enabled, WindowOk, HandedOnce;
    if i == 0 {
      assert HandedOnce(Init(family)) by { NothingHanded(family); }
    } else {
      RunInv(family, ss, moves, i - 1);
      RunStep(family, ss, moves, i - 1);
      RunHanded(family, ss, moves, i - 1);
      StepHanded(ss[i - 1], moves[i - 1].step, moves[i - 1].oracle);
    }
  }

  lemma NothingHanded(family: nat)
    ensures HandedOnce(Init(family))
  {
  }
}
