/**
 The bookkeeping of sends in flight: the ids in `_sends` are exactly the ids of the requests libuv holds, and a
 freshly drawn id never names a live entry as long as no send stays outstanding while 2^32 further ids are drawn.
 */
module Ledger {
  import N = Native
  import opened IpForm
  import opened IpAddress
  import opened Protocol

  function Ids(queue: seq<N.Block>): set<nat> {
    set b | b in queue :: b.id
  }

  ghost predicate Distinct(queue: seq<N.Block>) {
    forall i, j | 0 <= i < j < |queue| :: queue[i].id != queue[j].id
  }

  /** Every request remembers when its id was drawn. */
  ghost predicate DrawsOk(s: State) {
    && s.sendId == s.draws % ID_RANGE
    && forall i | 0 <= i < |s.native.queue| ::
         s.native.queue[i].draw < s.draws && s.native.queue[i].id == s.native.queue[i].draw % ID_RANGE
  }

  /** `_sends` mirrors the native queue. */
  ghost predicate MirrorOk(s: State) {
    && s.sends.Keys == Ids(s.native.queue)
    && Distinct(s.native.queue)
    && forall i | 0 <= i < |s.native.queue| ::
         s.native.queue[i].id in s.sends && s.sends[s.native.queue[i].id].tok == s.native.queue[i].tok
  }

  ghost predicate LedgerOk(s: State) {
    DrawsOk(s) && (!s.native.exiting ==> MirrorOk(s))
  }

  /** The assumption on the environment: no request is held while 2^32 ids are drawn after its own. */
  ghost predicate WindowOk(s: State) {
    forall i | 0 <= i < |s.native.queue| :: s.draws < s.native.queue[i].draw + ID_RANGE
  }

  predicate SameLedger(s: State, t: State) {
    && t.native.queue == s.native.queue && t.native.exiting == s.native.exiting
    && t.sends == s.sends && t.sendId == s.sendId && t.draws == s.draws
  }

  lemma SameResidue(a: int, b: int)
    ensures a % ID_RANGE == b % ID_RANGE <==> (b - a) % ID_RANGE == 0
  {
  }

  /** Which draws would collide: the id about to be drawn is live exactly when a live one is a multiple of 2^32 old. */
  lemma FreshIff(s: State)
    requires DrawsOk(s) && MirrorOk(s)
    ensures s.sendId !in s.sends <==>
            forall i | 0 <= i < |s.native.queue| :: (s.draws - s.native.queue[i].draw) % ID_RANGE != 0
  {
    var q := s.native.queue;
    forall i | 0 <= i < |q|
      ensures q[i].id == s.sendId <==> (s.draws - q[i].draw) % ID_RANGE == 0
    {
      SameResidue(q[i].draw, s.draws);
    }
    if s.sendId in s.sends {
      var b :| b in q && b.id == s.sendId;
      var i :| 0 <= i < |q| && q[i] == b;
    }
  }

  lemma WindowMeansFresh(s: State)
    requires DrawsOk(s) && MirrorOk(s) && WindowOk(s)
    ensures s.sendId !in s.sends
  {
    FreshIff(s);
    forall i | 0 <= i < |s.native.queue| ensures (s.draws - s.native.queue[i].draw) % ID_RANGE != 0 {
      assert 0 < s.draws - s.native.queue[i].draw < ID_RANGE;
    }
  }

  lemma HandOffMirror(s: State, req: Req, dest: Option<Dest>, o: Oracle)
    requires DrawsOk(s) && MirrorOk(s) && s.sendId !in s.sends
    ensures MirrorOk(HandOff(s, req, dest, o))
  {
    var t := HandOff(s, req, dest, o);
    if o.native.Queued? {
      var b := N.Block(s.native.mallocs, s.sendId, req.tok, s.draws);
      assert t.native.queue == s.native.queue + [b];
      assert Ids(t.native.queue) == Ids(s.native.queue) + {s.sendId};
      forall i | 0 <= i < |s.native.queue| ensures s.native.queue[i].id != s.sendId {
        assert s.native.queue[i] in s.native.queue;
      }
    } else {
      assert t.sends == s.sends;
    }
  }

  lemma HandOffDraws(s: State, req: Req, dest: Option<Dest>, o: Oracle)
    requires DrawsOk(s)
    ensures DrawsOk(HandOff(s, req, dest, o))
  {
  }

  lemma HandOffLedger(s: State, req: Req, dest: Option<Dest>, o: Oracle)
    requires LedgerOk(s) && WindowOk(s)
    ensures LedgerOk(HandOff(s, req, dest, o))
  {
    hide DrawsOk, MirrorOk, WindowOk;
    HandOffDraws(s, req, dest, o);
    if !s.native.exiting {
      WindowMeansFresh(s);
      HandOffMirror(s, req, dest, o);
    }
  }

  lemma SendResolvedLedger(s: State, req: Req, r: Resolution, o: Oracle)
    requires LedgerOk(s) && WindowOk(s)
    ensures LedgerOk(SendResolved(s, req, r, o))
  {
    if r.Resolved? && Live(s) {
      HandOffLedger(s, req, Some(Dest(req.port, r.host, r.family)), o);
    } else {
      assert SameLedger(s, SendResolved(s, req, r, o));
    }
  }

  lemma BindResolvedSame(s: State, port: int, r: Resolution, o: Oracle)
    ensures SameLedger(s, BindResolved(s, port, r, o))
  {
  }

  lemma ConnectResolvedSame(s: State, port: int, r: Resolution, o: Oracle)
    ensures SameLedger(s, ConnectResolved(s, port, r, o))
  {
  }

  lemma ContinueLedger(s: State, cont: Cont, r: Resolution, o: Oracle)
    requires LedgerOk(s) && WindowOk(s)
    ensures LedgerOk(Continue(s, cont, r, o))
  {
    match cont {
      case ForBind(port) => BindResolvedSame(s, port, r, o);
      case ForConnect(port) => ConnectResolvedSame(s, port, r, o);
      case ForSend(req) => SendResolvedLedger(s, req, r, o);
    }
  }

  lemma ResolveHostLedger(s: State, host: string, cont: Cont, o: Oracle)
    requires LedgerOk(s) && WindowOk(s)
    ensures LedgerOk(ResolveHost(s, host, cont, o))
  {
    if Family(host) != 0 {
      ContinueLedger(s, cont, Resolved(host, Family(host)), o);
    }
  }

  lemma RunWorkLedger(s: State, w: Work, err: Option<Error>, o: Oracle)
    requires LedgerOk(s) && WindowOk(s)
    ensures LedgerOk(RunWork(s, w, err, o))
  {
    if err.Some? || w.ResumeWork? {
      assert SameLedger(s, RunWork(s, w, err, o));
    } else if w.ConnectWork? {
      ResolveHostLedger(s, w.host, ForConnect(w.port), o);
    } else if w.req.connected {
      HandOffLedger(s, w.req, None, o);
    } else {
      ResolveHostLedger(s, if w.req.address != "" then w.req.address else Loopback(s), ForSend(w.req), o);
    }
  }

  lemma StartBindSame(s: State, port: int, host: string, o: Oracle)
    ensures SameLedger(s, StartBind(s, port, host, o))
  {
  }

  lemma BindMaybeLedger(s: State, w: Work, o: Oracle)
    requires LedgerOk(s) && WindowOk(s)
    ensures LedgerOk(BindMaybe(s, w, o))
  {
    if s.flags.bound {
      RunWorkLedger(s, w, None, o);
    } else {
      var s1 := s.(pending := s.pending + [w]);
      if !s.flags.binding {
        StartBindSame(s1, 0, Wildcard(s1), o);
      }
    }
  }

  lemma SendLedger(s: State, list: seq<seq<byte>>, port: int, address: string, cb: bool, o: Oracle)
    requires LedgerOk(s) && WindowOk(s)
    ensures LedgerOk(Outcome(s, Send(s, list, port, address, cb, o)))
  {
    hide BindMaybe, Send, SendThrows, Distinct;
    SendCases(s, list, port, address, cb, o);
    var s1 := s.(accepted := s.accepted + 1);
    BindMaybeLedger(s1, SendWork(NewReq(s, list, port, address, cb)), o);
  }

  lemma ConnectLedger(s: State, port: int, address: string, o: Oracle)
    requires LedgerOk(s) && WindowOk(s)
    ensures LedgerOk(Outcome(s, Connect(s, port, address, o)))
  {
    hide BindMaybe;
    BindMaybeLedger(s.(flags := s.flags.(connecting := true)),
                    ConnectWork(port, if address == "" then Loopback(s) else address), o);
  }

  lemma BindSame(s: State, port: int, address: string, o: Oracle)
    ensures SameLedger(s, Outcome(s, Bind(s, port, address, o)))
  {
    hide StartBind, HostOk;
    StartBindSame(s, port, if address == "" then Wildcard(s) else address, o);
  }

  lemma PlainSame(s: State, l: Label, o: Oracle)
    requires Enabled(s, l)
    requires l.ApiOpen? || l.ApiDisconnect? || l.ApiPause? || l.ApiClose? || l.ApiRef? || l.ApiUnref?
    ensures SameLedger(s, Step(s, l, o))
  {
    hide Bind, Connect, Send, Resume, FlushNext, FlushEnd, AnswerLookup, RunTask, SendDone, CloseDone, OnMessage;
  }

  lemma ApiLedger(s: State, l: Label, o: Oracle)
    requires LedgerOk(s) && WindowOk(s) && IsApi(l) && Enabled(s, l)
    ensures LedgerOk(Step(s, l, o))
  {
    hide BindMaybe, Bind, HostOk, Family, Send, Connect, Open, Disconnect, Pause, Close, Distinct;
    if l.ApiBind? {
      BindSame(s, l.port, l.address, o);
    } else if l.ApiConnect? {
      ConnectLedger(s, l.port, l.address, o);
    } else if l.ApiSend? {
      SendLedger(s, l.list, l.port, l.address, l.cb, o);
    } else if l.ApiResume? {
      BindMaybeLedger(s.(paused := false), ResumeWork, o);
    } else {
      PlainSame(s, l, o);
    }
  }

  // Completions

  lemma RemoveIds(queue: seq<N.Block>, k: nat)
    requires Distinct(queue) && k < |queue|
    ensures Distinct(N.Remove(queue, k))
    ensures Ids(N.Remove(queue, k)) == Ids(queue) - {queue[k].id}
  {
  }

  /** The guard of `_onsend` against an unknown id is never taken, and the request it finds is the right one. */
  lemma CompletionFindsItsSend(s: State, k: nat)
    requires MirrorOk(s) && k < |s.native.queue|
    ensures s.native.queue[k].id in s.sends && s.sends[s.native.queue[k].id].tok == s.native.queue[k].tok
  {
  }

  lemma SendDoneSends(s: State, k: nat, err: Option<Error>)
    requires MirrorOk(s) && k < |s.native.queue| && !s.native.exiting
    ensures var t := SendDone(s, k, err);
            t.native.queue == N.Remove(s.native.queue, k) && t.sends == s.sends - {s.native.queue[k].id}
  {
  }

  lemma SendDoneMirror(s: State, k: nat, err: Option<Error>)
    requires MirrorOk(s) && k < |s.native.queue| && !s.native.exiting
    ensures MirrorOk(SendDone(s, k, err))
  {
    hide Distinct;
    var q, rest := s.native.queue, N.Remove(s.native.queue, k);
    var t := SendDone(s, k, err);
    SendDoneSends(s, k, err);
    RemoveIds(q, k);
    forall i | 0 <= i < |rest| ensures rest[i].id in t.sends && t.sends[rest[i].id].tok == rest[i].tok {
      var j := if i < k then i else i + 1;
      assert rest[i] == q[j];
    }
  }

  lemma SendDoneLedger(s: State, k: nat, err: Option<Error>)
    requires LedgerOk(s) && k < |s.native.queue|
    ensures LedgerOk(SendDone(s, k, err))
  {
    hide MirrorOk;
    var q, rest := s.native.queue, N.Remove(s.native.queue, k);
    var t := SendDone(s, k, err);
    assert t.native.queue == rest && t.draws == s.draws && t.sendId == s.sendId;
    assert forall i | 0 <= i < |rest| :: rest[i] == q[if i < k then i else i + 1];
    if !s.native.exiting { SendDoneMirror(s, k, err); }
  }

  /** `_sends.clear()` discards nothing: by the time libuv reports the close, no send is in flight. */
  lemma ClearDiscardsNothing(s: State)
    requires MirrorOk(s) && N.CanClose(s.native)
    ensures s.sends == map[]
  {
    assert Ids([]) == {};
  }

  lemma OtherLedger(s: State, l: Label, o: Oracle)
    requires LedgerOk(s) && Enabled(s, l)
    requires l.DoFlushEnd? || l.DoTask? || l.DoCloseDone? || l.DoTeardown? || l.DoMessage?
    ensures LedgerOk(Step(s, l, o))
  {
    hide Bind, Open, Connect, Disconnect, Send, Pause, Resume, Close, SetUnrefed, FlushNext, AnswerLookup, SendDone,
         Distinct;
    if l.DoTeardown? {
      assert Step(s, l, o).native.queue == s.native.queue;
    } else {
      if l.DoCloseDone? && !s.native.exiting { ClearDiscardsNothing(s); }
      assert SameLedger(s, Step(s, l, o));
    }
  }

  lemma EnvironmentLedger(s: State, l: Label, o: Oracle)
    requires LedgerOk(s) && WindowOk(s) && !IsApi(l) && Enabled(s, l)
    ensures LedgerOk(Step(s, l, o))
  {
    hide RunWork, Continue, SendDone, Resolve, FlushEnd, RunTask, CloseDone, OnMessage, Distinct;
    if l.DoFlushNext? {
      var f := s.frames[0];
      RunWorkLedger(s.(frames := [f.(rest := f.rest[1..])] + s.frames[1..]), f.rest[0], f.err, o);
    } else if l.DoAnswer? {
      ContinueLedger(s.(lookups := N.Remove(s.lookups, l.k)), s.lookups[l.k].cont, Resolve(l.answer), o);
    } else if l.DoSendDone? {
      SendDoneLedger(s, l.k, l.err);
    } else {
      OtherLedger(s, l, o);
    }
  }
}
