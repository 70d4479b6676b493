/**
 Flushes with an error, whatever their callbacks do: API calls, binds that start and flush in between, and answers to
 lookups all leave the remaining closures of the flush to be called with its error. A failed bind's report and the end
 of a close are the two flushes of this kind.
 */
module Refusal {
  import N = Native
  import opened Sequences
  import opened IpForm
  import opened Protocol
  import opened Ledger
  import opened Invariant
  import opened Runs
  import opened Closing
  import opened Reentrancy
  import opened Containment

  /** `xs` in this order among the elements of `ys`. */
  ghost predicate Within<T(!new)>(xs: seq<T>, ys: seq<T>)
    decreases |xs|
  {
    xs == [] ||
    exists i :: 0 <= i < |ys| && ys[i] == xs[|xs| - 1] && Within(xs[..|xs| - 1], ys[..i])
  }

  lemma WithinGrows<T(!new)>(xs: seq<T>, ys: seq<T>, zs: seq<T>)
    requires Within(xs, ys) && ys <= zs
    ensures Within(xs, zs)
  {
    if xs != [] {
      var i :| 0 <= i < |ys| && ys[i] == xs[|xs| - 1] && Within(xs[..|xs| - 1], ys[..i]);
      assert zs[..i] == ys[..i] && zs[i] == ys[i];
    }
  }

  lemma WithinSnoc<T(!new)>(xs: seq<T>, ys: seq<T>, x: T)
    requires Within(xs, ys)
    ensures Within(xs + [x], ys + [x])
  {
    assert (xs + [x])[..|xs|] == xs && (ys + [x])[..|ys|] == ys;
    assert (ys + [x])[|ys|] == x;
  }

  lemma {:induction false} WithinHas<T(!new)>(xs: seq<T>, ys: seq<T>, k: nat)
    requires Within(xs, ys) && k < |xs|
    ensures xs[k] in ys
    decreases |xs|
  {
    var i :| 0 <= i < |ys| && ys[i] == xs[|xs| - 1] && Within(xs[..|xs| - 1], ys[..i]);
    if k < |xs| - 1 {
      WithinHas(xs[..|xs| - 1], ys[..i], k);
      assert xs[..|xs| - 1][k] in ys[..i];
    }
  }

  function RefusedOne(w: Work, err: Error): seq<Settled> {
    if w.SendWork? then [Settled(w.req, Some(err), 0)] else []
  }

  lemma RefusedCons(ws: seq<Work>, err: Error)
    requires ws != []
    ensures Refused(ws, err) == RefusedOne(ws[0], err) + Refused(ws[1..], err)
  {
  }

  lemma {:induction false} RefusedSnoc(ws: seq<Work>, w: Work, err: Error)
    ensures Refused(ws + [w], err) == Refused(ws, err) + Refused([w], err)
  {
    if ws == [] {
      assert [] + [w] == [w] && [] + Refused([w], err) == Refused([w], err);
    } else {
      RefusedCons(ws + [w], err);
      RefusedCons(ws, err);
      assert (ws + [w])[1..] == ws[1..] + [w];
      RefusedSnoc(ws[1..], w, err);
      Bracket(RefusedOne(ws[0], err), Refused(ws[1..], err), Refused([w], err));
    }
  }

  lemma {:induction false} RefusedHas(ws: seq<Work>, err: Error, k: nat)
    requires k < |ws| && ws[k].SendWork?
    ensures Settled(ws[k].req, Some(err), 0) in Refused(ws, err)
  {
    if k > 0 { RefusedHas(ws[1..], err, k - 1); }
  }

  /** The outermost flush calls `ws` with `err`; the first `n` have been called, and their sends settled in order. */
  ghost predicate Refusing(s: State, ws: seq<Work>, err: Error, tail: Tail, n: nat) {
    && s.frames != [] && n <= |ws|
    && s.frames[|s.frames| - 1] == Frame(Some(err), ws[n..], tail)
    && Within(Refused(ws[..n], err), s.settled)
  }

  /** Whether a step is a turn of the outermost flush, or its end. */
  predicate Turns(s: State, l: Label) { l.DoFlushNext? && |s.frames| == 1 }

  predicate Ends(s: State, l: Label) { l.DoFlushEnd? && |s.frames| == 1 }

  lemma StillRefusing(s: State, t: State, ws: seq<Work>, err: Error, tail: Tail, n: nat)
    requires Refusing(s, ws, err, tail, n) && s.settled <= t.settled && t.frames != []
    requires t.frames[|t.frames| - 1] == s.frames[|s.frames| - 1]
    ensures Refusing(t, ws, err, tail, n)
  {
    hide Refused, Within;
    WithinGrows(Refused(ws[..n], err), s.settled, t.settled);
  }

  lemma BottomStays(s: State, t: State)
    requires s.frames != [] && LivePush(s, t)
    ensures t.frames != [] && t.frames[|t.frames| - 1] == s.frames[|s.frames| - 1]
  {
    if t.frames != s.frames { assert t.frames[1..][|s.frames| - 1] == t.frames[|t.frames| - 1]; }
  }

  lemma ApiRefusing(s: State, l: Label, o: Oracle, ws: seq<Work>, err: Error, tail: Tail, n: nat)
    requires Refusing(s, ws, err, tail, n) && IsApi(l) && Enabled(s, l)
    ensures Refusing(Step(s, l, o), ws, err, tail, n)
  {
    hide Refusing, Bind, Connect, Send, Resume, Open, Enabled;
    assert s.frames != [] by { NotEmpty(s, ws, err, tail, n); }
    ApiGrows(s, l, o);
    if !l.ApiClose? {
      ApiFrames(s, l, o);
      BottomStays(s, Step(s, l, o));
    }
    StillRefusing(s, Step(s, l, o), ws, err, tail, n);
  }

  lemma NotEmpty(s: State, ws: seq<Work>, err: Error, tail: Tail, n: nat)
    requires Refusing(s, ws, err, tail, n)
    ensures s.frames != []
  {
  }

  /** A turn of a flush further in. */
  lemma InnerTurn(s: State, o: Oracle, ws: seq<Work>, err: Error, tail: Tail, n: nat)
    requires Refusing(s, ws, err, tail, n) && |s.frames| > 1 && s.frames[0].rest != []
    ensures Refusing(FlushNext(s, o), ws, err, tail, n)
  {
    hide RunWork, Refused, Within;
    var f := s.frames[0];
    RunWorkFrames(s.(frames := [f.(rest := f.rest[1..])] + s.frames[1..]), f.rest[0], f.err, o);
    FlushNextGrows(s, o);
    StillRefusing(s, FlushNext(s, o), ws, err, tail, n);
  }

  /** A turn of the refusing flush itself: the next closure is called with `err`. */
  lemma OwnTurn(s: State, o: Oracle, ws: seq<Work>, err: Error, tail: Tail, n: nat)
    requires Refusing(s, ws, err, tail, n) && |s.frames| == 1 && s.frames[0].rest != []
    ensures n < |ws| && Refusing(FlushNext(s, o), ws, err, tail, n + 1)
    ensures ws[n].ConnectWork? ==> !FlushNext(s, o).flags.connecting
  {
    hide FlushNext, Refused, Within;
    RefuseOne(s, o);
    var t := FlushNext(s, o);
    assert ws[n..][..1] == [ws[n]] && ws[n..][1..] == ws[n + 1..];
    assert ws[..n + 1] == ws[..n] + [ws[n]];
    RefusedSnoc(ws[..n], ws[n], err);
    WithinRefused(Refused(ws[..n], err), s.settled, ws[n], err);
  }

  lemma WithinRefused(xs: seq<Settled>, ys: seq<Settled>, w: Work, err: Error)
    requires Within(xs, ys)
    ensures Within(xs + Refused([w], err), ys + Refused([w], err))
  {
    assert Refused([w], err) == if w.SendWork? then [Settled(w.req, Some(err), 0)] else [] by {
      assert [w][1..] == [];
    }
    hide Refused, Within;
    if w.SendWork? {
      WithinSnoc(xs, ys, Settled(w.req, Some(err), 0));
    } else {
      assert xs + [] == xs && ys + [] == ys;
    }
  }

  lemma InnerEnd(s: State, ws: seq<Work>, err: Error, tail: Tail, n: nat)
    requires Refusing(s, ws, err, tail, n) && |s.frames| > 1 && s.frames[0].rest == []
    ensures Refusing(FlushEnd(s), ws, err, tail, n)
  {
    hide Refused, Within;
    StillRefusing(s, FlushEnd(s), ws, err, tail, n);
  }

  lemma OwnEnd(s: State, ws: seq<Work>, err: Error, tail: Tail, n: nat)
    requires Refusing(s, ws, err, tail, n) && |s.frames| == 1 && s.frames[0].rest == []
    ensures s.frames[0] == Frame(Some(err), [], tail) && FlushEnd(s).frames == []
    ensures Within(Refused(ws, err), FlushEnd(s).settled)
  {
    hide Refused, Within;
    assert n == |ws| && ws[..n] == ws;
  }

  lemma AnswerRefusing(s: State, k: nat, answer: Answer, o: Oracle, ws: seq<Work>, err: Error, tail: Tail, n: nat)
    requires Refusing(s, ws, err, tail, n) && k < |s.lookups|
    ensures Refusing(AnswerLookup(s, k, answer, o), ws, err, tail, n)
  {
    hide Continue, Resolve, Refused, Within;
    var s1 := s.(lookups := N.Remove(s.lookups, k));
    ContinuePush(s1, s.lookups[k].cont, Resolve(answer), o);
    ContinueGrows(s1, s.lookups[k].cont, Resolve(answer), o);
    BottomStays(s1, AnswerLookup(s, k, answer, o));
    StillRefusing(s, AnswerLookup(s, k, answer, o), ws, err, tail, n);
  }

  /**
   Every step leaves a refusing flush as it is, calls its next closure with the error of the flush, or ends it with
   all of its sends settled by that error, in order. A queued connect clears CONNECTING when its closure is called.
   */
  lemma RefusingStep(s: State, l: Label, o: Oracle, ws: seq<Work>, err: Error, tail: Tail, n: nat)
    requires Inv(s) && Enabled(s, l) && Refusing(s, ws, err, tail, n)
    ensures var t := Step(s, l, o);
            if Turns(s, l) then
              && n < |ws| && Refusing(t, ws, err, tail, n + 1)
              && (ws[n].ConnectWork? ==> !t.flags.connecting)
            else if Ends(s, l) then
              && t == FlushEnd(s) && s.frames == [Frame(Some(err), [], tail)] && t.frames == []
              && Within(Refused(ws, err), t.settled)
            else Refusing(t, ws, err, tail, n)
  {
    NotEmpty(s, ws, err, tail, n);
    NotExiting(s);
    hide Refusing, Inv, FlushNext, FlushEnd, AnswerLookup, Within;
    if IsApi(l) {
      ApiRefusing(s, l, o, ws, err, tail, n);
    } else if l.DoFlushNext? {
      if |s.frames| == 1 { OwnTurn(s, o, ws, err, tail, n); } else { InnerTurn(s, o, ws, err, tail, n); }
    } else if l.DoFlushEnd? {
      if |s.frames| == 1 { OwnEnd(s, ws, err, tail, n); } else { InnerEnd(s, ws, err, tail, n); }
    } else {
      AnswerRefusing(s, l.k, l.answer, o, ws, err, tail, n);
    }
  }

  lemma NotExiting(s: State)
    requires Inv(s) && s.frames != []
    ensures !s.native.exiting
  {
  }

  /** From `i` on flush loops are in progress, until at `j` there are none. */
  ghost predicate FlushesUntil(ss: seq<State>, i: nat, j: nat)
    requires i <= j < |ss|
  {
    ss[j].frames == [] && forall k | i <= k < j :: ss[k].frames != []
  }

  /** In every run, a refusing flush ends with every send it had to call settled by its error, in order. */
  lemma {:induction false} RunRefuses(family: nat, ss: seq<State>, moves: seq<Move>, i: nat, j: nat,
                                      ws: seq<Work>, err: Error, tail: Tail, n: nat)
    requires Run(family, ss, moves) && i <= j < |ss| && FlushesUntil(ss, i, j)
    requires Refusing(ss[i], ws, err, tail, n)
    ensures i < j && Within(Refused(ws, err), ss[j].settled)
    ensures ss[j - 1].frames == [Frame(Some(err), [], tail)] && ss[j] == FlushEnd(ss[j - 1])
    decreases j - i
  {
    NotEmpty(ss[i], ws, err, tail, n);
    hide Step, Inv, Refusing, Enabled, WindowOk, Within, FlushEnd;
    RunInv(family, ss, moves, i);
    RunStep(family, ss, moves, i);
    var l := moves[i].step;
    RefusingStep(ss[i], l, moves[i].oracle, ws, err, tail, n);
    if !Ends(ss[i], l) {
      RunRefuses(family, ss, moves, i + 1, j, ws, err, tail, if Turns(ss[i], l) then n + 1 else n);
    }
  }

  lemma Begins(s: State, ws: seq<Work>, err: Error, tail: Tail)
    requires s.frames == [Frame(Some(err), ws, tail)]
    ensures Refusing(s, ws, err, tail, 0)
  {
    assert ws[0..] == ws && Refused(ws[..0], err) == [];
  }

  /** `ws` refused with `err`, in order, which settles each of its sends. */
  ghost predicate AllRefused(ws: seq<Work>, err: Error, settled: seq<Settled>) {
    && Within(Refused(ws, err), settled)
    && forall k | 0 <= k < |ws| && ws[k].SendWork? :: Settled(ws[k].req, Some(err), 0) in settled
  }

  lemma RefusesAll(ws: seq<Work>, err: Error, settled: seq<Settled>)
    requires Within(Refused(ws, err), settled)
    ensures AllRefused(ws, err, settled)
  {
    forall k | 0 <= k < |ws| && ws[k].SendWork? ensures Settled(ws[k].req, Some(err), 0) in settled {
      RefusedHas(ws, err, k);
      var m :| 0 <= m < |Refused(ws, err)| && Refused(ws, err)[m] == Settled(ws[k].req, Some(err), 0);
      WithinHas(Refused(ws, err), settled, m);
    }
  }

  /**
   The report of a failed bind in any run, whatever its callbacks do: by the time no flush is in progress any more,
   every send that was queued is settled with the error of that bind, in the order of the calls, and the error has
   then been emitted unless the socket is closed.
   */
  lemma ReportRefuses(family: nat, ss: seq<State>, moves: seq<Move>, i: nat, j: nat, err: Error)
    requires Run(family, ss, moves) && i < j < |ss| && FlushesUntil(ss, i + 1, j)
    requires moves[i].step.DoTask? && ss[i].tasks != [] && ss[i].tasks[0] == BindFailed(err)
    ensures AllRefused(ss[i].pending, err, ss[j].settled)
    ensures ss[j].log == ss[j - 1].log + if ss[j - 1].flags.closed then [] else [EmitError(err)]
  {
    hide Refused, Within, AllRefused, Refusing, WindowOk;
    RunStep(family, ss, moves, i);
    Begins(ss[i + 1], ss[i].pending, err, ThenReport(err));
    RunRefuses(family, ss, moves, i + 1, j, ss[i].pending, err, ThenReport(err), 0);
    RefusesAll(ss[i].pending, err, ss[j].settled);
  }

  /**
   The end of a close in any run, whatever callbacks do: every send that was still queued is settled with
   SOCKET_IS_CLOSED, in the order of the calls, and then `close` is emitted and every `onclose` runs.
   */
  lemma CloseRefuses(family: nat, ss: seq<State>, moves: seq<Move>, i: nat, j: nat)
    requires Run(family, ss, moves) && i < j < |ss| && FlushesUntil(ss, i + 1, j)
    requires moves[i].step.DoCloseDone? && !ss[i].native.exiting
    ensures AllRefused(ss[i].pending, SocketClosed, ss[j].settled)
    ensures ss[j].log == ss[j - 1].log + [EmitClose] + Ran(ss[j - 1].listeners) && ss[j].listeners == []
  {
    hide Refused, Within, AllRefused, Refusing, WindowOk;
    RunStep(family, ss, moves, i);
    Begins(ss[i + 1], ss[i].pending, SocketClosed, ThenClose);
    RunRefuses(family, ss, moves, i + 1, j, ss[i].pending, SocketClosed, ThenClose, 0);
    RefusesAll(ss[i].pending, SocketClosed, ss[j].settled);
  }
}
