/**
 Callbacks that call back into the socket while a flush is in progress. Everything in `Inv` holds whatever they
 do; READING is the exception. If no callback closes the socket in the middle of a flush, READING implies BOUND in
 every state; and a run in which one does shows that the hypothesis is needed.
 */
module Reentrancy {
  import N = Native
  import opened IpForm
  import opened IpAddress
  import opened Protocol
  import opened Control
  import opened Boundary
  import opened Conservation
  import opened Invariant
  import opened Closing
  import opened Gating

  /** close() is never called while a flush is in progress. */
  ghost predicate NoCloseInFlush(ss: seq<State>, moves: seq<Move>)
    requires |ss| == |moves| + 1
  {
    forall i | 0 <= i < |moves| :: moves[i].step.ApiClose? ==> ss[i].frames == []
  }

  /** The flush of a successful bind runs on a live socket. */
  ghost predicate FlushLive(s: State) {
    forall i | 0 <= i < |s.frames| :: s.frames[i].tail.ThenListening? ==> Live(s)
  }

  lemma ApiFrames(s: State, l: Label, o: Oracle)
    requires IsApi(l) && Enabled(s, l) && !l.ApiClose?
    ensures LivePush(s, Step(s, l, o))
  {
    hide Bind, Connect, Send, Resume;
    if l.ApiBind? {
      BindPush(s, l.port, l.address, o);
    } else if l.ApiConnect? {
      ConnectPush(s, l.port, l.address, o);
    } else if l.ApiSend? {
      SendPush(s, l.list, l.port, l.address, l.cb, o);
    } else if l.ApiResume? {
      ResumePush(s, o);
    }
  }

  lemma PushLive(s: State, t: State)
    requires FlushLive(s) && LivePush(s, t) && (Live(s) ==> Live(t))
    ensures FlushLive(t)
  {
  }

  lemma FlushNextLive(s: State, o: Oracle)
    requires FlushLive(s) && s.frames != [] && s.frames[0].rest != []
    ensures FlushLive(FlushNext(s, o))
  {
    hide RunWork;
    var f := s.frames[0];
    var s1 := s.(frames := [f.(rest := f.rest[1..])] + s.frames[1..]);
    RunWorkFrames(s1, f.rest[0], f.err, o);
    RunWorkFlags(s1, f.rest[0], f.err, o);
    assert FlushNext(s, o).frames == s1.frames;
    assert forall i | 0 <= i < |s1.frames| :: s1.frames[i].tail == s.frames[i].tail;
  }

  lemma AnswerLive(s: State, k: nat, answer: Answer, o: Oracle)
    requires FlushLive(s) && k < |s.lookups|
    ensures FlushLive(AnswerLookup(s, k, answer, o))
  {
    hide Continue;
    var s1 := s.(lookups := N.Remove(s.lookups, k));
    ContinuePush(s1, s.lookups[k].cont, Resolve(answer), o);
    ContinueFlags(s1, s.lookups[k].cont, Resolve(answer), o);
    assert FlushLive(s1);
    PushLive(s1, AnswerLookup(s, k, answer, o));
  }

  lemma FlushEndLive(s: State)
    requires FlushLive(s) && s.frames != [] && s.frames[0].rest == []
    ensures FlushLive(FlushEnd(s))
  {
    var t := FlushEnd(s);
    assert forall i | 0 <= i < |t.frames| :: t.frames[i] == s.frames[i + 1];
  }

  lemma OtherLive(s: State, l: Label, o: Oracle)
    requires FlushLive(s) && Enabled(s, l)
    requires l.DoTask? || l.DoSendDone? || l.DoCloseDone? || l.DoTeardown? || l.DoMessage?
    ensures FlushLive(Step(s, l, o))
  {
    hide Bind, Open, Connect, Disconnect, Send, Pause, Resume, Close, SetUnrefed, FlushNext, FlushEnd, AnswerLookup;
  }

  lemma StepFlushLive(s: State, l: Label, o: Oracle)
    requires Inv(s) && FlushLive(s) && Enabled(s, l) && (l.ApiClose? ==> s.frames == [])
    ensures FlushLive(Step(s, l, o))
  {
    hide FlushNext, AnswerLookup, Inv;
    if l.ApiClose? {
      assert Step(s, l, o).frames == [];
    } else if IsApi(l) {
      ApiFrames(s, l, o);
      if Live(s) { StaysLive(s, l, o); }
      PushLive(s, Step(s, l, o));
    } else if l.DoFlushNext? {
      FlushNextLive(s, o);
    } else if l.DoAnswer? {
      AnswerLive(s, l.k, l.answer, o);
    } else if l.DoFlushEnd? {
      FlushEndLive(s);
    } else {
      OtherLive(s, l, o);
    }
  }

  /** No resume is called too late when the flush of a bind runs on a live socket. */
  lemma NeverTooLate(s: State, l: Label)
    requires Inv(s) && FlushLive(s)
    ensures !ResumesTooLate(s, l)
  {
    assert s.frames != [] ==> FrameOk(s, s.frames[0]);
  }

  lemma NothingReading(family: nat)
    ensures ReadingOk(Init(family)) && FlushLive(Init(family))
  {
  }

  /** In every run in which no callback closes the socket during a flush, READING implies BOUND throughout. */
  lemma {:induction false} ReadingSafe(family: nat, ss: seq<State>, moves: seq<Move>, i: nat)
    requires Run(family, ss, moves) && NoCloseInFlush(ss, moves) && i < |ss|
    ensures ReadingOk(ss[i]) && FlushLive(ss[i])
    ensures !Live(ss[i]) ==> !ss[i].flags.reading
  {
    hide Step, Inv, FlushLive, ReadingOk, Enabled, Init;
    RunInv(family, ss, moves, i);
    if i == 0 {
      NothingReading(family);
    } else {
      var s, l, o := ss[i - 1], moves[i - 1].step, moves[i - 1].oracle;
      RunInv(family, ss, moves, i - 1);
      RunStep(family, ss, moves, i - 1);
      ReadingSafe(family, ss, moves, i - 1);
      NeverTooLate(s, l);
      ReadingIff(s, l, o);
      StepFlushLive(s, l, o);
    }
    EndedNotReading(ss[i]);
  }

  lemma EndedNotReading(s: State)
    requires Inv(s) && ReadingOk(s)
    ensures !Live(s) ==> !s.flags.reading
  {
  }

  // Why the hypothesis is needed

  const CALM := Oracle(N.Queued, 4)
  const FAILING := Oracle(N.Rejected(-1), 4)

  const REQ := Req(0, [], 0, 9, "127.0.0.1", false, true)

  /** A bind that waits for its lookup. */
  function S1(): State {
    Init(4).(flags := NoFlags.(binding := true), lookups := [Lookup("h", 4, ForBind(0))])
  }

  /** A send and then a resume are queued behind it. */
  function S2(): State { S1().(accepted := 1, pending := [SendWork(REQ)]) }

  function S3(): State { S2().(pending := [SendWork(REQ), ResumeWork]) }

  /** The lookup answers and the flush begins. */
  function S4(): State {
    S3().(lookups := [], pending := [], flags := NoFlags.(bound := true, reading := true),
          native := N.Fresh.(reading := true), log := [BindCall(0, "127.0.0.1", 4)],
          frames := [Frame(None, [SendWork(REQ), ResumeWork], ThenListening)])
  }

  lemma Step1()
    ensures Step(Init(4), ApiBind(0, "h"), CALM) == S1()
  {
  }

  lemma Step2()
    ensures Step(S1(), ApiSend([], 9, "127.0.0.1", true), CALM) == S2()
  {
    ByteLengthBounds("127.0.0.1");
    hide Family, ByteLength;
    assert SendThrows(S1(), 9, "127.0.0.1") == None;
    hide SendThrows;
    assert NewReq(S1(), [], 9, "127.0.0.1", true) == REQ;
  }

  lemma Step3()
    ensures Step(S2(), ApiResume, CALM) == S3()
  {
    hide StartBind;
  }

  lemma AnsweredWith()
    ensures Resolve(Address("127.0.0.1")) == Resolved("127.0.0.1", 4)
  {
    hide Family, ByteLength;
    DefaultQuads();
    ByteLengthBounds("127.0.0.1");
  }

  lemma Step4()
    ensures Step(S3(), DoAnswer(0, Address("127.0.0.1")), CALM) == S4()
  {
    hide Resolve, Bind, Open, Connect, Send, Resume, Close, FlushNext, FlushEnd, RunTask, SendDone, CloseDone;
    AnsweredWith();
    assert N.Remove(S3().lookups, 0) == [];
  }

  /** The native send fails and its callback is called; the socket is still bound and live. */
  lemma Step5() returns (s: State)
    ensures Follows(S4(), Move(DoFlushNext, FAILING), s)
    ensures s.flags == NoFlags.(bound := true, reading := true) && !s.paused
    ensures s.frames == [Frame(None, [ResumeWork], ThenListening)]
    ensures !s.native.exiting && !s.native.closing && s.native.queue == []
  {
    DefaultQuads();
    hide Family;
    s := Step(S4(), DoFlushNext, FAILING);
  }

  /** That callback closes the socket, and the queued resume turns READING back on. */
  lemma Steps6And7(s: State) returns (s6: State, s7: State)
    requires s.flags == NoFlags.(bound := true, reading := true) && !s.paused
    requires s.frames == [Frame(None, [ResumeWork], ThenListening)]
    requires !s.native.exiting && !s.native.closing && s.native.queue == []
    ensures Follows(s, Move(ApiClose(false), CALM), s6) && Follows(s6, Move(DoFlushNext, CALM), s7)
    ensures s7.flags.closing && s7.flags.reading && s7.native.reading && !s7.flags.bound
  {
    s6 := Step(s, ApiClose(false), CALM);
    s7 := Step(s6, DoFlushNext, CALM);
  }

  /** A run in which a callback closes the socket during a flush and leaves it READING while CLOSING. */
  lemma LateResume() returns (ss: seq<State>, moves: seq<Move>)
    ensures Run(4, ss, moves) && !NoCloseInFlush(ss, moves)
    ensures var t := ss[|moves|]; t.flags.closing && t.flags.reading && t.native.reading && !t.flags.bound
  {
    hide *;
    FirstSteps();
    var s5 := Step5();
    var s6, s7 := Steps6And7(s5);
    moves := [Move(ApiBind(0, "h"), CALM), Move(ApiSend([], 9, "127.0.0.1", true), CALM), Move(ApiResume, CALM),
              Move(DoAnswer(0, Address("127.0.0.1")), CALM), Move(DoFlushNext, FAILING),
              Move(ApiClose(false), CALM), Move(DoFlushNext, CALM)];
    ss := [Init(4), S1(), S2(), S3(), S4(), s5, s6, s7];
    SevenSteps(ss, moves);
    StillFlushing(ss, moves);
  }

  lemma StillFlushing(ss: seq<State>, moves: seq<Move>)
    requires |ss| == |moves| + 1 && |moves| > 5 && moves[5].step.ApiClose? && ss[5].frames != []
    ensures !NoCloseInFlush(ss, moves)
  {
  }

  lemma SevenSteps(ss: seq<State>, moves: seq<Move>)
    requires |ss| == 8 && |moves| == 7 && ss[0] == Init(4)
    requires Follows(ss[0], moves[0], ss[1]) && Follows(ss[1], moves[1], ss[2]) && Follows(ss[2], moves[2], ss[3])
    requires Follows(ss[3], moves[3], ss[4]) && Follows(ss[4], moves[4], ss[5]) && Follows(ss[5], moves[5], ss[6])
    requires Follows(ss[6], moves[6], ss[7])
    ensures Run(4, ss, moves)
  {
    hide Follows, Init;
  }

  lemma FirstSteps()
    ensures Follows(Init(4), Move(ApiBind(0, "h"), CALM), S1())
    ensures Follows(S1(), Move(ApiSend([], 9, "127.0.0.1", true), CALM), S2())
    ensures Follows(S2(), Move(ApiResume, CALM), S3())
    ensures Follows(S3(), Move(DoAnswer(0, Address("127.0.0.1")), CALM), S4())
  {
    Step1();
    Step2();
    Step3();
    Step4();
    hide Step;
  }
}
