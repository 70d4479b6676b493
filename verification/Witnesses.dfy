/**
 Runs and inputs that show the documented promises failing where the conditions proved elsewhere say they do: a send
 settled after `close`, a send that overtakes another, a call read as something it is not, and a reported address that
 is not a literal.
 */
module Witnesses {
  import N = Native
  import opened Ip
  import opened IpForm
  import opened IpRegex
  import opened IpAddress
  import opened Protocol
  import opened Obligations
  import opened Boundary
  import opened Invariant
  import opened Runs
  import opened Closing
  import opened Reentrancy
  import opened Order
  import A = AddressBuffer
  import SA = SendArgs

  // A send that outlives `close`

  const NAMED := Req(0, [], 0, 9, "h", false, false)

  /** A send to a name on a fresh socket binds it and waits in the flush of that bind. */
  function W1(): State {
    Init(4).(accepted := 1, flags := NoFlags.(bound := true, reading := true), native := N.Fresh.(reading := true),
             log := [BindCall(0, "0.0.0.0", 4)], frames := [Frame(None, [SendWork(NAMED)], ThenListening)])
  }

  /** Its name is looked up. */
  function W2(): State {
    W1().(lookups := [Lookup("h", 4, ForSend(NAMED))], frames := [Frame(None, [], ThenListening)])
  }

  function W3(): State { W2().(frames := [], tasks := [Listening]) }

  /** The socket is closed before the answer comes. */
  function W4(): State { Close(W3(), false) }

  function W5(): State {
    W4().(native := N.OnClose(N.Close(N.Fresh.(reading := true))), flags := NoFlags.(closed := true), sends := map[],
          frames := [Frame(Some(SocketClosed), [], ThenClose)])
  }

  function W6(): State { W5().(frames := [], listeners := [], log := [BindCall(0, "0.0.0.0", 4), EmitClose]) }

  lemma NameAndWildcard()
    ensures Family("h") == 0 && HostOk("h") && Family("0.0.0.0") == 4
  {
    DefaultQuads();
    hide IsQuad;
    assert !IsQuad("h") by { NotADot("h"); }
  }

  lemma NotADot(s: string)
    requires '.' !in s
    ensures !IsQuad(s)
  {
    if IsQuad(s) { QuadFacts(s); }
  }

  lemma Sent()
    ensures Step(Init(4), ApiSend([], 9, "h", false), CALM) == W1()
  {
    hide Family, HostOk;
    NameAndWildcard();
    assert [] + [SendWork(NAMED)] == [SendWork(NAMED)];
    var t := Step(Init(4), ApiSend([], 9, "h", false), CALM);
    assert t.frames == W1().frames && t.log == W1().log;
  }

  lemma Flushed()
    ensures Step(W1(), DoFlushNext, CALM) == W2() && Step(W2(), DoFlushEnd, CALM) == W3()
  {
    hide Family, HostOk;
    NameAndWildcard();
    assert [SendWork(NAMED)][1..] == [] && W1().frames[1..] == [];
    var t := Step(W1(), DoFlushNext, CALM);
    assert t.frames == W2().frames && t.lookups == W2().lookups;
  }

  lemma ClosedLate()
    ensures Step(W3(), ApiClose(false), CALM) == W4()
    ensures Enabled(W4(), DoCloseDone) && Step(W4(), DoCloseDone, CALM) == W5()
    ensures Step(W5(), DoFlushEnd, CALM) == W6()
  {
  }

  /** A run in which `close` has been emitted while an accepted send still waits for its lookup. */
  lemma SettledAfterClose() returns (ss: seq<State>, moves: seq<Move>)
    ensures Run(4, ss, moves) && Closes(ss[|moves|]) == 1 && Resolving(ss[|moves|], 0) == 1
  {
    hide *;
    ss := [Init(4), W1(), W2(), W3(), W4(), W5(), W6()];
    moves := [Move(ApiSend([], 9, "h", false), CALM), Move(DoFlushNext, CALM), Move(DoFlushEnd, CALM),
              Move(ApiClose(false), CALM), Move(DoCloseDone, CALM), Move(DoFlushEnd, CALM)];
    SixFollow();
    SixSteps(ss, moves);
    AtTheEnd();
  }

  lemma SixFollow()
    ensures Follows(Init(4), Move(ApiSend([], 9, "h", false), CALM), W1())
    ensures Follows(W1(), Move(DoFlushNext, CALM), W2()) && Follows(W2(), Move(DoFlushEnd, CALM), W3())
    ensures Follows(W3(), Move(ApiClose(false), CALM), W4()) && Follows(W4(), Move(DoCloseDone, CALM), W5())
    ensures Follows(W5(), Move(DoFlushEnd, CALM), W6())
  {
    hide Step;
    Sent();
    Flushed();
    ClosedLate();
  }

  lemma SixSteps(ss: seq<State>, moves: seq<Move>)
    requires |ss| == 7 && |moves| == 6 && ss[0] == Init(4)
    requires Follows(ss[0], moves[0], ss[1]) && Follows(ss[1], moves[1], ss[2]) && Follows(ss[2], moves[2], ss[3])
    requires Follows(ss[3], moves[3], ss[4]) && Follows(ss[4], moves[4], ss[5]) && Follows(ss[5], moves[5], ss[6])
    ensures Run(4, ss, moves)
  {
    hide Follows, Init;
  }

  lemma AtTheEnd()
    ensures Closes(W6()) == 1 && Resolving(W6(), 0) == 1
  {
    assert W6().log == [BindCall(0, "0.0.0.0", 4)] + [EmitClose];
    Snoc([BindCall(0, "0.0.0.0", 4)], EmitClose, EventOb, CloseEventOb);
    SumOne(BindCall(0, "0.0.0.0", 4), EventOb, CloseEventOb);
    SumOne(Lookup("h", 4, ForSend(NAMED)), LookupOb, SendOb(0));
  }

  // A send that overtakes another

  const SECOND := Req(1, [], 0, 9, "127.0.0.1", false, false)
  const THIRD := Req(2, [], 0, 9, "127.0.0.1", false, false)

  /** Two sends wait behind a bind. */
  function O3(): State { S2().(accepted := 2, pending := [SendWork(REQ), SendWork(SECOND)]) }

  /** The lookup of the bind answers and its flush begins. */
  function O4(): State {
    O3().(lookups := [], pending := [], flags := NoFlags.(bound := true, reading := true),
          native := N.Fresh.(reading := true), log := [BindCall(0, "127.0.0.1", 4)],
          frames := [Frame(None, [SendWork(REQ), SendWork(SECOND)], ThenListening)])
  }

  lemma Loopback4()
    ensures Family("127.0.0.1") == 4 && HostOk("127.0.0.1")
  {
    DefaultQuads();
    ByteLengthBounds("127.0.0.1");
  }

  lemma SecondSend()
    ensures Step(S2(), ApiSend([], 9, "127.0.0.1", false), CALM) == O3()
  {
    hide Family, HostOk, StartBind;
    Loopback4();
  }

  lemma Answered()
    ensures Step(O3(), DoAnswer(0, Address("127.0.0.1")), CALM) == O4()
  {
    hide Resolve, Bind, Open, Connect, Send, Resume, Close, FlushNext, FlushEnd, RunTask, SendDone, CloseDone;
    AnsweredWith();
    assert N.Remove(O3().lookups, 0) == [];
  }

  /** The first send fails in the native layer, and its callback runs with the second still waiting. */
  lemma FirstFails() returns (s: State)
    ensures Follows(O4(), Move(DoFlushNext, FAILING), s)
    ensures s.flags == NoFlags.(bound := true, reading := true) && s.accepted == 2 && s.family == 4
    ensures s.frames == [Frame(None, [SendWork(SECOND)], ThenListening)] && s.pending == []
    ensures !s.native.exiting && s.native.queue == [] && |s.log| == 2 && s.draws == 1
  {
    hide Family;
    Loopback4();
    s := Step(O4(), DoFlushNext, FAILING);
  }

  /** That callback sends once more, straight through; then the flush goes on. */
  lemma ThirdFirst(s: State) returns (s6: State, s7: State)
    requires s.flags == NoFlags.(bound := true, reading := true) && s.accepted == 2 && s.family == 4
    requires s.frames == [Frame(None, [SendWork(SECOND)], ThenListening)] && s.pending == []
    requires !s.native.exiting && s.native.queue == [] && |s.log| == 2 && s.draws == 1
    ensures Follows(s, Move(ApiSend([], 9, "127.0.0.1", false), CALM), s6) && Follows(s6, Move(DoFlushNext, CALM), s7)
    ensures |s7.log| == 4 && s7.log[2].SendCall? && s7.log[2].req == THIRD
    ensures s7.log[3].SendCall? && s7.log[3].req == SECOND
  {
    hide Family, HostOk;
    Loopback4();
    s6 := Step(s, ApiSend([], 9, "127.0.0.1", false), CALM);
    s7 := Step(s6, DoFlushNext, CALM);
  }

  lemma OutOfOrder(log: seq<Event>)
    requires |log| == 4 && log[2].SendCall? && log[2].req == THIRD && log[3].SendCall? && log[3].req == SECOND
    ensures !InCallOrder(log)
  {
    hide Family;
    Loopback4();
    assert DirectCall(log[2]) && DirectCall(log[3]);
  }

  /** A run in which a send made from a callback reaches the native layer before one that was called earlier. */
  lemma Overtaking() returns (ss: seq<State>, moves: seq<Move>)
    ensures Run(4, ss, moves) && !InCallOrder(ss[|moves|].log)
  {
    hide *;
    FirstSteps();
    TwoMore();
    var s5 := FirstFails();
    var s6, s7 := ThirdFirst(s5);
    moves := [Move(ApiBind(0, "h"), CALM), Move(ApiSend([], 9, "127.0.0.1", true), CALM),
              Move(ApiSend([], 9, "127.0.0.1", false), CALM), Move(DoAnswer(0, Address("127.0.0.1")), CALM),
              Move(DoFlushNext, FAILING), Move(ApiSend([], 9, "127.0.0.1", false), CALM), Move(DoFlushNext, CALM)];
    ss := [Init(4), S1(), S2(), O3(), O4(), s5, s6, s7];
    SevenSteps(ss, moves);
    OutOfOrder(s7.log);
  }

  lemma TwoMore()
    ensures Follows(S2(), Move(ApiSend([], 9, "127.0.0.1", false), CALM), O3())
    ensures Follows(O3(), Move(DoAnswer(0, Address("127.0.0.1")), CALM), O4())
  {
    hide Step;
    SecondSend();
    Answered();
  }

  // A call that is misread, and an address that cannot be passed back

  /** `send('x', 9, 0)` on an unconnected socket is read as a send of the whole message to port 9. */
  lemma MisreadCall()
    ensures var ov := SA.SlicedOnly(SA.Str("x"), SA.Finite(9.0), SA.Finite(0.0), None);
            SA.IsMessage(ov.msg) && SA.PortOf(ov).None? && SA.Misread(ov)
  {
    assert (9.0 as real).Floor == 9;
  }

  lemma Underscore()
    ensures !IsZoneLetter('_')
  {
    ZoneLetterIff('_');
  }

  /** A link local address on an interface named br_lan is printed as a text that is not a literal. */
  lemma UnusableZone()
    ensures var f := Elided(["fe80"], ["1"]);
            Valid(f) && Text(f) == "fe80::1" && |"br_lan"| < UV_IF_NAMESIZE && Family("fe80::1%br_lan") == 0
  {
    hide Family, Valid, Text, IsZoneLetter;
    LinkLocal();
    assert "fe80::1" + "%" + "br_lan" == "fe80::1%br_lan";
    Underscore();
    assert "br_lan"[2] == '_';
    A.ReportedAddressIff(Elided(["fe80"], ["1"]), "br_lan");
  }

  /** `send(['x'], 0, 1, 9)` has a documented overload and can only be refused. */
  lemma SlicedArray(r: SA.Result<SA.Request>)
    ensures var ov := SA.Sliced(SA.List([SA.Str("x")]), SA.Finite(0.0), SA.Finite(1.0), Some(9), None, None);
            SA.Documented(false, ov) && (SA.Means(false, ov, r) <==> r == SA.Err(SA.BadBuffer))
  {
    assert SA.AsView(SA.Str("x")).Some?;
  }

  lemma LinkLocal()
    ensures var f := Elided(["fe80"], ["1"]); Valid(f) && Text(f) == "fe80::1"
  {
    hide IsQuad;
    assert IsGroup("fe80") && IsGroup("1");
    WidthOfGroups(["1"]);
  }
}
