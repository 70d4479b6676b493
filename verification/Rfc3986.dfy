/**
 The IPv6address rule of section 3.2.2 of RFC 3986, transcribed production by production. It is organised by
 the number of groups to the right of the "::", where the pattern of lib/ip.js goes by the number to its left;
 `RfcIff` proves that the two accept the same strings.
 */
module Rfc3986 {
  import opened Sequences
  import opened Strings
  import opened Regex
  import opened Ip
  import opened IpForm
  import opened IpRegex
  import opened IpAddress

  // dec-octet and IPv4address

  function Digits(n: nat): Regex { Repeat(Range('0', '9'), n, n) }

  function DecOctet(): Regex {
    Any([Range('0', '9'),
         Cat(Range('1', '9'), Range('0', '9')),
         Cat(Lit('1'), Digits(2)),
         Cat(Lit('2'), Cat(Range('0', '4'), Range('0', '9'))),
         Cat(Lit('2'), Cat(Lit('5'), Range('0', '5')))])
  }

  function Dotted(r: Regex): Regex { Cat(DecOctet(), Cat(Lit('.'), r)) }

  function IPv4address(): Regex { Dotted(Dotted(Dotted(DecOctet()))) }

  // h16, ls32 and the building blocks of IPv6address

  /** HEXDIG, whose letters are case-insensitive. */
  predicate HexDig(c: char) { '0' <= c <= '9' || c in "ABCDEF" || c in "abcdef" }

  function H16(): Regex { Repeat(One(HexDig), 1, 4) }

  function H16Colon(): Regex { Cat(H16(), Lit(':')) }

  function Ls32(): Regex { Any([Cat(H16Colon(), H16()), IPv4address()]) }

  /** n( h16 ":" ) ls32 */
  function Groups(n: nat): Regex { Cat(Repeat(H16Colon(), n, n), Ls32()) }

  /** [ *n( h16 ":" ) h16 ] */
  function UpTo(n: nat): Regex { Opt(Cat(Repeat(H16Colon(), 0, n), H16())) }

  function Elision(): Regex { Cat(Lit(':'), Lit(':')) }

  /** The nine right-hand sides of IPv6address in the order of the RFC, numbered from 1. */
  function Rule(j: nat): Regex
    requires 1 <= j <= 9
  {
    match j
    case 1 => Groups(6)
    case 2 => Cat(Elision(), Groups(5))
    case 3 => Cat(Opt(H16()), Cat(Elision(), Groups(4)))
    case 4 => Cat(UpTo(1), Cat(Elision(), Groups(3)))
    case 5 => Cat(UpTo(2), Cat(Elision(), Groups(2)))
    case 6 => Cat(UpTo(3), Cat(Elision(), Cat(H16Colon(), Ls32())))
    case 7 => Cat(UpTo(4), Cat(Elision(), Ls32()))
    case 8 => Cat(UpTo(5), Cat(Elision(), H16()))
    case 9 => Cat(UpTo(6), Elision())
  }

  function IPv6address(): Regex {
    Any([Rule(1), Rule(2), Rule(3), Rule(4), Rule(5), Rule(6), Rule(7), Rule(8), Rule(9)])
  }

  // IPv4

  lemma DecOctetIff(s: string)
    ensures Matches(DecOctet(), s) <==> IsOctet(s)
  {
    var options := DecOctet().options;
    OneCat(Lit('1'), Digits(2), s);
    if s != "" {
      TwoDigits(s[1..]);
    }
    TwoOnes(Range('1', '9'), Range('0', '9'), s);
    ThreeOnes(Lit('2'), Range('0', '4'), Range('0', '9'), s);
    ThreeOnes(Lit('2'), Lit('5'), Range('0', '5'), s);
    assert Matches(DecOctet(), s) <==>
           || Matches(options[0], s) || Matches(options[1], s) || Matches(options[2], s)
           || Matches(options[3], s) || Matches(options[4], s);
    OctetShapeIff(s);
  }

  lemma TwoDigits(s: string)
    ensures Matches(Digits(2), s) <==> |s| == 2 && '0' <= s[0] <= '9' && '0' <= s[1] <= '9'
  {
    TimesOne(Range('0', '9').allowed, s, 2);
  }

  lemma SeparatedElim(a: Regex, c: char, b: Regex, s: string) returns (x: string, y: string)
    requires Matches(Cat(a, Cat(Lit(c), b)), s)
    ensures Matches(a, x) && Matches(b, y) && s == x + [c] + y
  {
    hide Matches;
    var i := CatElim(a, Cat(Lit(c), b), s);
    OneCat(Lit(c), b, s[i..]);
    x, y := s[..i], s[i..][1..];
    CutTwo(s, i);
    CutTwo(s[i..], 1);
    Bracket(x, [c], y);
  }

  lemma SeparatedIntro(a: Regex, c: char, b: Regex, x: string, y: string)
    requires Matches(a, x) && Matches(b, y)
    ensures Matches(Cat(a, Cat(Lit(c), b)), x + [c] + y)
  {
    assert Matches(Lit(c), [c]);
    CatIntro(Lit(c), b, [c], y);
    CatIntro(a, Cat(Lit(c), b), x, [c] + y);
    assert x + [c] + y == x + ([c] + y);
  }

  lemma IPv4addressIff(s: string)
    ensures Matches(IPv4address(), s) <==> IsQuad(s)
  {
    hide Matches, DecOctet, IsOctet, Join, Split;
    var d := DecOctet();
    if Matches(IPv4address(), s) {
      var a, s1 := SeparatedElim(d, '.', Dotted(Dotted(d)), s);
      var b, s2 := SeparatedElim(d, '.', Dotted(d), s1);
      var x, y := SeparatedElim(d, '.', d, s2);
      DecOctetIff(a);
      DecOctetIff(b);
      DecOctetIff(x);
      DecOctetIff(y);
      FourOctets(a, b, x, y);
      assert s == a + "." + (b + "." + (x + "." + y));
    }
    if IsQuad(s) {
      var o := Split(s, '.');
      JoinOfSplit(s, '.');
      assert o == [o[0], o[1], o[2], o[3]];
      JoinSteps(o[0], o[1], o[2], o[3], '.');
      forall i | 0 <= i < 4 { DecOctetIff(o[i]); }
      SeparatedIntro(d, '.', d, o[2], o[3]);
      SeparatedIntro(d, '.', Dotted(d), o[1], o[2] + "." + o[3]);
      SeparatedIntro(d, '.', Dotted(Dotted(d)), o[0], o[1] + "." + (o[2] + "." + o[3]));
    }
  }

  lemma OctetHasNoDot(s: string)
    requires IsOctet(s)
    ensures '.' !in s
  {
  }

  lemma FourOctets(a: string, b: string, c: string, d: string)
    requires IsOctet(a) && IsOctet(b) && IsOctet(c) && IsOctet(d)
    ensures IsQuad(a + "." + (b + "." + (c + "." + d)))
  {
    hide IsOctet, Split, Join;
    JoinSteps(a, b, c, d, '.');
    assert AllFree([a, b, c, d], '.') by {
      OctetHasNoDot(a);
      OctetHasNoDot(b);
      OctetHasNoDot(c);
      OctetHasNoDot(d);
    }
    SplitOfJoin([a, b, c, d], '.');
  }

  /** h16 derives exactly the groups that the pattern matches. */
  lemma H16Iff(s: string)
    ensures Matches(H16(), s) <==> IsGroup(s)
  {
    hide IsHex, HexDig;
    forall c ensures HexDig(c) <==> IsHex(c) { HexDigIff(c); }
    if Matches(H16(), s) {
      var n := RepeatElim(One(HexDig), 1, 4, s);
      TimesOne(HexDig, s, n);
    }
    TimesOne(HexDig, s, |s|);
  }

  lemma HexDigIff(c: char)
    ensures HexDig(c) <==> IsHex(c)
  {
  }

  lemma H16sIff(groups: seq<string>)
    ensures AllMatch(H16(), groups) <==> AllGroups(groups)
  {
    hide Matches, IsGroup;
    forall i | 0 <= i < |groups| { H16Iff(groups[i]); }
  }

  // The texts on either side of "::"

  predicate IsLeft(s: string, most: nat) {
    AllGroups(Pieces(s)) && |Pieces(s)| <= most
  }

  predicate IsRight(s: string, width: nat) {
    GroupsOk(Pieces(s)) && Width(Pieces(s)) == width
  }

  lemma H16IsLeft(s: string)
    requires IsGroup(s)
    ensures Pieces(s) == [s]
  {
    PiecesOfJoin([s]);
  }

  lemma OptH16Iff(s: string)
    ensures Matches(Opt(H16()), s) <==> IsLeft(s, 1)
  {
    OptIff(H16(), s);
    H16Iff(s);
    JoinOfPieces(s);
    if IsGroup(s) { H16IsLeft(s); }
    if IsLeft(s, 1) && s != "" {
      assert Pieces(s) == [Pieces(s)[0]];
    }
  }

  lemma UpToElim(n: nat, s: string)
    requires Matches(Cat(Repeat(H16Colon(), 0, n), H16()), s)
    ensures IsLeft(s, n + 1)
  {
    hide IsGroup, Times;
    var i := CatElim(Repeat(H16Colon(), 0, n), H16(), s);
    var m := RepeatElim(H16Colon(), 0, n, s[..i]);
    var front := TimesAfterElim(H16(), ':', s[..i], m);
    H16sIff(front);
    H16Iff(s[i..]);
    JoinAppend(front, [s[i..]], ':');
    CutTwo(s, i);
    PiecesOfJoin(front + [s[i..]]);
  }

  lemma UpToIff(n: nat, s: string)
    ensures Matches(UpTo(n), s) <==> IsLeft(s, n + 1)
  {
    var body := Cat(Repeat(H16Colon(), 0, n), H16());
    OptIff(body, s);
    if Matches(body, s) { UpToElim(n, s); }
    if IsLeft(s, n + 1) && s != "" {
      UpToIntro(n, Pieces(s));
      JoinOfPieces(s);
    }
  }

  lemma UpToIntro(n: nat, groups: seq<string>)
    requires AllGroups(groups) && 1 <= |groups| <= n + 1
    ensures Matches(Cat(Repeat(H16Colon(), 0, n), H16()), Join(groups, ':'))
  {
    var m := |groups| - 1;
    var front, last := groups[..m], groups[m];
    JoinIsAfter(groups, ':');
    H16sIff(front);
    H16Iff(last);
    TimesAfterIntro(H16(), ':', front);
    assert Matches(Repeat(H16Colon(), 0, n), After(front, ':'));
    CatIntro(Repeat(H16Colon(), 0, n), H16(), After(front, ':'), last);
  }

  lemma H16RightIff(s: string)
    ensures Matches(H16(), s) <==> IsRight(s, 1)
  {
    H16Iff(s);
    JoinOfPieces(s);
    if IsGroup(s) {
      H16IsLeft(s);
      WidthOfGroups([s]);
    }
    if IsRight(s, 1) {
      assert Pieces(s) == [Pieces(s)[0]];
    }
  }

  lemma ColonElim(s: string) returns (group: string)
    requires Matches(H16Colon(), s)
    ensures IsGroup(group) && s == group + ":"
  {
    var i := CatElim(H16(), Lit(':'), s);
    CutTwo(s, i);
    assert s[i..] == ":";
    group := s[..i];
    H16Iff(group);
  }

  lemma TwoGroupsElim(s: string) returns (groups: seq<string>)
    requires Matches(Cat(H16Colon(), H16()), s)
    ensures |groups| == 2 && AllGroups(groups) && Width(groups) == 2 && Join(groups, ':') == s
  {
    hide Matches, IsGroup;
    var i := CatElim(H16Colon(), H16(), s);
    CutTwo(s, i);
    var a := ColonElim(s[..i]);
    H16Iff(s[i..]);
    groups := [a, s[i..]];
    WidthOfGroups(groups);
    assert groups[1..] == [s[i..]];
  }

  lemma Ls32Elim(s: string) returns (groups: seq<string>)
    requires Matches(Ls32(), s)
    ensures groups != [] && GroupsOk(groups) && Width(groups) == 2 && Join(groups, ':') == s
  {
    var k := AnyElim(Ls32().options, s);
    if k == 0 {
      groups := TwoGroupsElim(s);
    } else {
      IPv4addressIff(s);
      QuadLast([], s);
      groups := [s];
      assert [] + [s] == [s];
    }
  }

  lemma Ls32Intro(groups: seq<string>)
    requires GroupsOk(groups) && Width(groups) == 2
    ensures Matches(Ls32(), Join(groups, ':'))
  {
    if EndsInQuad(groups) {
      assert groups == [groups[0]];
      IPv4addressIff(groups[0]);
      AnyIntro(Ls32().options, 1, groups[0]);
    } else {
      var a, b := groups[0], groups[1];
      assert groups == [a, b];
      H16Iff(a);
      H16Iff(b);
      assert Matches(Lit(':'), ":");
      CatIntro(H16(), Lit(':'), a, ":");
      CatIntro(H16Colon(), H16(), a + ":", b);
      assert Join(groups, ':') == a + ":" + b;
      AnyIntro(Ls32().options, 0, a + ":" + b);
    }
  }

  lemma GroupsIff(n: nat, s: string)
    ensures Matches(Groups(n), s) <==> IsRight(s, n + 2)
  {
    if Matches(Groups(n), s) {
      var front, rest := RepeatAfterElim(H16(), ':', n, Ls32(), s);
      H16sIff(front);
      var back := Ls32Elim(rest);
      JoinAppend(front, back, ':');
      Together(front, back);
      PiecesOfJoin(front + back);
    }
    if IsRight(s, n + 2) {
      var groups := Pieces(s);
      JoinOfPieces(s);
      var front, back := groups[..n], groups[n..];
      assert groups == front + back;
      Apart(front, back);
      H16sIff(front);
      Ls32Intro(back);
      JoinAppend(front, back, ':');
      RepeatAfterIntro(H16(), ':', Ls32(), front, Join(back, ':'));
    }
  }

  lemma Together(front: seq<string>, back: seq<string>)
    requires AllGroups(front) && GroupsOk(back) && back != []
    ensures GroupsOk(front + back) && Width(front + back) == |front| + Width(back)
  {
  }

  lemma Apart(front: seq<string>, back: seq<string>)
    requires GroupsOk(front + back) && back != []
    ensures AllGroups(front) && GroupsOk(back) && Width(front + back) == |front| + Width(back)
  {
    var all := front + back;
    if EndsInQuad(all) {
      assert all[..|all| - 1] == front + back[..|back| - 1];
      assert forall i | 0 <= i < |front| :: all[..|all| - 1][i] == front[i];
      assert forall i | 0 <= i < |back| - 1 :: all[..|all| - 1][|front| + i] == back[i];
    } else {
      assert forall i | 0 <= i < |front| :: all[i] == front[i];
      assert forall i | 0 <= i < |back| :: all[|front| + i] == back[i];
      WidthOfGroups(all);
      WidthOfGroups(back);
    }
  }

  // The nine rules

  /** Which rule derives a form: it depends only on how many groups stand right of the "::". */
  function RuleOf(f: Form): int {
    match f
    case Full(_) => 1
    case Elided(_, right) => 9 - Width(right)
  }

  ghost predicate Derives(j: nat, s: string) {
    Decompose(s).Some? && RuleOf(Decompose(s).value) == j
  }

  lemma TwoColons(s: string)
    requires Matches(Elision(), s)
    ensures s == "::"
  {
    TwoOnes(Lit(':'), Lit(':'), s);
  }

  lemma AroundElision(a: Regex, b: Regex, s: string) returns (l: string, r: string)
    requires Matches(Cat(a, Cat(Elision(), b)), s)
    ensures Matches(a, l) && Matches(b, r) && s == l + "::" + r
  {
    hide Matches;
    var i := CatElim(a, Cat(Elision(), b), s);
    var j := CatElim(Elision(), b, s[i..]);
    TwoColons(s[i..][..j]);
    l, r := s[..i], s[i..][j..];
    CutTwo(s, i);
    CutTwo(s[i..], j);
    Bracket(l, "::", r);
  }

  lemma WithElision(a: Regex, b: Regex, l: string, r: string)
    requires Matches(a, l) && Matches(b, r)
    ensures Matches(Cat(a, Cat(Elision(), b)), l + "::" + r)
  {
    TwoOnes(Lit(':'), Lit(':'), "::");
    CatIntro(Elision(), b, "::", r);
    CatIntro(a, Cat(Elision(), b), l, "::" + r);
    assert l + "::" + r == l + ("::" + r);
  }

  /** A rule with left part `a` and right part `b` derives the elided forms of one right-hand width. */
  lemma ElidedRuleIff(a: Regex, b: Regex, width: nat, s: string)
    requires width <= 7
    requires forall t :: Matches(a, t) <==> IsLeft(t, 7 - width)
    requires forall t :: Matches(b, t) <==> IsRight(t, width)
    ensures Matches(Cat(a, Cat(Elision(), b)), s) <==> Derives(9 - width, s)
  {
    if Matches(Cat(a, Cat(Elision(), b)), s) {
      var l, r := AroundElision(a, b, s);
      JoinOfPieces(l);
      JoinOfPieces(r);
      DecomposeIff(s, Elided(Pieces(l), Pieces(r)));
    }
    if Derives(9 - width, s) {
      var f := Decompose(s).value;
      DecomposeIff(s, f);
      PiecesOfJoin(f.left);
      PiecesOfJoin(f.right);
      WithElision(a, b, Join(f.left, ':'), Join(f.right, ':'));
    }
  }

  function Nothing(): Regex { Repeat(H16Colon(), 0, 0) }

  lemma NothingLeftIff(s: string)
    ensures Matches(Nothing(), s) <==> IsLeft(s, 0)
    ensures Matches(Nothing(), s) <==> IsRight(s, 0)
  {
    EmptyIff(H16Colon(), s);
    JoinOfPieces(s);
    assert Join([], ':') == "";
  }

  lemma Rule1Iff(s: string)
    ensures Matches(Rule(1), s) <==> Derives(1, s)
  {
    GroupsIff(6, s);
    JoinOfPieces(s);
    if Matches(Rule(1), s) {
      DecomposeIff(s, Full(Pieces(s)));
    }
    if Derives(1, s) {
      var f := Decompose(s).value;
      DecomposeIff(s, f);
      PiecesOfJoin(f.groups);
    }
  }

  lemma Rule2Iff(s: string)
    ensures Matches(Rule(2), s) <==> Derives(2, s)
  {
    RepeatNone(H16Colon(), Rule(2), s);
    forall t { NothingLeftIff(t); }
    forall t { GroupsIff(5, t); }
    ElidedRuleIff(Nothing(), Groups(5), 7, s);
  }

  lemma Rule3Iff(s: string)
    ensures Matches(Rule(3), s) <==> Derives(3, s)
  {
    forall t { OptH16Iff(t); }
    forall t { GroupsIff(4, t); }
    ElidedRuleIff(Opt(H16()), Groups(4), 6, s);
  }

  /** Rules 4 to 9 are one scheme with `n` more groups allowed on the left. */
  lemma UpToRuleIff(n: nat, b: Regex, s: string)
    requires 1 <= n <= 6
    requires forall t :: Matches(b, t) <==> IsRight(t, 6 - n)
    ensures Matches(Cat(UpTo(n), Cat(Elision(), b)), s) <==> Derives(n + 3, s)
  {
    forall t { UpToIff(n, t); }
    ElidedRuleIff(UpTo(n), b, 6 - n, s);
  }

  lemma Rule6Right(s: string)
    ensures Matches(Cat(H16Colon(), Ls32()), s) <==> IsRight(s, 3)
  {
    forall t { OnceIff(H16Colon(), t); }
    CatSame(Repeat(H16Colon(), 1, 1), H16Colon(), Ls32(), Ls32(), s);
    GroupsIff(1, s);
  }

  lemma Rule7Right(s: string)
    ensures Matches(Ls32(), s) <==> IsRight(s, 2)
  {
    RepeatNone(H16Colon(), Ls32(), s);
    GroupsIff(0, s);
  }

  lemma Rule9Iff(s: string)
    ensures Matches(Rule(9), s) <==> Derives(9, s)
  {
    hide Matches, Derives, UpTo, Elision, H16Colon, IsRight;
    forall t { EmptyBehind(Elision(), H16Colon(), t); }
    CatSame(UpTo(6), UpTo(6), Cat(Elision(), Nothing()), Elision(), s);
    forall t ensures Matches(Nothing(), t) <==> IsRight(t, 6 - 6) { NothingLeftIff(t); }
    UpToRuleIff(6, Nothing(), s);
  }

  /** Rule `j` derives exactly the addresses with the matching number of groups right of the "::". */
  lemma RuleIff(j: nat, s: string)
    requires 1 <= j <= 9
    ensures Matches(Rule(j), s) <==> Derives(j, s)
  {
    match j {
      case 1 => Rule1Iff(s);
      case 2 => Rule2Iff(s);
      case 3 => Rule3Iff(s);
      case 4 =>
        forall t { GroupsIff(3, t); }
        UpToRuleIff(1, Groups(3), s);
      case 5 =>
        forall t { GroupsIff(2, t); }
        UpToRuleIff(2, Groups(2), s);
      case 6 =>
        forall t { Rule6Right(t); }
        UpToRuleIff(3, Cat(H16Colon(), Ls32()), s);
      case 7 =>
        forall t { Rule7Right(t); }
        UpToRuleIff(4, Ls32(), s);
      case 8 =>
        forall t { H16RightIff(t); }
        UpToRuleIff(5, H16(), s);
      case 9 => Rule9Iff(s);
    }
  }

  lemma RuleOfValid(f: Form)
    requires Valid(f)
    ensures 1 <= RuleOf(f) <= 9
  {
  }

  lemma RulesIff(s: string)
    ensures Matches(IPv6address(), s) <==> Decompose(s).Some?
  {
    hide Matches, Rule, Decompose, Text, Valid, Width;
    var options := IPv6address().options;
    assert forall j | 1 <= j <= 9 :: options[j - 1] == Rule(j);
    if Matches(IPv6address(), s) {
      var k := AnyElim(options, s);
      RuleIff(k + 1, s);
    }
    if Decompose(s).Some? {
      var f := Decompose(s).value;
      DecomposeIff(s, f);
      RuleOfValid(f);
      RuleIff(RuleOf(f), s);
      AnyIntro(options, RuleOf(f) - 1, s);
    }
  }

  /** The left-count alternation of lib/ip.js and the right-count grammar of the RFC accept the same strings. */
  lemma CoreIsIPv6address(s: string)
    ensures Matches(IPv6Core(), s) <==> Matches(IPv6address(), s)
  {
    CoreIff(s);
    RulesIff(s);
  }

  /** `isIPv6` accepts exactly an IPv6address of RFC 3986, optionally with a "%zone" behind it. */
  lemma RfcIff(s: string)
    ensures IsIPv6(s) <==> exists i | 0 <= i <= |s| :: Matches(IPv6address(), s[..i]) && ZoneOk(s[i..])
  {
    hide Matches, IPv6Core, IPv6address, Zone, ZoneOk;
    if IsIPv6(s) {
      var i := CatElim(IPv6Core(), Zone(), s);
      CoreIsIPv6address(s[..i]);
      ZoneIff(s[i..]);
    }
    if i :| 0 <= i <= |s| && Matches(IPv6address(), s[..i]) && ZoneOk(s[i..]) {
      CoreIsIPv6address(s[..i]);
      ZoneIff(s[i..]);
      CatIntro(IPv6Core(), Zone(), s[..i], s[i..]);
      assert s == s[..i] + s[i..];
    }
  }
}
