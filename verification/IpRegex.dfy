/** What each alternative of the IPv6 pattern matches: the texts of the valid forms of one shape. */
module IpRegex {
  import opened Strings
  import opened Regex
  import opened Ip
  import opened IpForm

  // Segments

  lemma AllHexIff(s: string)
    ensures (forall i | 0 <= i < |s| :: HexDigit(s[i])) <==> (forall i | 0 <= i < |s| :: IsHex(s[i]))
  {
    hide HexDigit, IsHex;
    Alphabets();
  }

  lemma SegIff(s: string)
    ensures Matches(V6Seg(), s) <==> IsGroup(s)
  {
    if Matches(V6Seg(), s) {
      var n := RepeatElim(One(HexDigit), 1, 4, s);
      TimesOne(HexDigit, s, n);
      AllHexIff(s);
    }
    if IsGroup(s) {
      AllHexIff(s);
      TimesOne(HexDigit, s, |s|);
    }
  }

  lemma SegsIff(groups: seq<string>)
    ensures AllMatch(V6Seg(), groups) <==> AllGroups(groups)
  {
    forall i | 0 <= i < |groups| {
      SegIff(groups[i]);
    }
  }

  /** The five ways v4Seg writes a number. */
  predicate OctetShape(s: string) {
    || (|s| == 1 && '0' <= s[0] <= '9')
    || (|s| == 2 && '1' <= s[0] <= '9' && '0' <= s[1] <= '9')
    || (|s| == 3 && s[0] == '1' && '0' <= s[1] <= '9' && '0' <= s[2] <= '9')
    || (|s| == 3 && s[0] == '2' && '0' <= s[1] <= '4' && '0' <= s[2] <= '9')
    || (|s| == 3 && s[0] == '2' && s[1] == '5' && '0' <= s[2] <= '5')
  }

  lemma OctetOptions(s: string)
    ensures Matches(V4Seg(), s) <==> OctetShape(s)
  {
    var options := V4Seg().options;
    TwoOnes(Range('1', '9'), Range('0', '9'), s);
    ThreeOnes(Lit('1'), Range('0', '9'), Range('0', '9'), s);
    ThreeOnes(Lit('2'), Range('0', '4'), Range('0', '9'), s);
    ThreeOnes(Lit('2'), Lit('5'), Range('0', '5'), s);
    assert Matches(V4Seg(), s) <==>
           || Matches(options[0], s) || Matches(options[1], s) || Matches(options[2], s)
           || Matches(options[3], s) || Matches(options[4], s);
  }

  /** They are the decimal numbers up to 255 without a leading zero. */
  lemma OctetShapeIff(s: string)
    ensures OctetShape(s) <==> IsOctet(s)
  {
    if 1 <= |s| <= 3 {
      assert Number(s, 0, 10) == 0 && Number(s, 1, 10) == DigitValue(s[0]);
      assert |s| >= 2 ==> Number(s, 2, 10) == 10 * DigitValue(s[0]) + DigitValue(s[1]);
      assert |s| == 3 ==> Number(s, 3, 10) == 10 * Number(s, 2, 10) + DigitValue(s[2]);
    }
  }

  lemma OctetIff(s: string)
    ensures Matches(V4Seg(), s) <==> IsOctet(s)
  {
    OctetOptions(s);
    OctetShapeIff(s);
  }

  lemma OctetsIff(octets: seq<string>)
    ensures AllMatch(V4Seg(), octets) <==> forall i | 0 <= i < |octets| :: IsOctet(octets[i])
  {
    forall i | 0 <= i < |octets| {
      OctetIff(octets[i]);
    }
  }

  lemma V4Elim(s: string)
    requires Matches(V4Str(), s)
    ensures IsQuad(s)
  {
    var octets, last := RepeatAfterElim(V4Seg(), '.', 3, V4Seg(), s);
    OctetsIff(octets);
    OctetIff(last);
    var all := octets + [last];
    assert all[..3] == octets;
    JoinIsAfter(all, '.');
    SplitOfJoin(all, '.');
  }

  lemma V4Intro(s: string)
    requires IsQuad(s)
    ensures Matches(V4Str(), s)
  {
    var octets := Split(s, '.');
    JoinOfSplit(s, '.');
    JoinIsAfter(octets, '.');
    OctetsIff(octets[..3]);
    OctetIff(octets[3]);
    RepeatAfterIntro(V4Seg(), '.', V4Seg(), octets[..3], octets[3]);
  }

  /** The IPv4 pattern matches exactly four dotted numbers up to 255, none with a leading zero. */
  lemma IPv4Iff(s: string)
    ensures IsIPv4(s) <==> IsQuad(s)
  {
    if IsIPv4(s) { V4Elim(s); }
    if IsQuad(s) { V4Intro(s); }
  }

  // The eight alternatives

  /** Which alternative writes a form: it depends only on how many groups stand left of the "::". */
  function AlternativeOf(f: Form): int {
    match f
    case Full(groups) => if EndsInQuad(groups) then 2 else 1
    case Elided(left, _) => 8 - |left|
  }

  function TailText(right: seq<string>): string {
    if right == [] then ":" else Before(right, ':')
  }

  /** The text of an elided form, cut where the pattern cuts it. */
  lemma ElidedText(left: seq<string>, right: seq<string>)
    ensures Text(Elided(left, right)) ==
            (if left == [] then ":" else After(left, ':')) + TailText(right)
  {
    var l, r := Join(left, ':'), Join(right, ':');
    assert l + "::" + r == (l + ":") + (":" + r);
    if left != [] { JoinIsAfter(left, ':'); }
    if right != [] { JoinIsBefore(right, ':'); }
  }

  lemma QuadLast(groups: seq<string>, quad: string)
    requires AllGroups(groups) && IsQuad(quad)
    ensures EndsInQuad(groups + [quad]) && Width(groups + [quad]) == |groups| + 2
  {
    assert (groups + [quad])[..|groups|] == groups;
  }

  lemma WidthOfGroups(groups: seq<string>)
    requires AllGroups(groups)
    ensures !EndsInQuad(groups) && Width(groups) == |groups|
  {
  }

  /** The right-hand sides of an alternative: up to `q` groups and a quad, or 1 to `m` groups, or nothing. */
  function Tail(q: nat, m: nat): Regex {
    Any([Cat(Repeat(ColonGroup(), 0, q), ColonV4()), Repeat(ColonGroup(), 1, m), Lit(':')])
  }

  lemma QuadTailElim(q: nat, s: string) returns (right: seq<string>)
    requires Matches(Cat(Repeat(ColonGroup(), 0, q), ColonV4()), s)
    ensures EndsInQuad(right) && Width(right) <= q + 2 && s == Before(right, ':')
  {
    var groups, quad := BeforeLastElim(V6Seg(), ':', q, V4Str(), s);
    SegsIff(groups);
    V4Elim(quad);
    QuadLast(groups, quad);
    right := groups + [quad];
  }

  lemma QuadTailIntro(q: nat, right: seq<string>)
    requires EndsInQuad(right) && Width(right) <= q + 2
    ensures Matches(Cat(Repeat(ColonGroup(), 0, q), ColonV4()), Before(right, ':'))
  {
    var n := |right| - 1;
    var groups, quad := right[..n], right[n];
    assert right == groups + [quad];
    SegsIff(groups);
    V4Intro(quad);
    BeforeLastIntro(V6Seg(), ':', q, V4Str(), groups, quad);
  }

  lemma TailElim(q: nat, m: nat, s: string) returns (right: seq<string>)
    requires Matches(Tail(q, m), s) && m == q + 2
    ensures GroupsOk(right) && Width(right) <= m && s == TailText(right)
  {
    var k := AnyElim(Tail(q, m).options, s);
    if k == 0 {
      right := QuadTailElim(q, s);
    } else if k == 1 {
      right := RepeatBeforeElim(V6Seg(), ':', 1, m, s);
      SegsIff(right);
      WidthOfGroups(right);
    } else {
      right := [];
      assert s == ":";
    }
  }

  lemma TailIntro(q: nat, m: nat, right: seq<string>)
    requires GroupsOk(right) && Width(right) <= m == q + 2
    ensures Matches(Tail(q, m), TailText(right))
  {
    var options := Tail(q, m).options;
    if right == [] {
      AnyIntro(options, 2, ":");
    } else if EndsInQuad(right) {
      QuadTailIntro(q, right);
      AnyIntro(options, 0, Before(right, ':'));
    } else {
      SegsIff(right);
      RepeatBeforeIntro(V6Seg(), ':', 1, m, right);
      AnyIntro(options, 1, Before(right, ':'));
    }
  }

  /** `f` is a valid form that alternative `k` is meant to write, and `s` is its text. */
  ghost predicate Writes(k: nat, f: Form, s: string) {
    Valid(f) && AlternativeOf(f) == k && Text(f) == s
  }

  lemma ElidedWrites(left: seq<string>, right: seq<string>, tail: string)
    requires AllGroups(left) && GroupsOk(right) && |left| + Width(right) <= 7
    requires tail == TailText(right)
    ensures Writes(8 - |left|, Elided(left, right), (if left == [] then ":" else After(left, ':')) + tail)
  {
    ElidedText(left, right);
  }

  lemma FullWrites(groups: seq<string>, last: string, k: nat)
    requires AllGroups(groups)
    requires if k == 1 then |groups| == 7 && IsGroup(last) else k == 2 && |groups| == 6 && IsQuad(last)
    ensures Writes(k, Full(groups + [last]), After(groups, ':') + last)
  {
    JoinIsAfter(groups + [last], ':');
    assert (groups + [last])[..|groups|] == groups;
    if k == 1 {
      WidthOfGroups(groups + [last]);
    } else {
      QuadLast(groups, last);
    }
  }

  lemma Alternative1Elim(s: string) returns (f: Form)
    requires Matches(Alternative(1), s)
    ensures Writes(1, f, s)
  {
    var left, rest := RepeatAfterElim(V6Seg(), ':', 7, Any([V6Seg(), Lit(':')]), s);
    SegsIff(left);
    var k := AnyElim([V6Seg(), Lit(':')], rest);
    if k == 0 {
      SegIff(rest);
      FullWrites(left, rest, 1);
      f := Full(left + [rest]);
    } else {
      assert rest == ":";
      ElidedWrites(left, [], rest);
      f := Elided(left, []);
    }
  }

  lemma Alternative2Elim(s: string) returns (f: Form)
    requires Matches(Alternative(2), s)
    ensures Writes(2, f, s)
  {
    var left, rest := RepeatAfterElim(V6Seg(), ':', 6, Any([V4Str(), ColonGroup(), Lit(':')]), s);
    SegsIff(left);
    var k := AnyElim([V4Str(), ColonGroup(), Lit(':')], rest);
    if k == 0 {
      V4Elim(rest);
      FullWrites(left, rest, 2);
      f := Full(left + [rest]);
    } else if k == 1 {
      OneCat(Lit(':'), V6Seg(), rest);
      SegIff(rest[1..]);
      var right := [rest[1..]];
      WidthOfGroups(right);
      assert rest == Before(right, ':');
      ElidedWrites(left, right, rest);
      f := Elided(left, right);
    } else {
      assert rest == ":";
      ElidedWrites(left, [], rest);
      f := Elided(left, []);
    }
  }

  /** Alternative 3 is the general scheme with no group in front of its quad. */
  lemma Tail3Iff(s: string)
    ensures Matches(Any([ColonV4(), Repeat(ColonGroup(), 1, 2), Lit(':')]), s) <==> Matches(Tail(0, 2), s)
  {
    var rest := [Repeat(ColonGroup(), 1, 2), Lit(':')];
    RepeatNone(ColonGroup(), ColonV4(), s);
    AnyFirst(ColonV4(), Cat(Repeat(ColonGroup(), 0, 0), ColonV4()), rest, s);
    assert [ColonV4()] + rest == [ColonV4(), Repeat(ColonGroup(), 1, 2), Lit(':')];
    assert [Cat(Repeat(ColonGroup(), 0, 0), ColonV4())] + rest == Tail(0, 2).options;
  }

  lemma ElisionElim(k: nat, tail: Regex, s: string) returns (f: Form)
    requires 3 <= k <= 7
    requires Matches(Cat(Repeat(GroupColon(), 8 - k, 8 - k), tail), s)
    requires forall t :: Matches(tail, t) <==> Matches(Tail(k - 3, k - 1), t)
    ensures Writes(k, f, s)
  {
    var left, rest := RepeatAfterElim(V6Seg(), ':', 8 - k, tail, s);
    SegsIff(left);
    var right := TailElim(k - 3, k - 1, rest);
    ElidedWrites(left, right, rest);
    f := Elided(left, right);
  }

  lemma AlternativeElim(k: nat, s: string) returns (f: Form)
    requires 1 <= k <= 8 && Matches(Alternative(k), s)
    ensures Writes(k, f, s)
  {
    hide Matches, Writes, TailText;
    if k == 1 {
      f := Alternative1Elim(s);
    } else if k == 2 {
      f := Alternative2Elim(s);
    } else if k == 3 {
      forall t { Tail3Iff(t); }
      f := ElisionElim(3, Any([ColonV4(), Repeat(ColonGroup(), 1, 2), Lit(':')]), s);
    } else if k == 8 {
      OneCat(Lit(':'), Tail(5, 7), s);
      var right := TailElim(5, 7, s[1..]);
      ElidedWrites([], right, s[1..]);
      assert s == ":" + s[1..];
      f := Elided([], right);
    } else {
      f := ElisionElim(k, Tail(k - 3, k - 1), s);
    }
  }

  lemma AlternativeIntro(f: Form)
    requires Valid(f)
    ensures 1 <= AlternativeOf(f) <= 8 && Matches(Alternative(AlternativeOf(f)), Text(f))
  {
    match f {
      case Full(groups) => FullIntro(groups);
      case Elided(left, right) => ElidedIntro(left, right);
    }
  }

  lemma FullQuadIntro(left: seq<string>, last: string)
    requires |left| == 6 && AllMatch(V6Seg(), left) && IsQuad(last)
    ensures Matches(Alternative(2), After(left, ':') + last)
  {
    hide Matches, IsQuad, After;
    V4Intro(last);
    AnyIntro([V4Str(), ColonGroup(), Lit(':')], 0, last);
    RepeatAfterIntro(V6Seg(), ':', Any([V4Str(), ColonGroup(), Lit(':')]), left, last);
  }

  lemma FullGroupIntro(left: seq<string>, last: string)
    requires |left| == 7 && AllMatch(V6Seg(), left) && IsGroup(last)
    ensures Matches(Alternative(1), After(left, ':') + last)
  {
    hide Matches, IsGroup, After;
    SegIff(last);
    AnyIntro([V6Seg(), Lit(':')], 0, last);
    RepeatAfterIntro(V6Seg(), ':', Any([V6Seg(), Lit(':')]), left, last);
  }

  lemma FullIntro(groups: seq<string>)
    requires Valid(Full(groups))
    ensures Matches(Alternative(AlternativeOf(Full(groups))), Join(groups, ':'))
  {
    hide Matches, IsQuad, IsGroup, Join, After;
    var n := |groups| - 1;
    JoinIsAfter(groups, ':');
    SegsIff(groups[..n]);
    if EndsInQuad(groups) {
      FullQuadIntro(groups[..n], groups[n]);
    } else {
      FullGroupIntro(groups[..n], groups[n]);
    }
  }

  lemma ElidedIntro(left: seq<string>, right: seq<string>)
    requires Valid(Elided(left, right))
    ensures Matches(Alternative(8 - |left|), Text(Elided(left, right)))
  {
    hide Matches, IsQuad, IsGroup, After, Text, TailText, Alternative;
    ElidedText(left, right);
    SegsIff(left);
    match |left| {
      case 7 => Elided7Intro(left, right);
      case 6 => Elided6Intro(left, right);
      case 5 => Elided5Intro(left, right);
      case 0 => Elided0Intro(right);
      case n =>
        Alternative4To7(8 - n);
        TailIntro(5 - n, 7 - n, right);
        RepeatAfterIntro(V6Seg(), ':', Tail(5 - n, 7 - n), left, TailText(right));
    }
  }

  lemma Alternative4To7(k: nat)
    requires 4 <= k <= 7
    ensures Alternative(k) == Cat(Repeat(GroupColon(), 8 - k, 8 - k), Tail(k - 3, k - 1))
  {
  }

  lemma Elided7Intro(left: seq<string>, right: seq<string>)
    requires |left| == 7 && AllMatch(V6Seg(), left) && right == []
    ensures Matches(Alternative(1), After(left, ':') + TailText(right))
  {
    AnyIntro([V6Seg(), Lit(':')], 1, ":");
    RepeatAfterIntro(V6Seg(), ':', Any([V6Seg(), Lit(':')]), left, ":");
  }

  lemma ColonGroupIntro(group: string)
    requires IsGroup(group)
    ensures Matches(ColonGroup(), Before([group], ':'))
  {
    SegIff(group);
    assert Matches(Lit(':'), ":");
    CatIntro(Lit(':'), V6Seg(), ":", group);
    assert Before([group], ':') == ":" + group;
  }

  lemma Elided6Intro(left: seq<string>, right: seq<string>)
    requires |left| == 6 && AllMatch(V6Seg(), left) && GroupsOk(right) && Width(right) <= 1
    ensures Matches(Alternative(2), After(left, ':') + TailText(right))
  {
    var options := [V4Str(), ColonGroup(), Lit(':')];
    if right == [] {
      AnyIntro(options, 2, ":");
    } else {
      assert right == [right[0]];
      ColonGroupIntro(right[0]);
      AnyIntro(options, 1, TailText(right));
    }
    RepeatAfterIntro(V6Seg(), ':', Any(options), left, TailText(right));
  }

  lemma Elided5Intro(left: seq<string>, right: seq<string>)
    requires |left| == 5 && AllMatch(V6Seg(), left) && GroupsOk(right) && Width(right) <= 2
    ensures Matches(Alternative(3), After(left, ':') + TailText(right))
  {
    TailIntro(0, 2, right);
    Tail3Iff(TailText(right));
    RepeatAfterIntro(V6Seg(), ':', Any([ColonV4(), Repeat(ColonGroup(), 1, 2), Lit(':')]), left, TailText(right));
  }

  lemma Elided0Intro(right: seq<string>)
    requires GroupsOk(right) && Width(right) <= 7
    ensures Matches(Alternative(8), ":" + TailText(right))
  {
    hide Matches, IsQuad, IsGroup, TailText;
    LitIntro(':');
    TailIntro(5, 7, right);
    CatIntro(Lit(':'), Tail(5, 7), ":", TailText(right));
  }

  /** Alternative `k` matches exactly the texts of the valid forms of its own shape. */
  lemma AlternativeIff(k: nat, s: string)
    requires 1 <= k <= 8
    ensures Matches(Alternative(k), s) <==> Decompose(s).Some? && AlternativeOf(Decompose(s).value) == k
  {
    if Matches(Alternative(k), s) {
      var f := AlternativeElim(k, s);
      DecomposeIff(s, f);
    }
    if Decompose(s).Some? {
      DecomposeIff(s, Decompose(s).value);
      AlternativeIntro(Decompose(s).value);
    }
  }

  /** The eight alternatives are pairwise disjoint. */
  lemma AlternativesDisjoint(j: nat, k: nat, s: string)
    requires 1 <= j <= 8 && 1 <= k <= 8
    requires Matches(Alternative(j), s) && Matches(Alternative(k), s)
    ensures j == k
  {
    AlternativeIff(j, s);
    AlternativeIff(k, s);
  }

  lemma CoreOptions(s: string)
    ensures Matches(IPv6Core(), s) <==> exists k | 1 <= k <= 8 :: Matches(Alternative(k), s)
  {
    var options := IPv6Core().options;
    assert forall k | 1 <= k <= 8 :: options[k - 1] == Alternative(k);
    if Matches(IPv6Core(), s) {
      var k := AnyElim(options, s);
      assert Matches(Alternative(k + 1), s);
    }
    if k :| 1 <= k <= 8 && Matches(Alternative(k), s) {
      AnyIntro(options, k - 1, s);
    }
  }

  lemma CoreIff(s: string)
    ensures Matches(IPv6Core(), s) <==> Decompose(s).Some?
  {
    CoreOptions(s);
    forall k | 1 <= k <= 8 {
      AlternativeIff(k, s);
    }
    if Decompose(s).Some? {
      DecomposeIff(s, Decompose(s).value);
      AlternativeIntro(Decompose(s).value);
    }
  }
}
