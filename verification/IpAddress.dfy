/**
 What `isIP` decides, in terms of the addresses themselves: which strings it accepts, what they denote, how long
 they can be, and that every address can be written and read back.
 */
module IpAddress {
  import opened Strings
  import opened Regex
  import opened Ip
  import opened IpForm
  import opened IpRegex

  // Characters and lengths

  predicate AddressChar(c: char) { HexDigit(c) || c == '.' || c == ':' }

  predicate Ascii(c: char) { c < 128 as char }

  lemma GroupChars(group: string)
    requires IsGroup(group)
    ensures AllChars(group, AddressChar) && |group| <= 4
  {
    hide IsHex, HexDigit;
    Alphabets();
  }

  lemma GroupsChars(groups: seq<string>)
    requires GroupsOk(groups)
    ensures AllChars(Join(groups, ':'), AddressChar)
    ensures |Join(groups, ':')| <= if EndsInQuad(groups) then 5 * |groups| + 10 else 5 * |groups|
    ensures groups != [] && !EndsInQuad(groups) ==> |Join(groups, ':')| < 5 * |groups|
  {
    hide IsGroup, IsQuad, HexDigit;
    if EndsInQuad(groups) {
      QuadLastChars(groups);
    } else if groups != [] {
      forall i | 0 <= i < |groups| { GroupChars(groups[i]); }
      JoinChars(groups, ':', AddressChar, 4);
    }
  }

  lemma QuadLastChars(groups: seq<string>)
    requires EndsInQuad(groups)
    ensures AllChars(Join(groups, ':'), AddressChar) && |Join(groups, ':')| <= 5 * |groups| + 10
  {
    hide IsGroup, IsQuad, Join;
    var n := |groups| - 1;
    QuadFacts(groups[n]);
    JoinIsAfter(groups, ':');
    if n > 0 {
      forall i | 0 <= i < n { GroupChars(groups[..n][i]); }
      JoinChars(groups[..n], ':', AddressChar, 4);
      JoinIsAfter(groups[..n], ':');
    }
  }

  /** The text of an address is made of hexadecimal digits, dots and colons, and is at most 45 characters long. */
  lemma TextBounds(f: Form)
    requires Valid(f)
    ensures AllChars(Text(f), AddressChar) && |Text(f)| <= 45
  {
    match f {
      case Full(groups) =>
        GroupsChars(groups);
      case Elided(left, right) =>
        WidthOfGroups(left);
        GroupsChars(left);
        GroupsChars(right);
    }
  }

  lemma LargestOctet()
    ensures IsOctet("255")
  {
    assert Number("255", 1, 10) == 2 && Number("255", 2, 10) == 25;
  }

  lemma LargestQuad() returns (quad: string)
    ensures IsQuad(quad) && |quad| == 15
  {
    hide Join, Split, IsOctet;
    var octets := ["255", "255", "255", "255"];
    LargestOctet();
    JoinSteps("255", "255", "255", "255", '.');
    SplitOfJoin(octets, '.');
    quad := Join(octets, '.');
  }

  lemma {:induction false} AfterSame(n: nat, g: string, c: char)
    ensures |After(seq(n, _ => g), c)| == n * (|g| + 1)
  {
    if n > 0 {
      assert seq(n, _ => g)[1..] == seq(n - 1, _ => g);
      AfterSame(n - 1, g, c);
      assert n * (|g| + 1) == (n - 1) * (|g| + 1) + (|g| + 1);
    }
  }

  /** The bound of 45 characters is attained: six four-digit groups and the largest dotted quad. */
  lemma LongestAddress() returns (s: string)
    ensures IsIP(s) == 6 && |s| == 45 && '%' !in s
  {
    var groups := seq(6, _ => "ffff");
    var quad := LargestQuad();
    LongestForm(groups, quad);
    AfterSame(6, "ffff", ':');
    s := Text(Full(groups + [quad]));
    TextIsIPv6(Full(groups + [quad]));
  }

  lemma TextIsIPv6(f: Form)
    requires Valid(f)
    ensures IsIP(Text(f)) == 6 && '%' !in Text(f)
  {
    WholeIPv6(f, "");
    TextBounds(f);
    assert Text(f) + "" == Text(f);
  }

  lemma LongestForm(groups: seq<string>, quad: string)
    requires |groups| == 6 && AllGroups(groups) && IsQuad(quad)
    ensures Valid(Full(groups + [quad])) && |Text(Full(groups + [quad]))| == |After(groups, ':')| + |quad|
  {
    QuadLast(groups, quad);
    JoinIsAfter(groups + [quad], ':');
    assert (groups + [quad])[..6] == groups;
  }

  // Zones

  lemma ZoneIff(z: string)
    ensures Matches(Zone(), z) <==> ZoneOk(z)
  {
    hide IsZoneLetter, ZoneChar;
    Alphabets();
    OptIff(Cat(Lit('%'), AtLeast(One(ZoneChar), 1)), z);
    OneCat(Lit('%'), AtLeast(One(ZoneChar), 1), z);
    if z != "" {
      AtLeastOne(ZoneChar, z[1..]);
      assert forall i | 1 <= i < |z| :: z[i] == z[1..][i - 1];
    }
  }

  lemma ZoneSplit(a: string, z: string)
    requires AllChars(a, AddressChar) && ZoneOk(z)
    ensures AddressPart(a + z) == a && ZonePart(a + z) == z
  {
    hide IsZoneLetter;
    if z == "" {
      assert a + z == a;
    } else {
      assert a + z == a + ['%'] + z[1..];
      IndexOfPrefix(a, '%', z[1..]);
    }
  }

  // The whole pattern

  lemma WholeIPv6(f: Form, z: string)
    requires Valid(f) && ZoneOk(z)
    ensures IsIPv6(Text(f) + z)
    ensures AddressPart(Text(f) + z) == Text(f) && ZonePart(Text(f) + z) == z
    ensures IsIP(Text(f) + z) == 6
  {
    DecomposeIff(Text(f), f);
    CoreIff(Text(f));
    ZoneIff(z);
    CatIntro(IPv6Core(), Zone(), Text(f), z);
    TextBounds(f);
    ZoneSplit(Text(f), z);
    FamiliesDisjoint(Text(f) + z);
  }

  /** The IPv6 pattern accepts exactly a decomposable address with an optional well-formed zone. */
  lemma IPv6Iff(s: string)
    ensures IsIPv6(s) <==> Decompose(AddressPart(s)).Some? && ZoneOk(ZonePart(s))
  {
    if IsIPv6(s) {
      var i := CatElim(IPv6Core(), Zone(), s);
      CoreIff(s[..i]);
      ZoneIff(s[i..]);
      var f := Decompose(s[..i]).value;
      DecomposeIff(s[..i], f);
      TextBounds(f);
      ZoneSplit(s[..i], s[i..]);
      assert s == s[..i] + s[i..];
    }
    if Decompose(AddressPart(s)).Some? && ZoneOk(ZonePart(s)) {
      CoreIff(AddressPart(s));
      ZoneIff(ZonePart(s));
      CatIntro(IPv6Core(), Zone(), AddressPart(s), ZonePart(s));
      assert s == AddressPart(s) + ZonePart(s);
    }
  }

  lemma QuadIsOneGroup(s: string)
    requires IsQuad(s)
    ensures AddressPart(s) == s && Decompose(s).None?
  {
    QuadFacts(s);
    assert forall i | 0 <= i < |s| :: QuadChar(s[i]);
    NoElision(s);
    assert IndexOf(s, ':') == |s|;
    assert Cut(s) == Full([s]);
  }

  /** No string is both an IPv4 and an IPv6 address, so the order of the two tests in `isIP` does not matter. */
  lemma FamiliesDisjoint(s: string)
    ensures !(IsIPv4(s) && IsIPv6(s))
  {
    if IsIPv4(s) && IsIPv6(s) {
      IPv4Iff(s);
      IPv6Iff(s);
      QuadIsOneGroup(s);
    }
  }

  /** `isIP`, without patterns. */
  function Family(s: string): nat {
    if IsQuad(s) then 4
    else if Decompose(AddressPart(s)).Some? && ZoneOk(ZonePart(s)) then 6
    else 0
  }

  lemma FamilyIsIP(s: string)
    ensures Family(s) == IsIP(s)
  {
    IPv4Iff(s);
    IPv6Iff(s);
  }

  lemma IPv6Bounds(s: string)
    requires Decompose(AddressPart(s)).Some? && ZoneOk(ZonePart(s))
    ensures AllChars(s, Ascii) && ('%' !in s ==> |s| <= 45)
  {
    hide IndexOf, Decompose, Text, Valid, ZoneOk, AddressChar, Ascii;
    var a, z := AddressPart(s), ZonePart(s);
    DecomposeIff(a, Decompose(a).value);
    TextBounds(Decompose(a).value);
    AsciiParts(a, z);
    assert s == a + z;
  }

  lemma AsciiParts(a: string, z: string)
    requires AllChars(a, AddressChar) && ZoneOk(z)
    ensures AllChars(a + z, Ascii)
    ensures '%' !in a + z ==> z == ""
  {
    hide IsZoneLetter, ZoneChar;
    Alphabets();
    forall c ensures ZoneChar(c) ==> Ascii(c) { ZoneIsAscii(c); }
    assert z != "" ==> (a + z)[|a|] == '%';
  }

  lemma ZoneIsAscii(c: char)
    ensures ZoneChar(c) ==> Ascii(c) && c != 0 as char
  {
  }

  /** Every accepted string is ASCII; without a zone it is at most 45 characters long. */
  lemma LiteralBounds(s: string)
    requires IsIP(s) != 0
    ensures AllChars(s, Ascii)
    ensures '%' !in s ==> |s| <= 45
    ensures IsIP(s) == 4 ==> '%' !in s && |s| <= 15
  {
    FamilyIsIP(s);
    if IsQuad(s) {
      QuadFacts(s);
    } else {
      IPv6Bounds(s);
    }
  }
}
