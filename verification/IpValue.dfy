/**
 The 128-bit value an IPv6 text denotes, as eight 16-bit groups (section 2.2 of RFC 4291), and the ways of
 writing a value: eliding any run of zero groups or none, with or without a dotted quad for the last 32 bits.
 */
module IpValue {
  import opened Strings
  import opened Ip
  import opened IpForm
  import opened IpRegex
  import opened IpAddress

  // Reading

  function Octet(s: string): int { Number(s, |s|, 10) }

  function GroupValues(group: string): seq<int> {
    if IsQuad(group) then
      var o := Split(group, '.');
      [256 * Octet(o[0]) + Octet(o[1]), 256 * Octet(o[2]) + Octet(o[3])]
    else
      [Number(group, |group|, 16)]
  }

  function Values(groups: seq<string>): seq<int> {
    if groups == [] then [] else GroupValues(groups[0]) + Values(groups[1..])
  }

  function Zeros(n: nat): seq<int> { seq(n, _ => 0) }

  function FormValue(f: Form): seq<int>
    requires Valid(f)
  {
    match f
    case Full(groups) => Values(groups)
    case Elided(left, right) => Values(left) + Zeros(8 - |left| - Width(right)) + Values(right)
  }

  /** The value of an address text, ignoring its zone; `None` when the text is not an IPv6 address. */
  function ParseIPv6(s: string): Option<seq<int>> {
    var f := Decompose(AddressPart(s));
    if f.Some? && ZoneOk(ZonePart(s)) then Some(FormValue(f.value)) else None
  }

  function ParseIPv4(s: string): Option<seq<int>> {
    if IsQuad(s) then var o := Split(s, '.'); Some([Octet(o[0]), Octet(o[1]), Octet(o[2]), Octet(o[3])]) else None
  }

  predicate Is16Bit(v: seq<int>) {
    forall i | 0 <= i < |v| :: 0 <= v[i] < 0x1_0000
  }

  /** The bases of the two notations. */
  predicate Base(b: nat) { b == 10 || b == 16 }

  function Power(b: nat, n: nat): nat
    requires Base(b)
  {
    if n == 0 then 1 else if b == 10 then 10 * Power(b, n - 1) else 16 * Power(b, n - 1)
  }

  lemma {:induction false} NumberBounds(s: string, n: nat, base: nat)
    requires n <= |s| && Base(base) && forall i | 0 <= i < n :: 0 <= DigitValue(s[i]) < base
    ensures 0 <= Number(s, n, base) < Power(base, n)
  {
    if n > 0 {
      NumberBounds(s, n - 1, base);
      if base == 10 {
        assert Number(s, n, 10) == 10 * Number(s, n - 1, 10) + DigitValue(s[n - 1]);
      } else {
        assert Number(s, n, 16) == 16 * Number(s, n - 1, 16) + DigitValue(s[n - 1]);
      }
    }
  }

  lemma SmallPowers()
    ensures Power(10, 1) == 10 && Power(10, 2) == 100 && Power(10, 3) == 1000
    ensures Power(16, 1) == 16 && Power(16, 2) == 256 && Power(16, 3) == 4096 && Power(16, 4) == 0x1_0000
  {
  }

  lemma OctetBounds(s: string)
    requires IsOctet(s)
    ensures 0 <= Octet(s) <= 255
  {
    NumberBounds(s, |s|, 10);
  }

  lemma GroupBounds(group: string)
    requires IsGroup(group)
    ensures 0 <= Number(group, |group|, 16) < 0x1_0000
  {
    hide IsHex, HexDigit, DigitValue;
    forall i | 0 <= i < |group| ensures 0 <= DigitValue(group[i]) < 16 { HexBounds(group[i]); }
    NumberBounds(group, |group|, 16);
    SmallPowers();
  }

  lemma HexBounds(c: char)
    ensures 0 <= DigitValue(c) < 16
  {
  }

  lemma GroupValueFacts(group: string)
    requires IsGroup(group) || IsQuad(group)
    ensures Is16Bit(GroupValues(group)) && |GroupValues(group)| == if IsQuad(group) then 2 else 1
  {
    hide IsHex, IsGroup, Split, IsOctet;
    if IsQuad(group) {
      forall i | 0 <= i < 4 ensures 0 <= Octet(Split(group, '.')[i]) <= 255 { OctetBounds(Split(group, '.')[i]); }
    } else {
      GroupBounds(group);
    }
  }

  lemma {:induction false} ValuesFacts(groups: seq<string>)
    requires GroupsOk(groups)
    ensures Is16Bit(Values(groups)) && |Values(groups)| == Width(groups)
  {
    if groups != [] {
      TailOk(groups);
      ValuesFacts(groups[1..]);
      GroupValueFacts(groups[0]);
    }
  }

  lemma TailOk(groups: seq<string>)
    requires GroupsOk(groups) && groups != []
    ensures GroupsOk(groups[1..]) && (IsGroup(groups[0]) || IsQuad(groups[0]))
    ensures Width(groups) == Width(groups[1..]) + if IsQuad(groups[0]) then 2 else 1
  {
    var rest := groups[1..];
    if EndsInQuad(groups) {
      var n := |groups| - 1;
      if n > 0 {
        assert rest[..n - 1] == groups[..n][1..];
        assert groups[0] == groups[..n][0];
        GroupIsNotQuad(groups[0]);
      }
    } else {
      WidthOfGroups(groups);
      GroupIsNotQuad(groups[0]);
      WidthOfGroups(rest);
    }
  }

  lemma EightGroups(f: Form)
    requires Valid(f)
    ensures |FormValue(f)| == 8 && Is16Bit(FormValue(f))
  {
    match f {
      case Full(groups) => ValuesFacts(groups);
      case Elided(left, right) =>
        WidthOfGroups(left);
        ValuesFacts(left);
        ValuesFacts(right);
    }
  }

  /** Every accepted text names exactly one 128-bit value. */
  lemma ParseIPv6Iff(s: string)
    ensures ParseIPv6(s).Some? <==> IsIPv6(s)
    ensures ParseIPv6(s).Some? ==> |ParseIPv6(s).value| == 8 && Is16Bit(ParseIPv6(s).value)
  {
    hide IsIPv6, Decompose, FormValue, AddressPart, ZonePart, ZoneOk;
    IPv6Iff(s);
    if ParseIPv6(s).Some? {
      var f := Decompose(AddressPart(s)).value;
      DecomposeIff(AddressPart(s), f);
      EightGroups(f);
    }
  }

  // Writing

  function DigitChar(d: int): char
    requires 0 <= d < 16
  {
    if d < 10 then ('0' as int + d) as char else ('a' as int + d - 10) as char
  }

  /** The shortest text of `n` in a base up to 16. */
  function Digits(n: nat, base: nat): (s: string)
    requires Base(base)
    ensures s != ""
  {
    if n < base then [DigitChar(n)] else Digits(n / base, base) + [DigitChar(n % base)]
  }

  lemma {:induction false} NumberOfPrefix(s: string, t: string, n: nat, base: nat)
    requires n <= |s| && n <= |t| && s[..n] == t[..n]
    ensures Number(s, n, base) == Number(t, n, base)
  {
    if n > 0 {
      assert s[..n - 1] == s[..n][..n - 1] && t[..n - 1] == t[..n][..n - 1];
      assert s[n - 1] == s[..n][n - 1] && t[n - 1] == t[..n][n - 1];
      NumberOfPrefix(s, t, n - 1, base);
    }
  }

  /** Reading the digits of a number gives the number back; they are digits of the base without a leading zero. */
  lemma DigitCharFacts(d: int)
    requires 0 <= d < 16
    ensures IsHex(DigitChar(d)) && DigitValue(DigitChar(d)) == d && (DigitChar(d) == '0' <==> d == 0)
  {
    HexIff(DigitChar(d));
  }

  /** A digit means its position in the alphabet, in either case. */
  lemma DigitMeans(d: nat)
    requires d < 16
    ensures DigitValue("0123456789abcdef"[d]) == d && DigitValue("0123456789ABCDEF"[d]) == d
  {
  }

  lemma Division(n: nat, base: nat)
    requires Base(base)
    ensures n == base * (n / base) + n % base && (n >= base ==> n / base > 0)
  {
  }

  lemma {:induction false} NumberOfDigits(n: nat, base: nat)
    requires Base(base)
    ensures var s := Digits(n, base);
            && Number(s, |s|, base) == n
            && (forall i | 0 <= i < |s| :: IsHex(s[i]) && DigitValue(s[i]) < base)
            && (n > 0 ==> s[0] != '0') && (n == 0 ==> s == "0")
  {
    hide IsHex, DigitChar, DigitValue;
    var s := Digits(n, base);
    DigitCharFacts(n % base);
    if n < base {
      assert Number(s, 0, base) == 0 && base * 0 == 0;
    } else {
      var t := Digits(n / base, base);
      NumberOfDigits(n / base, base);
      NumberOfPrefix(s, t, |t|, base);
      assert Number(s, |s|, base) == base * Number(t, |t|, base) + DigitValue(s[|t|]);
      Division(n, base);
    }
  }

  lemma {:induction false} DigitsLength(n: nat, base: nat, k: nat)
    requires Base(base) && k >= 1 && n < Power(base, k)
    ensures |Digits(n, base)| <= k
  {
    if n >= base {
      assert k > 1 by {
        SmallPowers();
      }
      if base == 10 {
        DigitsLength(n / 10, 10, k - 1);
      } else {
        DigitsLength(n / 16, 16, k - 1);
      }
    }
  }

  lemma HexIsGroup(n: nat)
    requires n < 0x1_0000
    ensures IsGroup(Digits(n, 16)) && GroupValues(Digits(n, 16)) == [n]
  {
    NumberOfDigits(n, 16);
    SmallPowers();
    DigitsLength(n, 16, 4);
    GroupIsNotQuad(Digits(n, 16));
  }

  lemma DecimalIsOctet(n: nat)
    requires n < 256
    ensures IsOctet(Digits(n, 10)) && Octet(Digits(n, 10)) == n && '.' !in Digits(n, 10)
  {
    NumberOfDigits(n, 10);
    SmallPowers();
    DigitsLength(n, 10, 3);
  }

  function Quad(a: nat, b: nat, c: nat, d: nat): string {
    Join([Digits(a, 10), Digits(b, 10), Digits(c, 10), Digits(d, 10)], '.')
  }

  lemma QuadIsQuad(a: nat, b: nat, c: nat, d: nat)
    requires a < 256 && b < 256 && c < 256 && d < 256
    ensures IsQuad(Quad(a, b, c, d)) && ParseIPv4(Quad(a, b, c, d)) == Some([a, b, c, d])
    ensures GroupValues(Quad(a, b, c, d)) == [256 * a + b, 256 * c + d]
  {
    QuadOctets(a, b, c, d);
    var o := Split(Quad(a, b, c, d), '.');
    DecimalIsOctet(a);
    DecimalIsOctet(b);
    DecimalIsOctet(c);
    DecimalIsOctet(d);
    assert Octet(o[0]) == a && Octet(o[1]) == b && Octet(o[2]) == c && Octet(o[3]) == d;
  }

  lemma QuadOctets(a: nat, b: nat, c: nat, d: nat)
    requires a < 256 && b < 256 && c < 256 && d < 256
    ensures IsQuad(Quad(a, b, c, d))
    ensures Split(Quad(a, b, c, d), '.') == [Digits(a, 10), Digits(b, 10), Digits(c, 10), Digits(d, 10)]
  {
    DecimalIsOctet(a);
    DecimalIsOctet(b);
    DecimalIsOctet(c);
    DecimalIsOctet(d);
    SplitOfOctets([Digits(a, 10), Digits(b, 10), Digits(c, 10), Digits(d, 10)]);
  }

  lemma SplitOfOctets(o: seq<string>)
    requires |o| == 4 && forall i | 0 <= i < 4 :: IsOctet(o[i])
    ensures Split(Join(o, '.'), '.') == o && IsQuad(Join(o, '.'))
  {
    SplitOfJoin(o, '.');
  }

  /** Every four bytes, written with dots, are an IPv4 address that reads back as those bytes. */
  lemma IPv4RoundTrip(a: nat, b: nat, c: nat, d: nat)
    requires a < 256 && b < 256 && c < 256 && d < 256
    ensures IsIP(Quad(a, b, c, d)) == 4 && ParseIPv4(Quad(a, b, c, d)) == Some([a, b, c, d])
  {
    QuadIsQuad(a, b, c, d);
    IPv4Iff(Quad(a, b, c, d));
  }

  function Hex(v: seq<int>): seq<string>
    requires Is16Bit(v)
  {
    seq(|v|, i requires 0 <= i < |v| => Digits(v[i], 16))
  }

  /** Groups in hexadecimal, the last two of them as a dotted quad if so asked. */
  function Groups(v: seq<int>, quad: bool): seq<string>
    requires Is16Bit(v) && (quad ==> |v| >= 2)
  {
    if quad then
      var hi, lo := v[|v| - 2], v[|v| - 1];
      Hex(v[..|v| - 2]) + [Quad(hi / 256, hi % 256, lo / 256, lo % 256)]
    else
      Hex(v)
  }

  /** How to write a value: which groups to elide, if any, and whether to end in a dotted quad. */
  datatype Notation = Notation(elide: bool, from: nat, to: nat, quad: bool)

  predicate CanWrite(v: seq<int>, how: Notation) {
    && |v| == 8 && Is16Bit(v)
    && (how.elide ==> how.from < how.to <= (if how.quad then 6 else 8))
    && (how.elide ==> forall i | how.from <= i < how.to :: v[i] == 0)
  }

  function Write(v: seq<int>, how: Notation): Form
    requires CanWrite(v, how)
  {
    if how.elide then Elided(Hex(v[..how.from]), Groups(v[how.to..], how.quad)) else Full(Groups(v, how.quad))
  }

  lemma {:induction false} ValuesAppend(front: seq<string>, back: seq<string>)
    ensures Values(front + back) == Values(front) + Values(back)
  {
    if front == [] {
      assert front + back == back;
    } else {
      assert (front + back)[1..] == front[1..] + back;
      ValuesAppend(front[1..], back);
    }
  }

  lemma {:induction false} HexValues(v: seq<int>)
    requires Is16Bit(v)
    ensures AllGroups(Hex(v)) && Values(Hex(v)) == v && Width(Hex(v)) == |v| && !EndsInQuad(Hex(v))
  {
    hide IsHex, IsQuad, Digits, Octet;
    forall i | 0 <= i < |v| ensures IsGroup(Hex(v)[i]) {
      HexIsGroup(v[i]);
    }
    WidthOfGroups(Hex(v));
    if v != [] {
      HexIsGroup(v[0]);
      assert Hex(v)[1..] == Hex(v[1..]);
      HexValues(v[1..]);
    }
  }

  lemma QuadValues(hi: int, lo: int, q: string)
    requires 0 <= hi < 0x1_0000 && 0 <= lo < 0x1_0000
    requires q == Quad(hi / 256, hi % 256, lo / 256, lo % 256)
    ensures IsQuad(q) && Values([q]) == [hi, lo]
  {
    QuadIsQuad(hi / 256, hi % 256, lo / 256, lo % 256);
    assert [q][1..] == [];
  }

  lemma GroupsValues(v: seq<int>, quad: bool)
    requires Is16Bit(v) && (quad ==> |v| >= 2)
    ensures GroupsOk(Groups(v, quad)) && Values(Groups(v, quad)) == v && Width(Groups(v, quad)) == |v|
  {
    hide Values, Hex, IsQuad, Quad;
    if quad {
      var n := |v| - 2;
      var q := Quad(v[n] / 256, v[n] % 256, v[n + 1] / 256, v[n + 1] % 256);
      QuadValues(v[n], v[n + 1], q);
      HexValues(v[..n]);
      QuadLast(Hex(v[..n]), q);
      ValuesAppend(Hex(v[..n]), [q]);
      assert v == v[..n] + [v[n], v[n + 1]];
    } else {
      HexValues(v);
    }
  }

  lemma ElidedValue(v: seq<int>, from: nat, to: nat, left: seq<string>, right: seq<string>)
    requires |v| == 8 && from < to <= 8 && forall i | from <= i < to :: v[i] == 0
    requires AllGroups(left) && |left| == from && Values(left) == v[..from]
    requires GroupsOk(right) && Width(right) == 8 - to && Values(right) == v[to..]
    ensures Valid(Elided(left, right)) && FormValue(Elided(left, right)) == v
  {
    hide IsHex, IsQuad, Values;
    assert v[..from] + Zeros(to - from) + v[to..] == v;
  }

  lemma WriteValue(v: seq<int>, how: Notation)
    requires CanWrite(v, how)
    ensures Valid(Write(v, how)) && FormValue(Write(v, how)) == v
  {
    if how.elide {
      HexValues(v[..how.from]);
      GroupsValues(v[how.to..], how.quad);
      ElidedValue(v, how.from, how.to, Hex(v[..how.from]), Groups(v[how.to..], how.quad));
    } else {
      GroupsValues(v, how.quad);
    }
  }

  /**
   Every 128-bit value, with any run of zero groups elided or none, in either notation for its last 32 bits and
   with any well-formed zone, is accepted as an IPv6 address and reads back as the same value.
   */
  lemma IPv6RoundTrip(v: seq<int>, how: Notation, zone: string)
    requires CanWrite(v, how) && ZoneOk(zone)
    ensures IsIP(Text(Write(v, how)) + zone) == 6
    ensures ParseIPv6(Text(Write(v, how)) + zone) == Some(v)
  {
    var f := Write(v, how);
    WriteValue(v, how);
    WholeIPv6(f, zone);
    DecomposeIff(Text(f), f);
  }
}
