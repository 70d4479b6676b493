/**
 The meaning of an address text, independently of any pattern: colon-separated groups with at most one elision.
 `Decompose` finds the groups by cutting the text at the first "::" and at every ":"; `Text` writes them back.
 */
module IpForm {
  import opened Sequences
  import opened Strings
  import opened Ip

  datatype Option<+T> = None | Some(value: T)

  /** Either all groups written out, or the groups to the left and to the right of a "::". */
  datatype Form = Full(groups: seq<string>) | Elided(left: seq<string>, right: seq<string>)

  function DigitValue(c: char): int {
    if '0' <= c <= '9' then c as int - '0' as int
    else if 'a' <= c <= 'f' then 10 + c as int - 'a' as int
    else if 'A' <= c <= 'F' then 10 + c as int - 'A' as int
    else 0
  }

  /** The number written by the first `n` digits of `s`. */
  function Number(s: string, n: nat, base: nat): int
    requires n <= |s|
  {
    if n == 0 then 0 else base * Number(s, n - 1, base) + DigitValue(s[n - 1])
  }

  predicate AllDigits(s: string) {
    forall i | 0 <= i < |s| :: '0' <= s[i] <= '9'
  }

  /** A decimal number at most 255, written without a leading zero. */
  predicate IsOctet(s: string) {
    1 <= |s| <= 3 && AllDigits(s) && (|s| > 1 ==> s[0] != '0') && Number(s, |s|, 10) <= 255
  }

  predicate IsQuad(s: string) {
    var octets := Split(s, '.');
    |octets| == 4 && forall i | 0 <= i < 4 :: IsOctet(octets[i])
  }

  predicate QuadChar(c: char) { '0' <= c <= '9' || c == '.' }

  const DIGITS := "0123456789"
  const LOWER := "abcdefghijklmnopqrstuvwxyz"
  const UPPER := "ABCDEFGHIJKLMNOPQRSTUVWXYZ"

  predicate IsHex(c: char) { c in DIGITS || c in "abcdef" || c in "ABCDEF" }

  /** The 65 characters that the name of a zone may have. */
  predicate IsZoneLetter(c: char) { c in DIGITS || c in LOWER || c in UPPER || c in "-.:" }

  predicate IsGroup(s: string) {
    1 <= |s| <= 4 && forall i | 0 <= i < |s| :: IsHex(s[i])
  }

  predicate AllGroups(groups: seq<string>) {
    forall i | 0 <= i < |groups| :: IsGroup(groups[i])
  }

  /** A dotted quad is written only as the very last group. */
  predicate EndsInQuad(groups: seq<string>) {
    groups != [] && IsQuad(groups[|groups| - 1]) && AllGroups(groups[..|groups| - 1])
  }

  predicate GroupsOk(groups: seq<string>) {
    AllGroups(groups) || EndsInQuad(groups)
  }

  /** How many 16-bit groups the texts stand for: a dotted quad stands for two. */
  function Width(groups: seq<string>): nat {
    if EndsInQuad(groups) then |groups| + 1 else |groups|
  }

  /** Eight groups, of which "::" stands for at least one. */
  predicate Valid(f: Form) {
    match f
    case Full(groups) => GroupsOk(groups) && Width(groups) == 8
    case Elided(left, right) => AllGroups(left) && GroupsOk(right) && |left| + Width(right) <= 7
  }

  function Text(f: Form): string {
    match f
    case Full(groups) => Join(groups, ':')
    case Elided(left, right) => Join(left, ':') + "::" + Join(right, ':')
  }

  /** The position of the first "::" in `s`, or `|s|` when there is none. */
  function FirstElision(s: string): (i: nat)
    ensures i <= |s|
    ensures i < |s| ==> i + 2 <= |s| && s[i..i + 2] == "::"
  {
    if |s| < 2 then |s|
    else if s[..2] == "::" then 0
    else 1 + FirstElision(s[1..])
  }

  function Pieces(s: string): seq<string> {
    if s == "" then [] else Split(s, ':')
  }

  function Cut(s: string): Form {
    var i := FirstElision(s);
    if i == |s| then Full(Pieces(s)) else Elided(Pieces(s[..i]), Pieces(s[i + 2..]))
  }

  function Decompose(s: string): Option<Form> {
    var f := Cut(s);
    if Valid(f) then Some(f) else None
  }

  /** Split off "%zone", if there is one. */
  function AddressPart(s: string): string { s[..IndexOf(s, '%')] }

  function ZonePart(s: string): string { s[IndexOf(s, '%')..] }

  predicate ZoneOk(z: string) {
    z == "" || (|z| >= 2 && z[0] == '%' && forall i | 1 <= i < |z| :: IsZoneLetter(z[i]))
  }

  // Facts about characters and groups

  /** The character classes of the patterns are these alphabets. */
  lemma HexIff(c: char)
    ensures HexDigit(c) <==> IsHex(c)
  {
  }

  lemma ZoneLetterIff(c: char)
    ensures ZoneChar(c) <==> IsZoneLetter(c)
  {
    DigitsIff(c);
    LowerIff(c);
    UpperIff(c);
  }

  lemma Alphabets()
    ensures forall c :: HexDigit(c) <==> IsHex(c)
    ensures forall c :: ZoneChar(c) <==> IsZoneLetter(c)
  {
    hide HexDigit, IsHex, ZoneChar, IsZoneLetter;
    forall c ensures HexDigit(c) <==> IsHex(c) { HexIff(c); }
    forall c ensures ZoneChar(c) <==> IsZoneLetter(c) { ZoneLetterIff(c); }
  }

  lemma DigitsIff(c: char)
    ensures c in DIGITS <==> '0' <= c <= '9'
  {
  }

  lemma LowerIff(c: char)
    ensures c in LOWER <==> 'a' <= c <= 'z'
  {
  }

  lemma UpperIff(c: char)
    ensures c in UPPER <==> 'A' <= c <= 'Z'
  {
  }

  lemma QuadFacts(s: string)
    requires IsQuad(s)
    ensures ':' !in s && '.' in s
    ensures |s| <= 15 && AllChars(s, QuadChar)
  {
    var octets := Split(s, '.');
    JoinOfSplit(s, '.');
    forall i | 0 <= i < 4 ensures AllChars(octets[i], QuadChar) && |octets[i]| <= 3 {
      assert IsOctet(octets[i]);
    }
    JoinChars(octets, '.', QuadChar, 3);
  }

  lemma GroupsAreFree(groups: seq<string>)
    requires GroupsOk(groups)
    ensures AllFree(groups, ':')
    ensures forall i | 0 <= i < |groups| :: groups[i] != ""
  {
    if EndsInQuad(groups) {
      var n := |groups| - 1;
      QuadFacts(groups[n]);
      forall i | 0 <= i < n ensures IsGroup(groups[i]) {
        assert groups[i] == groups[..n][i];
      }
    }
  }

  lemma GroupIsNotQuad(s: string)
    requires IsGroup(s)
    ensures !IsQuad(s)
  {
  }

  // Where the first "::" is

  lemma {:induction false} FirstElisionIs(s: string, i: nat)
    requires i + 2 <= |s| && s[i] == s[i + 1] == ':'
    requires forall k | 0 <= k < i :: !(s[k] == s[k + 1] == ':')
    ensures FirstElision(s) == i
  {
    assert s[..2] == [s[0], s[1]];
    if i > 0 {
      FirstElisionIs(s[1..], i - 1);
    }
  }

  lemma {:induction false} NoElision(s: string)
    requires forall k | 0 <= k < |s| - 1 :: !(s[k] == s[k + 1] == ':')
    ensures FirstElision(s) == |s|
  {
    if |s| >= 2 {
      assert s[..2] == [s[0], s[1]];
      NoElision(s[1..]);
    }
  }

  /** Joining non-empty colon-free pieces never puts two colons side by side, nor one at either end. */
  lemma {:induction false} JoinHasNoElision(pieces: seq<string>)
    requires AllFree(pieces, ':') && forall i | 0 <= i < |pieces| :: pieces[i] != ""
    ensures var s := Join(pieces, ':');
            && (forall k | 0 <= k < |s| - 1 :: !(s[k] == s[k + 1] == ':'))
            && (pieces != [] ==> s != "" && s[0] != ':' && s[|s| - 1] != ':')
  {
    if |pieces| > 1 {
      var rest := Join(pieces[1..], ':');
      JoinHasNoElision(pieces[1..]);
      var s := pieces[0] + ":" + rest;
      assert forall k | |pieces[0]| < k < |s| :: s[k] == rest[k - |pieces[0]| - 1];
      assert forall k | 0 <= k < |pieces[0]| :: s[k] == pieces[0][k];
    }
  }

  lemma PiecesOfJoin(groups: seq<string>)
    requires GroupsOk(groups)
    ensures Pieces(Join(groups, ':')) == groups
  {
    GroupsAreFree(groups);
    JoinHasNoElision(groups);
    if groups != [] {
      SplitOfJoin(groups, ':');
    }
  }

  /** Cutting the text of a form gives the form back, so a text has at most one valid form. */
  lemma CutOfText(f: Form)
    requires Valid(f)
    ensures Cut(Text(f)) == f
  {
    var s := Text(f);
    match f {
      case Full(groups) =>
        GroupsAreFree(groups);
        JoinHasNoElision(groups);
        NoElision(s);
        PiecesOfJoin(groups);
      case Elided(left, right) =>
        GroupsAreFree(left);
        JoinHasNoElision(left);
        var l, r := Join(left, ':'), Join(right, ':');
        assert forall k | 0 <= k < |l| :: s[k] == l[k];
        FirstElisionIs(s, |l|);
        assert s[..|l|] == l && s[|l| + 2..] == r;
        PiecesOfJoin(left);
        PiecesOfJoin(right);
    }
  }

  lemma JoinOfPieces(s: string)
    ensures Join(Pieces(s), ':') == s
  {
    if s != "" { JoinOfSplit(s, ':'); }
  }

  lemma TextOfCut(s: string)
    requires s != ""
    ensures Text(Cut(s)) == s
  {
    hide Pieces, Join, FirstElision;
    var i := FirstElision(s);
    if i == |s| {
      JoinOfPieces(s);
    } else {
      JoinOfPieces(s[..i]);
      JoinOfPieces(s[i + 2..]);
      CutTwo(s, i);
      CutTwo(s[i..], 2);
      Bracket(s[..i], s[i..i + 2], s[i + 2..]);
    }
  }

  /** `Decompose` accepts exactly the texts of valid forms and returns the only form with that text. */
  lemma DecomposeIff(s: string, f: Form)
    ensures Decompose(s) == Some(f) <==> Valid(f) && Text(f) == s
  {
    if Valid(f) && Text(f) == s {
      CutOfText(f);
    }
    if Decompose(s) == Some(f) {
      assert Cut("") == Full([]);
      TextOfCut(s);
    }
  }
}
