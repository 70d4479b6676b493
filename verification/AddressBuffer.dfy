/**
 The C address buffer of binding.c: a JavaScript string copied in with its terminator, and a socket address printed
 into it with its zone appended in place. `INET6_ADDRSTRLEN` and `UV_IF_NAMESIZE` both count a terminator, so the
 buffer always has room for a printed address, '%' and an interface name.
 */
module AddressBuffer {
  import opened Sequences
  import opened Strings
  import opened Ip
  import opened IpForm
  import opened IpAddress
  import opened Boundary
  import opened SendArgs
  import P = Protocol

  const SIZE: nat := P.MAX_LENGTH + 1

  /** The text of a C string: what stands in front of the first NUL. */
  function Terminated(s: seq<byte>): seq<byte> {
    if s == [] || s[0] == 0 then [] else [s[0]] + Terminated(s[1..])
  }

  ghost predicate NoNul(s: seq<byte>) { forall i | 0 <= i < |s| :: s[i] != 0 }

  lemma {:induction false} TerminatedIs(s: seq<byte>, text: seq<byte>)
    requires NoNul(text) && |text| < |s| && s[..|text|] == text && s[|text|] == 0
    ensures Terminated(s) == text
  {
    if text != [] {
      assert s[0] == s[..|text|][0];
      assert s[1..][..|text| - 1] == text[1..];
      TerminatedIs(s[1..], text[1..]);
    }
  }

  lemma {:induction false} TerminatedLength(s: seq<byte>)
    ensures |Terminated(s)| <= |s| && NoNul(Terminated(s))
    ensures s[..|Terminated(s)|] == Terminated(s)
    ensures |Terminated(s)| < |s| ==> s[|Terminated(s)|] == 0
  {
    if s != [] && s[0] != 0 { TerminatedLength(s[1..]); }
  }

  ghost predicate AsciiBytes(text: seq<byte>) { forall i | 0 <= i < |text| :: text[i] < 0x80 }

  /**
   `js_get_value_string_utf8`: the whole text if it fits, and a terminator if there is room for one. Of a longer text
   an engine that does not split characters leaves the last `short` bytes of the buffer unwritten.
   */
  method CopyString(text: seq<byte>, short: nat, ip: array<byte>) returns (written: nat)
    requires ip.Length == SIZE && short < 4 && (AsciiBytes(text) ==> short == 0)
    modifies ip
    ensures written == (if |text| <= ip.Length then |text| else ip.Length - short)
    ensures ip[..written] == text[..written] && (written < ip.Length ==> ip[written] == 0)
  {
    written := if |text| <= ip.Length then |text| else ip.Length - short;
    for i := 0 to written
      invariant ip[..i] == text[..i]
    {
      ip[i] := text[i];
    }
    if written < ip.Length { ip[written] := 0; }
  }

  /**
   `bare_dgram__get_address`: an ASCII text is too long exactly when it exceeds MAX_LENGTH. Any text within MAX_LENGTH
   becomes a proper C string; a longer one that is not ASCII may pass the test with its end cut off.
   */
  method GetAddress(text: seq<byte>, short: nat, ip: array<byte>) returns (ok: bool)
    requires ip.Length == SIZE && short < 4 && (AsciiBytes(text) ==> short == 0)
    modifies ip
    ensures ok <==> |text| <= P.MAX_LENGTH || (|text| > SIZE && short > 0)
    ensures AsciiBytes(text) ==> (ok <==> |text| <= P.MAX_LENGTH)
    ensures |text| <= P.MAX_LENGTH && NoNul(text) ==> Terminated(ip[..]) == text
  {
    var written := CopyString(text, short, ip);
    if written == ip.Length { return false; }
    if |text| <= P.MAX_LENGTH && NoNul(text) { TerminatedIs(ip[..], text); }
    return true;
  }

  lemma {:induction false} AsciiUtf8(s: string)
    requires AllChars(s, Ascii)
    ensures |Utf8(s)| == |s| && forall i | 0 <= i < |s| :: Utf8(s)[i] == s[i] as int as byte
  {
    if s != "" { AsciiUtf8(s[..|s| - 1]); }
  }

  /**
   Every address that reaches bind, connect or send is ASCII and copied in whole: `GetAddress` cannot fail for it,
   and the terminator is where the text ends.
   */
  lemma NativeAddressFits(host: string, family: nat)
    requires NativeAddressOk(host, family)
    ensures |Utf8(host)| <= P.MAX_LENGTH && NoNul(Utf8(host)) && AsciiBytes(Utf8(host))
  {
    hide Family, IsIP, NoNul, AsciiBytes;
    Utf8Length(host);
    FamilyIsIP(host);
    LiteralHasNoNul(host);
  }

  lemma LiteralHasNoNul(host: string)
    requires IsIP(host) != 0
    ensures NoNul(Utf8(host)) && AsciiBytes(Utf8(host))
  {
    hide IsIP, Family;
    LiteralBounds(host);
    AsciiUtf8(host);
    LiteralChars(host);
  }

  lemma IPv6Chars(host: string)
    requires Decompose(AddressPart(host)).Some? && ZoneOk(ZonePart(host))
    ensures forall i | 0 <= i < |host| :: host[i] != 0 as char
  {
    hide IndexOf, Decompose, Text, Valid, IsZoneLetter, ZoneChar;
    var a, z := AddressPart(host), ZonePart(host);
    DecomposeIff(a, Decompose(a).value);
    TextBounds(Decompose(a).value);
    Alphabets();
    forall c ensures ZoneChar(c) ==> c != 0 as char { ZoneIsAscii(c); }
    assert forall i | 0 <= i < |a| :: AddressChar(a[i]) && host[i] == a[i];
    assert forall i | |a| <= i < |host| :: host[i] == z[i - |a|];
  }

  lemma LiteralChars(host: string)
    requires IsIP(host) != 0
    ensures forall i | 0 <= i < |host| :: host[i] != 0 as char
  {
    hide IsIP, IsQuad, Decompose, AddressPart, ZonePart, ZoneOk;
    FamilyIsIP(host);
    if IsQuad(host) {
      QuadFacts(host);
      assert forall i | 0 <= i < |host| :: QuadChar(host[i]);
    } else {
      IPv6Chars(host);
    }
  }

  // Addresses printed into the buffer

  /** `strlen` */
  method Length(ip: array<byte>) returns (n: nat)
    requires exists i | 0 <= i < ip.Length :: ip[i] == 0
    ensures n < ip.Length && n == |Terminated(ip[..])|
  {
    n := 0;
    ghost var s := ip[..];
    TerminatedLength(s);
    while ip[n] != 0
      invariant n < ip.Length && n <= |Terminated(s)|
      decreases ip.Length - n
    {
      assert s[n] == ip[n];
      assert n + 1 < ip.Length by {
        var i :| 0 <= i < ip.Length && ip[i] == 0;
        if n + 1 == ip.Length { NulAfter(s, i); }
      }
      n := n + 1;
    }
    NulAfter(s, n);
  }

  lemma NulAfter(s: seq<byte>, i: nat)
    requires i < |s| && s[i] == 0
    ensures |Terminated(s)| <= i
  {
    TerminatedLength(s);
    var t := Terminated(s);
    assert forall k | 0 <= k < |t| :: s[k] == s[..|t|][k] == t[k];
  }

  /** What `uv_if_indextoiid` answers: the name of the interface, or an error. */
  datatype Zone = Named(name: seq<byte>) | Unknown

  lemma ZoneBehind(s: seq<byte>, text: seq<byte>, sign: byte, name: seq<byte>)
    requires |text| + 1 + |name| <= |s| && s[..|text|] == text && s[|text|] == sign
    requires s[|text| + 1..|text| + 1 + |name|] == name
    ensures var whole := text + ([sign] + name); s[..|whole|] == whole
  {
  }

  /** `uv_if_indextoiid`: the name and its terminator, if there is room for both; otherwise an error. */
  method WriteZone(ip: array<byte>, at: nat, room: nat, zone: Zone) returns (err: bool)
    requires at + room == ip.Length
    modifies ip
    ensures ip[..at] == old(ip[..at])
    ensures err <==> zone.Unknown? || |zone.name| + 1 > room
    ensures !err ==> ip[at..at + |zone.name|] == zone.name && ip[at + |zone.name|] == 0
  {
    if zone.Unknown? || |zone.name| + 1 > room { return true; }
    for i := 0 to |zone.name|
      invariant ip[..at] == old(ip[..at]) && ip[at..at + i] == zone.name[..i]
    {
      ip[at + i] := zone.name[i];
    }
    ip[at + |zone.name|] := 0;
    return false;
  }

  /**
   `bare_dgram__from_sockaddr` behind `uv_inet_ntop`: the printed address in the buffer, and its zone appended in
   place when there is one. `zone` is only looked up for a link-local address with a scope.
   */
  method AppendZone(ip: array<byte>, scoped: bool, zone: Zone)
    requires ip.Length == SIZE
    requires |Terminated(ip[..])| < P.INET6_ADDRSTRLEN
    requires zone.Named? ==> NoNul(zone.name) && |zone.name| < P.UV_IF_NAMESIZE
    modifies ip
    ensures Terminated(ip[..]) ==
            old(Terminated(ip[..])) + if scoped && zone.Named? then ['%' as int as byte] + zone.name else []
    ensures |Terminated(ip[..])| <= P.MAX_LENGTH
  {
    ghost var text := Terminated(ip[..]);
    TerminatedLength(ip[..]);
    if !scoped { return; }
    var len := Length(ip);
    var room := ip.Length - len - 1;
    ip[len] := '%' as int as byte;
    var err := WriteZone(ip, len + 1, room, zone);
    if !err {
      ZoneBehind(ip[..], text, '%' as int as byte, zone.name);
      TerminatedIs(ip[..], text + (['%' as int as byte] + zone.name));
    } else {
      ip[len] := 0;
      TerminatedIs(ip[..], text);
    }
  }

  lemma Cuts(text: string, name: string)
    requires AllChars(text, AddressChar)
    ensures AddressPart(text + ("%" + name)) == text && ZonePart(text + ("%" + name)) == "%" + name
    ensures ZoneOk("%" + name) <==> name != "" && AllChars(name, IsZoneLetter)
  {
    IndexOfPrefix(text, '%', name);
    Bracket(text, "%", name);
    var z := "%" + name;
    assert forall i | 1 <= i < |z| :: z[i] == name[i - 1];
    if ZoneOk(z) {
      forall i | 0 <= i < |name| ensures IsZoneLetter(name[i]) { assert z[i + 1] == name[i]; }
    }
  }

  lemma NotAQuad(host: string, i: nat)
    requires i < |host| && host[i] == '%'
    ensures !IsQuad(host)
  {
    assert !QuadChar(host[i]);
    if IsQuad(host) { QuadFacts(host); }
  }

  lemma ReportedFamily(f: Form, name: string)
    requires Valid(f)
    ensures Family(Text(f) + ("%" + name)) == if name != "" && AllChars(name, IsZoneLetter) then 6 else 0
  {
    hide IndexOf, Decompose, Valid, Text, IsQuad, ZoneOk, AddressPart, ZonePart;
    TextBounds(f);
    Cuts(Text(f), name);
    DecomposeIff(Text(f), f);
    NotAQuad(Text(f) + ("%" + name), |Text(f)|);
  }

  lemma ReportedLength(f: Form, name: string)
    requires Valid(f) && AllChars(name, Ascii) && |name| < P.UV_IF_NAMESIZE
    ensures P.HostOk(Text(f) + ("%" + name))
  {
    hide IndexOf, Decompose, Valid, Text, Family;
    var host := Text(f) + ("%" + name);
    TextBounds(f);
    assert AllChars(host, Ascii) by {
      assert forall i | 0 <= i < |Text(f)| :: AddressChar(Text(f)[i]);
    }
    ByteLengthBounds(host);
  }

  /** Which names of a zone make a literal, spelt out character by character. */
  lemma ZoneNameIff(f: Form, name: string)
    requires Valid(f)
    ensures IsIP(Text(f) + ("%" + name)) == 6 <==>
            && name != ""
            && forall i | 0 <= i < |name| ::
                 || name[i] in "0123456789" || name[i] in "abcdefghijklmnopqrstuvwxyz"
                 || name[i] in "ABCDEFGHIJKLMNOPQRSTUVWXYZ" || name[i] in "-.:"
  {
    hide IsIP, Family, Valid, Text;
    ReportedFamily(f, name);
    FamilyIsIP(Text(f) + ("%" + name));
  }

  /**
   A reported address can be passed back: with an interface name made of the characters a zone may have it is a
   literal again, and short enough; with any other name it is not recognised as one.
   */
  lemma ReportedAddressIff(f: Form, name: string)
    requires Valid(f)
    ensures Family(Text(f) + "%" + name) == if name != "" && AllChars(name, IsZoneLetter) then 6 else 0
    ensures AllChars(name, Ascii) && |name| < P.UV_IF_NAMESIZE ==> P.HostOk(Text(f) + "%" + name)
  {
    hide Family, Valid, Text, P.HostOk, IsZoneLetter;
    Bracket(Text(f), "%", name);
    ReportedFamily(f, name);
    if AllChars(name, Ascii) && |name| < P.UV_IF_NAMESIZE { ReportedLength(f, name); }
  }
}
