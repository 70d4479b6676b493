/** The address patterns of lib/ip.js, written out alternative by alternative. */
module Ip {
  import opened Regex

  predicate HexDigit(c: char) { '0' <= c <= '9' || 'a' <= c <= 'f' || 'A' <= c <= 'F' }

  predicate ZoneChar(c: char) {
    '0' <= c <= '9' || 'a' <= c <= 'z' || 'A' <= c <= 'Z' || c == '-' || c == '.' || c == ':'
  }

  // v4Seg and v4Str

  function V4Seg(): Regex {
    Any([Range('0', '9'),
         Cat(Range('1', '9'), Range('0', '9')),
         Cat(Lit('1'), Cat(Range('0', '9'), Range('0', '9'))),
         Cat(Lit('2'), Cat(Range('0', '4'), Range('0', '9'))),
         Cat(Lit('2'), Cat(Lit('5'), Range('0', '5')))])
  }

  function V4Str(): Regex {
    Cat(Repeat(Cat(V4Seg(), Lit('.')), 3, 3), V4Seg())
  }

  // v6Seg, a group with its colon behind it, and a group with its colon in front of it

  function V6Seg(): Regex { Repeat(One(HexDigit), 1, 4) }

  function GroupColon(): Regex { Cat(V6Seg(), Lit(':')) }

  function ColonGroup(): Regex { Cat(Lit(':'), V6Seg()) }

  function ColonV4(): Regex { Cat(Lit(':'), V4Str()) }

  /** The eight alternatives of IPv6Pattern in their source order, numbered from 1. */
  function Alternative(k: nat): Regex
    requires 1 <= k <= 8
  {
    match k
    case 1 => Cat(Repeat(GroupColon(), 7, 7), Any([V6Seg(), Lit(':')]))
    case 2 => Cat(Repeat(GroupColon(), 6, 6), Any([V4Str(), ColonGroup(), Lit(':')]))
    case 3 => Cat(Repeat(GroupColon(), 5, 5), Any([ColonV4(), Repeat(ColonGroup(), 1, 2), Lit(':')]))
    case 4 => Cat(Repeat(GroupColon(), 4, 4),
                  Any([Cat(Repeat(ColonGroup(), 0, 1), ColonV4()), Repeat(ColonGroup(), 1, 3), Lit(':')]))
    case 5 => Cat(Repeat(GroupColon(), 3, 3),
                  Any([Cat(Repeat(ColonGroup(), 0, 2), ColonV4()), Repeat(ColonGroup(), 1, 4), Lit(':')]))
    case 6 => Cat(Repeat(GroupColon(), 2, 2),
                  Any([Cat(Repeat(ColonGroup(), 0, 3), ColonV4()), Repeat(ColonGroup(), 1, 5), Lit(':')]))
    case 7 => Cat(Repeat(GroupColon(), 1, 1),
                  Any([Cat(Repeat(ColonGroup(), 0, 4), ColonV4()), Repeat(ColonGroup(), 1, 6), Lit(':')]))
    case 8 => Cat(Lit(':'),
                  Any([Cat(Repeat(ColonGroup(), 0, 5), ColonV4()), Repeat(ColonGroup(), 1, 7), Lit(':')]))
  }

  function Zone(): Regex {
    Opt(Cat(Lit('%'), AtLeast(One(ZoneChar), 1)))
  }

  function IPv4Pattern(): Regex { V4Str() }

  function IPv6Core(): Regex {
    Any([Alternative(1), Alternative(2), Alternative(3), Alternative(4),
         Alternative(5), Alternative(6), Alternative(7), Alternative(8)])
  }

  function IPv6Pattern(): Regex { Cat(IPv6Core(), Zone()) }

  ghost predicate IsIPv4(host: string) { Matches(IPv4Pattern(), host) }

  ghost predicate IsIPv6(host: string) { Matches(IPv6Pattern(), host) }

  ghost function IsIP(host: string): nat {
    if IsIPv4(host) then 4 else if IsIPv6(host) then 6 else 0
  }
}
