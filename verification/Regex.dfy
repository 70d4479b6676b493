/**
 Regular expressions with a declarative meaning: `Matches(r, s)` says that the whole of `s` is in the language
 of `r`. This is what `RegExp.prototype.test` decides for a pattern anchored by `^` and `$` that has neither
 lookaround nor back-references, whatever order the engine tries the alternatives in.
 */
module Regex {
  import opened Sequences
  import opened Strings

  datatype Regex =
    | One(allowed: char -> bool)                     // a character class
    | Cat(first: Regex, second: Regex)
    | Any(options: seq<Regex>)                       // r0|r1|...
    | Repeat(body: Regex, least: nat, most: nat)     // r{least,most}
    | AtLeast(body: Regex, least: nat)               // r{least,}

  ghost predicate Matches(r: Regex, s: string)
    decreases r, 0, 0, |s|
  {
    match r
    case One(p) => |s| == 1 && p(s[0])
    case Cat(a, b) => exists i | 0 <= i <= |s| :: Matches(a, s[..i]) && Matches(b, s[i..])
    case Any(rs) => exists k | 0 <= k < |rs| :: Matches(rs[k], s)
    case Repeat(b, lo, hi) => exists n: nat | lo <= n <= hi :: Times(b, s, n)
    case AtLeast(b, lo) => exists n: nat | lo <= n :: Times(b, s, n)
  }

  /** `s` is `n` consecutive matches of `r`. */
  ghost predicate Times(r: Regex, s: string, n: nat)
    decreases r, 1, n, |s|
  {
    if n == 0 then s == ""
    else exists i | 0 <= i <= |s| :: Matches(r, s[..i]) && Times(r, s[i..], n - 1)
  }

  function Lit(c: char): Regex {
    One(d => d == c)
  }

  function Range(lo: char, hi: char): Regex {
    One(d => lo <= d <= hi)
  }

  function Opt(r: Regex): Regex {
    Repeat(r, 0, 1)
  }

  ghost predicate AllMatch(r: Regex, pieces: seq<string>) {
    forall i | 0 <= i < |pieces| :: Matches(r, pieces[i])
  }

  lemma LitIntro(c: char)
    ensures Matches(Lit(c), [c])
  {
  }

  lemma CatIntro(a: Regex, b: Regex, s: string, t: string)
    requires Matches(a, s) && Matches(b, t)
    ensures Matches(Cat(a, b), s + t)
  {
    assert (s + t)[..|s|] == s && (s + t)[|s|..] == t;
  }

  lemma CatElim(a: Regex, b: Regex, s: string) returns (i: nat)
    requires Matches(Cat(a, b), s)
    ensures i <= |s| && Matches(a, s[..i]) && Matches(b, s[i..])
  {
    i :| 0 <= i <= |s| && Matches(a, s[..i]) && Matches(b, s[i..]);
  }

  lemma RepeatElim(b: Regex, least: nat, most: nat, s: string) returns (n: nat)
    requires Matches(Repeat(b, least, most), s)
    ensures least <= n <= most && Times(b, s, n)
  {
    n :| least <= n <= most && Times(b, s, n);
  }

  /** A class in front of `r` consumes exactly the first character. */
  lemma OneCat(a: Regex, r: Regex, s: string)
    requires a.One?
    ensures Matches(Cat(a, r), s) <==> s != "" && a.allowed(s[0]) && Matches(r, s[1..])
  {
  }

  lemma TwoOnes(a: Regex, b: Regex, s: string)
    requires a.One? && b.One?
    ensures Matches(Cat(a, b), s) <==> |s| == 2 && a.allowed(s[0]) && b.allowed(s[1])
  {
    OneCat(a, b, s);
  }

  lemma ThreeOnes(a: Regex, b: Regex, c: Regex, s: string)
    requires a.One? && b.One? && c.One?
    ensures Matches(Cat(a, Cat(b, c)), s) <==> |s| == 3 && a.allowed(s[0]) && b.allowed(s[1]) && c.allowed(s[2])
  {
    OneCat(a, Cat(b, c), s);
    if s != "" {
      TwoOnes(b, c, s[1..]);
    }
  }

  lemma OptIff(r: Regex, s: string)
    ensures Matches(Opt(r), s) <==> s == "" || Matches(r, s)
  {
    if Matches(Opt(r), s) {
      var n: nat :| n <= 1 && Times(r, s, n);
      if n == 1 {
        var i :| 0 <= i <= |s| && Matches(r, s[..i]) && Times(r, s[i..], 0);
        assert s[..i] == s;
      }
    }
    if s == "" {
      assert Times(r, s, 0);
    }
    if Matches(r, s) {
      assert s[..|s|] == s && Times(r, s[|s|..], 0);
      assert Times(r, s, 1);
    }
  }

  lemma {:induction false} TimesOne(p: char -> bool, s: string, n: nat)
    ensures Times(One(p), s, n) <==> |s| == n && forall i | 0 <= i < |s| :: p(s[i])
    decreases n
  {
    if n > 0 {
      if s != "" {
        TimesOne(p, s[1..], n - 1);
        assert s == s[..1] + s[1..];
      }
      if Times(One(p), s, n) {
        var i :| 0 <= i <= |s| && Matches(One(p), s[..i]) && Times(One(p), s[i..], n - 1);
        assert i == 1;
      }
      if |s| == n && forall i | 0 <= i < |s| :: p(s[i]) {
        assert Matches(One(p), s[..1]) && Times(One(p), s[1..], n - 1);
      }
    }
  }

  lemma AtLeastElim(b: Regex, least: nat, s: string) returns (n: nat)
    requires Matches(AtLeast(b, least), s)
    ensures least <= n && Times(b, s, n)
  {
    n :| least <= n && Times(b, s, n);
  }

  lemma AtLeastOne(p: char -> bool, s: string)
    ensures Matches(AtLeast(One(p), 1), s) <==> s != "" && forall i | 0 <= i < |s| :: p(s[i])
  {
    if Matches(AtLeast(One(p), 1), s) {
      var n := AtLeastElim(One(p), 1, s);
      TimesOne(p, s, n);
    }
    TimesOne(p, s, |s|);
  }

  /** `n` repetitions of "`r` then `c`" are the `After` texts of `n` matches of `r`. */
  lemma {:induction false} TimesAfterElim(r: Regex, c: char, s: string, n: nat) returns (pieces: seq<string>)
    requires Times(Cat(r, Lit(c)), s, n)
    ensures |pieces| == n && AllMatch(r, pieces) && s == After(pieces, c)
    decreases n
  {
    if n == 0 {
      pieces := [];
    } else {
      var i :| 0 <= i <= |s| && Matches(Cat(r, Lit(c)), s[..i]) && Times(Cat(r, Lit(c)), s[i..], n - 1);
      var j := CatElim(r, Lit(c), s[..i]);
      var rest := TimesAfterElim(r, c, s[i..], n - 1);
      pieces := [s[..i][..j]] + rest;
      assert s[..i] == s[..i][..j] + [c];
      assert s == s[..i] + s[i..];
    }
  }

  lemma {:induction false} TimesAfterIntro(r: Regex, c: char, pieces: seq<string>)
    requires AllMatch(r, pieces)
    ensures Times(Cat(r, Lit(c)), After(pieces, c), |pieces|)
  {
    if pieces != [] {
      var head, rest := pieces[0] + [c], After(pieces[1..], c);
      assert Matches(Lit(c), [c]);
      CatIntro(r, Lit(c), pieces[0], [c]);
      TimesAfterIntro(r, c, pieces[1..]);
      assert (head + rest)[..|head|] == head && (head + rest)[|head|..] == rest;
      assert After(pieces, c) == head + rest;
    }
  }

  /** `n` repetitions of "`c` then `r`" are the `Before` texts of `n` matches of `r`. */
  lemma {:induction false} TimesBeforeElim(r: Regex, c: char, s: string, n: nat) returns (pieces: seq<string>)
    requires Times(Cat(Lit(c), r), s, n)
    ensures |pieces| == n && AllMatch(r, pieces) && s == Before(pieces, c)
    decreases n
  {
    if n == 0 {
      pieces := [];
    } else {
      var i :| 0 <= i <= |s| && Matches(Cat(Lit(c), r), s[..i]) && Times(Cat(Lit(c), r), s[i..], n - 1);
      OneCat(Lit(c), r, s[..i]);
      var rest := TimesBeforeElim(r, c, s[i..], n - 1);
      pieces := [s[..i][1..]] + rest;
      assert s[..i] == [c] + s[..i][1..];
      assert s == s[..i] + s[i..];
    }
  }

  lemma {:induction false} TimesBeforeIntro(r: Regex, c: char, pieces: seq<string>)
    requires AllMatch(r, pieces)
    ensures Times(Cat(Lit(c), r), Before(pieces, c), |pieces|)
  {
    if pieces != [] {
      var head, rest := [c] + pieces[0], Before(pieces[1..], c);
      assert Matches(Lit(c), [c]);
      CatIntro(Lit(c), r, [c], pieces[0]);
      TimesBeforeIntro(r, c, pieces[1..]);
      assert (head + rest)[..|head|] == head && (head + rest)[|head|..] == rest;
      assert Before(pieces, c) == head + rest;
    }
  }

  lemma RepeatAfterElim(r: Regex, c: char, n: nat, tail: Regex, s: string) returns (pieces: seq<string>, rest: string)
    requires Matches(Cat(Repeat(Cat(r, Lit(c)), n, n), tail), s)
    ensures |pieces| == n && AllMatch(r, pieces) && Matches(tail, rest) && s == After(pieces, c) + rest
  {
    var i := CatElim(Repeat(Cat(r, Lit(c)), n, n), tail, s);
    pieces := TimesAfterElim(r, c, s[..i], n);
    rest := s[i..];
    assert s == s[..i] + s[i..];
  }

  lemma RepeatAfterIntro(r: Regex, c: char, tail: Regex, pieces: seq<string>, rest: string)
    requires AllMatch(r, pieces) && Matches(tail, rest)
    ensures Matches(Cat(Repeat(Cat(r, Lit(c)), |pieces|, |pieces|), tail), After(pieces, c) + rest)
  {
    TimesAfterIntro(r, c, pieces);
    CatIntro(Repeat(Cat(r, Lit(c)), |pieces|, |pieces|), tail, After(pieces, c), rest);
  }

  lemma RepeatBeforeElim(r: Regex, c: char, lo: nat, hi: nat, s: string) returns (pieces: seq<string>)
    requires Matches(Repeat(Cat(Lit(c), r), lo, hi), s)
    ensures lo <= |pieces| <= hi && AllMatch(r, pieces) && s == Before(pieces, c)
  {
    var n := RepeatElim(Cat(Lit(c), r), lo, hi, s);
    pieces := TimesBeforeElim(r, c, s, n);
  }

  lemma RepeatBeforeIntro(r: Regex, c: char, lo: nat, hi: nat, pieces: seq<string>)
    requires lo <= |pieces| <= hi && AllMatch(r, pieces)
    ensures Matches(Repeat(Cat(Lit(c), r), lo, hi), Before(pieces, c))
  {
    TimesBeforeIntro(r, c, pieces);
  }

  lemma AnyIntro(rs: seq<Regex>, k: nat, s: string)
    requires k < |rs| && Matches(rs[k], s)
    ensures Matches(Any(rs), s)
  {
  }

  lemma AnyElim(rs: seq<Regex>, s: string) returns (k: nat)
    requires Matches(Any(rs), s)
    ensures k < |rs| && Matches(rs[k], s)
  {
    k :| k < |rs| && Matches(rs[k], s);
  }

  /** Up to `hi` matches of `r` and then one of `last`, each with `c` in front of it. */
  lemma BeforeLastElim(r: Regex, c: char, hi: nat, last: Regex, s: string) returns (pieces: seq<string>, final: string)
    requires Matches(Cat(Repeat(Cat(Lit(c), r), 0, hi), Cat(Lit(c), last)), s)
    ensures |pieces| <= hi && AllMatch(r, pieces) && Matches(last, final) && s == Before(pieces + [final], c)
  {
    hide Matches, Before;
    var i := CatElim(Repeat(Cat(Lit(c), r), 0, hi), Cat(Lit(c), last), s);
    CutTwo(s, i);
    pieces := RepeatBeforeElim(r, c, 0, hi, s[..i]);
    OneCat(Lit(c), last, s[i..]);
    final := s[i..][1..];
    CutTwo(s[i..], 1);
    BeforeAppend(pieces, c, final);
    Bracket(s[..i], [c], final);
  }

  lemma BeforeLastIntro(r: Regex, c: char, hi: nat, last: Regex, pieces: seq<string>, final: string)
    requires |pieces| <= hi && AllMatch(r, pieces) && Matches(last, final)
    ensures Matches(Cat(Repeat(Cat(Lit(c), r), 0, hi), Cat(Lit(c), last)), Before(pieces + [final], c))
  {
    hide Matches, Before;
    BeforeAppend(pieces, c, final);
    RepeatBeforeIntro(r, c, 0, hi, pieces);
    LitIntro(c);
    CatIntro(Lit(c), last, [c], final);
    CatIntro(Repeat(Cat(Lit(c), r), 0, hi), Cat(Lit(c), last), Before(pieces, c), [c] + final);
    Bracket(Before(pieces, c), [c], final);
  }

  lemma RepeatNone(b: Regex, r: Regex, s: string)
    ensures Matches(Cat(Repeat(b, 0, 0), r), s) <==> Matches(r, s)
  {
    if Matches(Cat(Repeat(b, 0, 0), r), s) {
      var i := CatElim(Repeat(b, 0, 0), r, s);
      var n: nat :| n <= 0 && Times(b, s[..i], n);
      assert s[i..] == s;
    }
    if Matches(r, s) {
      assert Times(b, "", 0);
      CatIntro(Repeat(b, 0, 0), r, "", s);
      assert "" + s == s;
    }
  }

  /** Changing the first option for one with the same matches changes nothing. */
  lemma AnyFirst(a: Regex, b: Regex, rest: seq<Regex>, s: string)
    requires Matches(a, s) <==> Matches(b, s)
    ensures Matches(Any([a] + rest), s) <==> Matches(Any([b] + rest), s)
  {
    if Matches(Any([a] + rest), s) {
      var k := AnyElim([a] + rest, s);
      AnyIntro([b] + rest, k, s);
    }
    if Matches(Any([b] + rest), s) {
      var k := AnyElim([b] + rest, s);
      AnyIntro([a] + rest, k, s);
    }
  }

  lemma EmptyIff(b: Regex, s: string)
    ensures Matches(Repeat(b, 0, 0), s) <==> s == ""
  {
    if Matches(Repeat(b, 0, 0), s) {
      var n: nat :| n <= 0 && Times(b, s, n);
    }
    assert Times(b, "", 0);
  }

  lemma OnceIff(b: Regex, s: string)
    ensures Matches(Repeat(b, 1, 1), s) <==> Matches(b, s)
  {
    if Matches(Repeat(b, 1, 1), s) {
      var n: nat :| 1 <= n <= 1 && Times(b, s, n);
      var i :| 0 <= i <= |s| && Matches(b, s[..i]) && Times(b, s[i..], 0);
      assert s[..i] == s;
    }
    if Matches(b, s) {
      assert s[..|s|] == s && Times(b, s[|s|..], 0);
      assert Times(b, s, 1);
    }
  }

  /** Parts that match the same strings may be exchanged. */
  lemma CatSame(a: Regex, a': Regex, b: Regex, b': Regex, s: string)
    requires forall t :: Matches(a, t) <==> Matches(a', t)
    requires forall t :: Matches(b, t) <==> Matches(b', t)
    ensures Matches(Cat(a, b), s) <==> Matches(Cat(a', b'), s)
  {
    hide Matches;
    if Matches(Cat(a, b), s) {
      var i := CatElim(a, b, s);
      CutTwo(s, i);
      CatIntro(a', b', s[..i], s[i..]);
    }
    if Matches(Cat(a', b'), s) {
      var i := CatElim(a', b', s);
      CutTwo(s, i);
      CatIntro(a, b, s[..i], s[i..]);
    }
  }

  lemma EmptyBehind(a: Regex, b: Regex, s: string)
    ensures Matches(Cat(a, Repeat(b, 0, 0)), s) <==> Matches(a, s)
  {
    if Matches(Cat(a, Repeat(b, 0, 0)), s) {
      var i := CatElim(a, Repeat(b, 0, 0), s);
      EmptyIff(b, s[i..]);
      assert s[..i] == s;
    }
    if Matches(a, s) {
      EmptyIff(b, "");
      CatIntro(a, Repeat(b, 0, 0), s, "");
      assert s + "" == s;
    }
  }
}
