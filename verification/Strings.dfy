/**
 Splitting a string at a separator and joining the pieces again. These are the only string operations the
 address modules need, and the two laws `JoinOfSplit` and `SplitOfJoin` make them inverse to each other.
 */
module Strings {
  import opened Sequences

  /** The position of the first `c` in `s`, or `|s|` when there is none. */
  function IndexOf(s: string, c: char): (i: nat)
    ensures i <= |s| && c !in s[..i]
    ensures i < |s| ==> s[i] == c
    ensures i == |s| <==> c !in s
  {
    if s == "" then 0 else if s[0] == c then 0 else 1 + IndexOf(s[1..], c)
  }

  /** The pieces of `s` between the occurrences of `c`; always at least one piece. */
  function Split(s: string, c: char): (pieces: seq<string>)
    ensures pieces != []
    decreases |s|
  {
    var i := IndexOf(s, c);
    if i == |s| then [s] else [s[..i]] + Split(s[i + 1..], c)
  }

  function Join(pieces: seq<string>, c: char): string {
    if pieces == [] then ""
    else if |pieces| == 1 then pieces[0]
    else pieces[0] + [c] + Join(pieces[1..], c)
  }

  /** Every piece followed by `c`. */
  function After(pieces: seq<string>, c: char): string {
    if pieces == [] then "" else pieces[0] + [c] + After(pieces[1..], c)
  }

  /** Every piece preceded by `c`. */
  function Before(pieces: seq<string>, c: char): string {
    if pieces == [] then "" else [c] + pieces[0] + Before(pieces[1..], c)
  }

  ghost predicate AllFree(pieces: seq<string>, c: char) {
    forall i | 0 <= i < |pieces| :: c !in pieces[i]
  }

  lemma IndexOfPrefix(p: string, c: char, rest: string)
    requires c !in p
    ensures IndexOf(p + [c] + rest, c) == |p|
  {
    var s := p + [c] + rest;
    var i := IndexOf(s, c);
    assert forall k | 0 <= k < |p| :: s[k] == p[k];
    assert s[|p|] == c;
    assert forall k | 0 <= k < i :: s[k] == s[..i][k];
  }

  lemma {:induction false} SplitOfJoin(pieces: seq<string>, c: char)
    requires pieces != [] && AllFree(pieces, c)
    ensures Split(Join(pieces, c), c) == pieces
  {
    if |pieces| > 1 {
      var rest := Join(pieces[1..], c);
      var s := pieces[0] + [c] + rest;
      IndexOfPrefix(pieces[0], c, rest);
      assert s[..|pieces[0]|] == pieces[0] && s[|pieces[0]| + 1..] == rest;
      SplitOfJoin(pieces[1..], c);
    }
  }

  lemma JoinCons(head: string, rest: seq<string>, c: char)
    requires rest != []
    ensures Join([head] + rest, c) == head + [c] + Join(rest, c)
  {
  }

  lemma {:induction false} JoinOfSplit(s: string, c: char)
    ensures Join(Split(s, c), c) == s
    ensures AllFree(Split(s, c), c)
    decreases |s|
  {
    var i := IndexOf(s, c);
    if i < |s| {
      JoinOfSplit(s[i + 1..], c);
      JoinCons(s[..i], Split(s[i + 1..], c), c);
      CutAt(s, i);
    }
  }

  lemma {:induction false} JoinIsAfter(pieces: seq<string>, c: char)
    requires pieces != []
    ensures After(pieces, c) == Join(pieces, c) + [c]
    ensures Join(pieces, c) == After(pieces[..|pieces| - 1], c) + pieces[|pieces| - 1]
  {
    if |pieces| > 1 {
      JoinIsAfter(pieces[1..], c);
      assert pieces[..|pieces| - 1][1..] == pieces[1..][..|pieces| - 2];
    }
  }

  lemma {:induction false} JoinIsBefore(pieces: seq<string>, c: char)
    requires pieces != []
    ensures Before(pieces, c) == [c] + Join(pieces, c)
  {
    if |pieces| > 1 {
      JoinIsBefore(pieces[1..], c);
    }
  }

  lemma {:induction false} BeforeAppend(pieces: seq<string>, c: char, last: string)
    ensures Before(pieces + [last], c) == Before(pieces, c) + [c] + last
  {
    if pieces != [] {
      assert (pieces + [last])[1..] == pieces[1..] + [last];
      BeforeAppend(pieces[1..], c, last);
    }
  }

  ghost predicate AllChars(s: string, p: char -> bool) {
    forall i | 0 <= i < |s| :: p(s[i])
  }

  /** A joined text has the characters of its pieces and the separator, and no more of them than that. */
  lemma {:induction false} JoinChars(pieces: seq<string>, c: char, p: char -> bool, most: nat)
    requires pieces != [] && forall i | 0 <= i < |pieces| :: AllChars(pieces[i], p) && |pieces[i]| <= most
    requires p(c)
    ensures AllChars(Join(pieces, c), p)
    ensures |Join(pieces, c)| < |pieces| * (most + 1)
    ensures |pieces| > 1 ==> c in Join(pieces, c)
  {
    if |pieces| > 1 {
      JoinChars(pieces[1..], c, p, most);
      var s := pieces[0] + [c] + Join(pieces[1..], c);
      assert s[|pieces[0]|] == c;
      assert |pieces| * (most + 1) == (most + 1) + (|pieces| - 1) * (most + 1);
    }
  }

  lemma JoinSteps(a: string, b: string, c: string, d: string, sep: char)
    ensures Join([a, b, c, d], sep) == a + [sep] + (b + [sep] + (c + [sep] + d))
  {
    assert [a, b, c, d][1..] == [b, c, d] && [b, c, d][1..] == [c, d] && [c, d][1..] == [d];
    assert Join([d], sep) == d;
    assert Join([c, d], sep) == c + [sep] + d;
    assert Join([b, c, d], sep) == b + [sep] + (c + [sep] + d);
  }

  lemma {:induction false} JoinAppend(front: seq<string>, back: seq<string>, c: char)
    requires back != []
    ensures Join(front + back, c) == After(front, c) + Join(back, c)
  {
    if front == [] {
      assert front + back == back;
    } else {
      assert (front + back)[1..] == front[1..] + back;
      JoinAppend(front[1..], back, c);
    }
  }
}
