/**
 * The fixed regular expressions of the ingestion pipeline. Each one is a
 * case-insensitive `w0\s*w1\s*…\s*wn` over literal words, written here as the
 * sequence of its words, and is used through `RegExp.prototype.test`
 * (a match anywhere in the text).
 */
module Patterns {
  import opened Text

  /** The words of a pattern `w0\s*w1\s*…`, in order. */
  type Pattern = seq<string>

  /** A match of `p` starts at the first character of `t`. */
  predicate MatchesAt(t: string, p: Pattern)
    decreases |p|
  {
    p == [] || (StartsWithCI(t, p[0]) && MatchesAt(DropSpaces(t[|p[0]|..]), p[1..]))
  }

  /** `/p/i.test(s)`: the pattern matches somewhere in `s`. */
  predicate Test(s: string, p: Pattern)
  {
    exists k :: 0 <= k <= |s| && MatchesAt(s[k..], p)
  }

  /** No word of the pattern is empty. */
  predicate NonEmptyWords(p: Pattern)
  {
    forall w :: 0 <= w < |p| ==> |p[w]| > 0
  }

  /** No character of the pattern, case-folded, is white space. */
  predicate Solid(p: Pattern)
  {
    forall w, j :: 0 <= w < |p| && 0 <= j < |p[w]| ==> !IsSpace(Lower(p[w][j]))
  }

  /** `c` is neither white space nor, ignoring case, any character of the pattern. */
  predicate Blocks(c: char, p: Pattern)
  {
    !IsSpace(c) && forall w, j :: 0 <= w < |p| && 0 <= j < |p[w]| ==> Lower(c) != Lower(p[w][j])
  }

  /** A match at the start of `x` is still one when more text follows. */
  lemma {:induction false} MatchesAtAppend(x: string, y: string, p: Pattern)
    requires NonEmptyWords(p) && MatchesAt(x, p)
    ensures MatchesAt(x + y, p)
    decreases |p|
  {
    if p != [] {
      var w := p[0];
      var rest := x[|w|..];
      WordAppend(x, y, w);
      if |p| > 1 {
        var d := DropSpaces(rest);
        NonEmptyWordsTail(p);
        DropSpacesAppend(rest, y);
        MatchesAtAppend(d, y, p[1..]);
      }
    }
  }

  lemma WordAppend(x: string, y: string, w: string)
    requires StartsWithCI(x, w)
    ensures StartsWithCI(x + y, w) && (x + y)[|w|..] == x[|w|..] + y
  {
    StartsWithCIAppend(x, y, w);
  }

  lemma NonEmptyWordsTail(p: Pattern)
    requires |p| > 1 && NonEmptyWords(p)
    ensures NonEmptyWords(p[1..]) && |p[1..][0]| > 0
  {
  }

  lemma BlocksTail(c: char, p: Pattern)
    requires p != [] && Blocks(c, p)
    ensures Blocks(c, p[1..])
  {
    forall w, j | 0 <= w < |p[1..]| && 0 <= j < |p[1..][w]|
      ensures Lower(c) != Lower(p[1..][w][j])
    {
      assert p[1..][w] == p[w + 1];
    }
  }

  lemma BlocksFirstWord(c: char, p: Pattern)
    requires p != [] && Blocks(c, p)
    ensures forall j :: 0 <= j < |p[0]| ==> Lower(c) != Lower(p[0][j])
  {
  }

  lemma SolidTail(p: Pattern)
    requires p != [] && Solid(p)
    ensures Solid(p[1..])
  {
    forall w, j | 0 <= w < |p[1..]| && 0 <= j < |p[1..][w]|
      ensures !IsSpace(Lower(p[1..][w][j]))
    {
      assert p[1..][w] == p[w + 1];
    }
  }

  /** A blocking, non-space `y` cannot start the match of a later word. */
  lemma BlockedWordStart(y: string, p: Pattern)
    requires |p| > 1 && NonEmptyWords(p) && |y| > 0 && Blocks(y[0], p)
    ensures !MatchesAt(DropSpaces(y), p[1..])
  {
    assert LeadingSpaces(y) == 0;
    assert DropSpaces(y) == y;
    assert Lower(y[0]) != Lower(p[1][0]);
  }

  /** A match cannot run into a character that blocks the pattern. */
  lemma {:induction false} MatchesAtBlocked(x: string, y: string, p: Pattern)
    requires NonEmptyWords(p) && |y| > 0 && Blocks(y[0], p)
    requires MatchesAt(x + y, p)
    ensures MatchesAt(x, p)
    decreases |p|
  {
    if p != [] {
      var w := p[0];
      BlocksFirstWord(y[0], p);
      StartsWithCIBlocked(x, y, w);
      var rest := x[|w|..];
      WordAppend(x, y, w);
      if |p| > 1 {
        NonEmptyWordsTail(p);
        DropSpacesAppend(rest, y);
        if DropSpaces(rest) == [] {
          BlockedWordStart(y, p);
        } else {
          BlocksTail(y[0], p);
          MatchesAtBlocked(DropSpaces(rest), y, p[1..]);
        }
      }
    }
  }

  /** Trailing white space neither creates nor destroys a match of a solid pattern. */
  lemma StartsWithCITrailing(x: string, y: string, word: string)
    requires AllSpace(y)
    requires forall j :: 0 <= j < |word| ==> !IsSpace(Lower(word[j]))
    ensures StartsWithCI(x + y, word) <==> StartsWithCI(x, word)
  {
    if StartsWithCI(x + y, word) {
      if |y| > 0 {
        CaseKeepsSpace(y[0]);
      }
      StartsWithCIBlocked(x, y, word);
    }
    if StartsWithCI(x, word) {
      StartsWithCIAppend(x, y, word);
    }
  }

  lemma {:induction false} MatchesAtTrailing(x: string, y: string, p: Pattern)
    requires NonEmptyWords(p) && Solid(p) && AllSpace(y)
    ensures MatchesAt(x + y, p) <==> MatchesAt(x, p)
    decreases |p|
  {
    if p != [] {
      StartsWithCITrailing(x, y, p[0]);
      if StartsWithCI(x, p[0]) {
        var rest := x[|p[0]|..];
        assert (x + y)[|p[0]|..] == rest + y;
        DropSpacesAppend(rest, y);
        var d := DropSpaces(rest);
        if |p| > 1 {
          assert |p[1..][0]| > 0;
          if d == [] {
            assert DropSpaces(y) == [];
          } else {
            SolidTail(p);
            MatchesAtTrailing(d, y, p[1..]);
          }
        }
      }
    }
  }

  /** A match of a solid pattern cannot start in white space. */
  lemma NoMatchAtSpace(t: string, p: Pattern)
    requires |t| > 0 && IsSpace(t[0]) && NonEmptyWords(p) && Solid(p) && p != []
    ensures !MatchesAt(t, p)
  {
    CaseKeepsSpace(t[0]);
    assert !IsSpace(Lower(p[0][0]));
  }

  lemma MatchInSurrounded(l: string, t: string, r: string, p: Pattern, k: nat)
    requires AllSpace(l) && AllSpace(r) && NonEmptyWords(p) && Solid(p) && p != []
    requires k <= |l + t + r| && MatchesAt((l + t + r)[k..], p)
    ensures Test(t, p)
  {
    var s := l + t + r;
    if k < |l| || (|l| + |t| < k < |s|) {
      NoMatchAtSpace(s[k..], p);
    }
    assert s[k..] == t[k - |l|..] + r;
    MatchesAtTrailing(t[k - |l|..], r, p);
    assert MatchesAt(t[k - |l|..], p);
  }

  lemma MatchInside(l: string, t: string, r: string, p: Pattern, k: nat)
    requires AllSpace(r) && NonEmptyWords(p) && Solid(p)
    requires k <= |t| && MatchesAt(t[k..], p)
    ensures Test(l + t + r, p)
  {
    var s := l + t + r;
    assert s[|l| + k..] == t[k..] + r;
    MatchesAtTrailing(t[k..], r, p);
    assert MatchesAt(s[|l| + k..], p);
  }

  /** White space around `t` does not change whether a solid pattern matches. */
  lemma TestSurrounded(l: string, t: string, r: string, p: Pattern)
    requires AllSpace(l) && AllSpace(r) && NonEmptyWords(p) && Solid(p) && p != []
    ensures Test(l + t + r, p) <==> Test(t, p)
  {
    if Test(l + t + r, p) {
      var k :| 0 <= k <= |l + t + r| && MatchesAt((l + t + r)[k..], p);
      MatchInSurrounded(l, t, r, p, k);
    }
    if Test(t, p) {
      var k :| 0 <= k <= |t| && MatchesAt(t[k..], p);
      MatchInside(l, t, r, p, k);
    }
  }

  /** Trimming does not change whether a solid pattern matches. */
  lemma TestTrim(s: string, p: Pattern)
    requires NonEmptyWords(p) && Solid(p) && p != []
    ensures Test(Trim(s), p) <==> Test(s, p)
  {
    var l, t, r := TrimDecompose(s);
    TestSurrounded(l, t, r, p);
  }

  /** Some part of `parts` contains a match. */
  predicate SomeTest(parts: seq<string>, p: Pattern)
  {
    exists i :: 0 <= i < |parts| && Test(parts[i], p)
  }

  /** A match in a joined text lies in its first part or in the rest. */
  lemma MatchInJoined(head: string, c: char, tail: string, p: Pattern, k: nat)
    requires NonEmptyWords(p) && Blocks(c, p)
    requires k <= |head + [c] + tail| && MatchesAt((head + [c] + tail)[k..], p)
    ensures Test(head, p) || Test(tail, p)
  {
    var s := head + [c] + tail;
    if k <= |head| {
      assert s[k..] == head[k..] + ([c] + tail);
      MatchesAtBlocked(head[k..], [c] + tail, p);
      assert MatchesAt(head[k..], p);
    } else {
      assert s[k..] == tail[k - |head| - 1..];
      assert MatchesAt(tail[k - |head| - 1..], p);
    }
  }

  lemma MatchInHead(head: string, c: char, tail: string, p: Pattern, k: nat)
    requires NonEmptyWords(p) && k <= |head| && MatchesAt(head[k..], p)
    ensures Test(head + [c] + tail, p)
  {
    var s := head + [c] + tail;
    assert s[k..] == head[k..] + ([c] + tail);
    MatchesAtAppend(head[k..], [c] + tail, p);
    assert MatchesAt(s[k..], p);
  }

  lemma MatchInTail(head: string, c: char, tail: string, p: Pattern, k: nat)
    requires k <= |tail| && MatchesAt(tail[k..], p)
    ensures Test(head + [c] + tail, p)
  {
    var s := head + [c] + tail;
    assert s[|head| + 1 + k..] == tail[k..];
    assert MatchesAt(s[|head| + 1 + k..], p);
  }

  lemma SomeTestSplit(parts: seq<string>, p: Pattern)
    requires |parts| > 0
    ensures SomeTest(parts, p) <==> Test(parts[0], p) || SomeTest(parts[1..], p)
  {
    if SomeTest(parts, p) {
      var i :| 0 <= i < |parts| && Test(parts[i], p);
      if i > 0 {
        assert parts[1..][i - 1] == parts[i];
      }
    }
    if SomeTest(parts[1..], p) {
      var i :| 0 <= i < |parts[1..]| && Test(parts[1..][i], p);
      assert parts[1..][i] == parts[i + 1];
    }
  }

  /**
   * With a separator that blocks the pattern, the pattern matches the joined
   * text exactly when it matches one of the parts.
   */
  lemma {:induction false} TestJoin(parts: seq<string>, c: char, p: Pattern)
    requires NonEmptyWords(p) && p != [] && Blocks(c, p)
    ensures Test(Join(parts, [c]), p) <==> SomeTest(parts, p)
    decreases |parts|
  {
    if |parts| == 1 {
      assert Join(parts, [c]) == parts[0];
      SomeTestSplit(parts, p);
    } else if |parts| > 1 {
      var head, tail := parts[0], Join(parts[1..], [c]);
      assert Join(parts, [c]) == head + [c] + tail;
      TestJoin(parts[1..], c, p);
      SomeTestSplit(parts, p);
      if Test(head + [c] + tail, p) {
        var k :| 0 <= k <= |head + [c] + tail| && MatchesAt((head + [c] + tail)[k..], p);
        MatchInJoined(head, c, tail, p, k);
      }
      if Test(head, p) {
        var k :| 0 <= k <= |head| && MatchesAt(head[k..], p);
        MatchInHead(head, c, tail, p, k);
      }
      if Test(tail, p) {
        var k :| 0 <= k <= |tail| && MatchesAt(tail[k..], p);
        MatchInTail(head, c, tail, p, k);
      }
    }
  }
}
