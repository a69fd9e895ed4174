/**
 * String helpers shared by the ingestion pipeline: the white-space set that
 * JavaScript's `trim` removes and `\s` matches, ASCII case folding for the
 * case-insensitive (`/i`) patterns, first-match replacement, white-space
 * collapsing, per-word capitalisation and `Array.prototype.join`.
 */
module Text {
  import opened Wrappers

  /** ECMAScript white space and line terminators (the Zs category is cut down to U+0020 and U+00A0). */
  predicate IsSpace(c: char)
  {
    c == ' ' || c == '\t' || c == '\n' || c == '\r' || c == '\U{000B}' || c == '\U{000C}' ||
    c == '\U{00A0}' || c == '\U{FEFF}' || c == '\U{2028}' || c == '\U{2029}'
  }

  predicate IsLowerAscii(c: char) { 'a' <= c <= 'z' }

  predicate IsUpperAscii(c: char) { 'A' <= c <= 'Z' }

  function Lower(c: char): char
  {
    if IsUpperAscii(c) then (c as int + 32) as char else c
  }

  function Upper(c: char): char
  {
    if IsLowerAscii(c) then (c as int - 32) as char else c
  }

  /** `p` matches the start of `s`, ignoring ASCII case. */
  predicate StartsWithCI(s: string, p: string)
  {
    |p| <= |s| && forall i :: 0 <= i < |p| ==> Lower(s[i]) == Lower(p[i])
  }

  /** The first position at or after `i` where `p` matches, ignoring case. */
  function FindFrom(s: string, p: string, i: nat): (r: Option<nat>)
    requires i <= |s|
    decreases |s| - i
    ensures r.Some? ==> i <= r.value <= |s| && StartsWithCI(s[r.value..], p) && r.value + |p| <= |s|
    ensures r.Some? ==> forall j :: i <= j < r.value ==> !StartsWithCI(s[j..], p)
    ensures r.None? ==> forall j :: i <= j <= |s| ==> !StartsWithCI(s[j..], p)
  {
    if StartsWithCI(s[i..], p) then Some(i)
    else if i == |s| then None
    else FindFrom(s, p, i + 1)
  }

  /** `p` matches at `i` and nowhere before it. */
  predicate FirstMatchAt(s: string, p: string, i: nat)
  {
    i <= |s| && StartsWithCI(s[i..], p) && forall j :: 0 <= j < i ==> !StartsWithCI(s[j..], p)
  }

  /** `p` matches nowhere in `s`. */
  predicate NoMatch(s: string, p: string)
  {
    forall j :: 0 <= j <= |s| ==> !StartsWithCI(s[j..], p)
  }

  /**
   * A non-global, case-insensitive `s.replace(/p/i, rep)`: the first
   * occurrence of `p` is replaced, and `s` is returned as it is when there is none.
   */
  function ReplaceFirstCI(s: string, p: string, rep: string): (r: string)
    ensures NoMatch(s, p) ==> r == s
    ensures forall i: nat :: FirstMatchAt(s, p, i) ==> i + |p| <= |s| && r == s[..i] + rep + s[i + |p|..]
  {
    FirstMatchIsFound(s, p);
    match FindFrom(s, p, 0)
    case None => s
    case Some(i) => s[..i] + rep + s[i + |p|..]
  }

  /** The search from the start stops at the first match. */
  lemma FirstMatchIsFound(s: string, p: string)
    ensures forall i: nat :: FirstMatchAt(s, p, i) ==> FindFrom(s, p, 0) == Some(i)
  {
    forall i: nat | FirstMatchAt(s, p, i)
      ensures FindFrom(s, p, 0) == Some(i)
    {
      assert FindFrom(s, p, 0).Some?;
    }
  }

  /** Removes a case-insensitive match of `p` anchored at the start (`s.replace(/^p/i, '')`). */
  function StripPrefixCI(s: string, p: string): (r: string)
    ensures StartsWithCI(s, p) ==> r == s[|p|..]
    ensures !StartsWithCI(s, p) ==> r == s
  {
    if StartsWithCI(s, p) then s[|p|..] else s
  }

  /** `p` matches the end of `s`, ignoring ASCII case. */
  predicate EndsWithCI(s: string, p: string)
  {
    |p| <= |s| && StartsWithCI(s[|s| - |p|..], p)
  }

  /** The number of white-space characters at the start of `s`. */
  function LeadingSpaces(s: string): (n: nat)
    ensures n <= |s|
    ensures forall k :: 0 <= k < n ==> IsSpace(s[k])
    ensures n < |s| ==> !IsSpace(s[n])
  {
    if s == [] || !IsSpace(s[0]) then 0 else 1 + LeadingSpaces(s[1..])
  }

  /** A string of white space only. */
  predicate AllSpace(s: string)
  {
    forall k :: 0 <= k < |s| ==> IsSpace(s[k])
  }

  /** The number of white-space characters at the end of `s`. */
  function TrailingSpaces(s: string): (n: nat)
    ensures n <= |s|
    ensures forall k :: |s| - n <= k < |s| ==> IsSpace(s[k])
    ensures n < |s| ==> !IsSpace(s[|s| - n - 1])
  {
    if s == [] || !IsSpace(s[|s| - 1]) then 0 else 1 + TrailingSpaces(s[..|s| - 1])
  }

  /** `s` without its leading white space (what `\s*` skips in a pattern). */
  function DropSpaces(s: string): (r: string)
    ensures r == [] || !IsSpace(r[0])
    ensures |r| <= |s| && r == s[|s| - |r|..]
    ensures forall k :: 0 <= k < |s| - |r| ==> IsSpace(s[k])
  {
    s[LeadingSpaces(s)..]
  }

  /** Skipping white space in a concatenation stops in the first part unless that part is all white space. */
  lemma {:induction false} DropSpacesAppend(x: string, y: string)
    ensures DropSpaces(x + y) == if DropSpaces(x) != [] then DropSpaces(x) + y else DropSpaces(y)
    decreases |x|
  {
    if x == [] {
      assert x + y == y;
    } else if IsSpace(x[0]) {
      assert (x + y)[1..] == x[1..] + y;
      assert DropSpaces(x) == DropSpaces(x[1..]);
      assert DropSpaces(x + y) == DropSpaces(x[1..] + y);
      DropSpacesAppend(x[1..], y);
    }
  }

  /** A match at the start of `x` is still one when more text follows. */
  lemma StartsWithCIAppend(x: string, y: string, p: string)
    requires StartsWithCI(x, p)
    ensures StartsWithCI(x + y, p)
  {
    assert forall i :: 0 <= i < |p| ==> (x + y)[i] == x[i];
  }

  /**
   * A match cannot run into a character that matches no character of the
   * pattern: if `y` starts with one, a match at the start of `x + y` lies in `x`.
   */
  lemma StartsWithCIBlocked(x: string, y: string, p: string)
    requires StartsWithCI(x + y, p)
    requires |y| > 0 ==> forall i :: 0 <= i < |p| ==> Lower(y[0]) != Lower(p[i])
    ensures StartsWithCI(x, p)
  {
    if |x| < |p| {
      ConcatAt(x, y);
      assert false;
    }
    assert forall i :: 0 <= i < |p| ==> (x + y)[i] == x[i];
  }

  lemma ConcatAt(x: string, y: string)
    ensures |y| > 0 ==> (x + y)[|x|] == y[0]
  {
  }

  /** Case folding neither creates nor removes white space. */
  lemma CaseKeepsSpace(c: char)
    ensures IsSpace(Lower(c)) <==> IsSpace(c)
    ensures IsSpace(Upper(c)) <==> IsSpace(c)
    ensures Upper(c) == ' ' <==> c == ' '
    ensures !IsLowerAscii(Upper(c))
  {
  }

  /**
   * `String.prototype.trim`: the result is the part of `s` between its
   * leading and its trailing white space.
   */
  function Trim(s: string): (r: string)
    ensures r == [] || (!IsSpace(r[0]) && !IsSpace(r[|r| - 1]))
    ensures LeadingSpaces(s) + |r| <= |s|
    ensures r == s[LeadingSpaces(s)..LeadingSpaces(s) + |r|]
    ensures forall k :: LeadingSpaces(s) + |r| <= k < |s| ==> IsSpace(s[k])
  {
    var a := LeadingSpaces(s);
    var t := s[a..];
    var b := TrailingSpaces(t);
    assert t[..|t| - b] == s[a..a + (|t| - b)];
    t[..|t| - b]
  }

  lemma SliceSplit(s: string, a: nat, t: string)
    requires a + |t| <= |s| && t == s[a..a + |t|]
    ensures s == s[..a] + t + s[a + |t|..]
  {
  }

  /** `s` is its trimmed text between two runs of white space. */
  lemma TrimDecompose(s: string) returns (l: string, t: string, r: string)
    ensures t == Trim(s) && s == l + t + r && AllSpace(l) && AllSpace(r)
  {
    t := Trim(s);
    var a := LeadingSpaces(s);
    l, r := s[..a], s[a + |t|..];
    SliceSplit(s, a, t);
  }

  /** A string that neither starts nor ends with white space is its own trim. */
  lemma TrimOfTrimmed(t: string)
    requires t == [] || (!IsSpace(t[0]) && !IsSpace(t[|t| - 1]))
    ensures Trim(t) == t
  {
    assert LeadingSpaces(t) == 0;
    assert t[0..] == t;
    assert TrailingSpaces(t) == 0;
  }

  /** A leading white-space character makes no difference to `trim`. */
  lemma TrimSkipsLeadingSpace(s: string)
    requires |s| > 0 && IsSpace(s[0])
    ensures Trim(s) == Trim(s[1..])
  {
    assert LeadingSpaces(s) == 1 + LeadingSpaces(s[1..]);
    assert s[LeadingSpaces(s)..] == s[1..][LeadingSpaces(s[1..])..];
  }

  /** No character of `s` is white space other than the plain space. */
  predicate OnlyPlainSpaces(s: string)
  {
    forall i :: 0 <= i < |s| && IsSpace(s[i]) ==> s[i] == ' '
  }

  /** No two spaces stand next to each other in `s`. */
  predicate NoDoubleSpace(s: string)
  {
    forall i :: 0 <= i < |s| - 1 && s[i] == ' ' ==> s[i + 1] != ' '
  }

  /** A slice keeps single plain spacing. */
  lemma SliceKeepsPlainSpacing(x: string, a: nat, r: string)
    requires a + |r| <= |x| && r == x[a..a + |r|]
    requires OnlyPlainSpaces(x) && NoDoubleSpace(x)
    ensures OnlyPlainSpaces(r) && NoDoubleSpace(r)
  {
    assert forall i :: 0 <= i < |r| ==> r[i] == x[a + i];
  }

  lemma TrimKeepsPlainSpacing(x: string)
    requires OnlyPlainSpaces(x) && NoDoubleSpace(x)
    ensures OnlyPlainSpaces(Trim(x)) && NoDoubleSpace(Trim(x))
  {
    SliceKeepsPlainSpacing(x, LeadingSpaces(x), Trim(x));
  }

  /** The non-white-space characters of `s`, in order. */
  function Visible(s: string): string
  {
    if s == [] then []
    else if IsSpace(s[0]) then Visible(s[1..])
    else [s[0]] + Visible(s[1..])
  }

  lemma {:induction false} VisibleDropSpaces(s: string)
    ensures Visible(DropSpaces(s)) == Visible(s)
    decreases |s|
  {
    if s != [] && IsSpace(s[0]) {
      assert DropSpaces(s) == DropSpaces(s[1..]);
      VisibleDropSpaces(s[1..]);
    }
  }

  /**
   * `s.replace(/\s+/g, ' ')`: every maximal run of white space becomes one
   * plain space; the visible characters are kept in order.
   */
  function CollapseSpaces(s: string): (r: string)
    ensures OnlyPlainSpaces(r) && NoDoubleSpace(r)
    ensures Visible(r) == Visible(s)
    ensures |r| == 0 <==> |s| == 0
    ensures |r| > 0 ==> (r[0] == ' ' <==> IsSpace(s[0]))
    decreases |s|
  {
    if s == [] then []
    else if IsSpace(s[0]) then
      var rest := DropSpaces(s[1..]);
      VisibleDropSpaces(s[1..]);
      [' '] + CollapseSpaces(rest)
    else [s[0]] + CollapseSpaces(s[1..])
  }

  /** Nothing is left once only white space is skipped. */
  lemma DropSpacesOfAllSpace(s: string)
    requires AllSpace(s)
    ensures DropSpaces(s) == []
  {
    assert LeadingSpaces(s) == |s|;
  }

  /** A run of white space alone collapses to one plain space. */
  lemma CollapseAllSpace(s: string)
    requires s != [] && AllSpace(s)
    ensures CollapseSpaces(s) == [' ']
  {
    DropSpacesOfAllSpace(s[1..]);
  }

  /** A visible first character is kept and the rest collapses on its own. */
  lemma CollapseVisibleHead(s: string)
    requires s != [] && !IsSpace(s[0])
    ensures CollapseSpaces(s) == [s[0]] + CollapseSpaces(s[1..])
  {
  }

  /** A leading run of white space becomes one space before the collapsed rest. */
  lemma CollapseSpaceHead(s: string)
    requires s != [] && IsSpace(s[0])
    ensures CollapseSpaces(s) == [' '] + CollapseSpaces(DropSpaces(s[1..]))
  {
  }

  /** White space that ends in `x` cannot run on into `y` if `y` starts visibly. */
  lemma DropSpacesOfVisible(y: string)
    requires y == [] || !IsSpace(y[0])
    ensures DropSpaces(y) == y
  {
  }

  /** The head and tail of `x + y` when `x` is not empty. */
  lemma AppendHead(x: string, y: string)
    requires x != []
    ensures (x + y)[0] == x[0] && (x + y)[1..] == x[1..] + y
  {
  }

  /** Prefixing one character commutes with appending. */
  lemma ConsAssoc(c: char, t: string, u: string)
    ensures [c] + (t + u) == ([c] + t) + u
  {
  }

  /** The step of `CollapseSpacesAppend` for a visible first character. */
  lemma CollapseAppendVisible(x: string, y: string)
    requires x != [] && !IsSpace(x[0])
    requires CollapseSpaces(x[1..] + y) == CollapseSpaces(x[1..]) + CollapseSpaces(y)
    ensures CollapseSpaces(x + y) == CollapseSpaces(x) + CollapseSpaces(y)
  {
    AppendHead(x, y);
    CollapseVisibleHead(x + y);
    CollapseVisibleHead(x);
    ConsAssoc(x[0], CollapseSpaces(x[1..]), CollapseSpaces(y));
  }

  /** The step of `CollapseSpacesAppend` for a leading run that ends inside `x`. */
  lemma CollapseAppendRunInside(x: string, y: string)
    requires x != [] && IsSpace(x[0]) && DropSpaces(x[1..]) != []
    requires CollapseSpaces(DropSpaces(x[1..]) + y) == CollapseSpaces(DropSpaces(x[1..])) + CollapseSpaces(y)
    ensures CollapseSpaces(x + y) == CollapseSpaces(x) + CollapseSpaces(y)
  {
    AppendHead(x, y);
    CollapseSpaceHead(x + y);
    CollapseSpaceHead(x);
    DropSpacesAppend(x[1..], y);
    ConsAssoc(' ', CollapseSpaces(DropSpaces(x[1..])), CollapseSpaces(y));
  }

  /** The step of `CollapseSpacesAppend` for a leading run that fills `x`. */
  lemma CollapseAppendRunWhole(x: string, y: string)
    requires x != [] && IsSpace(x[0]) && DropSpaces(x[1..]) == []
    requires y == [] || !IsSpace(y[0])
    ensures CollapseSpaces(x + y) == CollapseSpaces(x) + CollapseSpaces(y)
  {
    AppendHead(x, y);
    CollapseSpaceHead(x + y);
    CollapseSpaceHead(x);
    DropSpacesAppend(x[1..], y);
    DropSpacesOfVisible(y);
    ConsAssoc(' ', [], CollapseSpaces(y));
  }

  /**
   * Collapsing works piece by piece wherever the cut does not fall inside a
   * run of white space; so the white space between two words becomes one space.
   */
  lemma {:induction false} CollapseSpacesAppend(x: string, y: string)
    requires !(|x| > 0 && |y| > 0 && IsSpace(x[|x| - 1]) && IsSpace(y[0]))
    ensures CollapseSpaces(x + y) == CollapseSpaces(x) + CollapseSpaces(y)
    decreases |x|
  {
    if x == [] {
      assert x + y == y;
    } else if !IsSpace(x[0]) {
      CollapseSpacesAppend(x[1..], y);
      CollapseAppendVisible(x, y);
    } else {
      var d := DropSpaces(x[1..]);
      if d != [] {
        assert d[|d| - 1] == x[|x| - 1];
        CollapseSpacesAppend(d, y);
        CollapseAppendRunInside(x, y);
      } else {
        assert IsSpace(x[|x| - 1]);
        CollapseAppendRunWhole(x, y);
      }
    }
  }

  /** A run of white space between two visibly ending and starting texts becomes exactly one space. */
  lemma CollapseWordGap(u: string, w: string, v: string)
    requires u == [] || !IsSpace(u[|u| - 1])
    requires w != [] && AllSpace(w)
    requires v == [] || !IsSpace(v[0])
    ensures CollapseSpaces(u + w + v) == CollapseSpaces(u) + [' '] + CollapseSpaces(v)
  {
    CollapseSpacesAppend(u, w);
    CollapseSpacesAppend(u + w, v);
    CollapseAllSpace(w);
  }



  /** Position `i` of `s` starts a word of `s.split(' ')`. */
  predicate WordStart(s: string, i: int)
    requires 0 <= i < |s|
  {
    i == 0 || s[i - 1] == ' '
  }

  /**
   * Upper-cases the first character of every space-separated word, with
   * `atStart` telling whether `s` itself starts a word.
   */
  function CapitaliseFrom(s: string, atStart: bool): (r: string)
    ensures |r| == |s|
    ensures forall i :: 0 <= i < |s| ==>
      r[i] == (if (if i == 0 then atStart else s[i - 1] == ' ') then Upper(s[i]) else s[i])
  {
    if s == [] then []
    else [if atStart then Upper(s[0]) else s[0]] + CapitaliseFrom(s[1..], s[0] == ' ')
  }

  /**
   * `s.split(' ').map(w => w.charAt(0).toUpperCase() + w.slice(1)).join(' ')`:
   * the same characters, each word's first one upper-cased.
   */
  function TitleCase(s: string): (r: string)
    ensures |r| == |s|
    ensures forall i :: 0 <= i < |s| ==> r[i] == (if WordStart(s, i) then Upper(s[i]) else s[i])
  {
    CapitaliseFrom(s, true)
  }

  /** `parts.join(sep)`. */
  function Join(parts: seq<string>, sep: string): string
  {
    if |parts| == 0 then []
    else if |parts| == 1 then parts[0]
    else parts[0] + sep + Join(parts[1..], sep)
  }
}
