/**
 * Home-brand matching (`isSothebys`), display-name canonicalisation
 * (`normalizeName`) and the file-name-to-market-title chain
 * (`deriveMarketName`) of src/lib/fileProcessor.ts.
 */
module Names {
  import opened Text
  import opened Patterns
  import opened Constants

  /** `isSothebys`: some pattern of SOTHEBYS_PATTERNS matches the name. */
  predicate IsSothebys(name: string)
  {
    exists i :: 0 <= i < |SOTHEBYS_PATTERNS| && Test(name, SOTHEBYS_PATTERNS[i])
  }

  /** `normalizeName`: the fixed display name for the home brand, else the trimmed name. */
  function NormalizeName(name: string): (r: string)
    ensures IsSothebys(r) == IsSothebys(name)
    ensures IsSothebys(name) ==> r == SOTHEBYS_DISPLAY_NAME
    ensures !IsSothebys(name) ==> r == Trim(name) && !IsSothebys(r)
  {
    DisplayNameIsHomeBrand();
    TrimKeepsHomeBrand(name);
    if IsSothebys(name) then SOTHEBYS_DISPLAY_NAME else Trim(name)
  }

  /** Canonicalising twice is canonicalising once. */
  lemma NormalizeNameIdempotent(name: string)
    ensures NormalizeName(NormalizeName(name)) == NormalizeName(name)
  {
    var once := NormalizeName(name);
    if !IsSothebys(name) {
      TrimIdempotent(name);
    }
  }

  lemma DisplayNameIsHomeBrand()
    ensures IsSothebys(SOTHEBYS_DISPLAY_NAME)
  {
    var lead, w, rest := DISPLAY_NAME_LEAD, DISPLAY_NAME_BRAND, DISPLAY_NAME_REST;
    assert StartsWithCI(w, "sotheby");
    StartsWithCIAppend(w, rest, "sotheby");
    assert SOTHEBYS_DISPLAY_NAME == lead + (w + rest);
    var t := SOTHEBYS_DISPLAY_NAME[|lead|..];
    assert t == w + rest;
    var p := SOTHEBYS_PATTERNS[0];
    assert p == ["sotheby"] && p[1..] == [];
    assert MatchesAt(t, p);
    assert Test(SOTHEBYS_DISPLAY_NAME, p);
  }

  lemma TrimIdempotent(s: string)
    ensures Trim(Trim(s)) == Trim(s)
  {
    TrimOfTrimmed(Trim(s));
  }

  /** Every home-brand pattern is made of non-empty words without white space. */
  lemma HomePatternsSolid()
    ensures forall i :: 0 <= i < |SOTHEBYS_PATTERNS| ==>
      SOTHEBYS_PATTERNS[i] != [] && NonEmptyWords(SOTHEBYS_PATTERNS[i]) && Solid(SOTHEBYS_PATTERNS[i])
  {
  }

  /** Surrounding white space does not change whether a name is the home brand. */
  lemma TrimKeepsHomeBrand(s: string)
    ensures IsSothebys(Trim(s)) == IsSothebys(s)
  {
    HomePatternsSolid();
    forall i | 0 <= i < |SOTHEBYS_PATTERNS|
      ensures Test(Trim(s), SOTHEBYS_PATTERNS[i]) <==> Test(s, SOTHEBYS_PATTERNS[i])
    {
      TestTrim(s, SOTHEBYS_PATTERNS[i]);
    }
  }

  /**
   * The first substitution of `deriveMarketName`:
   * `/\.(csv|xlsx?|xls)$/i` removes a trailing `.xlsx`, `.csv` or `.xls`.
   */
  function StripExtension(s: string): (r: string)
    ensures EndsWithCI(s, ".xlsx") ==> r == s[..|s| - 5]
    ensures !EndsWithCI(s, ".xlsx") && (EndsWithCI(s, ".csv") || EndsWithCI(s, ".xls")) ==> r == s[..|s| - 4]
    ensures !EndsWithCI(s, ".xlsx") && !EndsWithCI(s, ".csv") && !EndsWithCI(s, ".xls") ==> r == s
  {
    if EndsWithCI(s, ".xlsx") then s[..|s| - 5]
    else if EndsWithCI(s, ".csv") || EndsWithCI(s, ".xls") then s[..|s| - 4]
    else s
  }

  /** The unanchored substitutions of `deriveMarketName`, in the order they are applied. */
  const SUBSTITUTIONS: seq<(string, string)> := [
    ("active", " Active "),
    ("luxury", " Luxury "),
    ("listings", " Listings "),
    ("NorthScottsdale", "North Scottsdale"),
    ("CarefreeCaveCreekArea", "Carefree/Cave Creek Area"),
    ("corridor", " Corridor"),
    ("Scottsdale", "Scottsdale"),
    ("Sedona", "Sedona"),
    ("Tubac", "Tubac"),
    ("DH", "Desert Highlands"),
    ("DM", "Desert Mountain")
  ]

  /** Applies `rules` left to right, each replacing the first case-insensitive match in the previous result. */
  function ApplyInOrder(s: string, rules: seq<(string, string)>): string
    decreases |rules|
  {
    if rules == [] then s
    else ApplyInOrder(ReplaceFirstCI(s, rules[0].0, rules[0].1), rules[1..])
  }

  /** Appending a rule applies it to the result of the earlier ones. */
  lemma {:induction false} ApplyInOrderSnoc(s: string, rules: seq<(string, string)>, last: (string, string))
    ensures ApplyInOrder(s, rules + [last]) == ReplaceFirstCI(ApplyInOrder(s, rules), last.0, last.1)
    decreases |rules|
  {
    if rules != [] {
      assert (rules + [last])[1..] == rules[1..] + [last];
      ApplyInOrderSnoc(ReplaceFirstCI(s, rules[0].0, rules[0].1), rules[1..], last);
    }
  }

  /** The file name after the extension, the prefixes and the substitution chain are handled, trimmed. */
  function Substituted(fileName: string): string
  {
    var base := StripPrefixCI(StripPrefixCI(StripExtension(fileName), "marketshare"), "makretshare");
    Trim(ApplyInOrder(base, SUBSTITUTIONS))
  }

  /** The name after the substitution chain and the white-space clean-up, before title-casing. */
  function CleanedName(fileName: string): (r: string)
    ensures r == [] || (!IsSpace(r[0]) && !IsSpace(r[|r| - 1]) && OnlyPlainSpaces(r) && NoDoubleSpace(r))
  {
    var collapsed := CollapseSpaces(Substituted(fileName));
    TrimKeepsPlainSpacing(collapsed);
    Trim(collapsed)
  }

  /** A market title as `deriveMarketName` shapes it. */
  predicate WellFormedTitle(r: string)
  {
    && r != []
    && !IsSpace(r[0]) && !IsSpace(r[|r| - 1])
    && OnlyPlainSpaces(r)
    && NoDoubleSpace(r)
    && forall i :: 0 <= i < |r| && WordStart(r, i) ==> !IsLowerAscii(r[i])
  }

  /**
   * `deriveMarketName`: the cleaned name with every word's first letter
   * upper-cased; the file name itself when the cleaned name is empty.
   */
  function DeriveMarketName(fileName: string): (r: string)
    ensures CleanedName(fileName) == [] ==> r == fileName
    ensures CleanedName(fileName) != [] ==> WellFormedTitle(r)
    ensures CleanedName(fileName) != [] ==>
      |r| == |CleanedName(fileName)| &&
      forall i :: 0 <= i < |r| ==> Lower(r[i]) == Lower(CleanedName(fileName)[i])
    ensures fileName != [] ==> r != []
  {
    var name := CleanedName(fileName);
    if |name| == 0 then fileName
    else
      TitledIsWellFormed(name);
      TitleCase(name)
  }

  /** Title-casing a collapsed, trimmed, non-empty name gives a well-formed title. */
  lemma TitledIsWellFormed(name: string)
    requires name != []
    requires !IsSpace(name[0]) && !IsSpace(name[|name| - 1])
    requires OnlyPlainSpaces(name) && NoDoubleSpace(name)
    ensures WellFormedTitle(TitleCase(name))
    ensures forall i :: 0 <= i < |name| ==> Lower(TitleCase(name)[i]) == Lower(name[i])
  {
    var r := TitleCase(name);
    forall i | 0 <= i < |name|
      ensures IsSpace(r[i]) <==> IsSpace(name[i])
      ensures r[i] == ' ' <==> name[i] == ' '
      ensures Lower(r[i]) == Lower(name[i])
    {
      CaseKeepsSpace(name[i]);
    }
    forall i | 0 <= i < |r| && WordStart(r, i)
      ensures !IsLowerAscii(r[i])
    {
      assert WordStart(name, i);
      CaseKeepsSpace(name[i]);
    }
  }
}
