/**
 * `extract_folder_hint`: a short identifier taken from a source folder's
 * name, used to rename a colliding file. Seven patterns are searched in a
 * fixed order; the first whose group, stripped, is an acceptable hint wins.
 */
module FolderHints {
  import opened Text

  /** The seven patterns, in their order of preference. */
  datatype HintPattern =
    | SuffixDash        // -(\w{1,8})$
    | SuffixUnderscore  // _(\w{1,8})$
    | Parentheses       // \(([^)]{1,8})\)
    | Brackets          // \[([^\]]{1,8})\]
    | Version           // (?:^|\s)v(\d+)
    | TrailingNumber    // (?:^|\s)(\d{1,3})$
    | ShortWord         // (?:^|\s)(\w{2,4})(?:\s|$)

  const HintPatterns: seq<HintPattern> :=
    [SuffixDash, SuffixUnderscore, Parentheses, Brackets, Version, TrailingNumber, ShortWord]

  /** Hints that are too common to tell folders apart. */
  const StopWords: seq<string> := ["the", "and", "or", "of", "in", "at", "to", "for"]

  /** The first `close` at or after `i`, if any. */
  function FirstIndexOf(s: string, close: char, i: nat): (r: Option<nat>)
    requires i <= |s|
    ensures r.Some? ==> i <= r.value < |s| && s[r.value] == close
    ensures r.Some? ==> forall k :: i <= k < r.value ==> s[k] != close
    ensures r.None? ==> forall k :: i <= k < |s| ==> s[k] != close
    decreases |s| - i
  {
    if i == |s| then None
    else if s[i] == close then Some(i)
    else FirstIndexOf(s, close, i + 1)
  }

  /** `open([^close]{1,8})close` at `p`: the text between the delimiters. */
  function Delimited(s: string, p: nat, open: char, close: char): (r: Option<string>)
    requires p <= |s|
    ensures r.Some? ==> 1 <= |r.value| <= 8 && forall k :: 0 <= k < |r.value| ==> r.value[k] != close
  {
    if p < |s| && s[p] == open then
      match FirstIndexOf(s, close, p + 1)
      case Some(j) => if 1 <= j - (p + 1) <= 8 then Some(s[p + 1..j]) else None
      case None => None
    else None
  }

  /** `(\w{2,4})(?:\s|$)` at `g`: a run of two to four word characters ending at whitespace or the end. */
  function ShortWordFrom(s: string, g: nat): (r: Option<string>)
    requires g <= |s|
    ensures r.Some? ==> 2 <= |r.value| <= 4 && AllWordChars(r.value)
  {
    var e := WordEnd(s, g);
    if 2 <= e - g <= 4 && (e == |s| || IsSpace(s[e])) then Some(s[g..e]) else None
  }

  predicate IsV(c: char) { c == 'v' || c == 'V' }

  /**
   * Group 1 of a match of `pat` that starts at `p`, the first alternative
   * (`^`) tried before the second (`\s`). `$` is taken as the end of the
   * name: the names searched are stripped and so never end in a line feed.
   */
  function MatchAt(pat: HintPattern, s: string, p: nat): (r: Option<string>)
    requires p <= |s|
  {
    match pat
    case SuffixDash =>
      if p < |s| && s[p] == '-' && 1 <= |s| - p - 1 <= 8 && AllWordChars(s[p + 1..]) then Some(s[p + 1..]) else None
    case SuffixUnderscore =>
      if p < |s| && s[p] == '_' && 1 <= |s| - p - 1 <= 8 && AllWordChars(s[p + 1..]) then Some(s[p + 1..]) else None
    case Parentheses => Delimited(s, p, '(', ')')
    case Brackets => Delimited(s, p, '[', ']')
    case Version =>
      if p == 0 && 2 <= |s| && IsV(s[0]) && IsDigit(s[1]) then Some(s[1..DigitEnd(s, 1)])
      else if p + 2 < |s| && IsSpace(s[p]) && IsV(s[p + 1]) && IsDigit(s[p + 2]) then Some(s[p + 2..DigitEnd(s, p + 2)])
      else None
    case TrailingNumber =>
      if p == 0 && 1 <= |s| <= 3 && AllDigits(s) then Some(s)
      else if p < |s| && IsSpace(s[p]) && 1 <= |s| - p - 1 <= 3 && AllDigits(s[p + 1..]) then Some(s[p + 1..])
      else None
    case ShortWord =>
      if p == 0 && ShortWordFrom(s, 0).Some? then ShortWordFrom(s, 0)
      else if p < |s| && IsSpace(s[p]) then ShortWordFrom(s, p + 1)
      else None
  }

  /** `re.search`: the leftmost start, from `p` on, of a match of `pat`. */
  function Leftmost(pat: HintPattern, s: string, p: nat): (r: Option<nat>)
    requires p <= |s|
    ensures r.Some? ==> p <= r.value <= |s| && MatchAt(pat, s, r.value).Some?
    ensures r.Some? ==> forall q :: p <= q < r.value ==> MatchAt(pat, s, q).None?
    ensures r.None? ==> forall q :: p <= q <= |s| ==> MatchAt(pat, s, q).None?
    decreases |s| - p
  {
    if MatchAt(pat, s, p).Some? then Some(p)
    else if p == |s| then None
    else Leftmost(pat, s, p + 1)
  }

  /** `match.group(1).strip()` for the leftmost match of `pat`, if any. */
  function PatternHint(pat: HintPattern, s: string): (r: Option<string>) {
    match Leftmost(pat, s, 0)
    case Some(q) => Some(Strip(MatchAt(pat, s, q).value))
    case None => None
  }

  /** Not a stop word, and one to eight characters long. */
  predicate Acceptable(hint: string) {
    LowerStr(hint) !in StopWords && 1 <= |hint| <= 8
  }

  predicate AcceptableHint(h: Option<string>) {
    h.Some? && Acceptable(h.value)
  }

  /** The loop over the patterns from `n` on: the first acceptable hint. */
  function FirstHint(s: string, n: nat): (r: Option<string>)
    requires n <= |HintPatterns|
    ensures r.Some? ==> exists k :: (n <= k < |HintPatterns| && r == PatternHint(HintPatterns[k], s)
      && AcceptableHint(r) && forall m :: n <= m < k ==> !AcceptableHint(PatternHint(HintPatterns[m], s)))
    ensures r.None? ==> forall k :: n <= k < |HintPatterns| ==> !AcceptableHint(PatternHint(HintPatterns[k], s))
    decreases |HintPatterns| - n
  {
    if n == |HintPatterns| then None
    else
      var h := PatternHint(HintPatterns[n], s);
      if AcceptableHint(h) then h else FirstHint(s, n + 1)
  }

  /** The hint of a folder name: its stripped form searched with each pattern in turn. */
  function FolderHint(folderName: string): (r: Option<string>)
    ensures r.Some? ==> Acceptable(r.value)
  {
    FirstHint(Strip(folderName), 0)
  }

  /** `extract_folder_hint`, as its loop over the patterns. */
  method ExtractFolderHint(folderName: string) returns (hint: Option<string>)
    ensures hint == FolderHint(folderName)
  {
    var s := Strip(folderName);
    var n := 0;
    while n < |HintPatterns|
      invariant 0 <= n <= |HintPatterns|
      invariant FirstHint(s, 0) == FirstHint(s, n)
    {
      var h := PatternHint(HintPatterns[n], s);
      if AcceptableHint(h) {
        return h;
      }
      n := n + 1;
    }
    return None;
  }

  // ---------------------------------------------------------------------
  // The dash suffix comes first

  /** No dash before the last one starts a `-(\w{1,8})$` match. */
  lemma OnlyLastDashMatches(x: string, w: string, q: nat)
    requires AllWordChars(w) && q < |x|
    ensures MatchAt(SuffixDash, x + "-" + w, q).None?
  {
    var s := x + "-" + w;
    if s[q] == '-' && 1 <= |s| - q - 1 <= 8 {
      assert s[q + 1..][|x| - q - 1] == '-';
    }
  }

  /** The search finds the first start that matches. */
  lemma {:induction false} LeftmostIs(pat: HintPattern, s: string, p: nat, q: nat)
    requires p <= q <= |s| && MatchAt(pat, s, q).Some?
    requires forall r :: p <= r < q ==> MatchAt(pat, s, r).None?
    ensures Leftmost(pat, s, p) == Some(q)
    decreases q - p
  {
    if p < q {
      LeftmostIs(pat, s, p + 1, q);
    }
  }

  /** The pattern tried first decides whenever its hint is acceptable. */
  lemma FirstPatternDecides(s: string)
    requires AcceptableHint(PatternHint(SuffixDash, s))
    ensures FirstHint(s, 0) == PatternHint(SuffixDash, s)
  {
    assert HintPatterns[0] == SuffixDash;
  }

  /** The last dash starts a match whose group is the word after it. */
  lemma LastDashMatches(x: string, w: string)
    requires AllWordChars(w) && 1 <= |w| <= 8
    ensures MatchAt(SuffixDash, x + "-" + w, |x|) == Some(w)
  {
    var s := x + "-" + w;
    assert s[|x| + 1..] == w;
  }

  /** `-(\w{1,8})$` finds the last dash of such a name. */
  lemma DashSearch(x: string, w: string)
    requires AllWordChars(w) && 1 <= |w| <= 8
    ensures PatternHint(SuffixDash, x + "-" + w) == Some(Strip(w))
  {
    var s := x + "-" + w;
    forall q | 0 <= q < |x|
      ensures MatchAt(SuffixDash, s, q).None?
    {
      OnlyLastDashMatches(x, w, q);
    }
    LastDashMatches(x, w);
    LeftmostIs(SuffixDash, s, 0, |x|);
  }

  /**
   * A name ending in a dash and one to eight word characters that are not
   * a stop word (`"NES-1"`) takes those characters as its hint, whatever
   * the other patterns would find.
   */
  lemma DashSuffixHint(x: string, w: string)
    requires x == [] || !IsSpace(x[0])
    requires AllWordChars(w) && 1 <= |w| <= 8 && LowerStr(w) !in StopWords
    ensures FolderHint(x + "-" + w) == Some(w)
  {
    var s := x + "-" + w;
    StripUnchanged(s);
    StripUnchanged(w);
    DashSearch(x, w);
    FirstPatternDecides(s);
  }

  // ---------------------------------------------------------------------
  // The underscore suffix and the parentheses

  /**
   * A hint of one character, of four or more, or whose first two letters
   * begin no stop word, is not a stop word.
   */
  lemma NotStopWord(w: string)
    requires 1 <= |w|
    requires |w| == 1 || |w| >= 4 || Lower(w[0]) !in "taoif" || Lower(w[1]) !in "hnrfto"
    ensures LowerStr(w) !in StopWords
  {
    var l := LowerStr(w);
    forall k | 0 <= k < |StopWords| ensures l != StopWords[k] {
      var sw := StopWords[k];
      assert 2 <= |sw| <= 3 && sw[0] in "taoif" && sw[1] in "hnrfto";
      if |l| == |sw| {
        assert l[0] != sw[0] || l[1] != sw[1];
      }
    }
  }

  /** With no dash in the name, the dash pattern finds nothing. */
  lemma NoDashNoSuffixDash(s: string)
    requires forall i :: 0 <= i < |s| ==> s[i] != '-'
    ensures PatternHint(SuffixDash, s).None?
  {
    forall q | 0 <= q <= |s| ensures MatchAt(SuffixDash, s, q).None? {
      if q < |s| { assert s[q] != '-'; }
    }
  }

  /** With no underscore in the name, the underscore pattern finds nothing. */
  lemma NoUnderscoreNoSuffixUnderscore(s: string)
    requires forall i :: 0 <= i < |s| ==> s[i] != '_'
    ensures PatternHint(SuffixUnderscore, s).None?
  {
    forall q | 0 <= q <= |s| ensures MatchAt(SuffixUnderscore, s, q).None? {
      if q < |s| { assert s[q] != '_'; }
    }
  }

  /** When the dash pattern finds nothing, the underscore pattern decides whenever its hint is acceptable. */
  lemma SecondPatternDecides(s: string)
    requires PatternHint(SuffixDash, s).None? && AcceptableHint(PatternHint(SuffixUnderscore, s))
    ensures FirstHint(s, 0) == PatternHint(SuffixUnderscore, s)
  {
    assert HintPatterns[0] == SuffixDash && HintPatterns[1] == SuffixUnderscore;
    assert FirstHint(s, 1) == PatternHint(SuffixUnderscore, s);
  }

  /** When neither suffix pattern finds anything, the parentheses decide whenever their hint is acceptable. */
  lemma ThirdPatternDecides(s: string)
    requires PatternHint(SuffixDash, s).None? && PatternHint(SuffixUnderscore, s).None?
    requires AcceptableHint(PatternHint(Parentheses, s))
    ensures FirstHint(s, 0) == PatternHint(Parentheses, s)
  {
    assert HintPatterns[0] == SuffixDash && HintPatterns[1] == SuffixUnderscore && HintPatterns[2] == Parentheses;
    assert FirstHint(s, 2) == PatternHint(Parentheses, s);
    assert FirstHint(s, 1) == FirstHint(s, 2);
  }

  /** A dash-free prefix followed by word characters has no dash. */
  lemma NoDashBeforeWord(a: string, w: string)
    requires forall i :: 0 <= i < |a| ==> a[i] != '-'
    requires AllWordChars(w)
    ensures forall i :: 0 <= i < |a + w| ==> (a + w)[i] != '-'
  {
    forall i | |a| <= i < |a + w| ensures (a + w)[i] != '-' {
      assert (a + w)[i] == w[i - |a|];
    }
  }

  /** `_(\w{1,8})$` finds the only underscore of such a name. */
  lemma UnderscoreSearch(x: string, w: string)
    requires forall i :: 0 <= i < |x| ==> x[i] != '_'
    requires AllWordChars(w) && 1 <= |w| <= 8
    ensures PatternHint(SuffixUnderscore, x + "_" + w) == Some(Strip(w))
  {
    var s := x + "_" + w;
    forall q | 0 <= q < |x|
      ensures MatchAt(SuffixUnderscore, s, q).None?
    {
      assert s[q] == x[q];
    }
    assert s[|x| + 1..] == w;
    LeftmostIs(SuffixUnderscore, s, 0, |x|);
  }

  /**
   * A name without dashes or other underscores that ends in an underscore
   * and one to eight word characters that are not a stop word (`"NES_v2"`)
   * takes those characters as its hint.
   */
  lemma UnderscoreSuffixHint(x: string, w: string)
    requires x == [] || !IsSpace(x[0])
    requires forall i :: 0 <= i < |x| ==> x[i] != '-' && x[i] != '_'
    requires AllWordChars(w) && 1 <= |w| <= 8 && LowerStr(w) !in StopWords
    ensures FolderHint(x + "_" + w) == Some(w)
  {
    var s := x + "_" + w;
    StripUnchanged(s);
    UnderscoreOnlyMatch(x, w);
    SecondPatternDecides(s);
  }

  /** In such a name the dash pattern finds nothing and the underscore pattern finds `w`. */
  lemma UnderscoreOnlyMatch(x: string, w: string)
    requires forall i :: 0 <= i < |x| ==> x[i] != '-' && x[i] != '_'
    requires AllWordChars(w) && 1 <= |w| <= 8
    ensures PatternHint(SuffixDash, x + "_" + w).None?
    ensures PatternHint(SuffixUnderscore, x + "_" + w) == Some(w)
  {
    NoDashBeforeWord(x + "_", w);
    NoDashNoSuffixDash(x + "_" + w);
    StripUnchanged(w);
    UnderscoreSearch(x, w);
  }

  /** `\(([^)]{1,8})\)` finds the first opening parenthesis of such a name. */
  lemma ParenSearch(x: string, w: string)
    requires forall i :: 0 <= i < |x| ==> x[i] != '('
    requires 1 <= |w| <= 8 && forall i :: 0 <= i < |w| ==> w[i] != ')'
    ensures PatternHint(Parentheses, x + "(" + w + ")") == Some(Strip(w))
  {
    var s := x + "(" + w + ")";
    var j := |x| + 1 + |w|;
    forall q | 0 <= q < |x|
      ensures MatchAt(Parentheses, s, q).None?
    {
      assert s[q] == x[q];
    }
    assert s[j] == ')';
    forall k | |x| + 1 <= k < j ensures s[k] != ')' {
      assert s[k] == w[k - |x| - 1];
    }
    assert FirstIndexOf(s, ')', |x| + 1) == Some(j);
    assert s[|x| + 1..j] == w;
    LeftmostIs(Parentheses, s, 0, |x|);
  }

  /**
   * A name without dashes or underscores whose first parenthesis holds one
   * to eight characters that are not a stop word (`"NES (Alt)"`) takes
   * them as its hint.
   */
  lemma ParenHint(x: string, w: string)
    requires x == [] || !IsSpace(x[0])
    requires forall i :: 0 <= i < |x| ==> x[i] != '-' && x[i] != '_' && x[i] != '('
    requires 1 <= |w| <= 8 && !IsSpace(w[0]) && !IsSpace(w[|w| - 1]) && LowerStr(w) !in StopWords
    requires forall i :: 0 <= i < |w| ==> w[i] != ')' && w[i] != '-' && w[i] != '_'
    ensures FolderHint(x + "(" + w + ")") == Some(w)
  {
    var s := x + "(" + w + ")";
    StripUnchanged(s);
    StripUnchanged(w);
    forall i | 0 <= i < |s| ensures s[i] != '-' && s[i] != '_' {
      if |x| < i < |x| + 1 + |w| { assert s[i] == w[i - |x| - 1]; }
    }
    NoDashNoSuffixDash(s);
    NoUnderscoreNoSuffixUnderscore(s);
    ParenSearch(x, w);
    ThirdPatternDecides(s);
  }

  // ---------------------------------------------------------------------
  // The examples of `extract_folder_hint`

  lemma DashNumberExample()
    ensures FolderHint("NES" + "-" + "1") == Some("1")
  {
    NotStopWord("1");
    DashSuffixHint("NES", "1");
  }

  lemma DashWordExample()
    ensures FolderHint("NES" + "-" + "USA") == Some("USA")
  {
    NotStopWord("USA");
    DashSuffixHint("NES", "USA");
  }

  lemma UnderscoreExample()
    ensures FolderHint("NES" + "_" + "v2") == Some("v2")
  {
    NotStopWord("v2");
    UnderscoreSuffixHint("NES", "v2");
  }

  lemma ParenExample()
    ensures FolderHint("NES " + "(" + "Alt" + ")") == Some("Alt")
  {
    NotStopWord("Alt");
    ParenHint("NES ", "Alt");
  }

  lemma ParenRegionExample()
    ensures FolderHint("Nintendo Entertainment System " + "(" + "Europe" + ")") == Some("Europe")
  {
    NotStopWord("Europe");
    ParenHint("Nintendo Entertainment System ", "Europe");
  }
}
