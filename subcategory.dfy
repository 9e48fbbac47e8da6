// The folder-name rewrite chain of subcategory_handler.py: subcategory
// consolidation, then format-indicator stripping, then publisher
// disambiguation, with the per-call counters of SubcategoryProcessor.
//
// Each regular expression of the handlers is written out as string code with
// the backtracking of Python's `re` made explicit: `.` stops at a line feed,
// `$` also matches before a final line feed, and `re.IGNORECASE` applies to
// the subcategory and publisher patterns only.

module Subcategory {
  import opened Text

  // ---------------------------------------------------------------------
  // Building blocks shared by the patterns

  /**
   * `\s+-\s+` starting at `i`: its end. Only the longest whitespace runs can
   * succeed, since what the patterns expect after each run never starts
   * with whitespace.
   */
  function SeparatorEnd(s: string, i: nat): (r: Option<nat>)
    requires i <= |s|
    ensures r.Some? ==> i + 3 <= r.value <= |s|
    ensures r.Some? ==> IsSpace(s[i]) && WsEnd(s, i) < |s| && s[WsEnd(s, i)] == '-'
    ensures r.Some? ==> r.value == WsEnd(s, WsEnd(s, i) + 1) && r.value > WsEnd(s, i) + 1
  {
    var a := WsEnd(s, i);
    if a == i || a == |s| || s[a] != '-' then None
    else
      var b := WsEnd(s, a + 1);
      if b == a + 1 then None else Some(b)
  }

  /**
   * `\s*.*$` matches `s[j..]`: after the optional whitespace, no line feed
   * but possibly a final one. Taking all of the whitespace is never worse,
   * because the condition on the rest only gets easier on a suffix.
   */
  predicate AnyTail(s: string, j: nat)
    requires j <= |s|
  {
    RestOfLine(s[WsEnd(s, j)..])
  }

  /** `\[.+?\]\s*.*$` matches at `j`. */
  predicate BracketTail(s: string, j: nat)
    requires j <= |s|
  {
    j < |s| && s[j] == '[' &&
    exists m :: j + 2 <= m < |s| && ClosesAt(s, j, m, ']') && AnyTail(s, m + 1)
  }

  /** The character at `m` closes the group opened at `j`, with no line feed in between. */
  predicate ClosesAt(s: string, j: nat, m: nat, close: char)
    requires j < m < |s|
  {
    s[m] == close && NoLineFeed(s[j + 1..m])
  }

  /** The alternatives of the two-level patterns. */
  const GroupKeywords: seq<string> := ["Games", "Applications", "Firmware", "Educational", "Various"]

  /** The alternatives of the one-level patterns. */
  const AllKeywords: seq<string> :=
    ["Games", "Applications", "Firmware", "Educational", "Compilations", "Coverdisks",
     "Samplers", "Operating Systems", "Demos", "Various"]

  /** What may follow the keyword: the end of the name, or also a bracketed tag. */
  predicate AfterKeyword(s: string, j: nat, bracket: bool)
    requires j <= |s|
  {
    if bracket then
      match SeparatorEnd(s, j)
      case None => false
      case Some(c) => BracketTail(s, c)
    else AnyTail(s, j)
  }

  /** One of `keywords`, ignoring case, at `i`, followed by the rest of the pattern. */
  predicate KeywordAt(s: string, i: nat, keywords: seq<string>, bracket: bool)
    requires i <= |s|
  {
    exists n :: 0 <= n < |keywords| && KeywordThen(s, i, keywords[n], bracket)
  }

  predicate KeywordThen(s: string, i: nat, keyword: string, bracket: bool)
    requires i <= |s|
  {
    WordAtCI(s, i, keyword) && AfterKeyword(s, i + |keyword|, bracket)
  }

  // ---------------------------------------------------------------------
  // SubcategoryConsolidationHandler

  /** The four entries of `subcategory_patterns`, in their declared order. */
  datatype SubPattern =
    | WordKeywordBracket  // ^(.+?)\s+-\s+\w+\s+-\s+(Games|…|Various)\s+-\s+\[.+?\]\s*.*$
    | WordKeyword         // ^(.+?)\s+-\s+\w+\s+-\s+(Games|…|Various)\s*.*$
    | KeywordBracket      // ^(.+?)\s+-\s+(Games|…|Demos|Various)\s+-\s+\[.+?\]\s*.*$
    | Keyword             // ^(.+?)\s+-\s+(Games|…|Demos|Various)\s*.*$

  const SubcategoryPatterns: seq<SubPattern> := [WordKeywordBracket, WordKeyword, KeywordBracket, Keyword]

  /** The part of pattern `p` after group 1 matches from index `k` on. */
  predicate TailMatches(p: SubPattern, s: string, k: nat)
    requires k <= |s|
  {
    match SeparatorEnd(s, k)
    case None => false
    case Some(b) =>
      match p
      case KeywordBracket => KeywordAt(s, b, AllKeywords, true)
      case Keyword => KeywordAt(s, b, AllKeywords, false)
      case _ =>
        var w := WordEnd(s, b);
        w > b &&
        match SeparatorEnd(s, w)
        case None => false
        case Some(c) => KeywordAt(s, c, GroupKeywords, p == WordKeywordBracket)
  }

  /** Group 1 may end at `k`: it is not empty and holds no line feed. */
  predicate GroupCandidate(s: string, k: nat) {
    1 <= k <= |s| && NoLineFeed(s[..k])
  }

  /** Group 1 cannot reach past a line feed. */
  lemma LineFeedEndsGroup(s: string, from: nat)
    requires 1 <= from <= |s| && s[from - 1] == '\n'
    ensures forall k :: from <= k ==> !GroupCandidate(s, k)
  {
    forall k | from <= k && 1 <= k <= |s|
      ensures !NoLineFeed(s[..k])
    {
      assert s[..k][from - 1] == '\n';
    }
  }

  /**
   * The lazy group `(.+?)`: the smallest end `k`, from `from` on, at which
   * the rest of the pattern matches.
   */
  function LazyGroupEnd(p: SubPattern, s: string, from: nat): (r: Option<nat>)
    requires 1 <= from <= |s| + 1 && NoLineFeed(s[..from - 1])
    ensures r.Some? ==> from <= r.value && GroupCandidate(s, r.value) && TailMatches(p, s, r.value)
    ensures r.Some? ==> forall k :: from <= k < r.value ==> !TailMatches(p, s, k)
    ensures r.None? ==> forall k :: from <= k && GroupCandidate(s, k) ==> !TailMatches(p, s, k)
    decreases |s| - from
  {
    if from > |s| then None
    else if s[from - 1] == '\n' then
      LineFeedEndsGroup(s, from);
      None
    else
      assert s[..from] == s[..from - 1] + [s[from - 1]];
      if TailMatches(p, s, from) then Some(from)
      else
        var r := LazyGroupEnd(p, s, from + 1);
        if r.Some? then
          LazyGroupFoundLater(p, s, from, r.value);
          r
        else
          LazyGroupNoneLater(p, s, from);
          r
  }

  /** A group end that the search from `from + 1` finds, when the tail does not match at `from`, is the first from `from`. */
  lemma LazyGroupFoundLater(p: SubPattern, s: string, from: nat, e: nat)
    requires 1 <= from <= |s| && e <= |s| && !TailMatches(p, s, from)
    requires forall k :: from + 1 <= k < e ==> !TailMatches(p, s, k)
    ensures forall k :: from <= k < e ==> !TailMatches(p, s, k)
  {
    forall k | from <= k < e
      ensures !TailMatches(p, s, k)
    {
      if k != from {
        assert from + 1 <= k < e;
      }
    }
  }

  /** When the search from `from + 1` finds nothing and the tail does not match at `from`, nothing matches from `from`. */
  lemma LazyGroupNoneLater(p: SubPattern, s: string, from: nat)
    requires 1 <= from <= |s| && !TailMatches(p, s, from)
    requires forall k :: from + 1 <= k && GroupCandidate(s, k) ==> !TailMatches(p, s, k)
    ensures forall k :: from <= k && GroupCandidate(s, k) ==> !TailMatches(p, s, k)
  {
    forall k | from <= k && GroupCandidate(s, k)
      ensures !TailMatches(p, s, k)
    {
      if k != from {
        assert from + 1 <= k;
      }
    }
  }

  /** `re.match` of pattern `p`: the end of group 1, or None. */
  function SubcategoryGroupEnd(p: SubPattern, s: string): (r: Option<nat>)
    ensures r.Some? <==> exists k :: GroupCandidate(s, k) && TailMatches(p, s, k)
    ensures r.Some? ==> GroupCandidate(s, r.value) && TailMatches(p, s, r.value)
    ensures r.Some? ==> forall k :: 1 <= k < r.value ==> !TailMatches(p, s, k)
  {
    LazyGroupEnd(p, s, 1)
  }

  /** The first pattern, in declared order from `n` on, that matches, with its group end. */
  function FirstSubcategoryMatch(s: string, n: nat): (r: Option<(nat, nat)>)
    requires n <= |SubcategoryPatterns|
    ensures r.Some? ==> n <= r.value.0 < |SubcategoryPatterns|
    ensures r.Some? ==> SubcategoryGroupEnd(SubcategoryPatterns[r.value.0], s) == Some(r.value.1)
    ensures r.Some? ==> forall i :: n <= i < r.value.0 ==> SubcategoryGroupEnd(SubcategoryPatterns[i], s).None?
    ensures r.None? ==> forall i :: n <= i < |SubcategoryPatterns| ==> SubcategoryGroupEnd(SubcategoryPatterns[i], s).None?
    decreases |SubcategoryPatterns| - n
  {
    if n == |SubcategoryPatterns| then None
    else
      match SubcategoryGroupEnd(SubcategoryPatterns[n], s)
      case Some(k) => Some((n, k))
      case None =>
        var r := FirstSubcategoryMatch(s, n + 1);
        FirstMatchStep(s, n, r);
        r
  }

  /** A match that the search from pattern `n + 1` finds, when pattern `n` does not match, is the first from `n`. */
  lemma FirstMatchStep(s: string, n: nat, r: Option<(nat, nat)>)
    requires n < |SubcategoryPatterns| && SubcategoryGroupEnd(SubcategoryPatterns[n], s).None?
    requires r.Some? ==> n + 1 <= r.value.0 < |SubcategoryPatterns|
    requires r.Some? ==> forall i :: n + 1 <= i < r.value.0 ==> SubcategoryGroupEnd(SubcategoryPatterns[i], s).None?
    requires r.None? ==> forall i :: n + 1 <= i < |SubcategoryPatterns| ==> SubcategoryGroupEnd(SubcategoryPatterns[i], s).None?
    ensures r.Some? ==> forall i :: n <= i < r.value.0 ==> SubcategoryGroupEnd(SubcategoryPatterns[i], s).None?
    ensures r.None? ==> forall i :: n <= i < |SubcategoryPatterns| ==> SubcategoryGroupEnd(SubcategoryPatterns[i], s).None?
  {
    var m := if r.Some? then r.value.0 else |SubcategoryPatterns|;
    forall i | n <= i < m
      ensures SubcategoryGroupEnd(SubcategoryPatterns[i], s).None?
    {
      if i != n {
        assert n + 1 <= i < m;
      }
    }
  }

  /**
   * `SubcategoryConsolidationHandler.handle` without its successor: the
   * stripped group 1 of the first matching pattern, or None when no pattern
   * matches and the name passes through unchanged.
   */
  function ConsolidateSubcategory(name: string): (r: Option<string>)
    ensures r.Some? <==> exists i :: 0 <= i < |SubcategoryPatterns| && SubcategoryGroupEnd(SubcategoryPatterns[i], name).Some?
    ensures r.Some? ==> |r.value| < |name|
  {
    match FirstSubcategoryMatch(name, 0)
    case None => None
    case Some((_, k)) => Some(Strip(name[..k]))
  }

  // ---------------------------------------------------------------------
  // FormatIndicatorHandler

  /** The three entries of `format_patterns`, in their declared order. */
  datatype FormatPattern =
    | DashBracket    // \s*-\s*\[.+?\]\s*
    | Bracket        // \s*\[.+?\]\s*
    | TrailingParen  // \s*\(.+?\)\s*$

  const FormatPatterns: seq<FormatPattern> := [DashBracket, Bracket, TrailingParen]

  /**
   * The smallest `m >= j + 2` with `s[m] == close` and no line feed in
   * between: where the lazy `.+?` of a bracketed tag stops.
   */
  function CloseIndex(s: string, j: nat, close: char, m: nat): (r: Option<nat>)
    requires j + 2 <= m <= |s| + 1 && NoLineFeed(s[j + 1..m - 1])
    ensures r.Some? ==> m <= r.value < |s| && ClosesAt(s, j, r.value, close)
    ensures r.Some? ==> forall q :: m <= q < r.value ==> s[q] != close
    ensures r.None? ==> forall q :: m <= q < |s| ==> !ClosesAt(s, j, q, close)
    decreases |s| - m
  {
    if m >= |s| then None
    else if s[m - 1] == '\n' then
      assert forall q :: m <= q < |s| ==> !ClosesAt(s, j, q, close) by {
        forall q | m <= q < |s| ensures !ClosesAt(s, j, q, close) {
          assert s[j + 1..q][m - 1 - (j + 1)] == s[m - 1];
        }
      }
      None
    else
      assert s[j + 1..m] == s[j + 1..m - 1] + [s[m - 1]];
      if s[m] == close then Some(m) else CloseIndex(s, j, close, m + 1)
  }

  /**
   * The end of the match of `pat` that the regex engine finds when it starts
   * at `p`, or None. The leading `\s*` runs are taken whole (shorter ones
   * would put `-`, `[` or `(` on a whitespace character), the lazy group
   * stops at the first closing character, and the trailing `\s*` is greedy.
   */
  function FormatMatchAt(pat: FormatPattern, s: string, p: nat): (r: Option<nat>)
    requires p <= |s|
    ensures r.Some? ==> p < r.value <= |s|
    ensures r.Some? && pat == DashBracket ==> WsEnd(s, p) < |s| && s[WsEnd(s, p)] == '-'
    ensures r.Some? && pat == DashBracket ==> WsEnd(s, WsEnd(s, p) + 1) < |s| && s[WsEnd(s, WsEnd(s, p) + 1)] == '['
    ensures r.Some? && pat == Bracket ==> WsEnd(s, p) < |s| && s[WsEnd(s, p)] == '['
    ensures r.Some? && pat == TrailingParen ==> WsEnd(s, p) < |s| && s[WsEnd(s, p)] == '(' && r.value == |s|
  {
    var a := WsEnd(s, p);
    match pat
    case DashBracket =>
      if a < |s| && s[a] == '-' then BracketFrom(s, WsEnd(s, a + 1)) else None
    case Bracket =>
      BracketFrom(s, a)
    case TrailingParen =>
      if a + 2 < |s| && s[a] == '(' then
        assert s[a + 1..a + 1] == [];
        match ParenToEnd(s, a, a + 2)
        case Some(_) => Some(|s|)
        case None => None
      else None
  }

  /** `\[.+?\]\s*` from `j`: the end of the trailing whitespace after the first closing bracket. */
  function BracketFrom(s: string, j: nat): (r: Option<nat>)
    requires j <= |s|
    ensures r.Some? ==> j < r.value <= |s| && s[j] == '['
  {
    if j + 2 < |s| && s[j] == '[' then
      assert s[j + 1..j + 1] == [];
      match CloseIndex(s, j, ']', j + 2)
      case Some(m) => Some(WsEnd(s, m + 1))
      case None => None
    else None
  }

  /**
   * `\(.+?\)\s*$` from the parenthesis at `j`: the smallest closing
   * parenthesis that only whitespace follows, with no line feed before it.
   */
  function ParenToEnd(s: string, j: nat, m: nat): (r: Option<nat>)
    requires j + 2 <= m <= |s| + 1 && NoLineFeed(s[j + 1..m - 1])
    ensures r.Some? ==> m <= r.value < |s| && ClosesAt(s, j, r.value, ')') && WsEnd(s, r.value + 1) == |s|
    decreases |s| - m
  {
    if m >= |s| || s[m - 1] == '\n' then None
    else
      assert s[j + 1..m] == s[j + 1..m - 1] + [s[m - 1]];
      if s[m] == ')' && WsEnd(s, m + 1) == |s| then Some(m) else ParenToEnd(s, j, m + 1)
  }

  /** `re.sub(pat, "", s[p..])`: every match, leftmost first, removed; the scan resumes after each match. */
  function SubAllFrom(pat: FormatPattern, s: string, p: nat): (r: string)
    requires p <= |s|
    decreases |s| - p
  {
    if p == |s| then []
    else
      match FormatMatchAt(pat, s, p)
      case Some(e) => SubAllFrom(pat, s, e)
      case None => [s[p]] + SubAllFrom(pat, s, p + 1)
  }

  function SubAll(pat: FormatPattern, s: string): string {
    SubAllFrom(pat, s, 0)
  }

  /** The substitution never lengthens the name. */
  lemma {:induction false} SubAllFromBound(pat: FormatPattern, s: string, p: nat)
    requires p <= |s|
    ensures |SubAllFrom(pat, s, p)| <= |s| - p
    decreases |s| - p
  {
    if p < |s| {
      match FormatMatchAt(pat, s, p)
      case Some(e) =>
        SubAllFromDrops(pat, s, p, e);
        SubAllFromBound(pat, s, e);
      case None =>
        SubAllFromKeeps(pat, s, p);
        SubAllFromBound(pat, s, p + 1);
    }
  }

  /** A match at `q` or later makes the substitution strictly shorter. */
  lemma {:induction false} SubAllFromShorter(pat: FormatPattern, s: string, p: nat, q: nat)
    requires p <= q < |s| && FormatMatchAt(pat, s, q).Some?
    ensures |SubAllFrom(pat, s, p)| < |s| - p
    decreases |s| - p
  {
    match FormatMatchAt(pat, s, p)
    case Some(e) =>
      SubAllFromDrops(pat, s, p, e);
      SubAllFromBound(pat, s, e);
    case None =>
      SubAllFromKeeps(pat, s, p);
      SubAllFromShorter(pat, s, p + 1, q);
  }

  /** Without a match from `p` on, the substitution keeps the rest of the name. */
  lemma {:induction false} SubAllFromUnchanged(pat: FormatPattern, s: string, p: nat)
    requires p <= |s|
    requires forall q :: p <= q < |s| ==> FormatMatchAt(pat, s, q).None?
    ensures SubAllFrom(pat, s, p) == s[p..]
    decreases |s| - p
  {
    if p < |s| {
      SubAllFromUnchanged(pat, s, p + 1);
      SubAllFromKeeps(pat, s, p);
      assert s[p..] == [s[p]] + s[p + 1..];
    }
  }

  /**
   * `re.sub` changes the name exactly when the pattern matches somewhere in
   * it, and then makes it strictly shorter.
   */
  lemma SubAllChangesIffMatch(pat: FormatPattern, s: string)
    ensures SubAll(pat, s) != s <==> exists q :: 0 <= q < |s| && FormatMatchAt(pat, s, q).Some?
    ensures |SubAll(pat, s)| <= |s|
    ensures SubAll(pat, s) != s ==> |SubAll(pat, s)| < |s|
  {
    SubAllFromBound(pat, s, 0);
    if q :| 0 <= q < |s| && FormatMatchAt(pat, s, q).Some? {
      SubAllFromShorter(pat, s, 0, q);
    } else {
      SubAllFromUnchanged(pat, s, 0);
      assert s[0..] == s;
    }
  }

  /**
   * The loop of `FormatIndicatorHandler.handle` from pattern `n` on: each
   * substitution that changes the name replaces it with its stripped result
   * and sets the `format_stripped` flag.
   */
  function ApplyFormatPatterns(name: string, n: nat, stripped: bool): (r: (string, bool))
    requires n <= |FormatPatterns|
    ensures r.1 <==> stripped || exists i :: n <= i < |FormatPatterns| && FormatChanges(i, name, n)
    decreases |FormatPatterns| - n
  {
    if n == |FormatPatterns| then (name, stripped)
    else
      var next := SubAll(FormatPatterns[n], name);
      if next != name then
        var r := ApplyFormatPatterns(Strip(next), n + 1, true);
        assert FormatChanges(n, name, n);
        r
      else
        var r := ApplyFormatPatterns(name, n + 1, stripped);
        assert r.1 ==> stripped || exists i :: n <= i < |FormatPatterns| && FormatChanges(i, name, n) by {
          if r.1 && !stripped {
            var i :| n + 1 <= i < |FormatPatterns| && FormatChanges(i, name, n + 1);
            FormatChangesStep(i, name, n);
          }
        }
        assert (exists i :: n <= i < |FormatPatterns| && FormatChanges(i, name, n)) ==> r.1 by {
          if exists i :: n <= i < |FormatPatterns| && FormatChanges(i, name, n) {
            var i :| n <= i < |FormatPatterns| && FormatChanges(i, name, n);
            FormatChangesStep(i, name, n);
          }
        }
        r
  }

  /** The name that enters the substitution of pattern `i` when the loop is at pattern `n` with `name`. */
  function FormatInput(i: nat, name: string, n: nat): string
    requires n <= i < |FormatPatterns|
    decreases i - n
  {
    if i == n then name
    else
      var next := SubAll(FormatPatterns[n], name);
      FormatInput(i, if next != name then Strip(next) else name, n + 1)
  }

  /** Pattern `i` changes the name it is applied to. */
  predicate FormatChanges(i: nat, name: string, n: nat)
    requires n <= i < |FormatPatterns|
  {
    SubAll(FormatPatterns[i], FormatInput(i, name, n)) != FormatInput(i, name, n)
  }

  lemma FormatChangesStep(i: nat, name: string, n: nat)
    requires n < i < |FormatPatterns| && SubAll(FormatPatterns[n], name) == name
    ensures FormatChanges(i, name, n) <==> FormatChanges(i, name, n + 1)
  {
  }

  /** Every substitution that changes the name makes it strictly shorter. */
  lemma {:induction false} ApplyFormatPatternsShortens(name: string, n: nat, stripped: bool)
    requires n <= |FormatPatterns|
    ensures |ApplyFormatPatterns(name, n, stripped).0| <= |name|
    ensures ApplyFormatPatterns(name, n, stripped).1 && !stripped ==> |ApplyFormatPatterns(name, n, stripped).0| < |name|
    decreases |FormatPatterns| - n
  {
    if n < |FormatPatterns| {
      var next := SubAll(FormatPatterns[n], name);
      SubAllChangesIffMatch(FormatPatterns[n], name);
      if next != name {
        ApplyFormatPatternsShortens(Strip(next), n + 1, true);
      } else {
        ApplyFormatPatternsShortens(name, n + 1, stripped);
      }
    }
  }

  /** `FormatIndicatorHandler.handle` without its successor: the new name and `format_stripped`. */
  function StripFormatIndicators(name: string): (r: (string, bool))
    ensures r.1 <==> exists i :: 0 <= i < |FormatPatterns| && FormatChanges(i, name, 0)
    ensures r.1 <==> r.0 != name
    ensures |r.0| <= |name|
  {
    ApplyFormatPatternsShortens(name, 0, false);
    ApplyFormatPatterns(name, 0, false)
  }

  // ---------------------------------------------------------------------
  // PublisherDisambiguationHandler

  /**
   * `re.sub(r"^Microsoft\s+-\s+(MSX.*)$", r"\1", name, flags=re.IGNORECASE)`
   * when it changes the name: what is left from "MSX" on. A final line feed
   * that `$` stops before stays after the group, so the result is the whole
   * rest of the name either way.
   */
  function MsxRewrite(name: string): (r: Option<string>)
    ensures r.Some? ==> StartsWithCI(name, "Microsoft")
    ensures r.Some? ==> |r.value| < |name| && r.value == name[|name| - |r.value|..]
    ensures r.Some? ==> StartsWithCI(r.value, "MSX") && RestOfLine(r.value[3..])
  {
    if !StartsWithCI(name, "Microsoft") then None
    else
      match SeparatorEnd(name, 9)
      case None => None
      case Some(b) =>
        if WordAtCI(name, b, "MSX") && RestOfLine(name[b + 3..]) then
          assert name[b..][0..3] == name[b..b + 3];
          assert name[b..][3..] == name[b + 3..];
          Some(name[b..])
        else None
  }

  /** `PublisherDisambiguationHandler.handle` without its successor: the new name and `publisher_normalized`. */
  function NormalizePublisher(name: string): (r: (string, bool))
    ensures r.1 <==> MsxRewrite(name).Some?
    ensures r.1 <==> r.0 != name
    ensures r.1 ==> r.0 == MsxRewrite(name).value
  {
    match MsxRewrite(name)
    case Some(n) => (n, true)
    case None => (name, false)
  }

  /** The publisher step leaves every name that does not start with "Microsoft" alone. */
  lemma PublisherOnlyMicrosoft(name: string)
    requires !StartsWithCI(name, "Microsoft")
    ensures NormalizePublisher(name) == (name, false)
  {
  }

  // ---------------------------------------------------------------------
  // The chain

  /** The shared `context` dict of one `SubcategoryProcessor.process` call. */
  datatype Context = Context(
    subcategoryConsolidated: bool,
    formatStripped: bool,
    publisherNormalized: bool,
    originalName: string,
    originalSubcategory: Option<string>,   // set by the subcategory handler on a match
    consolidationType: Option<string>)      // "subcategory" on a match

  function InitialContext(name: string): Context {
    Context(false, false, false, name, None, None)
  }

  datatype HandlerKind = SubcategoryConsolidation | FormatIndicator | PublisherDisambiguation

  /** The chain `SubcategoryProcessor.__init__` links with `set_next`. */
  const Chain: seq<HandlerKind> := [SubcategoryConsolidation, FormatIndicator, PublisherDisambiguation]

  /** What one handler does to the name and to the context before passing on. */
  function HandleOne(kind: HandlerKind, name: string, ctx: Context): (r: (string, Context))
    ensures r.1.originalName == ctx.originalName
  {
    match kind
    case SubcategoryConsolidation =>
      (match ConsolidateSubcategory(name)
       case Some(base) =>
         (base, ctx.(subcategoryConsolidated := true, originalSubcategory := Some(name),
                     consolidationType := Some("subcategory")))
       case None => (name, ctx))
    case FormatIndicator =>
      var (n, stripped) := StripFormatIndicators(name);
      (n, if stripped then ctx.(formatStripped := true) else ctx)
    case PublisherDisambiguation =>
      var (n, normalized) := NormalizePublisher(name);
      (n, if normalized then ctx.(publisherNormalized := true) else ctx)
  }

  /** `handle` followed by `_pass_to_next` down the chain; the last handler returns the name. */
  function RunChain(chain: seq<HandlerKind>, name: string, ctx: Context): (r: (string, Context))
    ensures r.1.originalName == ctx.originalName
    decreases |chain|
  {
    if chain == [] then (name, ctx)
    else
      var (n, c) := HandleOne(chain[0], name, ctx);
      RunChain(chain[1..], n, c)
  }

  /** The counters of `SubcategoryProcessor.stats`. */
  datatype Stats = Stats(
    processedCount: nat,
    subcategoryConsolidated: nat,
    formatStripped: nat,
    publisherNormalized: nat,
    unchangedCount: nat)

  function Bump(n: nat, b: bool): nat { if b then n + 1 else n }

  /**
   * The statistics after one `process` call: `processed_count` grows by one,
   * each flag counter grows by one exactly when its flag is set, and
   * `unchanged` grows by one exactly when the output equals the input.
   */
  function Counted(s: Stats, name: string, processed: string, ctx: Context): (r: Stats)
    ensures r.processedCount == s.processedCount + 1
    ensures r.subcategoryConsolidated == s.subcategoryConsolidated + (if ctx.subcategoryConsolidated then 1 else 0)
    ensures r.formatStripped == s.formatStripped + (if ctx.formatStripped then 1 else 0)
    ensures r.publisherNormalized == s.publisherNormalized + (if ctx.publisherNormalized then 1 else 0)
    ensures r.unchangedCount == s.unchangedCount + (if processed == name then 1 else 0)
  {
    Stats(s.processedCount + 1,
          Bump(s.subcategoryConsolidated, ctx.subcategoryConsolidated),
          Bump(s.formatStripped, ctx.formatStripped),
          Bump(s.publisherNormalized, ctx.publisherNormalized),
          Bump(s.unchangedCount, processed == name))
  }

  /**
   * The three handlers run in the fixed order subcategory, format, publisher,
   * each on the previous one's output, and the flags record which of them
   * changed the name.
   */
  lemma {:induction false} ChainComposition(name: string)
    ensures
      var sub := ConsolidateSubcategory(name);
      var afterSub := if sub.Some? then sub.value else name;
      var (afterFormat, stripped) := StripFormatIndicators(afterSub);
      var (out, normalized) := NormalizePublisher(afterFormat);
      var (processed, ctx) := RunChain(Chain, name, InitialContext(name));
      processed == out
      && ctx.subcategoryConsolidated == sub.Some?
      && ctx.formatStripped == stripped
      && ctx.publisherNormalized == normalized
      && ctx.originalName == name
      && ctx.originalSubcategory == (if sub.Some? then Some(name) else None)
  {
    var c0 := InitialContext(name);
    var (n1, c1) := HandleOne(SubcategoryConsolidation, name, c0);
    var (n2, c2) := HandleOne(FormatIndicator, n1, c1);
    var (n3, c3) := HandleOne(PublisherDisambiguation, n2, c2);
    assert Chain[1..] == [FormatIndicator, PublisherDisambiguation];
    assert Chain[1..][1..] == [PublisherDisambiguation];
    assert Chain[1..][1..][1..] == [];
    assert RunChain(Chain, name, c0) == RunChain(Chain[1..], n1, c1);
    assert RunChain(Chain[1..], n1, c1) == RunChain(Chain[1..][1..], n2, c2);
    assert RunChain(Chain[1..][1..], n2, c2) == RunChain([], n3, c3);
  }

  /** The name `SubcategoryProcessor.process` returns for `name`. */
  function ProcessedName(name: string): string {
    RunChain(Chain, name, InitialContext(name)).0
  }

  // ---------------------------------------------------------------------
  // The examples of `test_subcategory_processor`

  /** A dash with whitespace right before it: where the dash of a `\s+-\s+` can be. */
  predicate SpacedDash(s: string, d: nat) {
    1 <= d < |s| && s[d] == '-' && IsSpace(s[d - 1])
  }

  /** A `\s+-\s+` that starts at `k` has its dash where the whitespace run from `k` ends. */
  lemma SeparatorDash(s: string, k: nat)
    requires k <= |s| && SeparatorEnd(s, k).Some?
    ensures k < WsEnd(s, k) && SpacedDash(s, WsEnd(s, k))
    ensures k + 1 == WsEnd(s, k) || IsSpace(s[WsEnd(s, k) - 2])
  {
    var d := WsEnd(s, k);
    assert s[k..d][d - 1 - k] == s[d - 1];
    if k + 1 < d {
      assert s[k..d][d - 2 - k] == s[d - 2];
    }
  }

  /** When every spaced dash has a single space before it, a separator starts only on that space. */
  lemma SeparatorsOnlyAt(s: string, ds: set<nat>)
    requires forall d :: SpacedDash(s, d) ==> d in ds && 2 <= d && !IsSpace(s[d - 2])
    ensures forall k: nat :: k <= |s| && SeparatorEnd(s, k).Some? ==> k + 1 in ds
  {
    forall k: nat | k <= |s| && SeparatorEnd(s, k).Some?
      ensures k + 1 in ds
    {
      SeparatorDash(s, k);
    }
  }

  /** One space, a dash, one space and a non-space character: a separator of three characters. */
  lemma PlainSeparator(s: string, k: nat)
    requires k + 3 < |s| && s[k] == ' ' && s[k + 1] == '-' && s[k + 2] == ' ' && !IsSpace(s[k + 3])
    ensures SeparatorEnd(s, k) == Some(k + 3)
  {
    assert WsEnd(s, k + 1) == k + 1;
    assert WsEnd(s, k + 3) == k + 3;
  }

  /** `a - b`, with `b` not starting with whitespace, has a three-character separator right after `a`. */
  lemma PlainSeparatorAfter(a: string, b: string, k: nat)
    requires k == |a| && |b| >= 1 && !IsSpace(b[0])
    ensures SeparatorEnd(a + " - " + b, k) == Some(k + 3)
  {
    var s := a + " - " + b;
    assert s[|a|] == ' ' && s[|a| + 1] == '-' && s[|a| + 2] == ' ' && s[|a| + 3] == b[0];
    PlainSeparator(s, |a|);
  }

  /** The keywords of the two-level patterns are among those of the one-level ones. */
  lemma GroupKeywordsAmongAll()
    ensures forall n :: 0 <= n < 4 ==> GroupKeywords[n] == AllKeywords[n]
    ensures |GroupKeywords| == 5 && GroupKeywords[4] == AllKeywords[9]
  {
  }

  /** Every keyword starts with one of a few letters, and the one starting with 'G' continues with 'a'. */
  lemma KeywordInitials()
    ensures forall n :: 0 <= n < |AllKeywords| ==> |AllKeywords[n]| >= 2 && Lower(AllKeywords[n][0]) in "gafecsodv"
    ensures forall n :: 0 <= n < |AllKeywords| ==> Lower(AllKeywords[n][0]) == 'g' ==> AllKeywords[n][1] == 'a'
  {
  }

  /** Neither a keyword nor its ends hold a dash, a line feed or whitespace. */
  lemma KeywordsPlain(kw: string)
    requires kw in AllKeywords
    ensures |kw| >= 1 && !IsSpace(kw[0]) && !IsSpace(kw[|kw| - 1]) && NoLineFeed(kw)
    ensures forall i :: 0 <= i < |kw| ==> kw[i] != '-'
  {
  }

  /** No keyword, ignoring case, starts at `c`. */
  predicate NoKeywordAt(s: string, c: nat) {
    forall n :: 0 <= n < |AllKeywords| ==> !WordAtCI(s, c, AllKeywords[n])
  }

  /** A keyword cannot start where the name has a character that differs, ignoring case, from the keyword's at the same offset. */
  lemma MismatchAt(s: string, i: nat, w: string, j: nat)
    requires j < |w| && i + j < |s| && Lower(s[i + j]) != Lower(w[j])
    ensures !WordAtCI(s, i, w)
  {
    if i + |w| <= |s| {
      assert s[i..i + |w|][j] == s[i + j];
    }
  }

  /** A text that starts with no keyword's initial, or with "G" and then not "a", starts with no keyword. */
  lemma NoKeywordStart(t: string)
    requires |t| >= 2
    requires Lower(t[0]) !in "gafecsodv" || (Lower(t[0]) == 'g' && Lower(t[1]) != 'a')
    ensures NoKeywordAt(t, 0)
  {
    KeywordInitials();
    forall n | 0 <= n < |AllKeywords|
      ensures !WordAtCI(t, 0, AllKeywords[n])
    {
      if Lower(t[0]) != Lower(AllKeywords[n][0]) {
        MismatchAt(t, 0, AllKeywords[n], 0);
      } else {
        MismatchAt(t, 0, AllKeywords[n], 1);
      }
    }
  }

  /** Whether a keyword starts at the beginning of `b` does not change when `a` is put before it. */
  lemma NoKeywordAfterPrefix(a: string, b: string, k: nat)
    requires k == |a| && NoKeywordAt(b, 0)
    ensures NoKeywordAt(a + b, k)
  {
    forall n | 0 <= n < |AllKeywords|
      ensures !WordAtCI(a + b, |a|, AllKeywords[n])
    {
      var w := AllKeywords[n];
      if |a| + |w| <= |a + b| {
        assert (a + b)[|a|..|a| + |w|] == b[0..|w|];
      }
    }
  }

  /**
   * The spaced dashes of `x - t` are the one after `x` and those of `t`
   * moved past the separator, when `x` has no dash and `t` does not start
   * with one.
   */
  lemma SpacedDashesJoin(x: string, t: string, ds: set<nat>)
    requires 1 <= |x| && !IsSpace(x[|x| - 1])
    requires forall i :: 0 <= i < |x| ==> x[i] != '-'
    requires |t| == 0 || t[0] != '-'
    requires forall d :: SpacedDash(t, d) ==> d in ds && 2 <= d && !IsSpace(t[d - 2])
    ensures forall d: nat :: SpacedDash(x + " - " + t, d) ==>
      (d == |x| + 1 || (|x| + 3 <= d && d - (|x| + 3) in ds)) && 2 <= d && !IsSpace((x + " - " + t)[d - 2])
  {
    var s := x + " - " + t;
    assert forall i :: 0 <= i < |x| ==> s[i] == x[i];
    assert s[|x|] == ' ' && s[|x| + 1] == '-' && s[|x| + 2] == ' ';
    assert forall i :: 0 <= i < |t| ==> s[|x| + 3 + i] == t[i];
    forall d: nat | SpacedDash(s, d)
      ensures (d == |x| + 1 || (|x| + 3 <= d && d - (|x| + 3) in ds)) && 2 <= d && !IsSpace(s[d - 2])
    {
      if |x| + 3 < d {
        var e := d - (|x| + 3);
        assert s[d] == t[e] && s[d - 1] == t[e - 1];
        assert e in ds;
      }
    }
  }

  /** A dash glued to the character before it is not a spaced dash. */
  lemma GluedDash(a: string, b: string)
    requires 1 <= |a| && !IsSpace(a[|a| - 1])
    requires forall i :: 0 <= i < |a| ==> a[i] != '-'
    requires forall i :: 0 <= i < |b| ==> b[i] != '-'
    ensures forall d: nat :: !SpacedDash(a + "-" + b, d)
  {
    var s := a + "-" + b;
    assert forall i :: 0 <= i < |a| ==> s[i] == a[i];
    assert forall i :: 0 <= i < |b| ==> s[|a| + 1 + i] == b[i];
    assert s[|a| - 1] == a[|a| - 1];
  }

  /** A text without a dash has no spaced dash. */
  lemma NoDashNoSpacedDash(t: string)
    requires forall i :: 0 <= i < |t| ==> t[i] != '-'
    ensures forall d: nat :: !SpacedDash(t, d)
  {
  }

  /** Every subcategory pattern ends with a keyword right after a separator; the two-level ones after a second separator. */
  lemma TailKeyword(p: SubPattern, s: string, k: nat) returns (j: nat, w: nat)
    requires k <= |s| && TailMatches(p, s, k)
    ensures k <= j <= |s| && SeparatorEnd(s, j).Some?
    ensures 0 <= w < |AllKeywords| && WordAtCI(s, SeparatorEnd(s, j).value, AllKeywords[w])
    ensures p == WordKeywordBracket || p == WordKeyword ==> k < j
  {
    var b := SeparatorEnd(s, k).value;
    if p == KeywordBracket || p == Keyword {
      j := k;
      w :| 0 <= w < |AllKeywords| && KeywordThen(s, b, AllKeywords[w], p == KeywordBracket);
    } else {
      j := WordEnd(s, b);
      var c := SeparatorEnd(s, j).value;
      var n :| 0 <= n < |GroupKeywords| && KeywordThen(s, c, GroupKeywords[n], p == WordKeywordBracket);
      GroupKeywordsAmongAll();
      w := if n < 4 then n else 9;
    }
  }

  /** A name in which no separator is followed by a keyword passes the subcategory step unchanged. */
  lemma NoKeywordAfterAnySeparator(s: string)
    requires forall j: nat :: j <= |s| && SeparatorEnd(s, j).Some? ==> NoKeywordAt(s, SeparatorEnd(s, j).value)
    ensures ConsolidateSubcategory(s).None?
  {
    forall i, k | 0 <= i < |SubcategoryPatterns| && GroupCandidate(s, k)
      ensures !TailMatches(SubcategoryPatterns[i], s, k)
    {
      if TailMatches(SubcategoryPatterns[i], s, k) {
        var j, w := TailKeyword(SubcategoryPatterns[i], s, k);
      }
    }
  }

  /**
   * With separators at `k1` and `k2` only, and no keyword after the second,
   * the two-level patterns fail: their keyword needs a separator after the
   * one that ends group 1.
   */
  lemma TwoLevelFails(s: string, k1: nat, k2: nat)
    requires SeparatorsOnly(s, k1, k2)
    requires k1 < k2 <= |s| && SeparatorEnd(s, k2) == Some(k2 + 3) && NoKeywordAt(s, k2 + 3)
    ensures forall i :: 0 <= i < 2 ==> SubcategoryGroupEnd(SubcategoryPatterns[i], s).None?
  {
    TwoLevelPatternFails(WordKeywordBracket, s, k1, k2);
    TwoLevelPatternFails(WordKeyword, s, k1, k2);
  }

  /** One two-level pattern, under the conditions of `TwoLevelFails`. */
  lemma TwoLevelPatternFails(p: SubPattern, s: string, k1: nat, k2: nat)
    requires p == WordKeywordBracket || p == WordKeyword
    requires SeparatorsOnly(s, k1, k2)
    requires k1 < k2 <= |s| && SeparatorEnd(s, k2) == Some(k2 + 3) && NoKeywordAt(s, k2 + 3)
    ensures SubcategoryGroupEnd(p, s).None?
  {
    forall k | GroupCandidate(s, k)
      ensures !TailMatches(p, s, k)
    {
      var w, c := TwoLevelParts(p, s, k);
      if TailMatches(p, s, k) {
        LaterSeparatorIsSecond(s, k1, k2, k, w);
        SameSeparatorEnd(s, k2, w, c);
      }
    }
  }

  /** A separator at `w == k2` ends where the one at `k2` does, so what holds after one holds after the other. */
  lemma SameSeparatorEnd(s: string, k2: nat, w: nat, c: nat)
    requires k2 <= |s| && SeparatorEnd(s, k2) == Some(k2 + 3) && NoKeywordAt(s, k2 + 3)
    requires w == k2 && SeparatorEnd(s, w) == Some(c)
    ensures NoKeywordAt(s, c)
  {
    assert c == k2 + 3;
  }

  /** Of two separators among those at `k1 < k2` only, the later one is at `k2`. */
  lemma LaterSeparatorIsSecond(s: string, k1: nat, k2: nat, k: nat, w: nat)
    requires SeparatorsOnly(s, k1, k2) && k1 < k2
    requires k < w <= |s| && SeparatorEnd(s, k).Some? && SeparatorEnd(s, w).Some?
    ensures w == k2
  {
  }

  /** Where a two-level pattern's tail matches from `k`, a keyword follows a second separator at `w`. */
  lemma TwoLevelParts(p: SubPattern, s: string, k: nat) returns (w: nat, c: nat)
    requires p == WordKeywordBracket || p == WordKeyword
    requires k <= |s|
    ensures TailMatches(p, s, k) ==> SeparatorEnd(s, k).Some? && k < w <= |s| && SeparatorEnd(s, w) == Some(c)
    ensures TailMatches(p, s, k) ==> !NoKeywordAt(s, c)
  {
    if TailMatches(p, s, k) {
      var b := SeparatorEnd(s, k).value;
      w := WordEnd(s, b);
      c := SeparatorEnd(s, w).value;
      NoGroupKeywordAt(s, c, p == WordKeywordBracket);
    } else {
      w, c := 0, 0;
    }
  }

  /** Where no keyword starts, no keyword of the two-level patterns does either. */
  lemma NoGroupKeywordAt(s: string, c: nat, bracket: bool)
    requires c <= |s|
    ensures NoKeywordAt(s, c) ==> !KeywordAt(s, c, GroupKeywords, bracket)
  {
    GroupKeywordsAmongAll();
    if KeywordAt(s, c, GroupKeywords, bracket) {
      var n :| 0 <= n < |GroupKeywords| && KeywordThen(s, c, GroupKeywords[n], bracket);
      var m := if n < 4 then n else 9;
      assert WordAtCI(s, c, AllKeywords[m]);
    }
  }

  /** Every subcategory pattern but the last needs a second separator after the one that ends group 1. */
  lemma SecondSeparator(p: SubPattern, s: string, k: nat) returns (k2: nat)
    requires k <= |s| && p != Keyword && TailMatches(p, s, k)
    ensures k < k2 <= |s| && SeparatorEnd(s, k2).Some?
  {
    var b := SeparatorEnd(s, k).value;
    if p == KeywordBracket {
      k2 := SeparatorAfterKeyword(s, b, AllKeywords);
    } else {
      k2 := WordEnd(s, b);
      assert k2 > b;
      assert SeparatorEnd(s, k2).Some?;
    }
  }

  /** A keyword that a bracketed tag must follow is followed by a separator. */
  lemma SeparatorAfterKeyword(s: string, i: nat, keywords: seq<string>) returns (j: nat)
    requires i <= |s| && KeywordAt(s, i, keywords, true)
    ensures i <= j <= |s| && SeparatorEnd(s, j).Some?
  {
    var n :| 0 <= n < |keywords| && KeywordThen(s, i, keywords[n], true);
    j := KeywordThenSeparator(s, i, keywords[n]);
  }

  /** A keyword that a bracketed tag must follow ends where a separator starts. */
  lemma KeywordThenSeparator(s: string, i: nat, kw: string) returns (j: nat)
    requires i <= |s| && KeywordThen(s, i, kw, true)
    ensures j == i + |kw| && j <= |s| && SeparatorEnd(s, j).Some?
  {
    j := i + |kw|;
  }

  /** The patterns that need two separators fail on a name with one. */
  lemma OneSeparatorLeavesLastPattern(s: string, k: nat)
    requires forall j: nat :: j <= |s| && SeparatorEnd(s, j).Some? ==> j == k
    ensures forall i :: 0 <= i < 3 ==> SubcategoryGroupEnd(SubcategoryPatterns[i], s).None?
  {
    forall i, j | 0 <= i < 3 && GroupCandidate(s, j)
      ensures !TailMatches(SubcategoryPatterns[i], s, j)
    {
      if TailMatches(SubcategoryPatterns[i], s, j) {
        var j2 := SecondSeparator(SubcategoryPatterns[i], s, j);
      }
    }
  }

  /** Group 1 ends at the first separator when the rest of the pattern matches there. */
  lemma GroupEndAtFirstSeparator(p: SubPattern, s: string, k: nat)
    requires forall j: nat :: j <= |s| && SeparatorEnd(s, j).Some? ==> k <= j
    requires 1 <= k <= |s| && NoLineFeed(s) && TailMatches(p, s, k)
    ensures SubcategoryGroupEnd(p, s) == Some(k)
  {
    assert GroupCandidate(s, k);
    var e := GroupEndAtMost(p, s, k);
    TailStartsWithSeparator(p, s, e);
  }

  /** Where the rest of the pattern matches after a candidate group end `k`, the lazy group ends at `k` or before. */
  lemma GroupEndAtMost(p: SubPattern, s: string, k: nat) returns (e: nat)
    requires GroupCandidate(s, k) && TailMatches(p, s, k)
    ensures SubcategoryGroupEnd(p, s) == Some(e) && e <= k
    ensures e <= |s| && TailMatches(p, s, e)
  {
    e := SubcategoryGroupEnd(p, s).value;
  }

  /** The part of a pattern after group 1 starts with a separator. */
  lemma TailStartsWithSeparator(p: SubPattern, s: string, k: nat)
    requires k <= |s| && TailMatches(p, s, k)
    ensures SeparatorEnd(s, k).Some?
  {
  }

  /** When pattern `i` is the first to match, the name consolidates to its stripped group 1. */
  lemma ConsolidatedBy(s: string, i: nat, k: nat)
    requires i < |SubcategoryPatterns|
    requires forall n :: 0 <= n < i ==> SubcategoryGroupEnd(SubcategoryPatterns[n], s).None?
    requires SubcategoryGroupEnd(SubcategoryPatterns[i], s) == Some(k)
    ensures ConsolidateSubcategory(s) == Some(Strip(s[..k]))
  {
    assert FirstSubcategoryMatch(s, 0) == Some((i, k));
  }

  /** The format patterns all need a '-', '[' or '(' in the name. */
  lemma NoFormatMarks(s: string)
    requires forall i :: 0 <= i < |s| ==> s[i] != '-' && s[i] != '[' && s[i] != '('
    ensures StripFormatIndicators(s) == (s, false)
  {
    forall pat | pat in FormatPatterns
      ensures SubAll(pat, s) == s
    {
      SubAllFromUnchanged(pat, s, 0);
    }
    assert FormatInput(1, s, 0) == s;
    assert FormatInput(2, s, 0) == s;
    assert !FormatChanges(0, s, 0) && !FormatChanges(1, s, 0) && !FormatChanges(2, s, 0);
  }

  /** A name with no '[' is not touched by the two bracket patterns. */
  lemma NoBracketNoMatch(s: string)
    requires forall i :: 0 <= i < |s| ==> s[i] != '['
    ensures SubAll(DashBracket, s) == s && SubAll(Bracket, s) == s
  {
    SubAllFromUnchanged(DashBracket, s, 0);
    SubAllFromUnchanged(Bracket, s, 0);
  }

  /** The whitespace run from `q` stops at the first non-space character. */
  lemma WsEndAtMost(s: string, q: nat, j: nat)
    requires q <= j < |s| && !IsSpace(s[j])
    ensures WsEnd(s, q) <= j
  {
  }

  /** No match of `pat` starts in `s[p..q]`. */
  predicate NoMatchBetween(pat: FormatPattern, s: string, p: nat, q: nat)
    requires q <= |s|
  {
    forall j :: p <= j < q ==> FormatMatchAt(pat, s, j).None?
  }

  /** Where no match starts, the substitution keeps the character and moves on. */
  lemma SubAllFromKeeps(pat: FormatPattern, s: string, p: nat)
    requires p < |s| && FormatMatchAt(pat, s, p).None?
    ensures SubAllFrom(pat, s, p) == [s[p]] + SubAllFrom(pat, s, p + 1)
  {
  }

  /** A match from `p` to `e` is dropped, and the substitution resumes at `e`. */
  lemma SubAllFromDrops(pat: FormatPattern, s: string, p: nat, e: nat)
    requires p < |s| && FormatMatchAt(pat, s, p) == Some(e)
    ensures SubAllFrom(pat, s, p) == SubAllFrom(pat, s, e)
  {
  }

  /** The substitution keeps what comes before the first match and drops a match that runs to the end. */
  lemma {:induction false} SubAllFromFirstMatch(pat: FormatPattern, s: string, p: nat, q: nat)
    requires p <= q < |s| && FormatMatchAt(pat, s, q) == Some(|s|)
    requires NoMatchBetween(pat, s, p, q)
    ensures SubAllFrom(pat, s, p) == s[p..q]
    decreases q - p
  {
    if p < q {
      assert FormatMatchAt(pat, s, p).None?;
      SubAllFromFirstMatch(pat, s, p + 1, q);
      SubAllFromPrepend(pat, s, p, q);
    } else {
      SubAllFromDrops(pat, s, q, |s|);
    }
  }

  /** Where no match starts at `p`, the substitution from `p` keeps `s[p]` in front of what it makes from `p + 1`. */
  lemma SubAllFromPrepend(pat: FormatPattern, s: string, p: nat, q: nat)
    requires p < q <= |s| && FormatMatchAt(pat, s, p).None?
    requires SubAllFrom(pat, s, p + 1) == s[p + 1..q]
    ensures SubAllFrom(pat, s, p) == s[p..q]
  {
    SubAllFromKeeps(pat, s, p);
    assert s[p..q] == [s[p]] + s[p + 1..q];
  }

  /** A closing parenthesis that only whitespace follows, with no line feed before it, ends the lazy group. */
  lemma {:induction false} ParenToEndFinds(s: string, j: nat, m: nat, e: nat)
    requires j + 2 <= m <= e < |s| && NoLineFeed(s[j + 1..e])
    requires s[e] == ')' && WsEnd(s, e + 1) == |s|
    ensures NoLineFeed(s[j + 1..m - 1]) && ParenToEnd(s, j, m).Some?
    decreases e - m
  {
    assert s[j + 1..m - 1] == s[j + 1..e][..m - 1 - (j + 1)];
    assert s[m - 1] == s[j + 1..e][m - 1 - (j + 1)];
    if m < e && !(s[m] == ')' && WsEnd(s, m + 1) == |s|) {
      ParenToEndFinds(s, j, m + 1, e);
    }
  }

  /** In `y (z)`, the trailing-parenthesis pattern matches at the space after `y` and runs to the end. */
  lemma TrailingParenAt(y: string, z: string, s: string, q: nat)
    requires 1 <= |z| && NoLineFeed(z)
    requires s == y + " (" + z + ")" && q == |y|
    ensures FormatMatchAt(TrailingParen, s, q) == Some(|s|)
  {
    assert s[q] == ' ' && s[q + 1] == '(' && s[|s| - 1] == ')';
    assert WsEnd(s, q) == q + 1;
    assert s[q + 2..|s| - 1] == z;
    ParenToEndFinds(s, q + 1, q + 3, |s| - 1);
  }

  /** In `y (z)`, with no '(' in `y` and no whitespace at its end, no match starts inside `y`. */
  lemma NoTrailingParenIn(y: string, z: string, s: string, q: nat)
    requires 1 <= |y| && !IsSpace(y[|y| - 1])
    requires forall i :: 0 <= i < |y| ==> y[i] != '('
    requires s == y + " (" + z + ")" && q == |y|
    ensures NoMatchBetween(TrailingParen, s, 0, q)
  {
    forall j | 0 <= j < q
      ensures FormatMatchAt(TrailingParen, s, j).None?
    {
      assert s[q - 1] == y[q - 1];
      WsEndAtMost(s, j, q - 1);
      assert s[WsEnd(s, j)] == y[WsEnd(s, j)];
    }
  }

  /** The trailing-parenthesis pattern first matches `y (z)` at the space after `y`, and runs to the end. */
  lemma TrailingTagSub(y: string, z: string)
    requires 1 <= |y| && !IsSpace(y[|y| - 1])
    requires forall i :: 0 <= i < |y| ==> y[i] != '('
    requires 1 <= |z| && NoLineFeed(z)
    ensures SubAll(TrailingParen, y + " (" + z + ")") == y
  {
    var s := y + " (" + z + ")";
    TrailingParenAt(y, z, s, |y|);
    NoTrailingParenIn(y, z, s, |y|);
    SubAllFromFirstMatch(TrailingParen, s, 0, |y|);
    assert s[0..|y|] == y;
  }

  /**
   * `y (z)`, where `y` has no bracket, no parenthesis and no surrounding
   * whitespace, loses its trailing parenthesised tag and nothing else.
   */
  lemma TrailingTagStripped(y: string, z: string)
    requires 1 <= |y| && !IsSpace(y[0]) && !IsSpace(y[|y| - 1])
    requires forall i :: 0 <= i < |y| ==> y[i] != '(' && y[i] != '['
    requires 1 <= |z| && NoLineFeed(z)
    requires forall i :: 0 <= i < |z| ==> z[i] != '['
    ensures StripFormatIndicators(y + " (" + z + ")") == (y, true)
  {
    var s := y + " (" + z + ")";
    assert forall i :: 0 <= i < |s| ==> s[i] != '[' by {
      forall i | 0 <= i < |s| ensures s[i] != '[' {
        if i < |y| { assert s[i] == y[i]; }
        else if |y| + 2 <= i < |s| - 1 { assert s[i] == z[i - |y| - 2]; }
      }
    }
    NoBracketNoMatch(s);
    TrailingTagSub(y, z);
    StripUnchanged(y);
    assert ApplyFormatPatterns(s, 0, false) == ApplyFormatPatterns(s, 1, false);
    assert ApplyFormatPatterns(s, 1, false) == ApplyFormatPatterns(s, 2, false);
    assert ApplyFormatPatterns(s, 2, false) == ApplyFormatPatterns(y, 3, true);
  }

  /** The processed name, step by step: consolidation, then format stripping, then the publisher rewrite. */
  lemma ProcessedNameIs(name: string, afterSub: string, afterFormat: string, out: string)
    requires afterSub == match ConsolidateSubcategory(name) case Some(base) => base case None => name
    requires StripFormatIndicators(afterSub).0 == afterFormat
    requires NormalizePublisher(afterFormat).0 == out
    ensures ProcessedName(name) == out
  {
    ChainComposition(name);
  }

  /** `a + b` has no line feed when neither part has one. */
  lemma NoLineFeedAppend(a: string, b: string)
    requires NoLineFeed(a) && NoLineFeed(b)
    ensures NoLineFeed(a + b)
  {
    forall i | 0 <= i < |a + b| ensures IsDot((a + b)[i]) {
      if i >= |a| { assert (a + b)[i] == b[i - |a|]; }
    }
  }

  /** After one separator, a keyword followed by text without line feeds satisfies the last pattern. */
  lemma KeywordTail(x: string, kw: string, t: string)
    requires 1 <= |kw| && !IsSpace(kw[0]) && kw in AllKeywords && NoLineFeed(t)
    ensures TailMatches(Keyword, x + " - " + kw + t, |x|)
  {
    var s := x + " - " + kw + t;
    var k := |x|;
    assert s[k] == ' ' && s[k + 1] == '-' && s[k + 2] == ' ' && s[k + 3] == kw[0];
    PlainSeparator(s, k);
    assert s[k + 3..k + 3 + |kw|] == kw;
    var n :| 0 <= n < |AllKeywords| && AllKeywords[n] == kw;
    var e := WsEnd(s, k + 3 + |kw|);
    assert RestOfLine(s[e..]) by {
      forall i | 0 <= i < |s[e..]| - 1 ensures IsDot(s[e..][i]) {
        assert s[e..][i] == t[e + i - k - 3 - |kw|];
      }
    }
    assert KeywordThen(s, k + 3, AllKeywords[n], false);
  }

  /** The only separator in `s` starts at `k`. */
  predicate SeparatorOnlyAt(s: string, k: nat) {
    forall j: nat :: j <= |s| && SeparatorEnd(s, j).Some? ==> j == k
  }

  /**
   * A name with one separator, after which the last pattern matches,
   * consolidates to what comes before the separator.
   */
  lemma OneSeparatorConsolidates(s: string, k: nat)
    requires SeparatorOnlyAt(s, k)
    requires 1 <= k <= |s| && NoLineFeed(s) && TailMatches(Keyword, s, k)
    ensures ConsolidateSubcategory(s) == Some(Strip(s[..k]))
  {
    OneSeparatorLeavesLastPattern(s, k);
    GroupEndAtFirstSeparator(Keyword, s, k);
    ConsolidatedBy(s, 3, k);
  }

  /** `x - rest`, with no dash in `x` or `rest`, has its only separator right after `x`. */
  lemma OnlySeparatorAfter(x: string, rest: string, s: string)
    requires 1 <= |x| && !IsSpace(x[|x| - 1])
    requires forall i :: 0 <= i < |x| ==> x[i] != '-'
    requires forall i :: 0 <= i < |rest| ==> rest[i] != '-'
    requires s == x + " - " + rest
    ensures SeparatorOnlyAt(s, |x|)
  {
    NoDashNoSpacedDash(rest);
    SpacedDashesJoin(x, rest, {});
    SeparatorsOnlyAt(s, {|x| + 1});
  }

  /** Two texts without a dash make one without a dash. */
  lemma NoDashAppend(a: string, b: string)
    requires forall i :: 0 <= i < |a| ==> a[i] != '-'
    requires forall i :: 0 <= i < |b| ==> b[i] != '-'
    ensures forall i :: 0 <= i < |a + b| ==> (a + b)[i] != '-'
  {
    forall i | 0 <= i < |a + b| ensures (a + b)[i] != '-' {
      if i >= |a| { assert (a + b)[i] == b[i - |a|]; }
    }
  }

  /** `x - rest` has no line feed when neither part has one. */
  lemma NoLineFeedAfterSeparator(x: string, rest: string, s: string)
    requires NoLineFeed(x) && NoLineFeed(rest) && s == x + " - " + rest
    ensures NoLineFeed(s)
  {
    NoLineFeedAppend(x, " - ");
    NoLineFeedAppend(x + " - ", rest);
  }

  /**
   * `name - Keyword rest`, with no other dash and no line feed, consolidates
   * to `name`: the patterns that need a second separator fail, and the last
   * one ends group 1 at the only separator.
   */
  lemma KeywordAfterOneSeparator(x: string, kw: string, t: string)
    requires 1 <= |x| && !IsSpace(x[|x| - 1]) && NoLineFeed(x) && NoLineFeed(t)
    requires kw in AllKeywords
    requires forall i :: 0 <= i < |x| ==> x[i] != '-'
    requires forall i :: 0 <= i < |t| ==> t[i] != '-'
    ensures ConsolidateSubcategory(x + " - " + kw + t) == Some(Strip(x))
  {
    var s := x + " - " + kw + t;
    KeywordNameShape(x, kw, t, s);
    KeywordsPlain(kw);
    KeywordTail(x, kw, t);
    OneSeparatorConsolidates(s, |x|);
    assert s[..|x|] == x;
  }

  /** `name - Keyword rest` has its only separator after `name` and no line feed. */
  lemma KeywordNameShape(x: string, kw: string, t: string, s: string)
    requires 1 <= |x| && !IsSpace(x[|x| - 1]) && NoLineFeed(x) && NoLineFeed(t)
    requires kw in AllKeywords
    requires forall i :: 0 <= i < |x| ==> x[i] != '-'
    requires forall i :: 0 <= i < |t| ==> t[i] != '-'
    requires s == x + " - " + kw + t
    ensures SeparatorOnlyAt(s, |x|) && NoLineFeed(s)
  {
    KeywordsPlain(kw);
    var rest := kw + t;
    assert s == x + " - " + rest;
    NoDashAppend(kw, t);
    OnlySeparatorAfter(x, rest, s);
    NoLineFeedAppend(kw, t);
    NoLineFeedAfterSeparator(x, rest, s);
  }

  /**
   * `name - Keyword rest` comes out of the chain as `name` when `name` has
   * no surrounding whitespace, no '-', '[' or '(' and no "Microsoft" prefix.
   */
  lemma KeywordNameProcessed(x: string, kw: string, t: string)
    requires 1 <= |x| && !IsSpace(x[0]) && !IsSpace(x[|x| - 1]) && NoLineFeed(x) && NoLineFeed(t)
    requires kw in AllKeywords && !StartsWithCI(x, "Microsoft")
    requires forall i :: 0 <= i < |x| ==> x[i] != '-' && x[i] != '[' && x[i] != '('
    requires forall i :: 0 <= i < |t| ==> t[i] != '-'
    ensures ProcessedName(x + " - " + kw + t) == x
  {
    KeywordAfterOneSeparator(x, kw, t);
    StripUnchanged(x);
    NoFormatMarks(x);
    PublisherOnlyMicrosoft(x);
    ProcessedNameIs(x + " - " + kw + t, x, x, x);
  }

  /** "Atari 2600 & VCS - Games (Retool)" becomes "Atari 2600 & VCS": the last subcategory pattern. */
  lemma KeywordExample()
    ensures ProcessedName("Atari 2600 & VCS" + " - " + "Games" + " (Retool)") == "Atari 2600 & VCS"
  {
    KeywordNameProcessed("Atari 2600 & VCS", "Games", " (Retool)");
  }

  /** The pieces of `[tag]rest`. */
  lemma BracketParts(tag: string, t: string)
    ensures ("[" + tag + "]" + t)[0] == '[' && ("[" + tag + "]" + t)[1 + |tag|] == ']'
    ensures ("[" + tag + "]" + t)[1..1 + |tag|] == tag && ("[" + tag + "]" + t)[2 + |tag|..] == t
  {
  }

  /** A bracketed tag, then text without line feeds: what the third pattern wants after its second separator. */
  lemma BracketTailAt(s: string, c: nat, tag: string, t: string)
    requires 1 <= |tag| && NoLineFeed(tag) && NoLineFeed(t)
    requires c + 2 + |tag| + |t| == |s| && s[c..] == "[" + tag + "]" + t
    ensures BracketTail(s, c)
  {
    var m := c + 1 + |tag|;
    BracketParts(tag, t);
    assert s[c] == '[' by { assert s[c..][0] == s[c]; }
    assert s[m] == ']' by { assert s[c..][1 + |tag|] == s[m]; }
    assert NoLineFeed(s[c + 1..m]) by { assert s[c + 1..m] == s[c..][1..1 + |tag|]; }
    assert ClosesAt(s, c, m, ']');
    var e := WsEnd(s, m + 1);
    assert s[m + 1..] == t by { assert s[c..][2 + |tag|..] == s[m + 1..]; }
    assert RestOfLine(s[e..]) by {
      forall i | 0 <= i < |s[e..]| - 1 ensures IsDot(s[e..][i]) {
        assert s[e..][i] == s[m + 1..][e + i - m - 1];
      }
    }
    assert AnyTail(s, m + 1);
  }

  /** `x - kw - r` has a three-character separator right after `x`. */
  lemma FirstSeparatorOf(x: string, kw: string, r: string, s: string, k1: nat)
    requires 1 <= |kw| && !IsSpace(kw[0])
    requires s == x + " - " + kw + " - " + r && k1 == |x|
    ensures SeparatorEnd(s, k1) == Some(k1 + 3)
  {
    assert s == x + " - " + (kw + " - " + r);
    PlainSeparatorAfter(x, kw + " - " + r, k1);
  }

  /** `x - kw - r` holds `kw` right after its first separator. */
  lemma KeywordAfterFirstSeparator(x: string, kw: string, r: string, s: string, k1: nat)
    requires s == x + " - " + kw + " - " + r && k1 == |x|
    ensures WordAtCI(s, k1 + 3, kw)
  {
    assert s[k1 + 3..k1 + 3 + |kw|] == kw;
  }

  /** In `x - kw - [tag] rest`, what follows `kw` is what the bracket form of the pattern wants. */
  lemma BracketAfterKeyword(x: string, kw: string, tag: string, t: string, s: string, k2: nat)
    requires 1 <= |tag| && NoLineFeed(tag) && NoLineFeed(t)
    requires s == x + " - " + kw + " - " + ("[" + tag + "]" + t) && k2 == |x| + 3 + |kw|
    ensures AfterKeyword(s, k2, true)
  {
    var r := "[" + tag + "]" + t;
    PlainSeparatorAfter(x + " - " + kw, r, k2);
    assert s[k2 + 3..] == r;
    BracketTailAt(s, k2 + 3, tag, t);
  }

  /** In `x - kw - [tag] rest`, `kw` follows the first separator with what the bracket form wants after it. */
  lemma KeywordBracketAt(x: string, kw: string, tag: string, t: string, s: string, k1: nat)
    requires 1 <= |tag| && NoLineFeed(tag) && NoLineFeed(t)
    requires s == x + " - " + kw + " - " + ("[" + tag + "]" + t) && k1 == |x|
    ensures KeywordThen(s, k1 + 3, kw, true)
  {
    KeywordAfterFirstSeparator(x, kw, "[" + tag + "]" + t, s, k1);
    BracketAfterKeyword(x, kw, tag, t, s, k1 + 3 + |kw|);
  }

  /** After one separator, `Keyword - [tag] rest` is the keyword the third pattern wants, with what must follow it. */
  lemma KeywordBracketThen(x: string, kw: string, tag: string, t: string, s: string, k: nat)
    requires 1 <= |kw| && !IsSpace(kw[0]) && 1 <= |tag| && NoLineFeed(tag) && NoLineFeed(t)
    requires s == x + " - " + kw + " - " + ("[" + tag + "]" + t) && k == |x|
    ensures k + 3 <= |s| && SeparatorEnd(s, k) == Some(k + 3) && KeywordThen(s, k + 3, kw, true)
  {
    var r := "[" + tag + "]" + t;
    FirstSeparatorOf(x, kw, r, s, k);
    KeywordBracketAt(x, kw, tag, t, s, k);
  }

  /** Separators occur in `s` at `k1` and `k2` and nowhere else. */
  predicate SeparatorsOnly(s: string, k1: nat, k2: nat)
  {
    forall j: nat :: j <= |s| && SeparatorEnd(s, j).Some? ==> j == k1 || j == k2
  }

  /** What comes before index `n` of `a + b`, when `n` falls inside `a`. */
  lemma PrefixOfAppend(a: string, b: string, n: nat)
    requires n <= |a|
    ensures (a + b)[..n] == a[..n]
  {
  }

  /**
   * With separators at `k1` and `k2` only, no keyword after the second, and
   * the third pattern matching at the first, the name consolidates to what
   * comes before the first separator.
   */
  lemma ThirdPatternConsolidates(s: string, k1: nat, k2: nat)
    requires SeparatorsOnly(s, k1, k2)
    requires 1 <= k1 < k2 <= |s|
    requires SeparatorEnd(s, k2) == Some(k2 + 3)
    requires NoKeywordAt(s, k2 + 3)
    requires NoLineFeed(s)
    requires TailMatches(KeywordBracket, s, k1)
    ensures ConsolidateSubcategory(s) == Some(Strip(s[..k1]))
  {
    TwoLevelFails(s, k1, k2);
    GroupEndAtFirstSeparator(KeywordBracket, s, k1);
    ConsolidatedBy(s, 2, k1);
  }

  /**
   * In `name - Keyword - [rest`, with no '-' in `name` or `rest`, the
   * separators are the two written ones and no keyword follows the second.
   */
  lemma KeywordBracketSeparators(x: string, kw: string, r: string, s: string, k1: nat, k2: nat)
    requires 1 <= |x| && !IsSpace(x[|x| - 1])
    requires forall i :: 0 <= i < |x| ==> x[i] != '-'
    requires kw in AllKeywords
    requires 2 <= |r| && r[0] == '['
    requires forall i :: 0 <= i < |r| ==> r[i] != '-'
    requires s == x + " - " + kw + " - " + r && k1 == |x| && k2 == |x| + 3 + |kw|
    ensures k2 + 3 <= |s| && SeparatorsOnly(s, k1, k2)
    ensures SeparatorEnd(s, k2) == Some(k2 + 3) && NoKeywordAt(s, k2 + 3)
  {
    NoDashNoSpacedDash(r);
    KeywordsPlain(kw);
    TwoSeparators(x, kw, r, s);
    NoKeywordStart(r);
    SeparatorBeforeNoKeyword(x + " - " + kw, r, k2);
  }

  /** A bracketed tag and what follows it, with no dash or line feed in either. */
  lemma BracketedPlain(tag: string, t: string, r: string)
    requires 1 <= |tag| && NoLineFeed(tag) && NoLineFeed(t)
    requires forall i :: 0 <= i < |tag| ==> tag[i] != '-'
    requires forall i :: 0 <= i < |t| ==> t[i] != '-'
    requires r == "[" + tag + "]" + t
    ensures 2 <= |r| && r[0] == '[' && NoLineFeed(r)
    ensures forall i :: 0 <= i < |r| ==> r[i] != '-'
  {
    NoLineFeedAppend("[", tag);
    NoLineFeedAppend("[" + tag, "]");
    NoLineFeedAppend("[" + tag + "]", t);
    forall i | 0 <= i < |r| ensures r[i] != '-' {
      if 1 <= i < 1 + |tag| { assert r[i] == tag[i - 1]; }
      else if 2 + |tag| <= i { assert r[i] == t[i - 2 - |tag|]; }
    }
  }

  /** Joining three line-feed-free parts with " - " makes no line feed. */
  lemma NoLineFeedSeparated(x: string, y: string, z: string, s: string)
    requires NoLineFeed(x) && NoLineFeed(y) && NoLineFeed(z)
    requires s == x + " - " + y + " - " + z
    ensures NoLineFeed(s)
  {
    var d := " - ";
    assert NoLineFeed(d) by {
      forall i | 0 <= i < |d| ensures IsDot(d[i]) { }
    }
    NoLineFeedAppend(x, d);
    NoLineFeedAppend(x + d, y);
    NoLineFeedAppend(x + d + y, d);
    NoLineFeedAppend(x + d + y + d, z);
  }

  /** One of `keywords` found at `i`, through its index `n`. */
  lemma KeywordAtIndex(s: string, i: nat, keywords: seq<string>, bracket: bool, n: nat)
    requires i <= |s| && n < |keywords| && KeywordThen(s, i, keywords[n], bracket)
    ensures KeywordAt(s, i, keywords, bracket)
  {
  }

  /** The third pattern matches `name - Keyword - [tag] rest` after `name`. */
  lemma KeywordBracketTail(x: string, kw: string, tag: string, t: string, s: string, k1: nat)
    requires 1 <= |x| && !IsSpace(x[|x| - 1])
    requires kw in AllKeywords
    requires 1 <= |tag| && NoLineFeed(tag) && NoLineFeed(t)
    requires s == x + " - " + kw + " - " + ("[" + tag + "]" + t) && k1 == |x|
    ensures k1 <= |s| && TailMatches(KeywordBracket, s, k1)
  {
    KeywordsPlain(kw);
    KeywordBracketThen(x, kw, tag, t, s, k1);
    var n := KeywordIndex(kw);
    var b := k1 + 3;
    KeywordAtIndex(s, b, AllKeywords, true, n);
    KeywordBracketMatches(s, k1, b);
  }

  /** Where a keyword of the list is, its index. */
  lemma KeywordIndex(kw: string) returns (n: nat)
    requires kw in AllKeywords
    ensures n < |AllKeywords| && AllKeywords[n] == kw
  {
    n :| n < |AllKeywords| && AllKeywords[n] == kw;
  }

  /** The third pattern's tail matches from `k` when a separator there ends where a keyword and a bracketed tag follow. */
  lemma KeywordBracketMatches(s: string, k: nat, b: nat)
    requires k <= |s| && SeparatorEnd(s, k) == Some(b) && KeywordAt(s, b, AllKeywords, true)
    ensures TailMatches(KeywordBracket, s, k)
  {
  }

  /**
   * What the third pattern needs of `name - Keyword - [tag] rest`:
   * separators at the two written places only, no keyword after the
   * second, a match of the third pattern at the first, no line feed.
   */
  lemma KeywordBracketFacts(x: string, kw: string, tag: string, t: string, s: string, k1: nat, k2: nat)
    requires 1 <= |x| && !IsSpace(x[|x| - 1]) && NoLineFeed(x)
    requires forall i :: 0 <= i < |x| ==> x[i] != '-'
    requires kw in AllKeywords
    requires 1 <= |tag| && NoLineFeed(tag) && NoLineFeed(t)
    requires forall i :: 0 <= i < |tag| ==> tag[i] != '-'
    requires forall i :: 0 <= i < |t| ==> t[i] != '-'
    requires s == x + " - " + kw + " - " + ("[" + tag + "]" + t) && k1 == |x| && k2 == |x| + 3 + |kw|
    ensures 1 <= k1 < k2 <= |s|
    ensures SeparatorsOnly(s, k1, k2)
    ensures SeparatorEnd(s, k2) == Some(k2 + 3) && NoKeywordAt(s, k2 + 3)
    ensures NoLineFeed(s) && TailMatches(KeywordBracket, s, k1)
  {
    var r := "[" + tag + "]" + t;
    KeywordsPlain(kw);
    BracketedPlain(tag, t, r);
    KeywordBracketSeparators(x, kw, r, s, k1, k2);
    KeywordBracketTail(x, kw, tag, t, s, k1);
    NoLineFeedSeparated(x, kw, r, s);
  }

  /**
   * `name - Keyword - [tag] rest` consolidates to `name`: the two-level
   * patterns find no keyword after the second separator, and the third
   * pattern ends group 1 at the first one.
   */
  lemma KeywordBracketConsolidates(x: string, kw: string, tag: string, t: string)
    requires 1 <= |x| && !IsSpace(x[|x| - 1]) && NoLineFeed(x)
    requires forall i :: 0 <= i < |x| ==> x[i] != '-'
    requires kw in AllKeywords
    requires 1 <= |tag| && NoLineFeed(tag) && NoLineFeed(t)
    requires forall i :: 0 <= i < |tag| ==> tag[i] != '-'
    requires forall i :: 0 <= i < |t| ==> t[i] != '-'
    ensures ConsolidateSubcategory(x + " - " + kw + " - " + ("[" + tag + "]" + t)) == Some(Strip(x))
  {
    var r := "[" + tag + "]" + t;
    var s := x + " - " + kw + " - " + r;
    var k1, k2 := |x|, |x| + 3 + |kw|;
    assert s[..k1] == x by {
      PrefixOfAppend(x + " - " + kw + " - ", r, k1);
      PrefixOfAppend(x + " - " + kw, " - ", k1);
      PrefixOfAppend(x + " - ", kw, k1);
      PrefixOfAppend(x, " - ", k1);
      assert x[..k1] == x;
    }
    KeywordBracketFacts(x, kw, tag, t, s, k1, k2);
    ThirdPatternConsolidates(s, k1, k2);
  }

  /**
   * `name - Keyword - [tag] rest` comes out of the chain as `name` when
   * `name` has no surrounding whitespace, no '-', '[' or '(' and no
   * "Microsoft" prefix.
   */
  lemma KeywordBracketNameProcessed(x: string, kw: string, tag: string, t: string)
    requires 1 <= |x| && !IsSpace(x[0]) && !IsSpace(x[|x| - 1]) && NoLineFeed(x)
    requires kw in AllKeywords && !StartsWithCI(x, "Microsoft")
    requires forall i :: 0 <= i < |x| ==> x[i] != '-' && x[i] != '[' && x[i] != '('
    requires 1 <= |tag| && NoLineFeed(tag) && NoLineFeed(t)
    requires forall i :: 0 <= i < |tag| ==> tag[i] != '-'
    requires forall i :: 0 <= i < |t| ==> t[i] != '-'
    ensures ProcessedName(x + " - " + kw + " - " + ("[" + tag + "]" + t)) == x
  {
    KeywordBracketConsolidates(x, kw, tag, t);
    StripUnchanged(x);
    NoFormatMarks(x);
    PublisherOnlyMicrosoft(x);
    ProcessedNameIs(x + " - " + kw + " - " + ("[" + tag + "]" + t), x, x, x);
  }

  /** "Atari 8bit - Games - [BIN] (Retool)" becomes "Atari 8bit": the third subcategory pattern. */
  lemma KeywordBracketExample()
    ensures ProcessedName("Atari 8bit" + " - " + "Games" + " - " + ("[" + "BIN" + "]" + " (Retool)")) == "Atari 8bit"
  {
    KeywordBracketNameProcessed("Atari 8bit", "Games", "BIN", " (Retool)");
  }

  /** `name - rest`, where `rest` holds no spaced dash, has its only separator right after `name`. */
  lemma OneSeparatorShape(x: string, t: string, s: string)
    requires 1 <= |x| && !IsSpace(x[|x| - 1])
    requires forall i :: 0 <= i < |x| ==> x[i] != '-'
    requires |t| >= 1 && t[0] != '-'
    requires forall d: nat :: !SpacedDash(t, d)
    requires s == x + " - " + t
    ensures SeparatorsOnly(s, |x|, |x|)
  {
    SpacedDashesJoin(x, t, {});
    SeparatorsOnlyAt(s, {|x| + 1});
  }

  /** `name - rest`, with one separator and no keyword after it, passes the subcategory step unchanged. */
  lemma NoSubcategoryOneSeparator(x: string, t: string)
    requires 1 <= |x| && !IsSpace(x[|x| - 1])
    requires forall i :: 0 <= i < |x| ==> x[i] != '-'
    requires |t| >= 1 && t[0] != '-' && !IsSpace(t[0]) && NoKeywordAt(t, 0)
    requires forall d: nat :: !SpacedDash(t, d)
    ensures ConsolidateSubcategory(x + " - " + t).None?
  {
    var s := x + " - " + t;
    OneSeparatorShape(x, t, s);
    SeparatorBeforeNoKeyword(x, t, |x|);
    KeywordlessSeparators(s, |x|, |x|);
  }

  /**
   * `name - middle - rest`, where neither `name` nor `middle` holds a dash
   * and `rest` holds no spaced dash, has separators at two places only.
   */
  lemma TwoSeparators(x: string, mid: string, t: string, s: string)
    requires 1 <= |x| && !IsSpace(x[|x| - 1])
    requires forall i :: 0 <= i < |x| ==> x[i] != '-'
    requires 1 <= |mid| && !IsSpace(mid[0]) && !IsSpace(mid[|mid| - 1])
    requires forall i :: 0 <= i < |mid| ==> mid[i] != '-'
    requires |t| >= 1 && t[0] != '-' && !IsSpace(t[0])
    requires forall d: nat :: !SpacedDash(t, d)
    requires s == x + " - " + mid + " - " + t
    ensures SeparatorsOnly(s, |x|, |x| + 3 + |mid|)
  {
    var u := mid + " - " + t;
    assert s == x + " - " + u;
    SpacedDashesJoin(mid, t, {});
    SpacedDashesJoin(x, u, {|mid| + 1});
    SeparatorsOnlyAt(s, {|x| + 1, |x| + 4 + |mid|});
  }

  /** `a - b`, where `b` starts with no keyword and no whitespace: a separator right after `a`, and no keyword after it. */
  lemma SeparatorBeforeNoKeyword(a: string, b: string, k: nat)
    requires k == |a| && |b| >= 1 && !IsSpace(b[0]) && NoKeywordAt(b, 0)
    ensures SeparatorEnd(a + " - " + b, k) == Some(k + 3) && NoKeywordAt(a + " - " + b, k + 3)
  {
    PlainSeparatorAfter(a, b, k);
    NoKeywordAfterPrefix(a + " - ", b, k + 3);
  }

  /** A name with separators at `k1` and `k2` only, neither followed by a keyword, passes the subcategory step unchanged. */
  lemma KeywordlessSeparators(s: string, k1: nat, k2: nat)
    requires SeparatorsOnly(s, k1, k2)
    requires k1 <= |s| && SeparatorEnd(s, k1) == Some(k1 + 3) && NoKeywordAt(s, k1 + 3)
    requires k2 <= |s| && SeparatorEnd(s, k2) == Some(k2 + 3) && NoKeywordAt(s, k2 + 3)
    ensures ConsolidateSubcategory(s).None?
  {
    forall j: nat | j <= |s| && SeparatorEnd(s, j).Some?
      ensures NoKeywordAt(s, SeparatorEnd(s, j).value)
    {
      if j == k1 {
        assert SeparatorEnd(s, j).value == k1 + 3;
      } else {
        assert SeparatorEnd(s, j).value == k2 + 3;
      }
    }
    NoKeywordAfterAnySeparator(s);
  }

  /** `name - middle - rest`, with no keyword after either separator, passes the subcategory step unchanged. */
  lemma NoSubcategoryTwoSeparators(x: string, mid: string, t: string)
    requires 1 <= |x| && !IsSpace(x[|x| - 1])
    requires forall i :: 0 <= i < |x| ==> x[i] != '-'
    requires 1 <= |mid| && !IsSpace(mid[0]) && !IsSpace(mid[|mid| - 1])
    requires forall i :: 0 <= i < |mid| ==> mid[i] != '-'
    requires |t| >= 1 && t[0] != '-' && !IsSpace(t[0])
    requires forall d: nat :: !SpacedDash(t, d)
    requires NoKeywordAt(mid + " - " + t, 0) && NoKeywordAt(t, 0)
    ensures ConsolidateSubcategory(x + " - " + mid + " - " + t).None?
  {
    var s := x + " - " + mid + " - " + t;
    TwoSeparators(x, mid, t, s);
    SeparatorBeforeNoKeyword(x + " - " + mid, t, |x| + 3 + |mid|);
    FirstSeparatorNoKeyword(x, mid, t, s);
    KeywordlessSeparators(s, |x|, |x| + 3 + |mid|);
  }

  /** In `name - middle - rest`, the first separator is plain and no keyword follows it. */
  lemma FirstSeparatorNoKeyword(x: string, mid: string, t: string, s: string)
    requires |mid| >= 1 && !IsSpace(mid[0]) && NoKeywordAt(mid + " - " + t, 0)
    requires s == x + " - " + mid + " - " + t
    ensures SeparatorEnd(s, |x|) == Some(|x| + 3) && NoKeywordAt(s, |x| + 3)
  {
    assert s == x + " - " + (mid + " - " + t);
    SeparatorBeforeNoKeyword(x, mid + " - " + t, |x|);
  }

  /** `a (z)` has a spaced dash only where `z` has one, when `a` has no dash. */
  lemma NoSpacedDashInTag(a: string, z: string)
    requires forall i :: 0 <= i < |a| ==> a[i] != '-'
    requires forall d: nat :: !SpacedDash(z, d)
    ensures forall d: nat :: !SpacedDash(a + " (" + z + ")", d)
  {
    var t := a + " (" + z + ")";
    assert forall i :: 0 <= i < |a| ==> t[i] == a[i];
    assert t[|a|] == ' ' && t[|a| + 1] == '(' && t[|t| - 1] == ')';
    assert forall i :: 0 <= i < |z| ==> t[|a| + 2 + i] == z[i];
    forall d: nat | |a| + 3 <= d < |t| - 1
      ensures !SpacedDash(t, d)
    {
      assert !SpacedDash(z, d - |a| - 2);
    }
  }

  /** `Microsoft - MSX…` becomes `MSX…` in the publisher step. */
  lemma MsxAfterMicrosoft(r: string)
    requires WordAtCI(r, 0, "MSX") && RestOfLine(r[3..])
    ensures NormalizePublisher("Microsoft" + " - " + r) == (r, true)
  {
    var y := "Microsoft" + " - " + r;
    assert y[0..9] == "Microsoft";
    PlainSeparatorAfter("Microsoft", r, 9);
    assert y[12..15] == r[0..3];
    assert y[15..] == r[3..];
    assert y[12..] == r;
  }

  /** Joining two names without '(' or '[' by a spaced dash adds neither. */
  lemma SeparatedNoMarks(a: string, b: string)
    requires forall i :: 0 <= i < |a| ==> a[i] != '(' && a[i] != '['
    requires forall i :: 0 <= i < |b| ==> b[i] != '(' && b[i] != '['
    ensures forall i :: 0 <= i < |a + " - " + b| ==> (a + " - " + b)[i] != '(' && (a + " - " + b)[i] != '['
  {
    var y := a + " - " + b;
    forall i | 0 <= i < |y| ensures y[i] != '(' && y[i] != '[' {
      if i < |a| {
        assert y[i] == a[i];
      } else if i >= |a| + 3 {
        assert y[i] == b[i - |a| - 3];
      }
    }
  }

  /** "Nintendo Game Boy - Applications (Retool)" becomes "Nintendo Game Boy". */
  lemma ApplicationsExample()
    ensures ProcessedName("Nintendo Game Boy" + " - " + "Applications" + " (Retool)") == "Nintendo Game Boy"
  {
    KeywordNameProcessed("Nintendo Game Boy", "Applications", " (Retool)");
  }

  /** "Sega Mark III & Master System - Firmware (Retool)" becomes "Sega Mark III & Master System". */
  lemma FirmwareExample()
    ensures ProcessedName("Sega Mark III & Master System" + " - " + "Firmware" + " (Retool)")
         == "Sega Mark III & Master System"
  {
    KeywordNameProcessed("Sega Mark III & Master System", "Firmware", " (Retool)");
  }

  /** "Bandai WonderSwan - Applications (Retool)" becomes "Bandai WonderSwan". */
  lemma WonderSwanExample()
    ensures ProcessedName("Bandai WonderSwan" + " - " + "Applications" + " (Retool)") == "Bandai WonderSwan"
  {
    KeywordNameProcessed("Bandai WonderSwan", "Applications", " (Retool)");
  }

  /** "3DO 3DO Interactive Multiplayer - Firmware (Retool)" becomes "3DO 3DO Interactive Multiplayer". */
  lemma ThreeDoExample()
    ensures ProcessedName("3DO 3DO Interactive Multiplayer" + " - " + "Firmware" + " (Retool)")
         == "3DO 3DO Interactive Multiplayer"
  {
    KeywordNameProcessed("3DO 3DO Interactive Multiplayer", "Firmware", " (Retool)");
  }

  /** "Nintendo Famicom & Entertainment System - Games - [NES] (Retool)" becomes "Nintendo Famicom & Entertainment System". */
  lemma FamicomBracketExample()
    ensures ProcessedName("Nintendo Famicom & Entertainment System" + " - " + "Games" + " - " + ("[" + "NES" + "]" + " (Retool)"))
         == "Nintendo Famicom & Entertainment System"
  {
    KeywordBracketNameProcessed("Nintendo Famicom & Entertainment System", "Games", "NES", " (Retool)");
  }

  /** Whether `w` starts with no keyword can be read off its first two characters. */
  predicate KeywordlessStart(w: string) {
    |w| >= 2 && (Lower(w[0]) !in "gafecsodv" || (Lower(w[0]) == 'g' && Lower(w[1]) != 'a'))
  }

  /** `name - word (tag)`, with one separator and no keyword after it, passes the subcategory step unchanged. */
  lemma OneSeparatorTagUnconsolidated(x: string, w: string, z: string)
    requires 1 <= |x| && !IsSpace(x[|x| - 1])
    requires forall i :: 0 <= i < |x| ==> x[i] != '-'
    requires KeywordlessStart(w) && !IsSpace(w[0])
    requires forall i :: 0 <= i < |w| ==> w[i] != '-'
    requires forall d: nat :: !SpacedDash(z, d)
    ensures ConsolidateSubcategory(x + " - " + w + " (" + z + ")").None?
  {
    var t := w + " (" + z + ")";
    NoSpacedDashInTag(w, z);
    NoKeywordStart(t);
    NoSubcategoryOneSeparator(x, t);
    assert x + " - " + t == x + " - " + w + " (" + z + ")";
  }

  /** `name - middle - word (tag)`, with no keyword after either separator, passes the subcategory step unchanged. */
  lemma TwoSeparatorTagUnconsolidated(x: string, mid: string, w: string, z: string)
    requires 1 <= |x| && !IsSpace(x[|x| - 1])
    requires forall i :: 0 <= i < |x| ==> x[i] != '-'
    requires KeywordlessStart(mid) && !IsSpace(mid[0]) && !IsSpace(mid[|mid| - 1])
    requires forall i :: 0 <= i < |mid| ==> mid[i] != '-'
    requires KeywordlessStart(w) && !IsSpace(w[0])
    requires forall i :: 0 <= i < |w| ==> w[i] != '-'
    requires forall d: nat :: !SpacedDash(z, d)
    ensures ConsolidateSubcategory(x + " - " + mid + " - " + w + " (" + z + ")").None?
  {
    var t := w + " (" + z + ")";
    NoSpacedDashInTag(w, z);
    NoKeywordStart(mid + " - " + t);
    NoKeywordStart(t);
    NoSubcategoryTwoSeparators(x, mid, t);
    assert x + " - " + mid + " - " + t == x + " - " + mid + " - " + w + " (" + z + ")";
  }

  /** A name the subcategory step leaves alone, not starting "Microsoft", comes out without its trailing tag. */
  lemma TaggedNameProcessed(y: string, z: string)
    requires ConsolidateSubcategory(y + " (" + z + ")").None?
    requires 1 <= |y| && !IsSpace(y[0]) && !IsSpace(y[|y| - 1]) && !StartsWithCI(y, "Microsoft")
    requires forall i :: 0 <= i < |y| ==> y[i] != '(' && y[i] != '['
    requires 1 <= |z| && NoLineFeed(z)
    requires forall i :: 0 <= i < |z| ==> z[i] != '['
    ensures ProcessedName(y + " (" + z + ")") == y
  {
    TrailingTagStripped(y, z);
    PublisherOnlyMicrosoft(y);
    ProcessedNameIs(y + " (" + z + ")", y + " (" + z + ")", y, y);
  }

  /** `Microsoft - MSX… (tag)`, left alone by the subcategory step, comes out as `MSX…`. */
  lemma MsxTaggedProcessed(r: string, z: string)
    requires ConsolidateSubcategory("Microsoft" + " - " + r + " (" + z + ")").None?
    requires WordAtCI(r, 0, "MSX") && RestOfLine(r[3..]) && !IsSpace(r[|r| - 1])
    requires forall i :: 0 <= i < |r| ==> r[i] != '(' && r[i] != '['
    requires 1 <= |z| && NoLineFeed(z)
    requires forall i :: 0 <= i < |z| ==> z[i] != '['
    ensures ProcessedName("Microsoft" + " - " + r + " (" + z + ")") == r
  {
    var y := "Microsoft" + " - " + r;
    SeparatedNoMarks("Microsoft", r);
    TrailingTagStripped(y, z);
    MsxAfterMicrosoft(r);
    ProcessedNameIs(y + " (" + z + ")", y + " (" + z + ")", y, r);
  }

  /** `name - word (tag)`, with one separator, no keyword after it and no brackets, loses only its trailing tag. */
  lemma OneSeparatorNameProcessed(x: string, w: string, z: string)
    requires 1 <= |x| && !IsSpace(x[0]) && !IsSpace(x[|x| - 1]) && Lower(x[0]) != 'm'
    requires forall i :: 0 <= i < |x| ==> x[i] != '-' && x[i] != '(' && x[i] != '['
    requires KeywordlessStart(w) && !IsSpace(w[0]) && !IsSpace(w[|w| - 1])
    requires forall i :: 0 <= i < |w| ==> w[i] != '-' && w[i] != '(' && w[i] != '['
    requires 1 <= |z| && NoLineFeed(z) && forall d: nat :: !SpacedDash(z, d)
    requires forall i :: 0 <= i < |z| ==> z[i] != '['
    ensures ProcessedName(x + " - " + w + " (" + z + ")") == x + " - " + w
  {
    OneSeparatorTagUnconsolidated(x, w, z);
    var y := x + " - " + w;
    SeparatedNoMarks(x, w);
    MismatchAt(y, 0, "Microsoft", 0);
    TaggedNameProcessed(y, z);
  }

  /** `name - middle - word (tag)`, with no keyword after either separator and no brackets, loses only its trailing tag. */
  lemma TwoSeparatorNameProcessed(x: string, mid: string, w: string, z: string)
    requires 1 <= |x| && !IsSpace(x[0]) && !IsSpace(x[|x| - 1]) && Lower(x[0]) != 'm'
    requires forall i :: 0 <= i < |x| ==> x[i] != '-' && x[i] != '(' && x[i] != '['
    requires KeywordlessStart(mid) && !IsSpace(mid[0]) && !IsSpace(mid[|mid| - 1])
    requires forall i :: 0 <= i < |mid| ==> mid[i] != '-' && mid[i] != '(' && mid[i] != '['
    requires KeywordlessStart(w) && !IsSpace(w[0]) && !IsSpace(w[|w| - 1])
    requires forall i :: 0 <= i < |w| ==> w[i] != '-' && w[i] != '(' && w[i] != '['
    requires 1 <= |z| && NoLineFeed(z) && forall d: nat :: !SpacedDash(z, d)
    requires forall i :: 0 <= i < |z| ==> z[i] != '['
    ensures ProcessedName(x + " - " + mid + " - " + w + " (" + z + ")") == x + " - " + mid + " - " + w
  {
    TwoSeparatorTagUnconsolidated(x, mid, w, z);
    var y := x + " - " + mid + " - " + w;
    SeparatedNoMarks(x, mid);
    SeparatedNoMarks(x + " - " + mid, w);
    MismatchAt(y, 0, "Microsoft", 0);
    TaggedNameProcessed(y, z);
  }

  /** `Microsoft - MSX… (tag)`, with no brackets, comes out as `MSX…`. */
  lemma MsxNameProcessed(r: string, z: string)
    requires WordAtCI(r, 0, "MSX") && RestOfLine(r[3..]) && !IsSpace(r[|r| - 1])
    requires forall i :: 0 <= i < |r| ==> r[i] != '-' && r[i] != '(' && r[i] != '['
    requires 1 <= |z| && NoLineFeed(z) && forall d: nat :: !SpacedDash(z, d)
    requires forall i :: 0 <= i < |z| ==> z[i] != '['
    ensures ProcessedName("Microsoft" + " - " + r + " (" + z + ")") == r
  {
    assert Lower(r[0]) == 'm' by {
      assert r[0..3][0] == r[0];
    }
    OneSeparatorTagUnconsolidated("Microsoft", r, z);
    MsxTaggedProcessed(r, z);
  }

  /** "Microsoft - MSX (Parent-Clone) (Retool)" becomes "MSX": the trailing tags go, then the publisher. */
  lemma MsxExample()
    ensures ProcessedName("Microsoft" + " - " + "MSX" + " (" + "Parent-Clone) (Retool" + ")") == "MSX"
  {
    MsxNameProcessed("MSX", "Parent-Clone) (Retool");
  }

  /** "Microsoft - MSX2 (Retool)" becomes "MSX2". */
  lemma Msx2Example()
    ensures ProcessedName("Microsoft" + " - " + "MSX2" + " (" + "Retool" + ")") == "MSX2"
  {
    MsxNameProcessed("MSX2", "Retool");
  }

  /** "Sega - Mega Drive - Genesis (Retool)" keeps its name and loses the trailing tag: no keyword follows a separator. */
  lemma TwoSeparatorExample()
    ensures ProcessedName("Sega" + " - " + "Mega Drive" + " - " + "Genesis" + " (" + "Retool" + ")")
         == "Sega" + " - " + "Mega Drive" + " - " + "Genesis"
  {
    TwoSeparatorNameProcessed("Sega", "Mega Drive", "Genesis", "Retool");
  }

  /** "Nintendo - Nintendo Entertainment System (Retool)" keeps its name and loses the trailing tag. */
  lemma OneSeparatorExample()
    ensures ProcessedName("Nintendo" + " - " + "Nintendo Entertainment System" + " (" + "Retool" + ")")
         == "Nintendo" + " - " + "Nintendo Entertainment System"
  {
    OneSeparatorNameProcessed("Nintendo", "Nintendo Entertainment System", "Retool");
  }

  /** `SubcategoryProcessor`: the handler chain and its statistics. */
  class SubcategoryProcessor {
    const chain: seq<HandlerKind>
    var stats: Stats

    constructor ()
      ensures chain == Chain
      ensures stats == Stats(0, 0, 0, 0, 0)
    {
      chain := Chain;
      stats := Stats(0, 0, 0, 0, 0);
    }

    /** `SubcategoryProcessor.process`: run the chain, then count the call and its flags. */
    method Process(name: string) returns (processed: string, context: Context)
      requires chain == Chain
      modifies this
      ensures (processed, context) == RunChain(Chain, name, InitialContext(name))
      ensures stats == Counted(old(stats), name, processed, context)
    {
      var r := RunChain(chain, name, InitialContext(name));
      processed, context := r.0, r.1;
      stats := Counted(stats, name, processed, context);
    }

    /** `get_statistics`: a copy of the counters, which later calls do not change. */
    method GetStatistics() returns (copy: Stats)
      ensures copy == stats
    {
      copy := stats;
    }
  }
}
