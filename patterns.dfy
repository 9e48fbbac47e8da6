// The regular expressions of the platform tables, as data.
//
// Every pattern of the rule tables is a sequence of the atoms below: a
// literal compared ignoring case (`re.IGNORECASE`), `.*`, `.?`, `$`, and a
// negative lookahead of the form `(?!A|B)`, `(?!\s*A)` or `(?!\s+(A|B))`.
// `.` never matches a line feed, and `$` matches at the end or just before
// a final line feed (neither DOTALL nor MULTILINE is set). A leading `^` is
// dropped: every anchored table is applied with `re.match`, which already
// anchors at the start.
//
// A Python regular expression succeeds when some way of matching exists, so
// each atom is defined by the positions it can stop at, and `.*` by an
// existential over all of them.

module Patterns {
  import opened Text

  /** The whitespace allowed before a lookahead's alternatives: none, `\s*` or `\s+`. */
  datatype SpaceRun = NoSpace | AnySpace | SomeSpace

  datatype Atom =
    | Lit(text: string)
    | AnyRun
    | OptChar
    | EndAnchor
    | NotAhead(space: SpaceRun, words: seq<string>)

  type Pattern = seq<Atom>

  /** `re.match` (anchored at the start) or `re.search` (anywhere). */
  datatype Anchoring = AtStart | Anywhere

  /** The lookahead's body matches at `i`: the allowed whitespace, then one of the words. */
  predicate AheadAt(space: SpaceRun, words: seq<string>, s: string, i: nat)
    requires i <= |s|
  {
    exists k :: i <= k <= WsEnd(s, i) && (space == NoSpace ==> k == i) && (space == SomeSpace ==> k > i)
      && OneOfAt(words, s, k)
  }

  /** One of the alternatives `words` occurs, ignoring case, at `k`. */
  predicate OneOfAt(words: seq<string>, s: string, k: nat) {
    exists n :: 0 <= n < |words| && WordAtCI(s, k, words[n])
  }

  /** The pattern `p` matches `s` starting at index `i` (what follows the match does not matter). */
  predicate MatchFrom(p: Pattern, s: string, i: nat)
    requires i <= |s|
    decreases |p|
  {
    if p == [] then true
    else match p[0]
      case Lit(w) => WordAtCI(s, i, w) && MatchFrom(p[1..], s, i + |w|)
      case AnyRun => exists j :: i <= j <= LineEnd(s, i) && MatchFrom(p[1..], s, j)
      case OptChar => MatchFrom(p[1..], s, i) || (i < |s| && IsDot(s[i]) && MatchFrom(p[1..], s, i + 1))
      case EndAnchor => (i == |s| || (i == |s| - 1 && s[i] == '\n')) && MatchFrom(p[1..], s, i)
      case NotAhead(space, words) => !AheadAt(space, words, s, i) && MatchFrom(p[1..], s, i)
  }

  /** `re.match(p, s, re.IGNORECASE)` or `re.search(p, s, re.IGNORECASE)` is truthy. */
  predicate Hits(p: Pattern, s: string, anchoring: Anchoring) {
    match anchoring
    case AtStart => MatchFrom(p, s, 0)
    case Anywhere => exists i :: 0 <= i <= |s| && MatchFrom(p, s, i)
  }

  /** An anchored hit is also a hit anywhere. */
  lemma AnchoredHitsAnywhere(p: Pattern, s: string)
    requires Hits(p, s, AtStart)
    ensures Hits(p, s, Anywhere)
  {
    assert MatchFrom(p, s, 0);
  }

  /** A pattern that opens with a literal only hits at the start of a name that starts with it. */
  lemma AnchoredLiteralPrefix(w: string, rest: Pattern, s: string)
    requires Hits([Lit(w)] + rest, s, AtStart)
    ensures StartsWithCI(s, w)
  {
    assert ([Lit(w)] + rest)[0] == Lit(w);
  }

  /** Every literal of a pattern occurs in any name the pattern matches. */
  lemma {:induction false} LiteralOccurs(p: Pattern, s: string, i: nat, n: nat)
    requires i <= |s| && n < |p| && p[n].Lit?
    requires MatchFrom(p, s, i)
    ensures exists k :: WordAtCI(s, k, p[n].text)
    decreases n
  {
    if n > 0 {
      assert p[1..][n - 1] == p[n];
      match p[0]
      case Lit(w) => LiteralOccurs(p[1..], s, i + |w|, n - 1);
      case AnyRun =>
        var j :| i <= j <= LineEnd(s, i) && MatchFrom(p[1..], s, j);
        LiteralOccurs(p[1..], s, j, n - 1);
      case OptChar =>
        if MatchFrom(p[1..], s, i) {
          LiteralOccurs(p[1..], s, i, n - 1);
        } else {
          LiteralOccurs(p[1..], s, i + 1, n - 1);
        }
      case EndAnchor => LiteralOccurs(p[1..], s, i, n - 1);
      case NotAhead(_, _) => LiteralOccurs(p[1..], s, i, n - 1);
    }
  }

  /** A pattern one of whose literals a name lacks never hits that name. */
  lemma MissingLiteral(p: Pattern, s: string, n: nat, anchoring: Anchoring)
    requires n < |p| && p[n].Lit?
    requires forall k :: !WordAtCI(s, k, p[n].text)
    ensures !Hits(p, s, anchoring)
  {
    if Hits(p, s, anchoring) {
      var i :| 0 <= i <= |s| && MatchFrom(p, s, i);
      LiteralOccurs(p, s, i, n);
    }
  }

  /** `.*` can stop at any later index of the same line. */
  lemma AnyRunTo(p: Pattern, s: string, i: nat, j: nat)
    requires |p| > 0 && p[0] == AnyRun
    requires i <= j <= |s| && NoLineFeed(s[i..j]) && MatchFrom(p[1..], s, j)
    ensures MatchFrom(p, s, i)
  {
    var e := LineEnd(s, i);
    assert forall k :: i <= k < j ==> s[k] == s[i..j][k - i];
    assert j <= e;
  }

  /** A literal `a + b` occurring at `i` is `a` at `i` followed by `b`. */
  lemma SplitLiteral(s: string, i: nat, a: string, b: string)
    requires WordAtCI(s, i, a + b)
    ensures WordAtCI(s, i, a) && WordAtCI(s, i + |a|, b)
  {
    var w := a + b;
    assert forall k :: 0 <= k < |a| ==> s[i..i + |a|][k] == s[i..i + |w|][k] && w[k] == a[k];
    assert forall k :: 0 <= k < |b| ==> s[i + |a|..i + |w|][k] == s[i..i + |w|][|a| + k] && w[|a| + k] == b[k];
  }

  /** The characters that match a literal free of line feeds are themselves free of them. */
  lemma LiteralNoLineFeed(s: string, i: nat, w: string)
    requires WordAtCI(s, i, w) && NoLineFeed(w)
    ensures NoLineFeed(s[i..i + |w|])
  {
    var t := s[i..i + |w|];
    forall k | 0 <= k < |t|
      ensures IsDot(t[k])
    {
      assert Lower(t[k]) == Lower(w[k]);
    }
  }

  /**
   * A name that starts with `a + gap + b`, the gap free of line feeds,
   * matches `a.*b.*` at its start.
   */
  lemma GapMatch(s: string, a: string, gap: string, b: string)
    requires WordAtCI(s, 0, a + gap + b) && NoLineFeed(gap)
    ensures MatchFrom([Lit(a), AnyRun, Lit(b), AnyRun], s, 0)
  {
    SplitLiteral(s, 0, a + gap, b);
    SplitLiteral(s, 0, a, gap);
    LiteralNoLineFeed(s, |a|, gap);
    GapMatchAt(s, a, |a| + |gap|, b);
  }

  /** `a` at the start, `b` at `j` and no line feed between them: `a.*b.*` matches at the start. */
  lemma GapMatchAt(s: string, a: string, j: nat, b: string)
    requires WordAtCI(s, 0, a) && |a| <= j && WordAtCI(s, j, b) && NoLineFeed(s[|a|..j])
    ensures MatchFrom([Lit(a), AnyRun, Lit(b), AnyRun], s, 0)
  {
    var p: Pattern := [Lit(a), AnyRun, Lit(b), AnyRun];
    var e := j + |b|;
    assert p[1..][1..][1..][1..] == [];
    assert MatchFrom(p[3..][1..], s, e);
    assert MatchFrom(p[3..], s, e);
    assert MatchFrom(p[2..], s, j);
    AnyRunTo(p[1..], s, |a|, j);
  }

  /** A name that starts with `gap + b`, the gap free of line feeds, matches `.*b.*` at its start. */
  lemma LeadingGapMatch(s: string, gap: string, b: string)
    requires WordAtCI(s, 0, gap + b) && NoLineFeed(gap)
    ensures MatchFrom([AnyRun, Lit(b), AnyRun], s, 0)
  {
    var p: Pattern := [AnyRun, Lit(b), AnyRun];
    SplitLiteral(s, 0, gap, b);
    LiteralNoLineFeed(s, 0, gap);
    assert p[1..][1..][1..] == [];
    assert MatchFrom(p[2..][1..], s, |gap| + |b|);
    assert MatchFrom(p[2..], s, |gap| + |b|);
    assert MatchFrom(p[1..], s, |gap|);
    AnyRunTo(p, s, 0, |gap|);
  }

  // ---------------------------------------------------------------------
  // Ordered rule tables: a Python dict iterated in declaration order

  datatype Rule<R> = Rule(pattern: Pattern, result: R)

  /** The index of the first rule at or after `from` whose pattern hits `s`. */
  function FirstHitFrom<R>(rules: seq<Rule<R>>, s: string, anchoring: Anchoring, from: nat): (r: Option<nat>)
    requires from <= |rules|
    ensures r.Some? ==> from <= r.value < |rules| && Hits(rules[r.value].pattern, s, anchoring)
    ensures r.Some? ==> forall k :: from <= k < r.value ==> !Hits(rules[k].pattern, s, anchoring)
    ensures r.None? ==> forall k :: from <= k < |rules| ==> !Hits(rules[k].pattern, s, anchoring)
    decreases |rules| - from
  {
    if from == |rules| then None
    else if Hits(rules[from].pattern, s, anchoring) then Some(from)
    else FirstHitFrom(rules, s, anchoring, from + 1)
  }

  /** The result of the first rule, in table order, whose pattern hits `s`; None when none does. */
  function FirstHit<R>(rules: seq<Rule<R>>, s: string, anchoring: Anchoring): (r: Option<R>)
    ensures r.Some? <==> exists k :: 0 <= k < |rules| && Hits(rules[k].pattern, s, anchoring)
    ensures r.Some? ==> exists k :: 0 <= k < |rules| && Hits(rules[k].pattern, s, anchoring) && r.value == rules[k].result
                          && forall k' :: 0 <= k' < k ==> !Hits(rules[k'].pattern, s, anchoring)
  {
    match FirstHitFrom(rules, s, anchoring, 0)
    case Some(k) => Some(rules[k].result)
    case None => None
  }

  /** The rule at `m` decides when it hits and no earlier rule does. */
  lemma FirstHitAt<R>(rules: seq<Rule<R>>, s: string, anchoring: Anchoring, m: nat)
    requires m < |rules| && Hits(rules[m].pattern, s, anchoring)
    requires forall k :: 0 <= k < m ==> !Hits(rules[k].pattern, s, anchoring)
    ensures FirstHit(rules, s, anchoring) == Some(rules[m].result)
  {
  }

  /**
   * The loop over a rule table that returns the result of the first rule
   * whose pattern hits `s`.
   */
  method FindFirst<R>(rules: seq<Rule<R>>, s: string, anchoring: Anchoring) returns (r: Option<R>)
    ensures r == FirstHit(rules, s, anchoring)
  {
    var i := 0;
    while i < |rules|
      invariant 0 <= i <= |rules|
      invariant forall k :: 0 <= k < i ==> !Hits(rules[k].pattern, s, anchoring)
    {
      if Hits(rules[i].pattern, s, anchoring) {
        FirstHitAt(rules, s, anchoring, i);
        return Some(rules[i].result);
      }
      i := i + 1;
    }
    return None;
  }

  /** A word whose `j`-th letter `c` the name lacks occurs nowhere in the name. */
  lemma LetterAbsent(s: string, w: string, j: nat, c: char)
    requires j < |w| && Lower(w[j]) == c
    requires forall k :: 0 <= k < |s| ==> Lower(s[k]) != c
    ensures forall i :: !WordAtCI(s, i, w)
  {
    forall i: nat
      ensures !WordAtCI(s, i, w)
    {
      if i + |w| <= |s| {
        assert s[i..i + |w|][j] == s[i + j];
      }
    }
  }

  /**
   * A word whose `j`-th letter `c` occurs in the name only at `p`, where the
   * word's `j2`-th letter is not in place, occurs nowhere in the name.
   */
  lemma LetterOnlyAt(s: string, w: string, j: nat, c: char, p: nat, j2: nat)
    requires j < |w| && j2 < |w| && Lower(w[j]) == c
    requires forall k :: 0 <= k < |s| && Lower(s[k]) == c ==> k == p
    requires p >= j && p - j + j2 < |s| ==> Lower(s[p - j + j2]) != Lower(w[j2])
    ensures forall i :: !WordAtCI(s, i, w)
  {
    forall i: nat
      ensures !WordAtCI(s, i, w)
    {
      if i + |w| <= |s| {
        assert s[i..i + |w|][j] == s[i + j];
        assert s[i..i + |w|][j2] == s[i + j2];
      }
    }
  }

  /** Every character of `s`, lower-cased, is one of `letters`. */
  predicate LettersWithin(s: string, letters: set<char>) {
    forall k :: 0 <= k < |s| ==> Lower(s[k]) in letters
  }

  lemma LettersConcat(x: string, y: string, letters: set<char>)
    requires LettersWithin(x, letters) && LettersWithin(y, letters)
    ensures LettersWithin(x + y, letters)
  {
    forall k | 0 <= k < |x + y|
      ensures Lower((x + y)[k]) in letters
    {
      if k >= |x| {
        assert (x + y)[k] == y[k - |x|];
      }
    }
  }

  /** `.*w.*` hits a name in which `w` occurs on the first line. */
  lemma LiteralHits(s: string, w: string, i: nat)
    requires WordAtCI(s, i, w) && NoLineFeed(s[0..i])
    ensures Hits([AnyRun, Lit(w), AnyRun], s, Anywhere)
  {
    var p: Pattern := [AnyRun, Lit(w), AnyRun];
    assert p[1..][1..][1..] == [];
    assert MatchFrom(p[2..][1..], s, i + |w|);
    AnyRunTo(p[2..], s, i + |w|, i + |w|);
    assert MatchFrom(p[1..], s, i);
    AnyRunTo(p, s, 0, i);
  }

  /** `.*a.*b.*` hits a name with `a` on its first line and `b` later on the same line. */
  lemma TwoLiteralsHit(s: string, a: string, i: nat, b: string, j: nat)
    requires WordAtCI(s, i, a) && i + |a| <= j && WordAtCI(s, j, b)
    requires NoLineFeed(s[0..i]) && NoLineFeed(s[i + |a|..j])
    ensures Hits([AnyRun, Lit(a), AnyRun, Lit(b), AnyRun], s, Anywhere)
  {
    var p: Pattern := [AnyRun, Lit(a), AnyRun, Lit(b), AnyRun];
    var e := j + |b|;
    assert p[1..][1..][1..][1..][1..] == [];
    assert MatchFrom(p[4..][1..], s, e);
    AnyRunTo(p[4..], s, e, e);
    assert MatchFrom(p[3..], s, j);
    AnyRunTo(p[2..], s, i + |a|, j);
    assert MatchFrom(p[1..], s, i);
    AnyRunTo(p, s, 0, i);
  }

  /** A rule whose `n`-th atom is a word with a letter outside the name's letter set does not hit. */
  lemma RuleLacksLetter<R>(rules: seq<Rule<R>>, m: nat, n: nat, w: string, s: string, letters: set<char>, j: nat, c: char)
    requires LettersWithin(s, letters)
    requires m < |rules| && n < |rules[m].pattern| && rules[m].pattern[n] == Lit(w)
    requires j < |w| && Lower(w[j]) == c && c !in letters
    ensures !Hits(rules[m].pattern, s, Anywhere)
  {
    LetterAbsent(s, w, j, c);
    MissingLiteral(rules[m].pattern, s, n, Anywhere);
  }

  /** `w` occurs at the end of `x` in `x + w + y`. */
  lemma WordAfter(x: string, w: string, y: string)
    ensures WordAtCI(x + w + y, |x|, w)
  {
    var s := x + w + y;
    assert forall k :: 0 <= k < |w| ==> s[|x|..|x| + |w|][k] == w[k];
    assert s[|x|..|x| + |w|] == w;
  }

  /** `.*w.*` hits `x + w + y` when `x` holds no line feed. */
  lemma LiteralHitsIn(x: string, w: string, y: string)
    requires NoLineFeed(x)
    ensures Hits([AnyRun, Lit(w), AnyRun], x + w + y, Anywhere)
  {
    var s := x + w + y;
    WordAfter(x, w, y);
    assert s[0..|x|] == x;
    LiteralHits(s, w, |x|);
  }

  /** `.*a.*b.*` hits `a + g + b + y` when the gap `g` holds no line feed. */
  lemma TwoLiteralsHitIn(a: string, g: string, b: string, y: string)
    requires NoLineFeed(g)
    ensures Hits([AnyRun, Lit(a), AnyRun, Lit(b), AnyRun], a + g + b + y, Anywhere)
  {
    var s := a + g + b + y;
    FourPieces(a, g, b, y);
    assert WordAtCI(s, 0, a) && WordAtCI(s, |a| + |g|, b);
    TwoLiteralsHit(s, a, 0, b, |a| + |g|);
  }

  /** The pieces of `a + g + b + y`, at the indices they start at. */
  lemma FourPieces(a: string, g: string, b: string, y: string)
    ensures var s := a + g + b + y;
      |s| == |a| + |g| + |b| + |y| && s[0..0] == [] && s[0..|a|] == a
      && s[|a|..|a| + |g|] == g && s[|a| + |g|..|a| + |g| + |b|] == b
  {
  }

  /** `.*a.*b.*c.*` hits a name with `a`, `b` and `c` in this order on its first line. */
  lemma ThreeLiteralsHit(s: string, a: string, i: nat, b: string, j: nat, c: string, k: nat)
    requires WordAtCI(s, i, a) && i + |a| <= j && WordAtCI(s, j, b) && j + |b| <= k && WordAtCI(s, k, c)
    requires NoLineFeed(s[0..i]) && NoLineFeed(s[i + |a|..j]) && NoLineFeed(s[j + |b|..k])
    ensures Hits([AnyRun, Lit(a), AnyRun, Lit(b), AnyRun, Lit(c), AnyRun], s, Anywhere)
  {
    var p: Pattern := [AnyRun, Lit(a), AnyRun, Lit(b), AnyRun, Lit(c), AnyRun];
    assert p[1..][1..][1..][1..][1..][1..][1..] == [];
    assert MatchFrom(p[6..][1..], s, k + |c|);
    AnyRunTo(p[6..], s, k + |c|, k + |c|);
    assert MatchFrom(p[5..], s, k);
    AnyRunTo(p[4..], s, j + |b|, k);
    assert MatchFrom(p[3..], s, j);
    AnyRunTo(p[2..], s, i + |a|, j);
    assert MatchFrom(p[1..], s, i);
    AnyRunTo(p, s, 0, i);
  }

  /** The pieces of `x + a + g + b + h + c + y`, at the indices they start at. */
  lemma SevenPieces(x: string, a: string, g: string, b: string, h: string, c: string, y: string)
    ensures var s := x + a + g + b + h + c + y;
      var i, j, k := |x|, |x| + |a| + |g|, |x| + |a| + |g| + |b| + |h|;
      |s| == k + |c| + |y| &&
      s[0..i] == x && s[i..i + |a|] == a && s[i + |a|..j] == g && s[j..j + |b|] == b
      && s[j + |b|..k] == h && s[k..k + |c|] == c
  {
  }

  /**
   * `.*a.*b.*c.*` hits `x + a + g + b + h + c + y` when `x` and the gaps
   * `g` and `h` hold no line feed.
   */
  lemma ThreeLiteralsHitIn(x: string, a: string, g: string, b: string, h: string, c: string, y: string)
    requires NoLineFeed(x) && NoLineFeed(g) && NoLineFeed(h)
    ensures Hits([AnyRun, Lit(a), AnyRun, Lit(b), AnyRun, Lit(c), AnyRun], x + a + g + b + h + c + y, Anywhere)
  {
    var s := x + a + g + b + h + c + y;
    var i, j, k := |x|, |x| + |a| + |g|, |x| + |a| + |g| + |b| + |h|;
    SevenPieces(x, a, g, b, h, c, y);
    ThreeLiteralsHit(s, a, i, b, j, c, k);
  }

  /** `.*w(?!…).*` hits `x + w + y` when the lookahead fails right after `w`. */
  lemma LiteralNotAheadHitsIn(x: string, w: string, y: string, space: SpaceRun, words: seq<string>)
    requires NoLineFeed(x)
    requires !AheadAt(space, words, x + w + y, |x| + |w|)
    ensures Hits([AnyRun, Lit(w), NotAhead(space, words), AnyRun], x + w + y, Anywhere)
  {
    var s := x + w + y;
    var p: Pattern := [AnyRun, Lit(w), NotAhead(space, words), AnyRun];
    var e := |x| + |w|;
    WordAfter(x, w, y);
    assert s[0..|x|] == x;
    assert p[1..][1..][1..][1..] == [];
    assert MatchFrom(p[3..][1..], s, e);
    AnyRunTo(p[3..], s, e, e);
    assert MatchFrom(p[2..], s, e);
    assert MatchFrom(p[1..], s, |x|);
    AnyRunTo(p, s, 0, |x|);
  }

  /** `.*w.*(?!…).*` hits `x + w + y` when the lookahead fails right after `w`. */
  lemma LiteralRunNotAheadHitsIn(x: string, w: string, y: string, space: SpaceRun, words: seq<string>)
    requires NoLineFeed(x)
    requires !AheadAt(space, words, x + w + y, |x| + |w|)
    ensures Hits([AnyRun, Lit(w), AnyRun, NotAhead(space, words), AnyRun], x + w + y, Anywhere)
  {
    var s := x + w + y;
    var p: Pattern := [AnyRun, Lit(w), AnyRun, NotAhead(space, words), AnyRun];
    var e := |x| + |w|;
    WordAfter(x, w, y);
    assert s[0..|x|] == x && s[e..e] == [];
    assert p[1..][1..][1..][1..][1..] == [];
    assert MatchFrom(p[4..][1..], s, e);
    AnyRunTo(p[4..], s, e, e);
    assert MatchFrom(p[3..], s, e);
    AnyRunTo(p[2..], s, e, e);
    assert MatchFrom(p[1..], s, |x|);
    AnyRunTo(p, s, 0, |x|);
  }

  /** A lookahead for some whitespace and then a word fails before " (" when no word starts with '('. */
  lemma NotAheadBeforeParen(x: string, z: string, words: seq<string>)
    requires forall n :: 0 <= n < |words| ==> |words[n]| > 0 && Lower(words[n][0]) != '('
    ensures !AheadAt(SomeSpace, words, x + (" (" + z), |x|)
  {
    var s := x + (" (" + z);
    var i := |x|;
    assert s[i] == ' ' && s[i + 1] == '(';
    assert WsEnd(s, i + 1) == i + 1;
    assert WsEnd(s, i) == i + 1;
    forall n | 0 <= n < |words|
      ensures !WordAtCI(s, i + 1, words[n])
    {
      if i + 1 + |words[n]| <= |s| {
        assert s[i + 1..i + 1 + |words[n]|][0] == '(';
      }
    }
  }

  /** A lookahead that needs whitespace fails before a character that is not whitespace. */
  lemma NotAheadBeforeNonSpace(x: string, y: string, words: seq<string>)
    requires |y| > 0 && !IsSpace(y[0])
    ensures !AheadAt(SomeSpace, words, x + y, |x|)
  {
    assert (x + y)[|x|] == y[0];
  }
}
