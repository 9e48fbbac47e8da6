/**
 * `InteractiveSelector._parse_selection`: a selection such as "1,3,5-8"
 * over the platform codes in sorted order, read as the set of codes it
 * picks; an unreadable part or an empty pick is the `ValueError`.
 */
module Selection {
  import opened Text

  // ---------------------------------------------------------------------
  // `str.split` and `int`

  /** The first `sep` at or after `i`, if any. */
  function IndexFrom(s: string, sep: char, i: nat): (r: Option<nat>)
    requires i <= |s|
    ensures r.Some? ==> i <= r.value < |s| && s[r.value] == sep
    ensures r.Some? ==> forall k :: i <= k < r.value ==> s[k] != sep
    ensures r.None? ==> forall k :: i <= k < |s| ==> s[k] != sep
    decreases |s| - i
  {
    if i == |s| then None
    else if s[i] == sep then Some(i)
    else IndexFrom(s, sep, i + 1)
  }

  /** `s.split(sep)`: the pieces between the separators; there is always at least one. */
  function Split(s: string, sep: char): (r: seq<string>)
    ensures |r| >= 1
    decreases |s|
  {
    match IndexFrom(s, sep, 0)
    case None => [s]
    case Some(i) => [s[..i]] + Split(s[i + 1..], sep)
  }

  /** `sep.join(pieces)`. */
  function JoinWith(pieces: seq<string>, sep: char): string
    requires |pieces| >= 1
  {
    if |pieces| == 1 then pieces[0] else pieces[0] + [sep] + JoinWith(pieces[1..], sep)
  }

  /** Splitting loses nothing: joining the pieces gives the string back, and no piece holds the separator. */
  lemma {:induction false} SplitJoin(s: string, sep: char)
    ensures JoinWith(Split(s, sep), sep) == s
    ensures forall k :: 0 <= k < |Split(s, sep)| ==> sep !in Split(s, sep)[k]
    decreases |s|
  {
    match IndexFrom(s, sep, 0)
    case None =>
    case Some(i) =>
      SplitJoin(s[i + 1..], sep);
      var rest := Split(s[i + 1..], sep);
      assert Split(s, sep) == [s[..i]] + rest;
      assert ([s[..i]] + rest)[1..] == rest;
      assert s == s[..i] + [sep] + s[i + 1..];
      forall k | 0 <= k < |Split(s, sep)|
        ensures sep !in Split(s, sep)[k]
      {
        if k > 0 {
          assert Split(s, sep)[k] == rest[k - 1];
        }
      }
  }

  /** A string without the separator is its own single piece. */
  lemma SplitWithout(s: string, sep: char)
    requires sep !in s
    ensures Split(s, sep) == [s]
  {
  }

  /** `int(text)` for decimal text: whitespace around, an optional sign, then digits. */
  function ParseInt(text: string): (r: Option<int>)
    ensures r.Some? ==> Strip(text) != []
  {
    var t := Strip(text);
    if t != [] && (t[0] == '+' || t[0] == '-') then
      var digits := t[1..];
      if digits != [] && AllDigits(digits) then
        Some(if t[0] == '-' then -(DigitsValue(digits) as int) else DigitsValue(digits) as int)
      else None
    else if t != [] && AllDigits(t) then Some(DigitsValue(t) as int)
    else None
  }

  // ---------------------------------------------------------------------
  // The selection

  /** A part of a selection: one number, or a range written with a dash. */
  datatype Part = Single(number: int) | Range(start: int, end: int)

  /** A stripped part: a range when it holds a dash, which must split it in exactly two numbers. */
  function ParsePart(part: string): (r: Option<Part>)
    ensures r.Some? && r.value.Range? ==> '-' in part
    ensures r.Some? && r.value.Single? ==> '-' !in part
  {
    if '-' in part then
      var ends := Split(part, '-');
      if |ends| == 2 && ParseInt(ends[0]).Some? && ParseInt(ends[1]).Some? then
        Some(Range(ParseInt(ends[0]).value, ParseInt(ends[1]).value))
      else None
    else
      match ParseInt(part)
      case Some(n) => Some(Single(n))
      case None => None
  }

  /** The codes at the 0-based positions `lo` to `hi - 1` that exist. */
  function Between(codes: seq<string>, lo: int, hi: int): set<string> {
    set j | lo <= j < hi && 0 <= j < |codes| :: codes[j]
  }

  /** The codes a part picks: 1-based numbers, both ends of a range included; the others are ignored. */
  function Picked(p: Part, codes: seq<string>): set<string> {
    match p
    case Single(n) => if 0 <= n - 1 < |codes| then {codes[n - 1]} else {}
    case Range(a, b) => Between(codes, a - 1, b)
  }

  /** The loop over `parts[k..]`, adding to `acc`; `None` at the first part that does not read. */
  function SelectFrom(parts: seq<string>, codes: seq<string>, k: nat, acc: set<string>): Option<set<string>>
    requires k <= |parts|
    decreases |parts| - k
  {
    if k == |parts| then Some(acc)
    else
      match ParsePart(Strip(parts[k]))
      case None => None
      case Some(p) => SelectFrom(parts, codes, k + 1, acc + Picked(p, codes))
  }

  /** `_parse_selection`: the codes picked, or `None` for the `ValueError`. */
  function ParseSelection(selection: string, codes: seq<string>): (r: Option<set<string>>)
    ensures r.Some? ==> r.value != {} && forall c :: c in r.value ==> c in codes
  {
    match SelectFrom(Split(selection, ','), codes, 0, {})
    case None => None
    case Some(s) =>
      SelectFromPicksCodes(Split(selection, ','), codes, 0, {});
      if s == {} then None else Some(s)
  }

  lemma {:induction false} SelectFromPicksCodes(parts: seq<string>, codes: seq<string>, k: nat, acc: set<string>)
    requires k <= |parts|
    requires forall c :: c in acc ==> c in codes
    ensures var r := SelectFrom(parts, codes, k, acc);
      r.Some? ==> acc <= r.value && forall c :: c in r.value ==> c in codes
    decreases |parts| - k
  {
    if k < |parts| {
      match ParsePart(Strip(parts[k]))
      case None =>
      case Some(p) =>
        var picked := Picked(p, codes);
        assert forall c :: c in picked ==> c in codes;
        SelectFromPicksCodes(parts, codes, k + 1, acc + picked);
    }
  }

  // ---------------------------------------------------------------------
  // The loops

  /** The range loop: each position from `start - 1` to `end - 1` that exists adds its code. */
  method AddRange(selected: set<string>, codes: seq<string>, start: int, end: int) returns (selected': set<string>)
    ensures selected' == selected + Between(codes, start - 1, end)
  {
    selected' := selected;
    var i := start - 1;
    while i < end
      invariant start - 1 <= i
      invariant i <= end || i == start - 1
      invariant selected' == selected + Between(codes, start - 1, i)
      decreases end - i
    {
      if 0 <= i < |codes| {
        selected' := selected' + {codes[i]};
      }
      assert Between(codes, start - 1, i + 1) == Between(codes, start - 1, i) + (if 0 <= i < |codes| then {codes[i]} else {});
      i := i + 1;
    }
    assert Between(codes, start - 1, i) == Between(codes, start - 1, end);
  }

  /** One part's codes added to the selection. */
  method AddPart(selected: set<string>, codes: seq<string>, p: Part) returns (selected': set<string>)
    ensures selected' == selected + Picked(p, codes)
  {
    match p {
      case Single(n) =>
        selected' := selected;
        if 0 <= n - 1 < |codes| {
          selected' := selected + {codes[n - 1]};
        }
      case Range(a, b) =>
        selected' := AddRange(selected, codes, a, b);
    }
  }

  /** `_parse_selection`, with its loop over the comma-separated parts. */
  method ParseSelectionLoop(selection: string, codes: seq<string>) returns (r: Option<set<string>>)
    ensures r == ParseSelection(selection, codes)
  {
    var parts := Split(selection, ',');
    var selected: set<string> := {};
    var k := 0;
    while k < |parts|
      invariant k <= |parts|
      invariant SelectFrom(parts, codes, k, selected) == SelectFrom(parts, codes, 0, {})
      decreases |parts| - k
    {
      var part := ParsePart(Strip(parts[k]));
      if part.None? {
        return None;
      }
      selected := AddPart(selected, codes, part.value);
      k := k + 1;
    }
    if selected == {} {
      return None;
    }
    return Some(selected);
  }

  // ---------------------------------------------------------------------
  // What a selection picks

  /** A run of digits is read back as its value, and holds neither a dash nor a comma. */
  lemma DigitsParse(x: string)
    requires x != [] && AllDigits(x)
    ensures ParseInt(x) == Some(DigitsValue(x) as int)
    ensures '-' !in x && ',' !in x
  {
    assert IsDigit(x[0]) && IsDigit(x[|x| - 1]);
    StripKeepsTrimmed(x);
  }

  /** Decimal text is read back as its number. */
  lemma ParseNumeral(n: nat)
    ensures ParseInt(NatToString(n)) == Some(n)
    ensures '-' !in NatToString(n) && ',' !in NatToString(n)
  {
    DigitsValueOfNatToString(n);
    DigitsParse(NatToString(n));
  }

  lemma NumeralStripped(n: nat)
    ensures Strip(NatToString(n)) == NatToString(n)
  {
    var t := NatToString(n);
    assert IsDigit(t[0]) && IsDigit(t[|t| - 1]);
    StripKeepsTrimmed(t);
  }

  /** Text that neither starts nor ends with whitespace is its own stripped form. */
  lemma StripKeepsTrimmed(t: string)
    requires t != [] && !IsSpace(t[0]) && !IsSpace(t[|t| - 1])
    ensures Strip(t) == t
  {
    assert WsEnd(t, 0) == 0;
    assert TrailingWsStart(t, 0) == |t|;
    assert t[0..|t|] == t;
  }

  /** Two digit runs joined by a dash split at the dash. */
  lemma DashSplit(x: string, y: string)
    requires x != [] && y != [] && AllDigits(x) && AllDigits(y)
    ensures Split(x + "-" + y, '-') == [x, y]
  {
    var t := x + "-" + y;
    assert t[|x|] == '-';
    assert IndexFrom(t, '-', 0) == Some(|x|);
    assert t[..|x|] == x;
    assert t[|x| + 1..] == y;
    SplitWithout(y, '-');
  }

  /** Two digit runs joined by a dash: trimmed, and no comma. */
  lemma DashTrimmed(x: string, y: string)
    requires x != [] && y != [] && AllDigits(x) && AllDigits(y)
    ensures Strip(x + "-" + y) == x + "-" + y && ',' !in x + "-" + y
  {
    var t := x + "-" + y;
    assert t[0] == x[0] && t[|t| - 1] == y[|y| - 1];
    StripKeepsTrimmed(t);
    forall k | 0 <= k < |t|
      ensures t[k] != ','
    {
      if k < |x| {
        assert t[k] == x[k];
      } else if k > |x| {
        assert t[k] == y[k - |x| - 1];
      }
    }
  }

  /** Two digit runs joined by a dash read as the range between their values. */
  lemma DashParse(x: string, y: string)
    requires x != [] && y != [] && AllDigits(x) && AllDigits(y)
    ensures ParsePart(Strip(x + "-" + y)) == Some(Range(DigitsValue(x) as int, DigitsValue(y) as int))
    ensures ',' !in x + "-" + y
  {
    DashSplit(x, y);
    DashTrimmed(x, y);
    DigitsParse(x);
    DigitsParse(y);
    assert '-' in x + "-" + y by {
      assert (x + "-" + y)[|x|] == '-';
    }
  }

  /** A selection of one readable part picks that part's codes, or is the `ValueError` when it picks none. */
  lemma OnePart(t: string, p: Part, codes: seq<string>)
    requires ',' !in t && ParsePart(Strip(t)) == Some(p)
    ensures ParseSelection(t, codes) == if Picked(p, codes) == {} then None else Some(Picked(p, codes))
  {
    SplitWithout(t, ',');
    var picked := Picked(p, codes);
    assert {} + picked == picked;
    assert SelectFrom([t], codes, 0, {}) == SelectFrom([t], codes, 1, picked) == Some(picked);
  }

  /** "n" picks the n-th code when there is one, and is the `ValueError` otherwise. */
  lemma SingleNumberPicks(n: nat, codes: seq<string>)
    ensures 1 <= n <= |codes| ==> ParseSelection(NatToString(n), codes) == Some({codes[n - 1]})
    ensures !(1 <= n <= |codes|) ==> ParseSelection(NatToString(n), codes).None?
  {
    var t := NatToString(n);
    ParseNumeral(n);
    NumeralStripped(n);
    assert ParsePart(Strip(t)) == Some(Single(n));
    OnePart(t, Single(n), codes);
  }

  /** "a-b" picks exactly the codes at positions a to b that exist, and is the `ValueError` when there are none. */
  lemma RangePicks(a: nat, b: nat, codes: seq<string>)
    ensures var r := ParseSelection(NatToString(a) + "-" + NatToString(b), codes);
      var picked := Between(codes, a - 1, b);
      (picked != {} ==> r == Some(picked)) && (picked == {} ==> r.None?)
  {
    var t := NatToString(a) + "-" + NatToString(b);
    DigitsValueOfNatToString(a);
    DigitsValueOfNatToString(b);
    DashParse(NatToString(a), NatToString(b));
    OnePart(t, Range(a, b), codes);
  }

  /** One part that does not read as a number or a range makes the whole selection the `ValueError`. */
  lemma UnreadablePartRejects(selection: string, codes: seq<string>, k: nat)
    requires k < |Split(selection, ',')|
    requires ParsePart(Strip(Split(selection, ',')[k])).None?
    ensures ParseSelection(selection, codes).None?
  {
    UnreadableFrom(Split(selection, ','), codes, 0, {}, k);
  }

  lemma {:induction false} UnreadableFrom(parts: seq<string>, codes: seq<string>, i: nat, acc: set<string>, k: nat)
    requires i <= k < |parts|
    requires ParsePart(Strip(parts[k])).None?
    ensures SelectFrom(parts, codes, i, acc).None?
    decreases k - i
  {
    if i < k {
      match ParsePart(Strip(parts[i]))
      case None =>
      case Some(p) => UnreadableFrom(parts, codes, i + 1, acc + Picked(p, codes), k);
    }
  }
}
