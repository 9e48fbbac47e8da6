// Character classes and string helpers shared by every rule of the model.
//
// Python's `str.isspace` (which is also what `\s` means in a `str` regex)
// is modelled exactly. Word characters, digits and case folding are modelled
// for ASCII only: `\w`, `\d`, `re.IGNORECASE` and `str.lower` also act on
// non-ASCII letters in Python, which this model does not capture.

module Text {

  datatype Option<T> = None | Some(value: T)

  /** Python's `str.isspace` for one character. */
  predicate IsSpace(c: char) {
    c == ' ' || '\t' <= c <= '\r' || '\U{1c}' <= c <= '\U{1f}' || c == '\U{85}' || c == '\U{a0}'
    || c == '\U{1680}' || '\U{2000}' <= c <= '\U{200a}' || c == '\U{2028}' || c == '\U{2029}'
    || c == '\U{202f}' || c == '\U{205f}' || c == '\U{3000}'
  }

  predicate IsDigit(c: char) { '0' <= c <= '9' }

  predicate IsAsciiLetter(c: char) { 'a' <= c <= 'z' || 'A' <= c <= 'Z' }

  predicate IsAsciiAlnum(c: char) { IsAsciiLetter(c) || IsDigit(c) }

  /** `\w`: a letter, a digit or the underscore. */
  predicate IsWordChar(c: char) { IsAsciiAlnum(c) || c == '_' }

  /** A character that the regex `.` matches (anything but a line feed). */
  predicate IsDot(c: char) { c != '\n' }

  predicate AllSpace(s: string) { forall i :: 0 <= i < |s| ==> IsSpace(s[i]) }

  predicate AllWordChars(s: string) { forall i :: 0 <= i < |s| ==> IsWordChar(s[i]) }

  predicate AllDigits(s: string) { forall i :: 0 <= i < |s| ==> IsDigit(s[i]) }

  predicate NoLineFeed(s: string) { forall i :: 0 <= i < |s| ==> IsDot(s[i]) }

  function Lower(c: char): (r: char)
    ensures IsAsciiLetter(c) ==> IsAsciiLetter(r) && 'a' <= r <= 'z'
    ensures !('A' <= c <= 'Z') ==> r == c
  {
    if 'A' <= c <= 'Z' then (c as int + 32) as char else c
  }

  function Upper(c: char): (r: char)
    ensures IsAsciiLetter(c) ==> 'A' <= r <= 'Z' && Lower(r) == Lower(c)
    ensures !('a' <= c <= 'z') ==> r == c
  {
    if 'a' <= c <= 'z' then (c as int - 32) as char else c
  }

  /** `str.lower()` over the ASCII letters. */
  function LowerStr(s: string): (r: string)
    ensures |r| == |s|
    ensures forall i :: 0 <= i < |s| ==> r[i] == Lower(s[i])
  {
    seq(|s|, i requires 0 <= i < |s| => Lower(s[i]))
  }

  /** `str.upper()` over the ASCII letters. */
  function UpperStr(s: string): (r: string)
    ensures |r| == |s|
    ensures forall i :: 0 <= i < |s| ==> r[i] == Upper(s[i])
  {
    seq(|s|, i requires 0 <= i < |s| => Upper(s[i]))
  }

  /** Case-insensitive equality, as `re.IGNORECASE` compares a literal. */
  predicate EqCI(a: string, b: string) {
    |a| == |b| && forall i :: 0 <= i < |a| ==> Lower(a[i]) == Lower(b[i])
  }

  /** The literal `w` occurs, ignoring case, at index `i` of `s`. */
  predicate WordAtCI(s: string, i: nat, w: string) {
    i + |w| <= |s| && EqCI(s[i..i + |w|], w)
  }

  predicate StartsWithCI(s: string, p: string) { WordAtCI(s, 0, p) }

  /** `t in s` for Python strings. */
  predicate Contains(s: string, t: string) {
    exists i :: 0 <= i <= |s| - |t| && OccursAt(s, i, t)
  }

  /** The literal `t` occurs, with its case, at index `i` of `s`. */
  predicate OccursAt(s: string, i: nat, t: string) {
    i + |t| <= |s| && s[i..i + |t|] == t
  }

  /**
   * What `(.+)$` captures when matched against all of `t`: `.` stops at a
   * line feed and `$` also matches just before a final line feed.
   */
  function LineBody(t: string): (r: Option<string>)
    ensures r.Some? ==> |r.value| >= 1 && NoLineFeed(r.value)
    ensures r.Some? ==> t == r.value || t == r.value + "\n"
    ensures (|t| >= 1 && NoLineFeed(t)) ==> r == Some(t)
  {
    if |t| >= 1 && NoLineFeed(t) then Some(t)
    else if |t| >= 2 && t[|t| - 1] == '\n' && NoLineFeed(t[..|t| - 1]) then Some(t[..|t| - 1])
    else None
  }

  /** `.*$` matches all of `t`: no line feed except possibly a final one. */
  predicate RestOfLine(t: string) {
    forall i :: 0 <= i < |t| - 1 ==> IsDot(t[i])
  }

  /** The index of the first line feed at or after `p`, or the length of `s`. */
  function LineEnd(s: string, p: nat): (r: nat)
    requires p <= |s|
    ensures p <= r <= |s| && NoLineFeed(s[p..r]) && (r == |s| || s[r] == '\n')
    decreases |s| - p
  {
    if p == |s| || s[p] == '\n' then p
    else
      var r := LineEnd(s, p + 1);
      assert s[p..r] == [s[p]] + s[p + 1..r];
      r
  }

  /** The end of the longest run of whitespace that starts at `i`. */
  function WsEnd(s: string, i: nat): (r: nat)
    requires i <= |s|
    ensures i <= r <= |s|
    ensures AllSpace(s[i..r])
    ensures r == |s| || !IsSpace(s[r])
    decreases |s| - i
  {
    if i < |s| && IsSpace(s[i]) then WsEnd(s, i + 1) else i
  }

  /** The end of the longest run of word characters that starts at `i`. */
  function WordEnd(s: string, i: nat): (r: nat)
    requires i <= |s|
    ensures i <= r <= |s|
    ensures AllWordChars(s[i..r])
    ensures r == |s| || !IsWordChar(s[r])
    decreases |s| - i
  {
    if i < |s| && IsWordChar(s[i]) then WordEnd(s, i + 1) else i
  }

  /** The end of the longest run of ASCII letters and digits that starts at `i`. */
  function AlnumEnd(s: string, i: nat): (r: nat)
    requires i <= |s|
    ensures i <= r <= |s|
    ensures forall k :: i <= k < r ==> IsAsciiAlnum(s[k])
    ensures r == |s| || !IsAsciiAlnum(s[r])
    decreases |s| - i
  {
    if i < |s| && IsAsciiAlnum(s[i]) then AlnumEnd(s, i + 1) else i
  }

  /** The end of the longest run of digits that starts at `i`. */
  function DigitEnd(s: string, i: nat): (r: nat)
    requires i <= |s|
    ensures i <= r <= |s|
    ensures AllDigits(s[i..r])
    ensures r == |s| || !IsDigit(s[r])
    decreases |s| - i
  {
    if i < |s| && IsDigit(s[i]) then DigitEnd(s, i + 1) else i
  }

  /** The start of the trailing whitespace of `s[lo..]`. */
  function TrailingWsStart(s: string, lo: nat): (r: nat)
    requires lo <= |s|
    ensures lo <= r <= |s|
    ensures AllSpace(s[r..])
    ensures r == lo || !IsSpace(s[r - 1])
    decreases |s| - lo
  {
    if lo < |s| && IsSpace(s[|s| - 1]) then
      var r := TrailingWsStart(s[..|s| - 1], lo);
      assert s[r..] == s[..|s| - 1][r..] + [s[|s| - 1]];
      r
    else |s|
  }

  /** Python's `str.strip()` with no argument. */
  function Strip(s: string): (r: string)
    ensures |r| <= |s|
    ensures r == [] || (!IsSpace(r[0]) && !IsSpace(r[|r| - 1]))
    ensures exists i :: 0 <= i <= |s| - |r| && r == s[i..i + |r|] && AllSpace(s[..i]) && AllSpace(s[i + |r|..])
  {
    var i := WsEnd(s, 0);
    var j := TrailingWsStart(s, i);
    assert s[..i] == s[0..i];
    s[i..j]
  }

  /** A name without surrounding whitespace is its own stripped form. */
  lemma StripUnchanged(s: string)
    requires s == [] || (!IsSpace(s[0]) && !IsSpace(s[|s| - 1]))
    ensures Strip(s) == s
  {
    assert WsEnd(s, 0) == 0;
    assert TrailingWsStart(s, 0) == |s|;
    assert s[0..|s|] == s;
  }

  /** The decimal digits of `n`, as `str(n)` writes them. */
  function NatToString(n: nat): (r: string)
    ensures |r| >= 1 && AllDigits(r)
    ensures |r| > 1 ==> r[0] != '0'
    decreases n
  {
    if n < 10 then ['0' + n as char] else NatToString(n / 10) + ['0' + (n % 10) as char]
  }

  /** The value of a non-empty run of decimal digits. */
  function DigitsValue(s: string): (r: nat)
    requires AllDigits(s)
    decreases |s|
  {
    if s == [] then 0 else 10 * DigitsValue(s[..|s| - 1]) + (s[|s| - 1] - '0') as nat
  }

  lemma {:induction false} DigitsValueOfNatToString(n: nat)
    ensures DigitsValue(NatToString(n)) == n
    decreases n
  {
    var r := NatToString(n);
    if n >= 10 {
      DigitsValueOfNatToString(n / 10);
      assert r[..|r| - 1] == NatToString(n / 10);
    } else {
      assert r[..|r| - 1] == [];
    }
  }

  /** Distinct numbers are written differently. */
  lemma NatToStringInjective(m: nat, n: nat)
    requires m != n
    ensures NatToString(m) != NatToString(n)
  {
    DigitsValueOfNatToString(m);
    DigitsValueOfNatToString(n);
  }
}
