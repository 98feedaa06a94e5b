/** The string operations the front end relies on: the decimal rendering of a
    count in a template literal, `String.prototype.trim`, and `slice(0, n)`. */
module Text {

  predicate IsDigit(c: char) {
    '0' <= c <= '9'
  }

  predicate AllDigits(s: string) {
    forall i :: 0 <= i < |s| ==> IsDigit(s[i])
  }

  /** The decimal numeral of `n`, as `${n}` renders a non-negative integer. */
  function NatToString(n: nat): (r: string)
    ensures |r| >= 1 && AllDigits(r)
    ensures |r| > 1 ==> r[0] != '0'
  {
    if n < 10 then [('0' as int + n) as char]
    else NatToString(n / 10) + [('0' as int + n % 10) as char]
  }

  /** The value of a numeral: the inverse of NatToString. */
  function ParseNat(s: string): nat
    requires AllDigits(s)
  {
    if s == [] then 0
    else 10 * ParseNat(s[..|s| - 1]) + (s[|s| - 1] as int - '0' as int)
  }

  /** Parsing a rendered count gives the count back. */
  lemma {:induction false} ParseNatToString(n: nat)
    ensures ParseNat(NatToString(n)) == n
  {
    var r := NatToString(n);
    if n >= 10 {
      ParseNatToString(n / 10);
      assert r[..|r| - 1] == NatToString(n / 10);
    }
  }

  /** Different counts render differently, so a message that embeds a count
      determines it. */
  lemma NatToStringInjective(m: nat, n: nat)
    requires NatToString(m) == NatToString(n)
    ensures m == n
  {
    ParseNatToString(m);
    ParseNatToString(n);
  }

  /** The characters `String.prototype.trim` removes: the ECMAScript WhiteSpace
      code points (including the Unicode space separators) and LineTerminators. */
  predicate IsJsWhitespace(c: char) {
    || c == '\t' || c == '\n' || c == '\U{000B}' || c == '\U{000C}' || c == '\r'
    || c == ' ' || c == '\U{00A0}' || c == '\U{1680}'
    || ('\U{2000}' <= c <= '\U{200A}')
    || c == '\U{2028}' || c == '\U{2029}' || c == '\U{202F}' || c == '\U{205F}'
    || c == '\U{3000}' || c == '\U{FEFF}'
  }

  /** The index of the first non-whitespace character of `s` at or after
      `i`, or `|s|` when there is none. */
  function SkipSpace(s: string, i: nat): (j: nat)
    requires i <= |s|
    ensures i <= j <= |s|
    ensures forall k :: i <= k < j ==> IsJsWhitespace(s[k])
    ensures j < |s| ==> !IsJsWhitespace(s[j])
    decreases |s| - i
  {
    if i < |s| && IsJsWhitespace(s[i]) then SkipSpace(s, i + 1) else i
  }

  /** The end of `s[..m]` once its trailing whitespace, down to index `i`, is
      cut off. */
  function BackSpace(s: string, i: nat, m: nat): (e: nat)
    requires i <= m <= |s|
    ensures i <= e <= m
    ensures forall k :: e <= k < m ==> IsJsWhitespace(s[k])
    ensures e > i ==> !IsJsWhitespace(s[e - 1])
    decreases m
  {
    if m > i && IsJsWhitespace(s[m - 1]) then BackSpace(s, i, m - 1) else m
  }

  /** Where `s.trim()` starts in `s`. */
  function TrimStartIndex(s: string): nat {
    SkipSpace(s, 0)
  }

  /** `s.trim()`: the slice of `s` that starts and ends with a non-whitespace
      character, everything around it being whitespace; it is empty exactly
      when `s` is blank. */
  function Trim(s: string): (r: string)
    ensures |r| <= |s|
    ensures var lead := TrimStartIndex(s);
      && lead + |r| <= |s|
      && r == s[lead..lead + |r|]
      && (forall k :: 0 <= k < lead ==> IsJsWhitespace(s[k]))
      && (forall k :: lead + |r| <= k < |s| ==> IsJsWhitespace(s[k]))
    ensures r == [] || (!IsJsWhitespace(r[0]) && !IsJsWhitespace(r[|r| - 1]))
    ensures r == [] <==> forall k :: 0 <= k < |s| ==> IsJsWhitespace(s[k])
  {
    var lead := SkipSpace(s, 0);
    s[lead..BackSpace(s, lead, |s|)]
  }

  /** Trim's contract pins its result down: any slice of `s` with only
      whitespace around it and no whitespace at its ends is `Trim(s)`. */
  lemma TrimUnique(s: string, a: nat, b: nat)
    requires a <= b <= |s|
    requires forall k :: 0 <= k < a ==> IsJsWhitespace(s[k])
    requires forall k :: b <= k < |s| ==> IsJsWhitespace(s[k])
    requires a == b || (!IsJsWhitespace(s[a]) && !IsJsWhitespace(s[b - 1]))
    ensures Trim(s) == s[a..b]
  {
  }

  /** Whitespace around a string does not change what it trims to. */
  lemma TrimPadded(before: string, s: string, after: string)
    requires forall k :: 0 <= k < |before| ==> IsJsWhitespace(before[k])
    requires forall k :: 0 <= k < |after| ==> IsJsWhitespace(after[k])
    ensures Trim(before + s + after) == Trim(s)
  {
    var p := before + s + after;
    var t := Trim(s);
    var lead := TrimStartIndex(s);
    var a, b := |before| + lead, |before| + lead + |t|;
    assert p[a..b] == t;
    forall k | 0 <= k < a ensures IsJsWhitespace(p[k]) {
      if k >= |before| { assert p[k] == s[k - |before|]; }
    }
    forall k | b <= k < |p| ensures IsJsWhitespace(p[k]) {
      if k < |before| + |s| { assert p[k] == s[k - |before|]; }
      else { assert p[k] == after[k - |before| - |s|]; }
    }
    TrimUnique(p, a, b);
  }

  /** `s.slice(0, n)`: the first `n` characters, or all of `s` when shorter. */
  function Prefix(s: string, n: nat): (r: string)
    ensures |r| == if |s| < n then |s| else n
    ensures r <= s
  {
    if |s| < n then s else s[..n]
  }
}
