/** The few JavaScript string operations the wizard relies on: `trim`, `toLowerCase`,
    `replace(' ', '')`, `Number.prototype.toString` on naturals and `padStart(2, '0')`. */
module Text {

  /** The code points ECMAScript calls WhiteSpace or LineTerminator: what `trim` strips. */
  predicate IsWhitespace(c: char) {
    || c == '\t' || c == '\n' || c == '\U{B}' || c == '\U{C}' || c == '\r' || c == ' '
    || c == '\U{A0}' || c == '\U{1680}' || ('\U{2000}' <= c <= '\U{200A}')
    || c == '\U{2028}' || c == '\U{2029}' || c == '\U{202F}' || c == '\U{205F}'
    || c == '\U{3000}' || c == '\U{FEFF}'
  }

  /** `s` holds at least one character that `trim` keeps. */
  predicate HasVisibleChar(s: string) {
    exists i :: 0 <= i < |s| && !IsWhitespace(s[i])
  }

  /** Strips leading whitespace: the result is the suffix of `s` after its whitespace prefix. */
  function TrimStart(s: string): (r: string)
    ensures |r| <= |s| && r == s[|s| - |r|..]
    ensures forall i :: 0 <= i < |s| - |r| ==> IsWhitespace(s[i])
    ensures r != [] ==> !IsWhitespace(r[0])
  {
    if s != [] && IsWhitespace(s[0]) then TrimStart(s[1..]) else s
  }

  /** Strips trailing whitespace: the result is the prefix of `s` before its whitespace suffix. */
  function TrimEnd(s: string): (r: string)
    ensures |r| <= |s| && r == s[..|r|]
    ensures forall i :: |r| <= i < |s| ==> IsWhitespace(s[i])
    ensures r != [] ==> !IsWhitespace(r[|r| - 1])
  {
    if s != [] && IsWhitespace(s[|s| - 1]) then TrimEnd(s[..|s| - 1]) else s
  }

  /** `r` is the slice of `s` that starts at `k`, and everything of `s` around it is whitespace. */
  predicate StrippedAt(s: string, r: string, k: int) {
    && 0 <= k && k + |r| <= |s| && r == s[k..k + |r|]
    && (forall i :: 0 <= i < k ==> IsWhitespace(s[i]))
    && (forall i :: k + |r| <= i < |s| ==> IsWhitespace(s[i]))
  }

  /** `String.prototype.trim`. It removes a whitespace prefix and a whitespace suffix of `s`,
      yields the empty string exactly when every character of `s` is whitespace, and otherwise
      starts and ends with a kept character; so it strips exactly the outer whitespace. */
  function Trim(s: string): (r: string)
    ensures exists k :: StrippedAt(s, r, k)
    ensures r == "" <==> !HasVisibleChar(s)
    ensures r != "" ==> !IsWhitespace(r[0]) && !IsWhitespace(r[|r| - 1])
    ensures |r| <= |s|
  {
    var t := TrimStart(s);
    TrimSlices(s);
    TrimOuterParts(s, t, TrimEnd(t), |s| - |t|);
    TrimEnd(t)
  }

  /** Stripping both ends leaves nothing only when `s` holds nothing but whitespace. */
  lemma TrimSlices(s: string)
    ensures TrimEnd(TrimStart(s)) == "" <==> !HasVisibleChar(s)
    ensures TrimEnd(TrimStart(s)) != "" ==> TrimEnd(TrimStart(s))[0] == TrimStart(s)[0]
  {
    var t := TrimStart(s);
    var r := TrimEnd(t);
    var k := |s| - |t|;
    if r == "" {
      assert t == [];
    } else {
      assert r[0] == t[0] == s[k];
    }
  }

  /** The characters `TrimEnd` drops from `TrimStart(s)` sit at the end of `s`. */
  lemma TrimOuterParts(s: string, t: string, r: string, k: int)
    requires t == TrimStart(s) && r == TrimEnd(t) && k == |s| - |t|
    ensures StrippedAt(s, r, k)
  {
    assert t == s[k..];
    assert r == t[..|r|];
    assert r == s[k..k + |r|];
    forall i | k + |r| <= i < |s|
      ensures IsWhitespace(s[i])
    {
      assert s[i] == t[i - k];
    }
  }

  predicate IsAsciiUpper(c: char) {
    'A' <= c <= 'Z'
  }

  /** `toLowerCase` on ASCII letters: every upper-case ASCII letter becomes its lower-case
      partner and nothing else changes. */
  function ToLowerAscii(s: string): (r: string)
    ensures |r| == |s|
    ensures forall i :: 0 <= i < |s| ==> !IsAsciiUpper(r[i])
    ensures forall i :: 0 <= i < |s| ==> if IsAsciiUpper(s[i]) then r[i] as int == s[i] as int + 32 else r[i] == s[i]
  {
    if s == [] then []
    else
      var c := if IsAsciiUpper(s[0]) then (s[0] as int + 32) as char else s[0];
      [c] + ToLowerAscii(s[1..])
  }

  /** `indexOf(' ')`: the position of the first space, or -1 when there is none. */
  function IndexOfSpace(s: string): (k: int)
    ensures -1 <= k < |s|
    ensures k == -1 <==> ' ' !in s
    ensures k >= 0 ==> s[k] == ' ' && ' ' !in s[..k]
  {
    if s == [] then -1
    else if s[0] == ' ' then 0
    else
      var k := IndexOfSpace(s[1..]);
      assert s[1..][..k + 1] == s[1..k + 2];
      if k == -1 then -1 else k + 1
  }

  /** `replace(' ', '')` with a string pattern, as ECMAScript defines it: find the first
      occurrence with `indexOf` and splice the replacement in there. Only the first space is
      removed, and the other characters keep their order. */
  function RemoveFirstSpace(s: string): (r: string)
    ensures ' ' !in s ==> r == s
    ensures ' ' in s ==> exists k :: 0 <= k < |s| && s[k] == ' ' && ' ' !in s[..k] && r == s[..k] + s[k + 1..]
    ensures ' ' in s ==> |r| == |s| - 1
    ensures forall c :: c in r ==> c in s
  {
    var k := IndexOfSpace(s);
    if k < 0 then s
    else
      assert forall c :: c in s[..k] + s[k + 1..] ==> c in s;
      s[..k] + s[k + 1..]
  }

  predicate IsDigit(c: char) {
    '0' <= c <= '9'
  }

  function DigitValue(c: char): (d: nat)
    requires IsDigit(c)
    ensures d < 10
  {
    c as int - '0' as int
  }

  function DigitChar(d: nat): (c: char)
    requires d < 10
    ensures IsDigit(c) && DigitValue(c) == d
  {
    ('0' as int + d) as char
  }

  /** The number a string of decimal digits denotes, most significant digit first. */
  function DecimalValue(s: string): nat
    requires forall i :: 0 <= i < |s| ==> IsDigit(s[i])
  {
    if s == [] then 0 else 10 * DecimalValue(s[..|s| - 1]) + DigitValue(s[|s| - 1])
  }

  /** `n.toString()` for a natural number: non-empty, all digits, no leading zero, and it
      denotes `n`. */
  function DecimalText(n: nat): (r: string)
    ensures |r| >= 1 && forall i :: 0 <= i < |r| ==> IsDigit(r[i])
    ensures r[0] == '0' ==> n == 0
    ensures DecimalValue(r) == n
    ensures n < 10 <==> |r| == 1
  {
    if n < 10 then [DigitChar(n)]
    else
      var prefix := DecimalText(n / 10);
      var r := prefix + [DigitChar(n % 10)];
      assert r[..|r| - 1] == prefix;
      r
  }

  /** `n.toString()` for a number of at most two digits, written out without recursion. */
  function ShortDecimalText(n: nat): (r: string)
    requires n < 100
    ensures r == DecimalText(n)
  {
    if n < 10 then [DigitChar(n)]
    else
      assert DecimalText(n) == DecimalText(n / 10) + [DigitChar(n % 10)];
      [DigitChar(n / 10), DigitChar(n % 10)]
  }

  /** `padStart(2, '0')`: zeros are put in front until the string is two characters long. */
  function PadStart2(s: string): (r: string)
    ensures |r| == if |s| < 2 then 2 else |s|
    ensures r[|r| - |s|..] == s
    ensures forall i :: 0 <= i < |r| - |s| ==> r[i] == '0'
  {
    if |s| >= 2 then s
    else if |s| == 1 then ['0'] + s
    else "00"
  }
}
