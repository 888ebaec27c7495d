/**
 * The handful of JavaScript string primitives the import parsers rely on:
 * `String.prototype.trim`, `split` with a one-character separator, the
 * quote-stripping regular expression `/^["']|["']$/g`, and the decimal
 * rendering of a non-negative integer inside a template literal.
 */
module JsText {

  /** ECMAScript WhiteSpace and LineTerminator code points: exactly what `trim` removes. */
  predicate IsWhitespace(c: char) {
    || c == '\t' || c == '\n' || c == '\U{000B}' || c == '\U{000C}' || c == '\r' || c == ' '
    || c == '\U{00A0}' || c == '\U{1680}' || ('\U{2000}' <= c <= '\U{200A}')
    || c == '\U{2028}' || c == '\U{2029}' || c == '\U{202F}' || c == '\U{205F}'
    || c == '\U{3000}' || c == '\U{FEFF}'
  }

  /** The index of the first character at or after `i` that is not whitespace, or `|s|`. */
  function SkipLeading(s: string, i: nat): (k: nat)
    requires i <= |s|
    ensures i <= k <= |s|
    decreases |s| - i
  {
    if i < |s| && IsWhitespace(s[i]) then SkipLeading(s, i + 1) else i
  }

  /** The index just past the last character before `j`, and not before `lo`, that is not whitespace, or `lo`. */
  function SkipTrailing(s: string, lo: nat, j: nat): (k: nat)
    requires lo <= j <= |s|
    ensures lo <= k <= j
  {
    if lo < j && IsWhitespace(s[j - 1]) then SkipTrailing(s, lo, j - 1) else j
  }

  /** `s.trim()`: the text between the leading and the trailing whitespace. */
  function Trim(s: string): (r: string)
    ensures |r| <= |s|
  {
    var a := SkipLeading(s, 0);
    s[a..SkipTrailing(s, a, |s|)]
  }

  lemma {:induction false} SkipLeadingSpec(s: string, i: nat)
    requires i <= |s|
    ensures forall m :: i <= m < SkipLeading(s, i) ==> IsWhitespace(s[m])
    ensures SkipLeading(s, i) < |s| ==> !IsWhitespace(s[SkipLeading(s, i)])
    decreases |s| - i
  {
    if i < |s| && IsWhitespace(s[i]) {
      SkipLeadingSpec(s, i + 1);
    }
  }

  lemma {:induction false} SkipTrailingSpec(s: string, lo: nat, j: nat)
    requires lo <= j <= |s|
    ensures forall m :: SkipTrailing(s, lo, j) <= m < j ==> IsWhitespace(s[m])
    ensures lo < SkipTrailing(s, lo, j) ==> !IsWhitespace(s[SkipTrailing(s, lo, j) - 1])
  {
    if lo < j && IsWhitespace(s[j - 1]) {
      SkipTrailingSpec(s, lo, j - 1);
    }
  }

  /**
   * What `trim` promises: the result is a slice of the input with only
   * whitespace cut off either side, it neither starts nor ends with
   * whitespace, and it is empty exactly when the input is all whitespace.
   */
  lemma TrimSpec(s: string)
    ensures exists a, b ::
              && 0 <= a <= b <= |s| && Trim(s) == s[a..b]
              && (forall m :: 0 <= m < a ==> IsWhitespace(s[m]))
              && (forall m :: b <= m < |s| ==> IsWhitespace(s[m]))
    ensures Trim(s) == [] || (!IsWhitespace(Trim(s)[0]) && !IsWhitespace(Trim(s)[|Trim(s)| - 1]))
    ensures Trim(s) == [] <==> forall m :: 0 <= m < |s| ==> IsWhitespace(s[m])
  {
    var a := SkipLeading(s, 0);
    var b := SkipTrailing(s, a, |s|);
    SkipLeadingSpec(s, 0);
    SkipTrailingSpec(s, a, |s|);
    assert Trim(s) == s[a..b];
    if a < b {
      assert !IsWhitespace(s[a]);
    }
  }

  /** Trimming is idempotent. */
  lemma TrimIdempotent(s: string)
    ensures Trim(Trim(s)) == Trim(s)
  {
    var t := Trim(s);
    TrimSpec(s);
    if t != [] {
      assert SkipLeading(t, 0) == 0;
      assert SkipTrailing(t, 0, |t|) == |t|;
    }
  }

  /** The pieces of `parts.join(sep)`. */
  function Join(parts: seq<string>, sep: char): string
  {
    if |parts| == 0 then ""
    else if |parts| == 1 then parts[0]
    else parts[0] + [sep] + Join(parts[1..], sep)
  }

  /**
   * The pieces of `s[start..]`, scanning from `i`, where the piece in
   * progress starts at `start` and `s[start..i]` holds no separator.
   */
  function SplitFrom(s: string, sep: char, start: nat, i: nat): (parts: seq<string>)
    requires start <= i <= |s|
    ensures |parts| >= 1
    decreases |s| - i
  {
    if i == |s| then [s[start..]]
    else if s[i] == sep then [s[start..i]] + SplitFrom(s, sep, i + 1, i + 1)
    else SplitFrom(s, sep, start, i + 1)
  }

  /** `s.split(sep)`: the maximal separator-free pieces, empty ones included. */
  function Split(s: string, sep: char): (parts: seq<string>)
    ensures |parts| >= 1
  {
    SplitFrom(s, sep, 0, 0)
  }

  lemma {:induction false} SplitFromSpec(s: string, sep: char, start: nat, i: nat)
    requires start <= i <= |s|
    requires forall m :: start <= m < i ==> s[m] != sep
    ensures forall k :: 0 <= k < |SplitFrom(s, sep, start, i)| ==> sep !in SplitFrom(s, sep, start, i)[k]
    ensures Join(SplitFrom(s, sep, start, i), sep) == s[start..]
    decreases |s| - i
  {
    var parts := SplitFrom(s, sep, start, i);
    if i == |s| {
    } else if s[i] == sep {
      var rest := SplitFrom(s, sep, i + 1, i + 1);
      SplitFromSpec(s, sep, i + 1, i + 1);
      assert parts == [s[start..i]] + rest;
      assert parts[1..] == rest;
      assert Join(parts, sep) == s[start..i] + [sep] + s[i + 1..];
      assert s[start..] == s[start..i] + [sep] + s[i + 1..];
    } else {
      SplitFromSpec(s, sep, start, i + 1);
    }
  }

  /** Splitting yields separator-free pieces that join back to the input. */
  lemma SplitSpec(s: string, sep: char)
    ensures forall k :: 0 <= k < |Split(s, sep)| ==> sep !in Split(s, sep)[k]
    ensures Join(Split(s, sep), sep) == s
  {
    SplitFromSpec(s, sep, 0, 0);
    assert s[0..] == s;
  }

  /** A split yields two or more pieces exactly when the separator occurs. */
  lemma SplitHasSeveralPieces(s: string, sep: char)
    ensures |Split(s, sep)| >= 2 <==> sep in s
  {
    var parts := Split(s, sep);
    SplitSpec(s, sep);
    if |parts| >= 2 {
      assert s == parts[0] + [sep] + Join(parts[1..], sep);
      assert s[|parts[0]|] == sep;
    } else {
      assert s == parts[0];
    }
  }

  predicate IsQuote(c: char) {
    c == '"' || c == '\''
  }

  /** `s.replace(/^["']|["']$/g, '')`: drop one leading and then one trailing quote character. */
  function StripQuotes(s: string): (r: string)
    ensures |s| - 2 <= |r| <= |s|
  {
    var t := if |s| > 0 && IsQuote(s[0]) then s[1..] else s;
    if |t| > 0 && IsQuote(t[|t| - 1]) then t[..|t| - 1] else t
  }

  /** Whatever sits between a pair of quotes comes back out unchanged. */
  lemma StripQuotesOfQuoted(open: char, x: string, close: char)
    requires IsQuote(open) && IsQuote(close)
    ensures StripQuotes([open] + x + [close]) == x
  {
    assert ([open] + x + [close])[1..] == x + [close];
    assert (x + [close])[..|x|] == x;
  }

  /** A value that neither starts nor ends with a quote is left alone. */
  lemma StripQuotesOfUnquoted(x: string)
    requires x == [] || (!IsQuote(x[0]) && !IsQuote(x[|x| - 1]))
    ensures StripQuotes(x) == x
  {
  }

  /** One CSV cell as the parsers clean it: trimmed, then one layer of quotes removed. */
  function Cell(s: string): string {
    StripQuotes(Trim(s))
  }

  /** `line.split(',').map(v => v.trim().replace(/^["']|["']$/g, ''))`. */
  function Cells(line: string): (cells: seq<string>)
    ensures |cells| == |Split(line, ',')|
    ensures forall k :: 0 <= k < |cells| ==> cells[k] == Cell(Split(line, ',')[k])
  {
    var pieces := Split(line, ',');
    seq(|pieces|, k requires 0 <= k < |pieces| => Cell(pieces[k]))
  }

  predicate IsDigit(c: char) {
    '0' <= c <= '9'
  }

  function DigitChar(d: nat): (c: char)
    requires d < 10
    ensures IsDigit(c)
  {
    ('0' as int + d) as char
  }

  function DigitValue(c: char): nat
    requires IsDigit(c)
  {
    (c as int - '0' as int) as nat
  }

  /** The number a string of decimal digits denotes. */
  function DecimalValue(s: string): nat
    requires forall i :: 0 <= i < |s| ==> IsDigit(s[i])
  {
    if |s| == 0 then 0 else DecimalValue(s[..|s| - 1]) * 10 + DigitValue(s[|s| - 1])
  }

  /** `${n}` for a non-negative integer: its shortest decimal rendering. */
  function NatToString(n: nat): (r: string)
    ensures |r| >= 1
  {
    if n < 10 then [DigitChar(n)] else NatToString(n / 10) + [DigitChar(n % 10)]
  }

  /** The rendering is a string of digits, denoting `n`, with no leading zero. */
  lemma {:induction false} NatToStringDecimal(n: nat)
    ensures forall i :: 0 <= i < |NatToString(n)| ==> IsDigit(NatToString(n)[i])
    ensures DecimalValue(NatToString(n)) == n
    ensures NatToString(n)[0] == '0' ==> n == 0
  {
    if n >= 10 {
      NatToStringDecimal(n / 10);
      var r := NatToString(n);
      assert r[..|r| - 1] == NatToString(n / 10);
    }
  }
}
