/** JavaScript values and string operations the request handler relies on:
    possibly-undefined strings and their truthiness, `String.prototype.trim`,
    decimal formatting of an integer inside a template literal, and substring
    predicates used to state what a prompt contains. */
module JsStrings {

  /** An optional value: `None` when there is none.  For a request field or
      an environment variable, `None` stands for `undefined` or `null`. */
  datatype Option<+T> = None | Some(value: T)

  /** An operation that either returns a value or throws an `Error` whose
      `message` is the `Err` payload. */
  datatype Result<+T, +E> = Ok(value: T) | Err(error: E)

  /** JavaScript truthiness of an optional string: `undefined`, `null` and
      `''` are falsy, every other string (white space included) is truthy. */
  predicate Truthy(o: Option<string>) {
    o.Some? && o.value != ""
  }

  /** The JavaScript `a || b` on an optional string with a string fallback.
      The result is always one of the two operands, and it is truthy exactly
      when at least one operand is, so a truthy fallback makes it truthy. */
  function OrElse(o: Option<string>, fallback: string): (r: string)
    ensures Truthy(o) ==> r == o.value
    ensures !Truthy(o) ==> r == fallback
    ensures (r != "") <==> (Truthy(o) || fallback != "")
  {
    if Truthy(o) then o.value else fallback
  }

  // ---------------------------------------------------------------------
  // String.prototype.trim

  /** The code points ECMAScript's `trim` removes from both ends: the
      WhiteSpace and LineTerminator productions (sections 12.2 and 12.3 of
      ECMA-262). */
  predicate IsWhiteSpace(c: char) {
    c == '\t' || c == '\n' || c == '\U{000B}' || c == '\U{000C}' || c == '\r'
    || c == ' ' || c == '\U{00A0}' || c == '\U{1680}'
    || ('\U{2000}' <= c <= '\U{200A}')
    || c == '\U{2028}' || c == '\U{2029}' || c == '\U{202F}' || c == '\U{205F}'
    || c == '\U{3000}' || c == '\U{FEFF}'
  }

  predicate AllWhiteSpace(s: string) {
    forall i :: 0 <= i < |s| ==> IsWhiteSpace(s[i])
  }

  /** Neither end of `s` is white space. */
  predicate Trimmed(s: string) {
    |s| == 0 || (!IsWhiteSpace(s[0]) && !IsWhiteSpace(s[|s| - 1]))
  }

  /** The length of the white-space run that opens `s`. */
  function LeadingWhiteSpace(s: string): (n: nat)
    ensures n <= |s|
    ensures AllWhiteSpace(s[..n])
    ensures n < |s| ==> !IsWhiteSpace(s[n])
  {
    if |s| > 0 && IsWhiteSpace(s[0]) then
      var m := LeadingWhiteSpace(s[1..]);
      assert s[..1 + m] == [s[0]] + s[1..][..m];
      1 + m
    else 0
  }

  /** The length of the white-space run that closes `s`. */
  function TrailingWhiteSpace(s: string): (n: nat)
    ensures n <= |s|
    ensures AllWhiteSpace(s[|s| - n..])
    ensures n < |s| ==> !IsWhiteSpace(s[|s| - 1 - n])
  {
    if |s| > 0 && IsWhiteSpace(s[|s| - 1]) then
      var init := s[..|s| - 1];
      var m := TrailingWhiteSpace(init);
      assert s[|s| - (1 + m)..] == init[|init| - m..] + [s[|s| - 1]];
      1 + m
    else 0
  }

  /** `s.trim()`: `s` with the white space at both ends removed.  The result
      is the middle of `s` between two all-white-space ends, and itself has
      no white space at either end. */
  function Trim(s: string): (r: string)
    ensures Trimmed(r)
    ensures exists i :: 0 <= i <= |s| - |r|
              && AllWhiteSpace(s[..i]) && s[i..i + |r|] == r && AllWhiteSpace(s[i + |r|..])
  {
    var i := LeadingWhiteSpace(s);
    var t := s[i..];
    var n := TrailingWhiteSpace(t);
    var r := t[..|t| - n];
    assert |r| > 0 ==> r[0] == s[i] && r[|r| - 1] == t[|t| - 1 - n];
    assert s[i..i + |r|] == r;
    assert s[i + |r|..] == t[|t| - n..];
    assert AllWhiteSpace(s[..i]) && AllWhiteSpace(s[i + |r|..]);
    r
  }

  /** A white-space run followed by a non-white-space character (or by
      nothing) is exactly the opening white-space run. */
  lemma {:induction false} LeadingWhiteSpaceOf(w: string, x: string)
    requires AllWhiteSpace(w)
    requires |x| == 0 || !IsWhiteSpace(x[0])
    ensures LeadingWhiteSpace(w + x) == |w|
    decreases |w|
  {
    if |w| > 0 {
      assert (w + x)[1..] == w[1..] + x;
      LeadingWhiteSpaceOf(w[1..], x);
    } else {
      assert w + x == x;
    }
  }

  /** Mirror image of LeadingWhiteSpaceOf for the closing run. */
  lemma {:induction false} TrailingWhiteSpaceOf(x: string, w: string)
    requires AllWhiteSpace(w)
    requires |x| == 0 || !IsWhiteSpace(x[|x| - 1])
    ensures TrailingWhiteSpace(x + w) == |w|
    decreases |w|
  {
    if |w| > 0 {
      var s := x + w;
      assert s[..|s| - 1] == x + w[..|w| - 1];
      TrailingWhiteSpaceOf(x, w[..|w| - 1]);
    } else {
      assert x + w == x;
    }
  }

  /** `trim` is determined by its two properties: a string made of a
      white-space prefix, an untrimmable middle and a white-space suffix
      trims to exactly that middle. */
  lemma TrimOfPadded(a: string, m: string, b: string)
    requires AllWhiteSpace(a) && Trimmed(m) && AllWhiteSpace(b)
    ensures Trim(a + m + b) == m
  {
    var s := a + m + b;
    if |m| == 0 {
      assert s == (a + b) + "";
      LeadingWhiteSpaceOf(a + b, "");
      assert s[|s|..] == "";
      TrailingWhiteSpaceOf("", "");
    } else {
      assert s == a + (m + b);
      LeadingWhiteSpaceOf(a, m + b);
      assert s[|a|..] == m + b;
      TrailingWhiteSpaceOf(m, b);
      assert (m + b)[..|m|] == m;
    }
  }

  /** Trimming twice is trimming once. */
  lemma TrimIdempotent(s: string)
    ensures Trim(Trim(s)) == Trim(s)
  {
    var r := Trim(s);
    assert "" + r + "" == r;
    TrimOfPadded("", r, "");
  }

  /** A string with nothing to trim is its own trim. */
  lemma TrimOfTrimmed(s: string)
    requires Trimmed(s)
    ensures Trim(s) == s
  {
    assert "" + s + "" == s;
    TrimOfPadded("", s, "");
  }

  // ---------------------------------------------------------------------
  // Decimal formatting of a non-negative integer, as `${n}` renders it

  predicate IsDigit(c: char) {
    '0' <= c <= '9'
  }

  predicate AllDigits(s: string) {
    forall i :: 0 <= i < |s| ==> IsDigit(s[i])
  }

  function DigitChar(d: nat): (c: char)
    requires d < 10
    ensures IsDigit(c) && c as int - '0' as int == d
  {
    ('0' as int + d) as char
  }

  function DigitValue(c: char): nat
    requires IsDigit(c)
  {
    c as int - '0' as int
  }

  /** `${n}` for a non-negative integer `n`: its decimal digits, with no
      leading zero unless `n` is zero. */
  function NatToString(n: nat): (r: string)
    ensures |r| >= 1 && AllDigits(r)
    ensures r[0] == '0' ==> n == 0
    decreases n
  {
    if n < 10 then [DigitChar(n)] else NatToString(n / 10) + [DigitChar(n % 10)]
  }

  /** The number a string of decimal digits denotes. */
  function DecimalValue(s: string): nat
    requires AllDigits(s)
  {
    if |s| == 0 then 0 else 10 * DecimalValue(s[..|s| - 1]) + DigitValue(s[|s| - 1])
  }

  /** Reading back the decimal rendering of `n` gives `n`. */
  lemma {:induction false} DecimalRoundTrip(n: nat)
    ensures DecimalValue(NatToString(n)) == n
    decreases n
  {
    var r := NatToString(n);
    if n >= 10 {
      DecimalRoundTrip(n / 10);
      assert r[..|r| - 1] == NatToString(n / 10);
    }
  }

  /** The length of the run of decimal digits that opens `s`. */
  function LeadingDigits(s: string): (n: nat)
    ensures n <= |s| && AllDigits(s[..n])
    ensures n < |s| ==> !IsDigit(s[n])
  {
    if |s| > 0 && IsDigit(s[0]) then
      var m := LeadingDigits(s[1..]);
      assert s[..1 + m] == [s[0]] + s[1..][..m];
      1 + m
    else 0
  }

  /** A digit string followed by a non-digit is exactly the opening digit run. */
  lemma {:induction false} LeadingDigitsOf(d: string, x: string)
    requires AllDigits(d)
    requires |x| > 0 && !IsDigit(x[0])
    ensures LeadingDigits(d + x) == |d|
    decreases |d|
  {
    if |d| > 0 {
      assert (d + x)[1..] == d[1..] + x;
      LeadingDigitsOf(d[1..], x);
    } else {
      assert d + x == x;
    }
  }

  // ---------------------------------------------------------------------
  // Substrings

  predicate StartsWith(s: string, t: string) {
    |t| <= |s| && s[..|t|] == t
  }

  predicate EndsWith(s: string, t: string) {
    |t| <= |s| && s[|s| - |t|..] == t
  }

  /** `s.includes(t)`. */
  predicate Contains(s: string, t: string) {
    exists i :: 0 <= i <= |s| - |t| && OccursAt(s, t, i)
  }

  /** `t` occurs in `s` starting at index `i`. */
  predicate OccursAt(s: string, t: string, i: nat) {
    i + |t| <= |s| && s[i..i + |t|] == t
  }

  lemma StartsWithConcat(x: string, y: string)
    ensures StartsWith(x + y, x)
  {
    assert (x + y)[..|x|] == x;
  }

  lemma StartsWithTransitive(s: string, t: string, u: string)
    requires StartsWith(s, t) && StartsWith(t, u)
    ensures StartsWith(s, u)
  {
    assert s[..|u|] == s[..|t|][..|u|];
  }

  lemma EndsWithConcat(x: string, y: string)
    ensures EndsWith(x + y, y)
  {
    assert (x + y)[|x + y| - |y|..] == y;
  }

  /** Splitting `h + l + t` after `h` gives back `h` and `l + t`. */
  lemma SplitAfter(h: string, l: string, t: string)
    ensures |h| <= |h + l + t|
    ensures (h + l + t)[..|h|] == h && (h + l + t)[|h|..] == l + t
  {
  }

  lemma ConcatEmpty(x: string)
    ensures "" + x == x && x + "" == x
  {
  }

  /** Two regroupings of a six-part concatenation. */
  lemma Regroup(a: string, b: string, c: string, d: string, e: string, f: string)
    ensures ((((a + b) + c) + d) + e) + f == (a + (b + c)) + (d + (e + f))
    ensures a + ((((b + c) + d) + e) + f) == ((a + b) + ((c + d) + e)) + f
  {
  }

  lemma InsertRegroup(h: string, a: string, b: string, t: string)
    ensures h + (a + b) + t == h + a + b + t
  {
  }

  lemma FirstOfConcat(x: string, y: string)
    requires |x| > 0
    ensures (x + y)[0] == x[0]
  {
  }

  lemma DiffersAt(s: string, t: string, k: nat)
    requires k < |s| && k < |t| && s[k] != t[k]
    ensures !StartsWith(s, t)
  {
  }

  lemma NotStartsWith(s: string, t: string)
    requires |s| > 0 && |t| > 0 && s[0] != t[0]
    ensures !StartsWith(s, t)
  {
  }

  /** Where the parts of `a + b + c + d` show up in it. */
  lemma FourParts(a: string, b: string, c: string, d: string)
    ensures StartsWith(a + b + c + d, a)
    ensures EndsWith(a + b + c + d, c + d)
    ensures Contains(a + b + c + d, b + c + d)
  {
    assert (a + b + c + d)[..|a|] == a;
    assert (a + b + c + d)[|a + b|..] == c + d;
    assert OccursAt(a + b + c + d, b + c + d, |a|);
  }

  /** A string contains whatever was spliced into it. */
  lemma ContainsSpliced(a: string, t: string, b: string)
    ensures Contains(a + t + b, t)
  {
    assert OccursAt(a + t + b, t, |a|);
  }
}
