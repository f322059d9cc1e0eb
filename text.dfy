/** The pieces of Rust's standard string library that the client leans on:
    `char::is_whitespace`, `str::split_whitespace`, `[String]::join`, the
    decimal `Display` of unsigned integers and lower-casing. */
module Text {

  /** `char::is_whitespace`: membership in Unicode's White_Space property. */
  predicate IsWhitespace(c: char) {
    var n := c as int;
    (9 <= n <= 13) || n == 0x20 || n == 0x85 || n == 0xA0 || n == 0x1680
    || (0x2000 <= n <= 0x200A) || n == 0x2028 || n == 0x2029 || n == 0x202F
    || n == 0x205F || n == 0x3000
  }

  predicate AllWhitespace(s: string) {
    forall i :: 0 <= i < |s| ==> IsWhitespace(s[i])
  }

  predicate NoWhitespace(s: string) {
    forall i :: 0 <= i < |s| ==> !IsWhitespace(s[i])
  }

  /** True when `split_whitespace` yields at least one word. */
  predicate HasToken(s: string) {
    exists i :: 0 <= i < |s| && !IsWhitespace(s[i])
  }

  /** Number of whitespace characters before the first other character. */
  function LeadingWhitespace(s: string): (k: nat)
    ensures k <= |s|
    ensures AllWhitespace(s[..k])
    ensures k < |s| ==> !IsWhitespace(s[k])
  {
    if s == [] || !IsWhitespace(s[0]) then 0
    else
      var k := LeadingWhitespace(s[1..]);
      assert s[..k + 1] == [s[0]] + s[1..][..k];
      k + 1
  }

  /** Length of the run of non-whitespace characters that begins s. */
  function TokenLength(s: string): (n: nat)
    ensures n <= |s|
    ensures NoWhitespace(s[..n])
    ensures n < |s| ==> IsWhitespace(s[n])
  {
    if s == [] || IsWhitespace(s[0]) then 0
    else
      var n := TokenLength(s[1..]);
      assert s[..n + 1] == [s[0]] + s[1..][..n];
      n + 1
  }

  /** `str::split_whitespace`: the maximal runs of non-whitespace characters,
      in order; empty exactly when s has no non-whitespace character. */
  function SplitWhitespace(s: string): (words: seq<string>)
    ensures forall i :: 0 <= i < |words| ==> words[i] != [] && NoWhitespace(words[i])
    ensures words != [] <==> HasToken(s)
    decreases |s|
  {
    var k := LeadingWhitespace(s);
    if k == |s| then
      assert s[..k] == s;
      []
    else
      assert !IsWhitespace(s[k]);
      var t := s[k..];
      var n := TokenLength(t);
      [t[..n]] + SplitWhitespace(t[n..])
  }

  /** `s.split_whitespace().collect::<Vec<&str>>()[0]`; the indexing panics
      when there is no word, hence the precondition. */
  function FirstToken(s: string): string
    requires HasToken(s)
  {
    SplitWhitespace(s)[0]
  }

  /** The first word is the whole run of non-whitespace characters that
      follows the leading whitespace: it starts right after that whitespace
      and ends at the end of s or at a whitespace character. */
  lemma FirstTokenIsFirstRun(s: string)
    requires HasToken(s)
    ensures var k := LeadingWhitespace(s); var w := FirstToken(s);
      && w != [] && NoWhitespace(w)
      && AllWhitespace(s[..k])
      && k + |w| <= |s| && s[k..k + |w|] == w
      && (k + |w| == |s| || IsWhitespace(s[k + |w|]))
  {
    WordStartsBeforeEnd(s);
    RunAt(s, LeadingWhitespace(s));
    FirstTokenUnfolds(s);
  }

  /** The run of non-whitespace that starts at a non-whitespace position k. */
  lemma RunAt(s: string, k: nat)
    requires k < |s| && !IsWhitespace(s[k])
    ensures var n := TokenLength(s[k..]);
      && 0 < n && k + n <= |s|
      && s[k..][..n] == s[k..k + n] && NoWhitespace(s[k..k + n])
      && (k + n == |s| || IsWhitespace(s[k + n]))
  {
    var t := s[k..];
    var n := TokenLength(t);
    assert t[0] == s[k];
    assert t[..n] == s[k..k + n];
    if k + n < |s| {
      assert t[n] == s[k + n];
    }
  }

  /** Some character follows the leading whitespace of a text with a word. */
  lemma WordStartsBeforeEnd(s: string)
    requires HasToken(s)
    ensures LeadingWhitespace(s) < |s|
  {
    var k := LeadingWhitespace(s);
    var i :| 0 <= i < |s| && !IsWhitespace(s[i]);
    assert forall j :: 0 <= j < k ==> s[..k][j] == s[j];
  }

  /** The first word is the run of non-whitespace after the leading
      whitespace. */
  lemma FirstTokenUnfolds(s: string)
    requires HasToken(s) && LeadingWhitespace(s) < |s|
    ensures var t := s[LeadingWhitespace(s)..];
      FirstToken(s) == t[..TokenLength(t)]
  {
  }

  /** Leading whitespace is determined by where the first other character is. */
  lemma {:induction false} LeadingWhitespaceIs(s: string, k: nat)
    requires k <= |s| && AllWhitespace(s[..k])
    requires k < |s| ==> !IsWhitespace(s[k])
    ensures LeadingWhitespace(s) == k
  {
    if k > 0 {
      assert IsWhitespace(s[..k][0]);
      assert s[1..][..k - 1] == s[..k][1..];
      LeadingWhitespaceIs(s[1..], k - 1);
    }
  }

  /** A leading run of non-whitespace ended by whitespace or the end of s
      has length TokenLength(s). */
  lemma {:induction false} TokenLengthIs(s: string, n: nat)
    requires n <= |s| && NoWhitespace(s[..n])
    requires n < |s| ==> IsWhitespace(s[n])
    ensures TokenLength(s) == n
  {
    if n > 0 {
      assert !IsWhitespace(s[..n][0]);
      assert s[1..][..n - 1] == s[..n][1..];
      TokenLengthIs(s[1..], n - 1);
    }
  }

  /** Conversely to FirstTokenIsFirstRun: a non-empty run of non-whitespace
      characters that follows only whitespace and ends at whitespace or at
      the end of s is the first word of s. */
  lemma FirstTokenAt(s: string, k: nat, n: nat)
    requires 0 < n && k + n <= |s|
    requires AllWhitespace(s[..k]) && NoWhitespace(s[k..k + n])
    requires k + n < |s| ==> IsWhitespace(s[k + n])
    ensures HasToken(s) && FirstToken(s) == s[k..k + n]
  {
    assert !IsWhitespace(s[k..k + n][0]);
    LeadingWhitespaceIs(s, k);
    var t := s[k..];
    assert t[..n] == s[k..k + n];
    TokenLengthIs(t, n);
  }

  /** `[String]::join(sep)`: the parts with sep between neighbours. */
  function Join(parts: seq<string>, sep: string): string
  {
    if |parts| == 0 then ""
    else if |parts| == 1 then parts[0]
    else parts[0] + sep + Join(parts[1..], sep)
  }

  predicate InSomePart(parts: seq<string>, c: char) {
    exists i :: 0 <= i < |parts| && c in parts[i]
  }

  /** A character occurs in a join exactly when it occurs in one of the parts
      or in a separator that is actually placed (two parts or more). */
  lemma {:induction false} JoinContains(parts: seq<string>, sep: string, c: char)
    ensures c in Join(parts, sep) <==> InSomePart(parts, c) || (|parts| >= 2 && c in sep)
  {
    if |parts| == 1 {
      if c in parts[0] { assert InSomePart(parts, c); }
    } else if |parts| >= 2 {
      var tail := parts[1..];
      JoinContains(tail, sep, c);
      if InSomePart(tail, c) {
        var i :| 0 <= i < |tail| && c in tail[i];
        assert c in parts[i + 1];
      }
      if InSomePart(parts, c) {
        var i :| 0 <= i < |parts| && c in parts[i];
        if i > 0 { assert c in tail[i - 1]; }
      }
    }
  }

  /** A join is empty exactly when every part is empty and no non-empty
      separator is placed. */
  lemma {:induction false} JoinEmpty(parts: seq<string>, sep: string)
    ensures Join(parts, sep) == "" <==>
      (forall i :: 0 <= i < |parts| ==> parts[i] == "") && (|parts| <= 1 || sep == "")
  {
    if |parts| >= 2 {
      JoinEmpty(parts[1..], sep);
      assert forall i :: 1 <= i < |parts| ==> parts[i] == parts[1..][i - 1];
    }
  }

  predicate IsDigit(c: char) {
    '0' <= c <= '9'
  }

  predicate AllDigits(s: string) {
    forall i :: 0 <= i < |s| ==> IsDigit(s[i])
  }

  function DigitChar(d: nat): (c: char)
    requires d < 10
    ensures IsDigit(c) && c as int - '0' as int == d
  {
    (d + '0' as int) as char
  }

  /** The decimal `Display` of an unsigned integer: at least one digit and
      no leading zero except for 0 itself. */
  function DecimalString(n: nat): (s: string)
    ensures s != [] && AllDigits(s)
    ensures s[0] == '0' ==> n == 0 && |s| == 1
  {
    if n < 10 then [DigitChar(n)]
    else DecimalString(n / 10) + [DigitChar(n % 10)]
  }

  /** The number a string of decimal digits denotes. */
  function DecimalValue(s: string): nat
    requires AllDigits(s)
  {
    if s == [] then 0
    else 10 * DecimalValue(s[..|s| - 1]) + (s[|s| - 1] as int - '0' as int)
  }

  /** Reading back the decimal rendering gives the number. */
  lemma {:induction false} DecimalRoundTrip(n: nat)
    ensures DecimalValue(DecimalString(n)) == n
  {
    if n >= 10 {
      var s := DecimalString(n);
      DecimalRoundTrip(n / 10);
      assert s[..|s| - 1] == DecimalString(n / 10);
    }
  }

  /** Two decimal renderings are equal only for equal numbers. */
  lemma DecimalInjective(m: nat, n: nat)
    requires DecimalString(m) == DecimalString(n)
    ensures m == n
  {
    DecimalRoundTrip(m);
    DecimalRoundTrip(n);
  }

  function LowerAscii(c: char): char {
    if 'A' <= c <= 'Z' then (c as int + 32) as char else c
  }

  /** Lower-casing; on the ASCII letters this agrees with `str::to_lowercase`. */
  function ToLowerAscii(s: string): string {
    seq(|s|, i requires 0 <= i < |s| => LowerAscii(s[i]))
  }
}
