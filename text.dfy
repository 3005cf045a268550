/**
 * The string operations of ECMAScript that the pages rely on: decimal
 * rendering with zero padding (as `toISOString` pads its fields),
 * `String.prototype.trim`, and `Array.prototype.join` / `split` on a separator.
 */
module Text {

  predicate IsDigit(c: char) {
    '0' <= c <= '9'
  }

  predicate AllDigits(s: string) {
    forall i :: 0 <= i < |s| ==> IsDigit(s[i])
  }

  function DigitChar(d: nat): (c: char)
    requires d < 10
    ensures IsDigit(c) && c as int - '0' as int == d
  {
    ('0' as int + d) as char
  }

  function Pow10(w: nat): (p: nat)
    ensures p >= 1
  {
    if w == 0 then 1 else 10 * Pow10(w - 1)
  }

  /** The shortest decimal numeral of `k`, as `Number.prototype.toString` writes it. */
  function Decimal(k: nat): (s: string)
    ensures 1 <= |s| && AllDigits(s)
    ensures |s| > 1 ==> s[0] != '0'
  {
    if k < 10 then [DigitChar(k)] else Decimal(k / 10) + [DigitChar(k % 10)]
  }

  function Zeros(n: nat): (s: string)
    ensures |s| == n && forall i :: 0 <= i < n ==> s[i] == '0'
  {
    if n == 0 then "" else Zeros(n - 1) + "0"
  }

  /** `String(k).padStart(width, "0")`: the numeral of `k`, left-padded with zeros to at least `width` characters. */
  function PadStart(k: nat, width: nat): (s: string)
    ensures AllDigits(s)
    ensures |s| == if |Decimal(k)| >= width then |Decimal(k)| else width
  {
    var d := Decimal(k);
    if |d| >= width then d else Zeros(width - |d|) + d
  }

  /** The value of a numeral, leading zeros allowed. */
  function ParseDigits(s: string): nat
    requires AllDigits(s)
  {
    if s == [] then 0 else 10 * ParseDigits(s[..|s| - 1]) + (s[|s| - 1] as int - '0' as int)
  }

  lemma {:induction false} ParseDecimal(k: nat)
    ensures ParseDigits(Decimal(k)) == k
  {
    if k >= 10 {
      var s := Decimal(k);
      assert s[..|s| - 1] == Decimal(k / 10);
      ParseDecimal(k / 10);
    }
  }

  lemma {:induction false} ParseZeros(n: nat)
    ensures ParseDigits(Zeros(n)) == 0
  {
    if n > 0 {
      assert Zeros(n)[..n - 1] == Zeros(n - 1);
      ParseZeros(n - 1);
    }
  }

  lemma {:induction false} ParseAfterZeros(n: nat, s: string)
    requires AllDigits(s)
    ensures AllDigits(Zeros(n) + s) && ParseDigits(Zeros(n) + s) == ParseDigits(s)
    decreases |s|
  {
    var z := Zeros(n);
    if s == [] {
      assert z + s == z;
      ParseZeros(n);
    } else {
      var init := s[..|s| - 1];
      assert (z + s)[..|z + s| - 1] == z + init;
      ParseAfterZeros(n, init);
    }
  }

  /** Padding never changes the value: reading a padded numeral back gives the number. */
  lemma ParsePadStart(k: nat, width: nat)
    ensures ParseDigits(PadStart(k, width)) == k
  {
    ParseDecimal(k);
    var d := Decimal(k);
    if |d| < width {
      ParseAfterZeros(width - |d|, d);
    }
  }

  /** A number below 10^w has a numeral of at most w digits, so padding to w gives exactly w characters. */
  lemma {:induction false} DecimalFits(k: nat, w: nat)
    requires 1 <= w && k < Pow10(w)
    ensures |Decimal(k)| <= w && |PadStart(k, w)| == w
  {
    if k >= 10 {
      if w == 1 { assert false; }
      assert k / 10 < Pow10(w - 1);
      DecimalFits(k / 10, w - 1);
    }
  }

  /** A numeral of at most w digits stands for a number below 10^w. */
  lemma {:induction false} DecimalBelow(k: nat, w: nat)
    requires |Decimal(k)| <= w
    ensures k < Pow10(w)
  {
    if k >= 10 {
      DecimalBelow(k / 10, w - 1);
    }
  }

  /** A numeral of exactly `|s|` digits is what padding its value to `|s|` writes: the numeral is canonical. */
  lemma {:induction false} PadStartOfParse(s: string)
    requires AllDigits(s) && |s| >= 1
    ensures PadStart(ParseDigits(s), |s|) == s
    decreases |s|
  {
    var init := s[..|s| - 1];
    var c := s[|s| - 1];
    var v := c as int - '0' as int;
    var p := ParseDigits(init);
    assert ParseDigits(s) == 10 * p + v;
    if p == 0 {
      AllZerosOfParseZero(init);
      assert Decimal(10 * p + v) == [c];
      assert Zeros(|s| - 1) == init;
      assert s == init + [c];
    } else {
      assert |init| >= 1;
      PadStartOfParse(init);
      assert 10 * p + v >= 10;
      assert (10 * p + v) / 10 == p && (10 * p + v) % 10 == v;
      assert Decimal(10 * p + v) == Decimal(p) + [DigitChar(v)];
      assert DigitChar(v) == c;
      var d := Decimal(p);
      if |d| >= |init| {
        assert PadStart(p, |init|) == d;
        assert s == init + [c];
      } else {
        assert PadStart(p, |init|) == Zeros(|init| - |d|) + d;
        assert Zeros(|s| - |d + [c]|) + (d + [c]) == (Zeros(|init| - |d|) + d) + [c];
        assert s == init + [c];
      }
    }
  }

  lemma {:induction false} AllZerosOfParseZero(s: string)
    requires AllDigits(s) && ParseDigits(s) == 0
    ensures s == Zeros(|s|)
    decreases |s|
  {
    if s != [] {
      var init := s[..|s| - 1];
      AllZerosOfParseZero(init);
      assert s == init + [s[|s| - 1]];
    }
  }

  // ---------------------------------------------------------------------
  // String.prototype.trim

  /** ECMAScript WhiteSpace and LineTerminator code points: what `trim` removes. */
  predicate IsWhiteSpace(c: char) {
    c == '\t' || c == '\U{000B}' || c == '\U{000C}' || c == ' ' || c == '\U{00A0}' || c == '\U{FEFF}'
    || c == '\U{1680}' || ('\U{2000}' <= c <= '\U{200A}') || c == '\U{202F}' || c == '\U{205F}' || c == '\U{3000}'
    || c == '\n' || c == '\r' || c == '\U{2028}' || c == '\U{2029}'
  }

  predicate AllWhiteSpace(s: string) {
    forall i :: 0 <= i < |s| ==> IsWhiteSpace(s[i])
  }

  lemma AllWhiteSpaceCons(c: char, s: string)
    requires IsWhiteSpace(c) && AllWhiteSpace(s)
    ensures AllWhiteSpace([c] + s)
  {
    assert forall i :: 0 < i <= |s| ==> ([c] + s)[i] == s[i - 1];
  }

  lemma AllWhiteSpaceSnoc(s: string, c: char)
    requires AllWhiteSpace(s) && IsWhiteSpace(c)
    ensures AllWhiteSpace(s + [c])
  {
    assert forall i :: 0 <= i < |s| ==> (s + [c])[i] == s[i];
  }

  /** A split of the tail of `s` extends to a split of `s`, with the first character joining the front. */
  lemma DropFirst(s: string, r: string)
    requires s != [] && |r| <= |s| - 1 && s[1..] == s[1..][..|s| - 1 - |r|] + r
    ensures s == s[..|s| - |r|] + r && s[..|s| - |r|] == [s[0]] + s[1..][..|s| - 1 - |r|]
  {
    assert s == [s[0]] + s[1..];
  }

  /** A split of all but the last character of `s` extends to a split of `s`, with the last character joining the back. */
  lemma DropLast(s: string, r: string)
    requires s != [] && |r| <= |s| - 1 && s[..|s| - 1] == r + s[..|s| - 1][|r|..]
    ensures s == r + s[|r|..] && s[|r|..] == s[..|s| - 1][|r|..] + [s[|s| - 1]]
  {
    assert s == s[..|s| - 1] + [s[|s| - 1]];
  }

  /** The first index at or after `i` that is not white space, or `|s|`. */
  function LeadingEnd(s: string, i: nat): (j: nat)
    requires i <= |s|
    ensures i <= j <= |s|
    ensures forall k :: i <= k < j ==> IsWhiteSpace(s[k])
    ensures j < |s| ==> !IsWhiteSpace(s[j])
    decreases |s| - i
  {
    if i < |s| && IsWhiteSpace(s[i]) then LeadingEnd(s, i + 1) else i
  }

  /** `s.trimStart()`: the longest suffix of `s` that does not start with white space. */
  function TrimStart(s: string): (r: string)
    ensures |r| <= |s| && s == s[..|s| - |r|] + r
    ensures AllWhiteSpace(s[..|s| - |r|])
    ensures r != [] ==> !IsWhiteSpace(r[0])
  {
    var j := LeadingEnd(s, 0);
    assert s == s[..j] + s[j..];
    s[j..]
  }

  /** `s.trimEnd()`: the longest prefix of `s` that does not end with white space. */
  function TrimEnd(s: string): (r: string)
    ensures |r| <= |s| && s == r + s[|r|..]
    ensures AllWhiteSpace(s[|r|..])
    ensures r != [] ==> !IsWhiteSpace(r[|r| - 1])
  {
    if s != [] && IsWhiteSpace(s[|s| - 1]) then
      var r := TrimEnd(s[..|s| - 1]);
      DropLast(s, r);
      AllWhiteSpaceSnoc(s[..|s| - 1][|r|..], s[|s| - 1]);
      r
    else s
  }

  /** `s.trim()`: `s` without its leading and trailing white space. */
  function Trim(s: string): (r: string)
    ensures |r| <= |s|
    ensures r != [] ==> !IsWhiteSpace(r[0]) && !IsWhiteSpace(r[|r| - 1])
  {
    TrimEnd(TrimStart(s))
  }

  /** What `trim` drops is white space, before and after the text it keeps. */
  lemma TrimCuts(s: string) returns (lead: string, trail: string)
    ensures s == lead + Trim(s) + trail && AllWhiteSpace(lead) && AllWhiteSpace(trail)
  {
    var t := TrimStart(s);
    var r := TrimEnd(t);
    lead, trail := s[..|s| - |t|], t[|r|..];
    assert s == lead + (r + trail);
  }

  /** A message is blank, `!s.trim()`, exactly when every character of it is white space. */
  lemma TrimEmptyIffBlank(s: string)
    ensures Trim(s) == "" <==> AllWhiteSpace(s)
  {
    if Trim(s) == "" {
      var lead, trail := TrimCuts(s);
      assert s == lead + trail;
      forall k | 0 <= k < |s| ensures IsWhiteSpace(s[k]) {
        if k < |lead| { assert s[k] == lead[k]; } else { assert s[k] == trail[k - |lead|]; }
      }
    }
  }

  /** Trimming twice is trimming once. */
  lemma TrimIdempotent(s: string)
    ensures Trim(Trim(s)) == Trim(s)
  {
    var r := Trim(s);
    if r != [] {
      assert !IsWhiteSpace(r[0]) && TrimStart(r) == r;
      assert TrimEnd(r) == r;
    }
  }

  /** A word with no white space at either end is its own trim, also after one leading space. */
  lemma TrimUnpadded(w: string)
    requires w != [] && !IsWhiteSpace(w[0]) && !IsWhiteSpace(w[|w| - 1])
    ensures Trim(w) == w && Trim(" " + w) == w
  {
    assert TrimStart(w) == w && TrimEnd(w) == w;
    assert (" " + w)[1..] == w;
  }

  // ---------------------------------------------------------------------
  // Array.prototype.join and String.prototype.split

  /** `parts.join(sep)`. */
  function Join(parts: seq<string>, sep: string): string {
    if |parts| == 0 then ""
    else if |parts| == 1 then parts[0]
    else parts[0] + sep + Join(parts[1..], sep)
  }

  lemma {:induction false} JoinAppend(a: seq<string>, b: seq<string>, sep: string)
    requires a != [] && b != []
    ensures Join(a + b, sep) == Join(a, sep) + sep + Join(b, sep)
    decreases |a|
  {
    if |a| == 1 {
      assert (a + b)[1..] == b;
    } else {
      assert (a + b)[1..] == a[1..] + b;
      JoinAppend(a[1..], b, sep);
    }
  }

  /** `s.split(sep)` for a one-character separator. */
  function Split(s: string, sep: char): (parts: seq<string>)
    ensures |parts| >= 1
    decreases |s|
  {
    if s == [] then [""]
    else
      var rest := Split(s[1..], sep);
      if s[0] == sep then [""] + rest
      else [[s[0]] + rest[0]] + rest[1..]
  }

  lemma {:induction false} SplitFree(s: string, sep: char)
    requires sep !in s
    ensures Split(s, sep) == [s]
    decreases |s|
  {
    if s != [] {
      SplitFree(s[1..], sep);
      assert [s[0]] + s[1..] == s;
    }
  }

  lemma {:induction false} SplitConcat(a: string, b: string, sep: char)
    requires sep !in a
    ensures Split(a + [sep] + b, sep) == [a] + Split(b, sep)
    decreases |a|
  {
    if a == [] {
      assert a + [sep] + b == [sep] + b;
      assert ([sep] + b)[1..] == b;
    } else {
      assert (a + [sep] + b)[1..] == a[1..] + [sep] + b;
      SplitConcat(a[1..], b, sep);
      assert [a[0]] + a[1..] == a;
    }
  }

  /** Joining on a one-character separator that no part contains and splitting on it again gives the parts back. */
  lemma {:induction false} SplitJoin(parts: seq<string>, sep: char)
    requires parts != []
    requires forall i :: 0 <= i < |parts| ==> sep !in parts[i]
    ensures Split(Join(parts, [sep]), sep) == parts
    decreases |parts|
  {
    if |parts| == 1 {
      SplitFree(parts[0], sep);
    } else {
      SplitJoin(parts[1..], sep);
      SplitConcat(parts[0], Join(parts[1..], [sep]), sep);
      assert parts == [parts[0]] + parts[1..];
    }
  }
}
