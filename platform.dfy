/** The parts of the Swift standard library and Foundation that the app's logic
    depends on: optionals and thrown errors, file URLs, lowercasing, trimming of
    whitespace, `Int(...)` conversion of a `Double`, Swift's truncating integer
    division and printf-style integer formatting. */
module Platform {

  datatype Option<+T> = None | Some(value: T)

  /** A value or a thrown error. */
  datatype Result<+T, +E> = Success(value: T) | Failure(error: E)

  /** A file URL reduced to the two components the app reads. Foundation derives
      both from the path; that derivation is not part of this model. */
  datatype Url = Url(lastPathComponent: string, pathExtension: string)

  // ---------------------------------------------------------------------------
  // Lowercasing (`String.lowercased()`), restricted to ASCII letters

  function LowerChar(c: char): char {
    if 'A' <= c <= 'Z' then (c as int + 32) as char else c
  }

  function Lowercased(s: string): string {
    seq(|s|, i requires 0 <= i < |s| => LowerChar(s[i]))
  }

  predicate IsLowercase(s: string) {
    forall i :: 0 <= i < |s| ==> !('A' <= s[i] <= 'Z')
  }

  /** Lowercasing leaves no upper-case letter, leaves a lower-case string as it
      is, and so is idempotent. */
  lemma LowercasedIsLowercase(s: string)
    ensures IsLowercase(Lowercased(s))
    ensures IsLowercase(s) ==> Lowercased(s) == s
    ensures Lowercased(Lowercased(s)) == Lowercased(s)
  {
    var r := Lowercased(s);
    forall i | 0 <= i < |r| ensures !('A' <= r[i] <= 'Z') && LowerChar(r[i]) == r[i] {
      assert r[i] == LowerChar(s[i]);
    }
  }

  // ---------------------------------------------------------------------------
  // `trimmingCharacters(in: .whitespacesAndNewlines)`

  /** The Unicode White_Space property, which is the character set
      `.whitespacesAndNewlines` stands for. */
  predicate IsWhitespace(c: char) {
    ('\U{9}' <= c <= '\U{D}') || c == ' ' || c == '\U{85}' || c == '\U{A0}'
    || c == '\U{1680}' || ('\U{2000}' <= c <= '\U{200A}') || c == '\U{2028}'
    || c == '\U{2029}' || c == '\U{202F}' || c == '\U{205F}' || c == '\U{3000}'
  }

  function TrimmedLeading(s: string): string
    decreases |s|
  {
    if s != [] && IsWhitespace(s[0]) then TrimmedLeading(s[1..]) else s
  }

  function TrimmedTrailing(s: string): string
    decreases |s|
  {
    if s != [] && IsWhitespace(s[|s| - 1]) then TrimmedTrailing(s[..|s| - 1]) else s
  }

  function Trimmed(s: string): string {
    TrimmedTrailing(TrimmedLeading(s))
  }

  lemma {:induction false} TrimmedLeadingIsSuffix(s: string) returns (i: nat)
    ensures i <= |s| && TrimmedLeading(s) == s[i..]
    ensures forall k :: 0 <= k < i ==> IsWhitespace(s[k])
    ensures i < |s| ==> !IsWhitespace(s[i])
    decreases |s|
  {
    if s != [] && IsWhitespace(s[0]) {
      var i' := TrimmedLeadingIsSuffix(s[1..]);
      i := i' + 1;
      assert s[1..][i'..] == s[i..];
      forall k | 0 <= k < i ensures IsWhitespace(s[k]) {
        if k > 0 { assert s[k] == s[1..][k - 1]; }
      }
    } else {
      i := 0;
    }
  }

  lemma {:induction false} TrimmedTrailingIsPrefix(s: string) returns (j: nat)
    ensures j <= |s| && TrimmedTrailing(s) == s[..j]
    ensures forall k :: j <= k < |s| ==> IsWhitespace(s[k])
    ensures 0 < j ==> !IsWhitespace(s[j - 1])
    decreases |s|
  {
    if s != [] && IsWhitespace(s[|s| - 1]) {
      var s' := s[..|s| - 1];
      j := TrimmedTrailingIsPrefix(s');
      assert s'[..j] == s[..j];
      forall k | j <= k < |s| ensures IsWhitespace(s[k]) {
        if k < |s| - 1 { assert s[k] == s'[k]; }
      }
    } else {
      j := |s|;
    }
  }

  /** Trimming keeps exactly the slice between the leading and the trailing run of
      whitespace: everything cut off is whitespace, and the result neither starts
      nor ends with whitespace. */
  lemma TrimmedIsCore(s: string) returns (i: nat, j: nat)
    ensures i <= j <= |s| && Trimmed(s) == s[i..j]
    ensures forall k :: 0 <= k < i ==> IsWhitespace(s[k])
    ensures forall k :: j <= k < |s| ==> IsWhitespace(s[k])
    ensures i < j ==> !IsWhitespace(s[i]) && !IsWhitespace(s[j - 1])
  {
    i := TrimmedLeadingIsSuffix(s);
    var t := s[i..];
    var j' := TrimmedTrailingIsPrefix(t);
    j := i + j';
    assert t[..j'] == s[i..j];
    forall k | j <= k < |s| ensures IsWhitespace(s[k]) {
      assert s[k] == t[k - i];
    }
    if i < j {
      assert s[i] == t[0];
      assert s[j - 1] == t[j' - 1];
      if j' == |t| {
        assert !IsWhitespace(s[i]);
      }
    }
  }

  // ---------------------------------------------------------------------------
  // `Int(x)` for a Double, and Swift's `/` and `%` on Int (both truncate)

  /** `Int(x)`: conversion toward zero. */
  function Trunc(x: real): (n: int)
    ensures 0.0 <= x ==> 0 <= n && n as real <= x < n as real + 1.0
    ensures x < 0.0 ==> n <= 0 && n as real - 1.0 < x <= n as real
  {
    if x >= 0.0 then x.Floor else -((-x).Floor)
  }

  /** `a / b` on Swift Int: the quotient truncated toward zero. */
  function Quot(a: int, b: int): int
    requires b > 0
  {
    if a >= 0 then a / b else -((-a) / b)
  }

  /** `a % b` on Swift Int: the remainder takes the sign of `a`. */
  function Rem(a: int, b: int): int
    requires b > 0
  {
    if a >= 0 then a % b else -((-a) % b)
  }

  /** Quot and Rem are the truncating division: they rebuild `a`, and the
      remainder is smaller than `b` and carries the sign of `a`. */
  lemma QuotRem(a: int, b: int)
    requires b > 0
    ensures a == Quot(a, b) * b + Rem(a, b)
    ensures 0 <= a ==> 0 <= Rem(a, b) < b && 0 <= Quot(a, b)
    ensures a < 0 ==> -b < Rem(a, b) <= 0 && Quot(a, b) <= 0
  {
    if a < 0 { QuotRemNegative(a, b); } else { QuotRemNonNegative(a, b); }
  }

  lemma QuotRemNonNegative(a: int, b: int)
    requires b > 0 && a >= 0
    ensures a == Quot(a, b) * b + Rem(a, b) && 0 <= Rem(a, b) < b && 0 <= Quot(a, b)
  {
  }

  lemma QuotRemNegative(a: int, b: int)
    requires b > 0 && a < 0
    ensures a == Quot(a, b) * b + Rem(a, b) && -b < Rem(a, b) <= 0 && Quot(a, b) <= 0
  {
    var q, r := (-a) / b, (-a) % b;
    assert -a == q * b + r;
    assert Quot(a, b) == -q && Rem(a, b) == -r;
    assert (-q) * b == -(q * b);
  }

  // ---------------------------------------------------------------------------
  // Decimal rendering: `"\(n)"` and `String(format: "%0Nd", n)`

  predicate IsDigit(c: char) {
    '0' <= c <= '9'
  }

  predicate AllDigits(s: string) {
    forall i :: 0 <= i < |s| ==> IsDigit(s[i])
  }

  function DigitChar(d: nat): (c: char)
    requires d < 10
    ensures IsDigit(c)
  {
    ('0' as int + d) as char
  }

  /** The shortest decimal representation of `n`. */
  function Digits(n: nat): (s: string)
    ensures 1 <= |s| && AllDigits(s)
    ensures |s| > 1 ==> s[0] != '0'
    decreases n
  {
    if n < 10 then [DigitChar(n)] else Digits(n / 10) + [DigitChar(n % 10)]
  }

  /** Left-pads `s` with zeros to at least `width` characters. */
  function ZeroPad(s: string, width: nat): (r: string)
    ensures |r| == if |s| >= width then |s| else width
    ensures AllDigits(s) ==> AllDigits(r)
  {
    if |s| >= width then s else seq(width - |s|, _ => '0') + s
  }

  /** `String(format: "%0<width>d", n)`; width 0 is `"\(n)"`. A negative value
      keeps its sign in front of the zeros. */
  function FormatInt(n: int, width: nat): string {
    if n >= 0 then ZeroPad(Digits(n), width)
    else "-" + ZeroPad(Digits(-n), if width > 0 then width - 1 else 0)
  }

  /** The number a string of digits denotes. */
  function DecimalValue(s: string): nat
    requires AllDigits(s)
    decreases |s|
  {
    if s == [] then 0 else 10 * DecimalValue(s[..|s| - 1]) + (s[|s| - 1] as int - '0' as int)
  }

  /** Reading back the digits of `n` gives `n`. */
  lemma {:induction false} DigitsValue(n: nat)
    ensures DecimalValue(Digits(n)) == n
    decreases n
  {
    if n >= 10 {
      DigitsValue(n / 10);
      var s := Digits(n);
      assert s[..|s| - 1] == Digits(n / 10);
    }
  }

  /** Leading zeros do not change the value. */
  lemma {:induction false} LeadingZerosValue(z: nat, s: string)
    requires AllDigits(s)
    ensures AllDigits(seq(z, _ => '0') + s)
    ensures DecimalValue(seq(z, _ => '0') + s) == DecimalValue(s)
    decreases |s|
  {
    var zs: string := seq(z, _ => '0');
    var t := zs + s;
    assert AllDigits(t) by {
      forall i | 0 <= i < |t| ensures IsDigit(t[i]) {
        if i >= z { assert t[i] == s[i - z]; }
      }
    }
    if s == [] {
      assert t == zs;
      ZerosValue(z);
    } else {
      var s' := s[..|s| - 1];
      assert t[..|t| - 1] == zs + s';
      LeadingZerosValue(z, s');
    }
  }

  lemma {:induction false} ZerosValue(z: nat)
    ensures DecimalValue(seq(z, _ => '0')) == 0
    decreases z
  {
    if z > 0 {
      var zs: string := seq(z, _ => '0');
      assert zs[..z - 1] == seq(z - 1, _ => '0');
      ZerosValue(z - 1);
    }
  }

  /** A non-negative number formatted with `%0Nd` reads back as itself. */
  lemma FormatIntValue(n: nat, width: nat)
    ensures AllDigits(FormatInt(n, width))
    ensures DecimalValue(FormatInt(n, width)) == n
  {
    DigitsValue(n);
    var d := Digits(n);
    if |d| < width {
      LeadingZerosValue(width - |d|, d);
    }
  }

  /** `n` has at most `w` digits when it is below 10^w. */
  lemma {:induction false} DigitsLength(n: nat, w: nat)
    requires n < Pow10(w)
    ensures |Digits(n)| <= w || (n == 0 && w == 0)
    decreases n
  {
    if n >= 10 {
      assert w >= 1;
      assert n / 10 < Pow10(w - 1);
      DigitsLength(n / 10, w - 1);
    }
  }

  function Pow10(w: nat): (p: nat)
    ensures p >= 1
  {
    if w == 0 then 1 else 10 * Pow10(w - 1)
  }

  /** `%02d` of a number below 100 and `%03d` of one below 1000 have exactly
      that many digits. */
  lemma FormatIntWidth(n: nat, width: nat)
    requires 1 <= width && n < Pow10(width)
    ensures |FormatInt(n, width)| == width
  {
    DigitsLength(n, width);
  }
}
