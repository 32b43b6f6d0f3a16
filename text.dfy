/**
 * The string operations of Python that the modelled code relies on:
 * `str(n)`, `int(s)` and `s.isdigit()` on decimal numerals, `f"{n:04d}"`,
 * `s.split("/")`, `s.strip()`, `s.replace("-", ".")`, `os.path.join` and
 * `os.path.dirname`. Only ASCII digits and the ASCII characters Python counts
 * as whitespace are modelled.
 */
module Text {

  predicate IsDigit(c: char) {
    '0' <= c <= '9'
  }

  /** Python's `s.isdigit()` restricted to ASCII: non-empty and all digits. */
  predicate IsDigits(s: string) {
    |s| > 0 && forall i :: 0 <= i < |s| ==> IsDigit(s[i])
  }

  function DigitChar(d: nat): (c: char)
    requires d < 10
    ensures IsDigit(c)
  {
    (48 + d) as char
  }

  function DigitValue(c: char): (d: nat)
    requires IsDigit(c)
    ensures d < 10 && DigitChar(d) == c
  {
    c as int - 48
  }

  /** Python's `str(n)` for a natural number. */
  function Decimal(n: nat): string
    decreases n
  {
    if n < 10 then [DigitChar(n)] else Decimal(n / 10) + [DigitChar(n % 10)]
  }

  /** Python's `int(s)` for a string of digits. */
  function ParseDecimal(s: string): nat
    requires IsDigits(s)
    decreases |s|
  {
    if |s| == 1 then DigitValue(s[0])
    else ParseDecimal(s[..|s| - 1]) * 10 + DigitValue(s[|s| - 1])
  }

  /** `int(str(n)) == n`, and `str(n).isdigit()` holds. */
  lemma {:induction false} DecimalRoundTrip(n: nat)
    ensures IsDigits(Decimal(n))
    ensures ParseDecimal(Decimal(n)) == n
    decreases n
  {
    if n >= 10 {
      DecimalRoundTrip(n / 10);
      var s := Decimal(n);
      assert s[..|s| - 1] == Decimal(n / 10);
    }
  }

  /** Distinct numbers have distinct numerals. */
  lemma DecimalInjective(m: nat, n: nat)
    requires Decimal(m) == Decimal(n)
    ensures m == n
  {
    DecimalRoundTrip(m);
    DecimalRoundTrip(n);
  }

  /** Python's `str(i)` for any integer. */
  function IntToString(i: int): string {
    if i < 0 then "-" + Decimal(-i) else Decimal(i)
  }

  function Zeros(k: nat): (z: string)
    ensures |z| == k && forall i :: 0 <= i < k ==> z[i] == '0'
  {
    if k == 0 then "" else Zeros(k - 1) + "0"
  }

  /** Python's `f"{n:04d}"`: the numeral, left-padded with zeros to width four. */
  function ZeroPad4(n: nat): string {
    var d := Decimal(n);
    (if |d| < 4 then Zeros(4 - |d|) else "") + d
  }

  /** Reading a padded number back gives the number. */
  lemma ZeroPad4RoundTrip(n: nat)
    ensures IsDigits(ZeroPad4(n))
    ensures ParseDecimal(ZeroPad4(n)) == n
  {
    DecimalRoundTrip(n);
    var d := Decimal(n);
    if |d| < 4 {
      LeadingZeros(4 - |d|, d);
      assert ZeroPad4(n) == Zeros(4 - |d|) + d;
    } else {
      assert ZeroPad4(n) == d;
    }
  }

  /** Leading zeros do not change the value of a numeral. */
  lemma {:induction false} LeadingZeros(k: nat, d: string)
    requires IsDigits(d)
    ensures IsDigits(Zeros(k) + d)
    ensures ParseDecimal(Zeros(k) + d) == ParseDecimal(d)
    decreases |d|
  {
    var s := Zeros(k) + d;
    if |d| == 1 {
      if k > 0 {
        assert s[..|s| - 1] == Zeros(k);
        ZerosAreZero(k);
      }
    } else {
      assert s[..|s| - 1] == Zeros(k) + d[..|d| - 1];
      LeadingZeros(k, d[..|d| - 1]);
    }
  }

  lemma {:induction false} ZerosAreZero(k: nat)
    requires k > 0
    ensures IsDigits(Zeros(k)) && ParseDecimal(Zeros(k)) == 0
    decreases k
  {
    if k > 1 {
      ZerosAreZero(k - 1);
      assert Zeros(k)[..k - 1] == Zeros(k - 1);
    }
  }

  /** Numbers below 10000 are padded to exactly four characters. */
  lemma ZeroPad4Width(n: nat)
    requires n < 10000
    ensures |ZeroPad4(n)| == 4
  {
    assert Decimal(n) == (if n < 10 then [DigitChar(n)] else Decimal(n / 10) + [DigitChar(n % 10)]);
    if n >= 10 {
      assert Decimal(n / 10) == (if n / 10 < 10 then [DigitChar(n / 10)] else Decimal(n / 100) + [DigitChar(n / 10 % 10)]);
      if n >= 100 {
        assert n / 10 / 10 == n / 100;
        assert Decimal(n / 100) == (if n / 100 < 10 then [DigitChar(n / 100)] else Decimal(n / 1000) + [DigitChar(n / 100 % 10)]);
        if n >= 1000 {
          assert n / 100 / 10 == n / 1000;
          assert n / 1000 < 10;
        }
      }
    }
  }

  /** Python's `s.split("/")`: the pieces between the slashes, always at least one. */
  function Split(s: string): (parts: seq<string>)
    ensures |parts| >= 1
    decreases |s|
  {
    if s == [] then [""]
    else if s[0] == '/' then [""] + Split(s[1..])
    else var rest := Split(s[1..]); [[s[0]] + rest[0]] + rest[1..]
  }

  /** A string without a slash splits into itself. */
  lemma {:induction false} SplitWithoutSlash(s: string)
    requires '/' !in s
    ensures Split(s) == [s]
    decreases |s|
  {
    if s != [] {
      SplitWithoutSlash(s[1..]);
      assert [s[0]] + s[1..] == s;
    }
  }

  /** Splitting `a + "/" + b` when `a` has no slash: `a` first, then the pieces of `b`. */
  lemma {:induction false} SplitAfterSlash(a: string, b: string)
    requires '/' !in a
    ensures Split(a + "/" + b) == [a] + Split(b)
    decreases |a|
  {
    if a == [] {
      assert a + "/" + b == "/" + b;
      assert ("/" + b)[1..] == b;
    } else {
      assert (a + "/" + b)[1..] == a[1..] + "/" + b;
      SplitAfterSlash(a[1..], b);
      assert [a[0]] + a[1..] == a;
    }
  }

  /** `"/".join(s.split("/"))` for a string with exactly one slash. */
  lemma {:induction false} SplitTwoRejoins(s: string)
    requires |Split(s)| == 2
    ensures s == Split(s)[0] + "/" + Split(s)[1]
    decreases |s|
  {
    if s != [] && s[0] != '/' {
      SplitTwoRejoins(s[1..]);
    } else if s != [] {
      SplitOne(s[1..]);
    }
  }

  lemma {:induction false} SplitOne(s: string)
    requires |Split(s)| == 1
    ensures Split(s) == [s]
    decreases |s|
  {
    if s != [] {
      SplitOne(s[1..]);
      assert [s[0]] + s[1..] == s;
    }
  }

  /** The ASCII characters `str.isspace()` accepts: space, tab, line feed,
      carriage return, vertical tab, form feed and the separators 0x1C-0x1F. */
  predicate IsSpace(c: char) {
    c == ' ' || c == '\t' || c == '\n' || c == '\r' || c == '\U{b}' || c == '\U{c}'
    || ('\U{1c}' <= c <= '\U{1f}')
  }

  /** Python's `s.strip()`: leading and trailing whitespace removed. */
  function Strip(s: string): (r: string)
    ensures |r| <= |s|
    decreases |s|
  {
    if s != [] && IsSpace(s[0]) then Strip(s[1..])
    else if s != [] && IsSpace(s[|s| - 1]) then Strip(s[..|s| - 1])
    else s
  }

  /** A stripped string has no whitespace at either end. */
  lemma {:induction false} StripTrimmed(s: string)
    ensures var t := Strip(s); t == [] || (!IsSpace(t[0]) && !IsSpace(t[|t| - 1]))
    decreases |s|
  {
    if s != [] && IsSpace(s[0]) {
      StripTrimmed(s[1..]);
    } else if s != [] && IsSpace(s[|s| - 1]) {
      StripTrimmed(s[..|s| - 1]);
    }
  }

  /** Python's `s.replace(from, to)` for single characters. */
  function ReplaceChar(s: string, from: char, to: char): (r: string)
    ensures |r| == |s|
    ensures forall i :: 0 <= i < |s| ==> r[i] == (if s[i] == from then to else s[i])
  {
    seq(|s|, i requires 0 <= i < |s| => if s[i] == from then to else s[i])
  }

  predicate StartsWith(s: string, prefix: string) {
    |prefix| <= |s| && s[..|prefix|] == prefix
  }

  /** Python's `os.path.join(a, b)` on POSIX: an absolute `b` discards `a`. */
  function PathJoin(a: string, b: string): string {
    if StartsWith(b, "/") then b
    else if a == "" || a[|a| - 1] == '/' then a + b
    else a + "/" + b
  }

  /** A joined path ends with the joined component. */
  lemma PathJoinEndsWith(a: string, b: string)
    ensures var r := PathJoin(a, b); |r| >= |b| && r[|r| - |b|..] == b
  {
    var r := PathJoin(a, b);
    if StartsWith(b, "/") {
      assert r == b;
    } else if a == "" || a[|a| - 1] == '/' {
      assert r == a + b;
    } else {
      assert r == (a + "/") + b;
    }
  }

  /** A relative component is joined below the directory: the result starts
      with the directory, and with a separator added exactly when it lacks one. */
  lemma PathJoinRelative(a: string, b: string)
    ensures !StartsWith(b, "/") ==> StartsWith(PathJoin(a, b), a)
    ensures !StartsWith(b, "/") && a != "" && a[|a| - 1] != '/' ==> PathJoin(a, b) == a + "/" + b
    ensures !StartsWith(b, "/") && (a == "" || a[|a| - 1] == '/') ==> PathJoin(a, b) == a + b
  {
    var r := PathJoin(a, b);
    if StartsWith(b, "/") {
    } else if a == "" || a[|a| - 1] == '/' {
      assert r == a + b;
      assert r[..|a|] == a;
    } else {
      assert r == a + ("/" + b);
      assert r[..|a|] == a;
    }
  }

  /** Index just past the last slash of `s`, 0 if there is none. */
  function AfterLastSlash(s: string): (i: nat)
    ensures i <= |s|
    ensures i > 0 ==> s[i - 1] == '/'
    ensures forall j :: i <= j < |s| ==> s[j] != '/'
    decreases |s|
  {
    if s == [] then 0
    else if s[|s| - 1] == '/' then |s|
    else AfterLastSlash(s[..|s| - 1])
  }

  function TrimTrailingSlashes(s: string): string
    decreases |s|
  {
    if s != [] && s[|s| - 1] == '/' then TrimTrailingSlashes(s[..|s| - 1]) else s
  }

  predicate AllSlashes(s: string) {
    forall i :: 0 <= i < |s| ==> s[i] == '/'
  }

  /** Python's `os.path.dirname(p)` on POSIX. */
  function Dirname(p: string): string {
    var head := p[..AfterLastSlash(p)];
    if head != "" && !AllSlashes(head) then TrimTrailingSlashes(head) else head
  }
}
