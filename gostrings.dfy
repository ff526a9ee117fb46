/**
 * Go strings as the byte sequences they are, with the handful of standard
 * library operations the client relies on: `fmt`'s decimal rendering of
 * integers, `strings.Contains`, `strings.HasPrefix`, `strings.Split`,
 * `strings.Cut`, and Go's byte-wise string ordering (used by `sort`).
 */
module GoStrings {
  import opened Wrappers

  newtype byte = b: int | 0 <= b < 256

  /** A Go `string`: an immutable sequence of bytes. */
  type GoString = seq<byte>

  /** The bytes of an ASCII literal (a character beyond one byte, which no literal here has, becomes 0). */
  function Lit(s: string): (r: GoString)
    ensures |r| == |s|
    ensures forall i | 0 <= i < |s| :: s[i] as int < 256 ==> r[i] as int == s[i] as int
  {
    seq(|s|, i requires 0 <= i < |s| => if s[i] as int < 256 then s[i] as int as byte else 0)
  }

  const Slash: byte := 47
  const Minus: byte := 45
  const CR: byte := 13
  const LF: byte := 10

  predicate IsDigit(b: byte) {
    48 <= b <= 57
  }

  function DigitByte(d: nat): (b: byte)
    requires d < 10
    ensures IsDigit(b) && (b as int) - 48 == d
  {
    (48 + d) as byte
  }

  /** The decimal digits of a natural number, most significant first, no leading zero. */
  function Digits(n: nat): (r: GoString)
    ensures |r| > 0
    ensures forall i | 0 <= i < |r| :: IsDigit(r[i])
    ensures n > 0 ==> r[0] != 48
  {
    if n < 10 then [DigitByte(n)] else Digits(n / 10) + [DigitByte(n % 10)]
  }

  /** `fmt.Sprintf("%d", n)` (and `%v` of an integer): an optional minus sign, then the digits. */
  function Decimal(n: int): GoString {
    if n < 0 then [Minus] + Digits(-n) else Digits(n)
  }

  /** The value of a non-empty string of decimal digits (the inverse of Digits). */
  function DigitsValue(s: GoString): nat
    requires forall i | 0 <= i < |s| :: IsDigit(s[i])
  {
    if |s| == 0 then 0
    else
      assert IsDigit(s[|s| - 1]);
      DigitsValue(s[..|s| - 1]) * 10 + ((s[|s| - 1] as int) - 48)
  }

  /** Reads back what Decimal writes: an optional minus, then digits without a leading zero. */
  function ParseDecimal(s: GoString): Option<int> {
    if |s| > 0 && s[0] == Minus then
      (if CanonicalDigits(s[1..]) && s[1..] != [48] then Some(0 - DigitsValue(s[1..]) as int) else None)
    else if CanonicalDigits(s) then Some(DigitsValue(s))
    else None
  }

  predicate CanonicalDigits(s: GoString) {
    && |s| > 0
    && (forall i | 0 <= i < |s| :: IsDigit(s[i]))
    && (|s| > 1 ==> s[0] != 48)
  }

  lemma {:induction false} DigitsValueOfDigits(n: nat)
    ensures DigitsValue(Digits(n)) == n
    decreases n
  {
    if n >= 10 {
      DigitsValueOfDigits(n / 10);
      var d := Digits(n);
      assert d[..|d| - 1] == Digits(n / 10);
    }
  }

  /** What Decimal writes, ParseDecimal reads back: ints survive rendering. */
  lemma DecimalRoundTrip(n: int)
    ensures ParseDecimal(Decimal(n)) == Some(n)
  {
    if n < 0 {
      DigitsValueOfDigits(-n);
      assert Decimal(n)[1..] == Digits(-n);
    } else {
      DigitsValueOfDigits(n);
    }
  }

  /** Every byte of a decimal rendering is a digit or the minus sign. */
  lemma DecimalBytes(n: int)
    ensures forall i | 0 <= i < |Decimal(n)| :: IsDigit(Decimal(n)[i]) || Decimal(n)[i] == Minus
  {
  }

  predicate HasPrefix(s: GoString, prefix: GoString) {
    |prefix| <= |s| && s[..|prefix|] == prefix
  }

  /** `strings.Contains`: sub occurs somewhere in s. */
  predicate Contains(s: GoString, sub: GoString)
    decreases |s|
  {
    HasPrefix(s, sub) || (|s| > 0 && Contains(s[1..], sub))
  }

  /** For a one-byte needle, Contains is plain membership. */
  lemma {:induction false} ContainsByte(s: GoString, b: byte)
    ensures Contains(s, [b]) <==> b in s
    decreases |s|
  {
    if |s| > 0 {
      ContainsByte(s[1..], b);
      assert s == [s[0]] + s[1..];
    }
  }

  /** The first index of b in s, if any. */
  function IndexOf(s: GoString, b: byte): (r: Option<nat>)
    ensures r.None? <==> b !in s
    ensures r.Some? ==> r.value < |s| && s[r.value] == b && b !in s[..r.value]
  {
    if |s| == 0 then None
    else if s[0] == b then Some(0)
    else match IndexOf(s[1..], b)
      case None => None
      case Some(i) => Some(i + 1)
  }

  /** `strings.Cut(s, sep)` for a one-byte separator: the text before and after the first sep. */
  function Cut(s: GoString, sep: byte): (r: (GoString, GoString, bool))
    ensures !r.2 ==> r.0 == s && r.1 == [] && sep !in s
    ensures r.2 ==> s == r.0 + [sep] + r.1 && sep !in r.0
  {
    match IndexOf(s, sep)
    case None => (s, [], false)
    case Some(i) => (s[..i], s[i + 1..], true)
  }

  /** `strings.Split(s, sep)` for a one-byte separator (Split of "" is [""]). */
  function Split(s: GoString, sep: byte): (r: seq<GoString>)
    ensures |r| > 0
    ensures forall i | 0 <= i < |r| :: sep !in r[i]
    decreases |s|
  {
    match IndexOf(s, sep)
    case None => [s]
    case Some(i) => [s[..i]] + Split(s[i + 1..], sep)
  }

  /** Split of the empty string is one empty field. */
  lemma SplitEmpty(sep: byte)
    ensures Split([], sep) == [[]]
  {
  }

  /** Split takes the field before the first separator, then splits what follows it. */
  lemma SplitCut(s: GoString, sep: byte)
    ensures var (before, after, found) := Cut(s, sep);
      Split(s, sep) == [before] + (if found then Split(after, sep) else [])
  {
  }

  /** The first field is empty exactly when s is empty or starts with the separator. */
  lemma SplitFirstEmpty(s: GoString, sep: byte)
    ensures Split(s, sep)[0] == [] <==> s == [] || s[0] == sep
  {
    match IndexOf(s, sep)
    case None =>
    case Some(i) =>
      if i > 0 { assert s[..i][0] == s[0]; }
  }

  /** An occurrence with none before it is the one IndexOf finds. */
  lemma {:induction false} IndexOfFirst(s: GoString, b: byte, i: nat)
    requires i < |s| && s[i] == b && b !in s[..i]
    ensures IndexOf(s, b) == Some(i)
    decreases i
  {
    if i > 0 {
      assert s[0] == s[..i][0];
      assert s[1..][..i - 1] == s[..i][1..];
      IndexOfFirst(s[1..], b, i - 1);
    }
  }

  /** A leading separator gives an empty first field. */
  lemma SplitLeading(s: GoString, sep: byte)
    requires |s| > 0 && s[0] == sep
    ensures Split(s, sep) == [[]] + Split(s[1..], sep)
  {
    assert IndexOf(s, sep) == Some(0);
    assert s[..0] == [];
  }

  /** Splitting a separator followed by more text. */
  lemma SplitAfterSep(rest: GoString, sep: byte)
    ensures Split([sep] + rest, sep) == [[]] + Split(rest, sep)
  {
    var s := [sep] + rest;
    assert s[1..] == rest;
    SplitLeading(s, sep);
  }

  /** A trailing separator adds one empty field. */
  lemma {:induction false} SplitTrailing(s: GoString, sep: byte)
    ensures Split(s + [sep], sep) == Split(s, sep) + [[]]
    decreases |s|
  {
    var t := s + [sep];
    match IndexOf(s, sep)
    case None =>
      assert t[..|s|] == s && t[|s| + 1..] == [];
      SplitAtFirst(t, sep, |s|);
    case Some(i) =>
      SplitTrailing(s[i + 1..], sep);
      SplitTrailingStep(s, sep, i);
  }

  lemma SplitTrailingStep(s: GoString, sep: byte, i: nat)
    requires i < |s| && s[i] == sep && sep !in s[..i]
    requires Split(s[i + 1..] + [sep], sep) == Split(s[i + 1..], sep) + [[]]
    ensures Split(s + [sep], sep) == Split(s, sep) + [[]]
  {
    SplitAppendAt(s, sep, i, [sep]);
    SplitAtFirst(s, sep, i);
    var head, tail := [s[..i]], Split(s[i + 1..], sep);
    assert head + (tail + [[]]) == (head + tail) + [[]];
  }

  /** Text appended after the first separator does not move it. */
  lemma SplitAppendAt(s: GoString, sep: byte, i: nat, suffix: GoString)
    requires i < |s| && s[i] == sep && sep !in s[..i]
    ensures Split(s + suffix, sep) == [s[..i]] + Split(s[i + 1..] + suffix, sep)
  {
    var t := s + suffix;
    assert t[..i] == s[..i];
    assert t[i + 1..] == s[i + 1..] + suffix;
    SplitAtFirst(t, sep, i);
  }

  /** Split at the first separator: the field before it, then the split of the rest. */
  lemma SplitAtFirst(s: GoString, sep: byte, i: nat)
    requires i < |s| && s[i] == sep && sep !in s[..i]
    ensures Split(s, sep) == [s[..i]] + Split(s[i + 1..], sep)
  {
    IndexOfFirst(s, sep, i);
  }

  /** Every byte of every field of a split is a byte of the string split. */
  lemma {:induction false} SplitBytes(s: GoString, sep: byte)
    ensures forall i, k | 0 <= i < |Split(s, sep)| && 0 <= k < |Split(s, sep)[i]| :: Split(s, sep)[i][k] in s
    decreases |s|
  {
    match IndexOf(s, sep)
    case None =>
    case Some(j) =>
      SplitBytes(s[j + 1..], sep);
      assert forall b | b in s[j + 1..] :: b in s;
      assert forall b | b in s[..j] :: b in s;
  }

  // ---------------------------------------------------------------------
  // UTF-8, as Go's `unicode/utf8` decoder reads it
  // ---------------------------------------------------------------------

  /** A UTF-8 continuation byte, 0x80 to 0xBF. */
  predicate Continuation(b: byte) {
    0x80 <= b <= 0xBF
  }

  /**
   * The length of the well-formed encoding of one code point at the start of
   * s, or 0 where `utf8.DecodeRuneInString` reports a one-byte `RuneError`:
   * overlong forms, surrogates and code points above U+10FFFF are refused,
   * as is a sequence cut short.
   */
  function RuneLength(s: GoString): (n: nat)
    ensures n <= |s| && n <= 4
    ensures |s| > 0 && s[0] < 0x80 ==> n == 1
    ensures n > 0 ==> s[0] < 0x80 || 0xC2 <= s[0] <= 0xF4
    ensures forall k | 1 <= k < n :: Continuation(s[k])
  {
    if |s| == 0 then 0
    else
      var b := s[0];
      if b < 0x80 then 1
      else if 0xC2 <= b <= 0xDF then
        (if |s| >= 2 && Continuation(s[1]) then 2 else 0)
      else if 0xE0 <= b <= 0xEF then
        var lo: byte := if b == 0xE0 then 0xA0 else 0x80;
        var hi: byte := if b == 0xED then 0x9F else 0xBF;
        (if |s| >= 3 && lo <= s[1] <= hi && Continuation(s[2]) then 3 else 0)
      else if 0xF0 <= b <= 0xF4 then
        var lo: byte := if b == 0xF0 then 0x90 else 0x80;
        var hi: byte := if b == 0xF4 then 0x8F else 0xBF;
        (if |s| >= 4 && lo <= s[1] <= hi && Continuation(s[2]) && Continuation(s[3]) then 4 else 0)
      else 0
  }

  /** `utf8.ValidString`: s is a run of well-formed encodings, one after another. */
  predicate ValidUTF8(s: GoString)
    decreases |s|
  {
    s == [] || (RuneLength(s) > 0 && ValidUTF8(s[RuneLength(s)..]))
  }

  /** ASCII text is valid UTF-8. */
  lemma {:induction false} ASCIIValid(s: GoString)
    requires forall k | 0 <= k < |s| :: s[k] < 0x80
    ensures ValidUTF8(s)
    decreases |s|
  {
    if s != [] {
      ASCIIValid(s[1..]);
    }
  }

  /** Valid UTF-8 never holds 0xC0, 0xC1 or a byte from 0xF5 up: no encoding uses them. */
  lemma {:induction false} ValidUTF8Bytes(s: GoString)
    requires ValidUTF8(s)
    ensures forall k | 0 <= k < |s| :: s[k] != 0xC0 && s[k] != 0xC1 && s[k] < 0xF5
    decreases |s|
  {
    if s != [] {
      var n := RuneLength(s);
      ValidUTF8Bytes(s[n..]);
      forall k | 0 <= k < |s|
        ensures s[k] != 0xC0 && s[k] != 0xC1 && s[k] < 0xF5
      {
        if k >= n {
          assert s[k] == s[n..][k - n];
        }
      }
    }
  }

  /** Go's `<` on strings: byte-wise lexicographic, a proper prefix comes first. */
  predicate Less(a: GoString, b: GoString) {
    |b| > 0 && (|a| == 0 || a[0] < b[0] || (a[0] == b[0] && Less(a[1..], b[1..])))
  }

  lemma {:induction false} LessIrreflexive(a: GoString)
    ensures !Less(a, a)
  {
    if |a| > 0 { LessIrreflexive(a[1..]); }
  }

  lemma {:induction false} LessTransitive(a: GoString, b: GoString, c: GoString)
    requires Less(a, b) && Less(b, c)
    ensures Less(a, c)
  {
    if |a| > 0 && a[0] == b[0] && b[0] == c[0] {
      LessTransitive(a[1..], b[1..], c[1..]);
    }
  }

  lemma {:induction false} LessTrichotomous(a: GoString, b: GoString)
    ensures Less(a, b) || a == b || Less(b, a)
  {
    if |a| > 0 && |b| > 0 && a[0] == b[0] {
      LessTrichotomous(a[1..], b[1..]);
      if a[1..] == b[1..] {
        assert a == [a[0]] + a[1..] && b == [b[0]] + b[1..];
      }
    }
  }

  lemma LessAsymmetric(a: GoString, b: GoString)
    requires Less(a, b)
    ensures !Less(b, a) && a != b
  {
    if Less(b, a) { LessTransitive(a, b, a); LessIrreflexive(a); }
    if a == b { LessIrreflexive(a); }
  }

  /** m is the least element of ks in Go's string order. */
  predicate IsLeast(m: GoString, ks: set<GoString>) {
    m in ks && forall k | k in ks && k != m :: Less(m, k)
  }

  lemma {:induction false} LeastExists(ks: set<GoString>)
    requires ks != {}
    ensures exists m :: IsLeast(m, ks)
    decreases |ks|
  {
    var y :| y in ks;
    if ks == {y} {
      assert IsLeast(y, ks);
    } else {
      LeastExists(ks - {y});
      var m :| IsLeast(m, ks - {y});
      LessTrichotomous(m, y);
      if Less(m, y) {
        assert IsLeast(m, ks);
      } else {
        forall k | k in ks && k != y ensures Less(y, k) {
          if k != m { LessTransitive(y, m, k); }
        }
        assert IsLeast(y, ks);
      }
    }
  }

  lemma LeastUnique(m: GoString, n: GoString, ks: set<GoString>)
    requires IsLeast(m, ks) && IsLeast(n, ks)
    ensures m == n
  {
    if m != n { LessAsymmetric(m, n); }
  }

  /** The least string of a non-empty set. */
  function Least(ks: set<GoString>): (m: GoString)
    requires ks != {}
    ensures IsLeast(m, ks)
  {
    LeastExists(ks);
    forall a, b | IsLeast(a, ks) && IsLeast(b, ks) ensures a == b { LeastUnique(a, b, ks); }
    var m :| IsLeast(m, ks);
    m
  }
}
