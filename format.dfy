/** The async-signal-safe integer formatter of the crash path
    (implementation.c:156-193): ulong_to_str writes the digits of an
    unsigned long backwards into a caller's buffer, long_to_str puts a
    minus sign in front of negative values. */
module IntFormat {

  /** The character of digit `d`, as the table "0123456789abcdef" gives it. */
  function XDigit(d: int): char
    requires 0 <= d < 16
  {
    if d < 10 then ('0' as int + d) as char else ('a' as int + d - 10) as char
  }

  /** The range of the C type unsigned long on a 64-bit platform. */
  const ULONG_LIMIT: int := 0x1_0000_0000_0000_0000
  type ulong = x: int | 0 <= x < ULONG_LIMIT

  /** The range of the C type long on a 64-bit platform. */
  const LONG_MIN: int := -0x8000_0000_0000_0000
  const LONG_MAX: int := 0x7fff_ffff_ffff_ffff
  type long = x: int | LONG_MIN <= x <= LONG_MAX

  predicate ValidBase(base: int) {
    2 <= base <= 16
  }

  /** The base-`base` numeral of `v`, most significant digit first, with no
      leading zero except for the single "0" of 0. */
  function Digits(v: nat, base: int): (r: string)
    requires ValidBase(base)
    ensures 1 <= |r|
    decreases v
  {
    DivStep(v, base);
    if v < base then [XDigit(v)]
    else Digits(v / base, base) + [XDigit(v % base)]
  }

  /** Only 0 is written with a leading zero, and a numeral holds no sign. */
  lemma {:induction false} DigitsShape(v: nat, base: int)
    requires ValidBase(base)
    ensures Digits(v, base)[0] == '0' <==> v == 0
    ensures '-' !in Digits(v, base)
  {
    DivStep(v, base);
    if v >= base {
      DigitsShape(v / base, base);
    }
  }

  /** The digits of `v` that precede its last one: empty for 0. */
  function Lead(v: nat, base: int): string
    requires ValidBase(base)
  {
    if v == 0 then [] else Digits(v, base)
  }

  /** The value of one digit character, the inverse of XDigit. */
  function DigitValue(c: char): int {
    if '0' <= c <= '9' then c as int - '0' as int else c as int - 'a' as int + 10
  }

  /** The number a numeral denotes in base `base`. */
  function Parse(s: string, base: int): int
    decreases |s|
  {
    if s == [] then 0 else Parse(s[..|s| - 1], base) * base + DigitValue(s[|s| - 1])
  }

  /** The facts about one division by the base that the digit loops rely on. */
  lemma DivStep(v: nat, base: int)
    requires ValidBase(base)
    ensures v < base ==> v / base == 0 && v % base == v
    ensures v >= base ==> 1 <= v / base < v
    ensures 0 <= v % base < base
    ensures (v / base) * base + v % base == v
  {
    var q, r := v / base, v % base;
    assert v == q * base + r;
    if v >= base {
      assert q >= 1;
      assert q * base >= q * 2;
    }
  }

  function Pow(b: nat, k: nat): nat {
    if k == 0 then 1 else b * Pow(b, k - 1)
  }

  lemma {:induction false} PowAdd(b: nat, m: nat, n: nat)
    ensures Pow(b, m + n) == Pow(b, m) * Pow(b, n)
  {
    if m > 0 {
      PowAdd(b, m - 1, n);
      assert Pow(b, m + n) == b * Pow(b, m - 1 + n);
    }
  }

  /** The last digit of a numeral is the remainder, the rest is the numeral
      of the quotient: the step the backwards loop of ulong_to_str takes. */
  lemma DigitsSplit(v: nat, base: int)
    requires ValidBase(base)
    ensures Digits(v, base) == Lead(v / base, base) + [XDigit(v % base)]
  {
    DivStep(v, base);
  }

  /** Reading the digits back gives the value that was formatted. */
  lemma {:induction false} DigitsRoundTrip(v: nat, base: int)
    requires ValidBase(base)
    ensures Parse(Digits(v, base), base) == v
  {
    var s := Digits(v, base);
    DivStep(v, base);
    if v < base {
      assert s == [XDigit(v)] && s[..0] == [];
      assert Parse(s, base) == Parse([], base) * base + DigitValue(XDigit(v));
    } else {
      var t := Digits(v / base, base);
      assert s[..|s| - 1] == t && s[|s| - 1] == XDigit(v % base);
      DigitsRoundTrip(v / base, base);
      assert Parse(s, base) == Parse(t, base) * base + DigitValue(XDigit(v % base));
    }
  }

  /** Dividing a value below base * p by the base leaves a value below p. */
  lemma QuotientBelow(v: nat, base: int, p: nat)
    requires ValidBase(base) && v < base * p
    ensures v / base < p
  {
    DivStep(v, base);
  }

  /** A value below base^k has at most k digits. */
  lemma {:induction false} DigitsFit(v: nat, base: int, k: nat)
    requires ValidBase(base) && 1 <= k && v < Pow(base, k)
    ensures |Digits(v, base)| <= k
  {
    DivStep(v, base);
    if v >= base {
      var p := Pow(base, k - 1);
      assert Pow(base, k) == base * p;
      QuotientBelow(v, base, p);
      assert k - 1 >= 1;
      DigitsFit(v / base, base, k - 1);
    }
  }

  /** The text long_to_str produces for `v`: a minus sign exactly for
      negative values, then the digits of the magnitude. */
  function LongText(v: int, base: int): (r: string)
    requires ValidBase(base)
    ensures 1 <= |r|
    ensures r[0] == '-' <==> v < 0
  {
    DigitsShape(if v < 0 then -v else v, base);
    if v < 0 then "-" + Digits(-v, base) else Digits(v, base)
  }

  /** Reads a possibly signed numeral. */
  function ParseSigned(s: string, base: int): int {
    if s != [] && s[0] == '-' then -Parse(s[1..], base) else Parse(s, base)
  }

  /** Reading long_to_str's text back gives the value that was formatted. */
  lemma LongTextRoundTrip(v: int, base: int)
    requires ValidBase(base)
    ensures ParseSigned(LongText(v, base), base) == v
  {
    if v < 0 {
      DigitsRoundTrip(-v, base);
      assert LongText(v, base)[1..] == Digits(-v, base);
    } else {
      DigitsRoundTrip(v, base);
    }
  }

  /** print_stderr_long's 21-byte buffer holds the decimal text of any long
      together with its terminating NUL. */
  lemma DecimalLongFitsBuffer(v: long)
    ensures |LongText(v, 10)| + 1 <= 21
  {
    assert Pow(10, 19) == 10_000_000_000_000_000_000 by {
      assert Pow(10, 10) == 10_000_000_000 && Pow(10, 9) == 1_000_000_000;
      PowAdd(10, 10, 9);
    }
    if v < 0 {
      DigitsFit(-(v as int), 10, 19);
    } else {
      DigitsFit(v, 10, 19);
    }
  }

  /** print_stderr_ptr's 17-byte buffer holds the hexadecimal text of any
      64-bit pointer together with its terminating NUL. */
  lemma HexPointerFitsBuffer(p: ulong)
    ensures |Digits(p, 16)| + 1 <= 17
  {
    assert Pow(16, 16) == ULONG_LIMIT by {
      assert Pow(16, 8) == 0x1_0000_0000;
      PowAdd(16, 8, 8);
    }
    DigitsFit(p, 16, 16);
  }

  /** One turn of ulong_to_str's counting loop: dividing by the base
      removes exactly one digit. */
  lemma CountStep(aux: nat, base: int)
    requires ValidBase(base) && aux != 0
    ensures 0 <= aux / base < aux
    ensures |Lead(aux / base, base)| + 1 == |Lead(aux, base)|
  {
    DivStep(aux, base);
    DigitsSplit(aux, base);
  }

  /** The first digit ulong_to_str writes is the remainder of `v`, in the
      last place of its numeral. */
  lemma LastDigit(v: nat, base: int)
    requires ValidBase(base)
    ensures 0 <= v / base && 0 <= v % base < base
    ensures |Lead(v / base, base)| + 1 == |Digits(v, base)|
    ensures Digits(v, base)[|Digits(v, base)| - 1] == XDigit(v % base)
    ensures Lead(v / base, base) == Digits(v, base)[..|Digits(v, base)| - 1]
  {
    DivStep(v, base);
    DigitsSplit(v, base);
  }

  /** One turn of ulong_to_str's writing loop: if the digits of `v` are the
      first k of the numeral, the last of them is the remainder and the
      quotient's digits are the first k - 1. */
  lemma WriteStep(ds: string, k: nat, v: nat, base: int)
    requires ValidBase(base) && k <= |ds| && Lead(v, base) == ds[..k] && v != 0
    ensures 0 <= v / base < v && 0 <= v % base < base
    ensures 1 <= k && ds[k - 1] == XDigit(v % base) && Lead(v / base, base) == ds[..k - 1]
  {
    DivStep(v, base);
    DigitsSplit(v, base);
    var rest, last := Lead(v / base, base), XDigit(v % base);
    assert Lead(v, base) == rest + [last];
    PrefixEndsWith(ds, k, rest, last);
  }

  /** A prefix that is `a` followed by `c` ends in `c`, after `a`. */
  lemma PrefixEndsWith(s: string, k: nat, a: string, c: char)
    requires k <= |s| && s[..k] == a + [c]
    ensures 1 <= k && s[k - 1] == c && s[..k - 1] == a
  {
    assert s[..k - 1] == s[..k][..k - 1];
  }

  /** ulong_to_str: writes the digits of `val` followed by a NUL into `buf`
      starting at `at`, filling the digits from the last one backwards; the
      caller must have made room for them. */
  method UlongToStr(val: ulong, buf: array<char>, at: nat, base: int)
    requires ValidBase(base)
    requires at + |Digits(val, base)| < buf.Length
    modifies buf
    ensures buf[at..at + |Digits(val, base)|] == Digits(val, base)
    ensures buf[at + |Digits(val, base)|] == '\0'
    ensures forall i :: 0 <= i < buf.Length && !(at <= i <= at + |Digits(val, base)|) ==> buf[i] == old(buf[i])
  {
    ghost var ds := Digits(val, base);
    LastDigit(val, base);
    // count the digits
    var len := 1;
    var aux: nat := val / base;
    while aux != 0
      invariant 1 <= len && len + |Lead(aux, base)| == |ds|
      modifies {}
      decreases aux
    {
      CountStep(aux, base);
      len := len + 1;
      aux := aux / base;
    }
    var p := at + len;
    buf[p] := '\0';
    // write them backwards, the last one first (a do-while loop in C)
    var v: nat := val;
    p := p - 1;
    buf[p] := XDigit(v % base);
    v := v / base;
    assert at <= p && buf[at + len] == '\0';
    while v != 0
      invariant at <= p < at + len && Lead(v, base) == ds[..p - at]
      invariant forall i :: p <= i < at + len ==> buf[i] == ds[i - at]
      invariant buf[at + len] == '\0'
      invariant forall i :: 0 <= i < buf.Length && !(at <= i <= at + len) ==> buf[i] == old(buf[i])
      decreases v
    {
      WriteStep(ds, p - at, v, base);
      p := p - 1;
      buf[p] := XDigit(v % base);
      v := v / base;
    }
    assert |ds[..p - at]| == 0;
    Written(buf[..], at, ds);
  }

  /** Cells `at` onwards that hold the characters of `d` one by one form
      the slice `d`. */
  lemma Written(s: seq<char>, at: nat, d: string)
    requires at + |d| <= |s| && forall i :: at <= i < at + |d| ==> s[i] == d[i - at]
    ensures s[at..at + |d|] == d
  {
  }

  /** The sign followed by the digits, as long_to_str lays them out. */
  lemma SignThenDigits(s: seq<char>, at: nat, d: string)
    requires at + 1 + |d| <= |s| && s[at] == '-' && s[at + 1..at + 1 + |d|] == d
    ensures s[at..at + 1 + |d|] == "-" + d
  {
    assert s[at..at + 1 + |d|] == [s[at]] + s[at + 1..at + 1 + |d|];
  }

  /** long_to_str: writes long_to_str's text of `val` followed by a NUL into
      `buf` starting at `at`. */
  method LongToStr(val: long, buf: array<char>, at: nat, base: int)
    requires ValidBase(base)
    requires at + |LongText(val, base)| < buf.Length
    modifies buf
    ensures buf[at..at + |LongText(val, base)|] == LongText(val, base)
    ensures buf[at + |LongText(val, base)|] == '\0'
    ensures forall i :: 0 <= i < buf.Length && !(at <= i <= at + |LongText(val, base)|) ==> buf[i] == old(buf[i])
  {
    ghost var t := LongText(val, base);
    if val < 0 {
      ghost var d := Digits(-(val as int), base);
      assert t == "-" + d;
      buf[at] := '-';
      UlongToStr(-(val as int), buf, at + 1, base);
      assert buf[at..at + |t|] == t by {
        SignThenDigits(buf[..], at, d);
        assert buf[at..at + 1 + |d|] == buf[..][at..at + 1 + |d|];
      }
      assert buf[at + |t|] == '\0';
    } else {
      UlongToStr(val, buf, at, base);
      assert t == Digits(val, base);
    }
  }
}
