/** The pieces of Python's string handling that the trainer's text layout
  * relies on: `str.split` with a one-character separator, `str(n)` and
  * `{:0Nd}` for integers, and `{:.4f}` for numbers. */
module Text {

  /** How many times `c` occurs in `s`. */
  function Occurrences(s: string, c: char): nat
  {
    if s == [] then 0 else (if s[0] == c then 1 else 0) + Occurrences(s[1..], c)
  }

  /** `sep.join(parts)`. */
  function Join(parts: seq<string>, sep: char): string
  {
    if parts == [] then ""
    else if |parts| == 1 then parts[0]
    else parts[0] + [sep] + Join(parts[1..], sep)
  }

  /** `s.split(sep)`: every occurrence of `sep` cuts, empty pieces are kept,
    * so there is always one piece more than there are separators. */
  function Split(s: string, sep: char): (parts: seq<string>)
    ensures |parts| == Occurrences(s, sep) + 1
    ensures forall i :: 0 <= i < |parts| ==> sep !in parts[i]
    ensures Join(parts, sep) == s
  {
    if s == [] then [""]
    else
      var rest := Split(s[1..], sep);
      if s[0] == sep then
        assert ([""] + rest)[1..] == rest;
        [""] + rest
      else
        var parts := [[s[0]] + rest[0]] + rest[1..];
        assert parts[1..] == rest[1..];
        assert s == [s[0]] + s[1..];
        parts
  }

  /** Splitting a piece free of `sep` followed by `t`: the piece glues onto
    * the first piece of `t`. */
  lemma {:induction false} SplitAfterPiece(a: string, t: string, sep: char)
    requires sep !in a
    ensures Split(a + t, sep) == [a + Split(t, sep)[0]] + Split(t, sep)[1..]
  {
    if a == [] {
      assert a + t == t;
      assert a + Split(t, sep)[0] == Split(t, sep)[0];
    } else {
      var st := Split(t, sep);
      var u := a + t;
      assert u[0] == a[0] && u[1..] == a[1..] + t;
      var rest := Split(u[1..], sep);
      SplitAfterPiece(a[1..], t, sep);
      assert rest[0] == a[1..] + st[0] && rest[1..] == st[1..];
      assert Split(u, sep) == [[a[0]] + rest[0]] + rest[1..];
      assert [a[0]] + (a[1..] + st[0]) == a + st[0];
    }
  }

  /** Split undoes Join when no piece contains the separator. */
  lemma {:induction false} SplitJoin(parts: seq<string>, sep: char)
    requires |parts| > 0
    requires forall i :: 0 <= i < |parts| ==> sep !in parts[i]
    ensures Split(Join(parts, sep), sep) == parts
  {
    var p := parts[0];
    var empty := Split("", sep);
    assert empty == [""];
    if |parts| == 1 {
      assert Join(parts, sep) == p;
      SplitAfterPiece(p, "", sep);
      assert p + "" == p;
      assert Split(p, sep) == [p + empty[0]] + empty[1..];
    } else {
      var rest := parts[1..];
      var joined := Join(rest, sep);
      var t := [sep] + joined;
      assert Join(parts, sep) == p + [sep] + joined;
      assert p + [sep] + joined == p + t;
      SplitJoin(rest, sep);
      assert t[0] == sep && t[1..] == joined;
      var st := Split(t, sep);
      assert st == [""] + rest;
      SplitAfterPiece(p, t, sep);
      assert st[0] == "" && st[1..] == rest;
      assert p + "" == p;
    }
  }

  predicate IsDigit(c: char) { '0' <= c <= '9' }

  predicate AllDigits(s: string) { forall i :: 0 <= i < |s| ==> IsDigit(s[i]) }

  function DigitChar(d: nat): (c: char)
    requires d < 10
    ensures IsDigit(c) && c as int - '0' as int == d
  {
    ('0' as int + d) as char
  }

  /** `str(n)` for a non-negative integer: decimal digits, no leading zero. */
  function Digits(n: nat): (s: string)
    ensures 1 <= |s| && AllDigits(s)
    ensures s[0] == '0' ==> s == "0"
    decreases n
  {
    if n < 10 then [DigitChar(n)] else Digits(n / 10) + [DigitChar(n % 10)]
  }

  function Pow10(k: nat): (p: nat)
    ensures p >= 1
  {
    if k == 0 then 1 else 10 * Pow10(k - 1)
  }

  /** `int(s)` for a string of decimal digits. */
  function Value(s: string): nat
    requires AllDigits(s)
  {
    if s == [] then 0 else 10 * Value(s[..|s| - 1]) + (s[|s| - 1] as int - '0' as int)
  }

  /** Reading back the digits of `n` gives `n`. */
  lemma {:induction false} ValueOfDigits(n: nat)
    ensures Value(Digits(n)) == n
    decreases n
  {
    if n >= 10 {
      ValueOfDigits(n / 10);
      var d := Digits(n / 10) + [DigitChar(n % 10)];
      assert d[..|d| - 1] == Digits(n / 10);
    }
  }

  /** A number below 10^k takes at most k digits. */
  lemma {:induction false} DigitsLength(n: nat, k: nat)
    requires n < Pow10(k)
    ensures |Digits(n)| <= if k == 0 then 1 else k
    decreases n
  {
    if n >= 10 {
      assert k > 1;
      DigitsLength(n / 10, k - 1);
    }
  }

  /** The value of a concatenation of digit strings. */
  lemma {:induction false} ValueAppend(a: string, b: string)
    requires AllDigits(a) && AllDigits(b)
    ensures Value(a + b) == Value(a) * Pow10(|b|) + Value(b)
    decreases |b|
  {
    if b == [] {
      assert a + b == a;
    } else {
      var b' := b[..|b| - 1];
      var d := b[|b| - 1] as int - '0' as int;
      ValueAppend(a, b');
      var ab := a + b;
      assert ab[..|ab| - 1] == a + b';
      assert ab[|ab| - 1] == b[|b| - 1];
      var va, vb', p' := Value(a), Value(b'), Pow10(|b'|);
      assert Value(ab) == 10 * Value(a + b') + d;
      assert Value(b) == 10 * vb' + d;
      assert Pow10(|b|) == 10 * p';
      Regroup(va, p', vb', d);
    }
  }

  lemma Regroup(va: int, p: int, vb: int, d: int)
    ensures 10 * (va * p + vb) + d == va * (10 * p) + (10 * vb + d)
  {
  }

  /** `k` zero characters. */
  function Zeros(k: nat): (s: string)
    ensures |s| == k && AllDigits(s)
  {
    if k == 0 then "" else Zeros(k - 1) + "0"
  }

  lemma {:induction false} ValueOfZeros(k: nat)
    ensures Value(Zeros(k)) == 0
  {
    if k > 0 {
      ValueOfZeros(k - 1);
      assert Zeros(k)[..k - 1] == Zeros(k - 1);
    }
  }

  /** `{:0<width>d}` for a non-negative integer: its digits, padded on the
    * left with zeros to at least `width` characters. */
  function ZeroPad(n: nat, width: nat): (s: string)
    ensures AllDigits(s)
    ensures |s| == if |Digits(n)| < width then width else |Digits(n)|
  {
    var d := Digits(n);
    if |d| < width then Zeros(width - |d|) + d else d
  }

  /** Padding never changes the number the text denotes. */
  lemma {:induction false} ZeroPadValue(n: nat, width: nat)
    ensures Value(ZeroPad(n, width)) == n
  {
    ValueOfDigits(n);
    var d := Digits(n);
    if |d| < width {
      LeadingZerosValue(width - |d|, d);
    }
  }

  /** Leading zeros do not change the number a digit string denotes. */
  lemma LeadingZerosValue(k: nat, d: string)
    requires AllDigits(d)
    ensures Value(Zeros(k) + d) == Value(d)
  {
    var z := Zeros(k);
    ValueAppend(z, d);
    ValueOfZeros(k);
    assert Value(z) * Pow10(|d|) == 0;
  }

  /** Two different numbers never pad to the same text. */
  lemma ZeroPadInjective(m: nat, n: nat, width: nat)
    requires ZeroPad(m, width) == ZeroPad(n, width)
    ensures m == n
  {
    ZeroPadValue(m, width);
    ZeroPadValue(n, width);
  }

  /** `str(i)` for any integer. */
  function IntText(i: int): (s: string)
    ensures 1 <= |s|
    ensures forall k :: 0 <= k < |s| ==> IsDigit(s[k]) || (k == 0 && s[k] == '-')
    ensures (s[0] == '-') <==> i < 0
    ensures var d := if i < 0 then s[1..] else s;
      1 <= |d| && AllDigits(d) && Value(d) == (if i < 0 then -i else i) && (d[0] == '0' ==> d == "0")
  {
    ValueOfDigits(if i < 0 then -i else i);
    if i < 0 then "-" + Digits(-i) else Digits(i)
  }

  /** Rounding to the nearest integer, halves to the even neighbour, which
    * is how `{:.Nf}` rounds. */
  function RoundHalfEven(x: real): (q: int)
    ensures x - 0.5 <= q as real <= x + 0.5
    ensures (q as real == x - 0.5 || q as real == x + 0.5) ==> q % 2 == 0
    ensures x >= 0.0 ==> q >= 0
  {
    var f := x.Floor;
    var frac := x - f as real;
    if frac < 0.5 then f
    else if frac > 0.5 then f + 1
    else if f % 2 == 0 then f
    else f + 1
  }

  /** `"{:.4f}".format(v)`: an optional minus sign, the integer part, a point
    * and exactly four decimals of |v| rounded half to even. */
  function Fixed4(v: real): (s: string)
    ensures 6 <= |s| && s[|s| - 5] == '.'
    ensures AllDigits(s[|s| - 4..])
    ensures (v < 0.0) == (s[0] == '-')
    ensures s[(if v < 0.0 then 1 else 0)..|s| - 5] == Digits(TenThousandths(v) / 10000)
    ensures s[|s| - 4..] == ZeroPad(TenThousandths(v) % 10000, 4)
  {
    var body := FixedDigits(TenThousandths(v));
    var s := (if v < 0.0 then "-" else "") + body;
    assert s[|s| - 4..] == body[|body| - 4..];
    assert s[(if v < 0.0 then 1 else 0)..|s| - 5] == body[..|body| - 5];
    s
  }

  /** |v| in units of the fourth decimal, rounded half to even. */
  function TenThousandths(v: real): (q: nat)
    ensures (if v < 0.0 then -v else v) * 10000.0 - 0.5 <= q as real <= (if v < 0.0 then -v else v) * 10000.0 + 0.5
  {
    RoundHalfEven((if v < 0.0 then -v else v) * 10000.0) as nat
  }

  /** The unsigned text of `q` ten-thousandths: the integer part, a point
    * and four decimals. */
  function FixedDigits(q: nat): (s: string)
    ensures 6 <= |s| && s[|s| - 5] == '.' && s[0] != '-'
    ensures AllDigits(s[|s| - 4..])
    ensures s[..|s| - 5] == Digits(q / 10000) && s[|s| - 4..] == ZeroPad(q % 10000, 4)
  {
    var frac := ZeroPad(q % 10000, 4);
    DigitsLength(q % 10000, 4);
    var s := Digits(q / 10000) + "." + frac;
    assert s[|s| - 4..] == frac;
    assert s[..|s| - 5] == Digits(q / 10000);
    s
  }

  /** The number that fixed-point text such as "-12.0500" denotes: digits,
    * one point, digits, with an optional leading minus sign. Text of any
    * other shape denotes 0.0. */
  function DecimalValue(s: string): real
  {
    if |s| > 0 && s[0] == '-' then -UnsignedValue(s[1..]) else UnsignedValue(s)
  }

  function UnsignedValue(s: string): real
  {
    var parts := Split(s, '.');
    if |parts| == 2 && AllDigits(parts[0]) && AllDigits(parts[1]) then
      Value(parts[0]) as real + Value(parts[1]) as real / Pow10(|parts[1]|) as real
    else 0.0
  }

  /** The unsigned part of `{:.4f}` text reads back as whole + frac / 10^4. */
  lemma {:induction false} UnsignedFixedValue(whole: nat, frac: nat)
    requires frac < 10000
    ensures UnsignedValue(Digits(whole) + "." + ZeroPad(frac, 4))
         == whole as real + frac as real / 10000.0
  {
    var w, f := Digits(whole), ZeroPad(frac, 4);
    DigitsLength(frac, 4);
    assert |f| == 4;
    var parts := [w, f];
    assert Join(parts, '.') == w + "." + f;
    assert forall i :: 0 <= i < |parts| ==> '.' !in parts[i];
    SplitJoin(parts, '.');
    ValueOfDigits(whole);
    ZeroPadValue(frac, 4);
    assert Pow10(4) == 10000;
  }

  /** The text `{:.4f}` produces denotes the number to within half a unit of
    * the fourth decimal. */
  lemma {:induction false} Fixed4Denotes(v: real)
    ensures -0.00005 <= DecimalValue(Fixed4(v)) - v <= 0.00005
  {
    var m := if v < 0.0 then -v else v;
    var q := TenThousandths(v);
    var x, y := q / 10000, q % 10000;
    var body := FixedDigits(q);
    assert body == Digits(x) + "." + ZeroPad(y, 4);
    var s := Fixed4(v);
    UnsignedFixedValue(x, y);
    var u := UnsignedValue(body);
    assert u == x as real + y as real / 10000.0;
    assert x * 10000 + y == q;
    assert -0.00005 <= u - m <= 0.00005 by {
      assert (x * 10000 + y) as real == x as real * 10000.0 + y as real;
      assert u * 10000.0 == q as real;
    }
    assert DecimalValue(s) == if v < 0.0 then -u else u by {
      if v < 0.0 {
        assert s == "-" + body;
        assert s[0] == '-' && s[1..] == body;
      } else {
        assert s == body && body[0] != '-';
      }
    }
  }
}
