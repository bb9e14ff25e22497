/** Decimal numbers as the C library prints and reads them. */
module Numbers {
  import opened Events

  /** The decimal digits of a number, without leading zeros. */
  function Decimal(n: nat): string {
    if n < 10 then [['0', '1', '2', '3', '4', '5', '6', '7', '8', '9'][n]]
    else Decimal(n / 10) + Decimal(n % 10)
  }

  predicate IsDigit(c: char) { '0' <= c <= '9' }

  predicate AllDigits(s: string) { forall c | c in s :: IsDigit(c) }

  function Value(s: string): nat
    requires AllDigits(s)
  {
    if s == "" then 0
    else
      var last := s[|s| - 1];
      assert IsDigit(last);
      10 * Value(s[..|s| - 1]) + (last as int - '0' as int)
  }

  lemma {:induction false} DecimalIsDigits(n: nat)
    ensures Decimal(n) != "" && AllDigits(Decimal(n))
    ensures Decimal(n)[0] == '0' ==> n == 0
  {
    if n >= 10 {
      DecimalIsDigits(n / 10);
      DecimalIsDigits(n % 10);
    }
  }

  lemma {:induction false} DecimalReadsBack(n: nat)
    ensures Decimal(n) != "" && AllDigits(Decimal(n)) && Value(Decimal(n)) == n
    ensures Decimal(n)[0] == '0' ==> n == 0
  {
    DecimalIsDigits(n);
    if n < 10 {
      assert Decimal(n)[..0] == "";
    } else {
      DecimalReadsBack(n / 10);
      assert |Decimal(n % 10)| == 1;
      assert Decimal(n)[..|Decimal(n)| - 1] == Decimal(n / 10);
    }
  }

  lemma DecimalInjective(m: nat, n: nat)
    requires Decimal(m) == Decimal(n)
    ensures m == n
  {
    DecimalReadsBack(m);
    DecimalReadsBack(n);
  }

  /**
   Printing ten times a number and a digit more appends the digit; from the ten digits that gives every number's text.
   */
  lemma DecimalAppends(n: nat, d: nat)
    requires 0 < n && d < 10
    ensures Decimal(10 * n + d) == Decimal(n) + Decimal(d)
    ensures Decimal(d) == ["0", "1", "2", "3", "4", "5", "6", "7", "8", "9"][d]
  {
    assert (10 * n + d) / 10 == n && (10 * n + d) % 10 == d;
  }

  /** Digits without leading zeros are the text of their value. */
  lemma {:induction false} DecimalOfValue(s: string)
    requires s != "" && AllDigits(s) && (s[0] == '0' ==> |s| == 1)
    ensures Decimal(Value(s)) == s
  {
    var front, last := s[..|s| - 1], s[|s| - 1];
    assert IsDigit(last);
    var d: nat := last as int - '0' as int;
    assert s == front + [last] && Decimal(d) == [last];
    if front == "" {
      assert Value(s) == d;
    } else {
      DecimalOfValue(front);
      ValuePositive(front);
      DecimalAppends(Value(front), d);
    }
  }

  lemma {:induction false} ValuePositive(s: string)
    requires s != "" && AllDigits(s) && s[0] != '0'
    ensures 0 < Value(s)
  {
    assert IsDigit(s[0]);
    if |s| == 1 {
      assert Value(s[..0]) == 0;
    } else {
      assert IsDigit(s[|s| - 1]);
      ValuePositive(s[..|s| - 1]);
    }
  }

  lemma ValueAppends(s: string, c: char)
    requires AllDigits(s) && IsDigit(c)
    ensures AllDigits(s + [c]) && Value(s + [c]) == 10 * Value(s) + (c as int - '0' as int)
  {
    assert (s + [c])[..|s|] == s;
  }

  // ---- stol, stoi and stod ----

  predicate IsSpace(c: char) { c == ' ' || '\t' <= c <= '\r' }

  function SkipSpace(s: string): string {
    if s != "" && IsSpace(s[0]) then SkipSpace(s[1..]) else s
  }

  /** The longest prefix made of digits. */
  function Digits(s: string): (d: string)
    ensures d <= s && AllDigits(d)
    ensures |d| < |s| ==> !IsDigit(s[|d|])
  {
    if s == "" || !IsDigit(s[0]) then "" else [s[0]] + Digits(s[1..])
  }

  predicate Signed(s: string) { s != "" && (s[0] == '+' || s[0] == '-') }

  function Unsigned(s: string): string { if Signed(s) then s[1..] else s }

  const LONG: int := 0x8000_0000_0000_0000
  const INT: int := 0x8000_0000

  /** Blanks, a sign, digits; the rest is ignored, and without a digit there is no number. */
  function Whole(s: string): Option<int> {
    var t := SkipSpace(s);
    var d := Digits(Unsigned(t));
    var n: int := if Signed(t) && t[0] == '-' then 0 - Value(d) else Value(d);
    if d == "" then None else Some(n)
  }

  function Within(n: Option<int>, limit: int): Option<int> {
    if n.Some? && -limit <= n.value < limit then n else None
  }

  /** A number that does not fit the result is none: stol and stoi throw then, as for a text that is no number. */
  function Stol(s: string): Option<int> { Within(Whole(s), LONG) }

  function Stoi(s: string): Option<int> { Within(Whole(s), INT) }

  function Power10(n: nat): (p: nat)
    ensures 0 < p
  {
    if n == 0 then 1 else 10 * Power10(n - 1)
  }

  function Fraction(whole: string, part: string): real
    requires AllDigits(whole) && AllDigits(part)
  {
    Value(whole) as real + Value(part) as real / Power10(|part|) as real
  }

  /** stod on a number without exponent: digits with a decimal point somewhere among them. */
  function Stod(s: string): Option<real> {
    var t := SkipSpace(s);
    var whole := Digits(Unsigned(t));
    var rest := Unsigned(t)[|whole|..];
    var part := if rest != "" && rest[0] == '.' then Digits(rest[1..]) else "";
    if whole == "" && part == "" then None
    else
      var x := Fraction(whole, part);
      Some(if Signed(t) && t[0] == '-' then -x else x)
  }

  lemma {:induction false} DigitsOfConcat(d: string, rest: string)
    requires AllDigits(d) && (rest != "" ==> !IsDigit(rest[0]))
    ensures Digits(d + rest) == d
  {
    if d == "" {
      assert d + rest == rest;
    } else {
      assert IsDigit(d[0]) && (d + rest)[1..] == d[1..] + rest;
      DigitsOfConcat(d[1..], rest);
    }
  }

  lemma WholeOfDigits(d: string, rest: string)
    requires d != "" && AllDigits(d) && (rest != "" ==> !IsDigit(rest[0]))
    ensures var s := d + rest;
            Whole(s) == Whole("+" + s) == Some(Value(d)) && Whole("-" + s) == Some(0 - Value(d))
  {
    hide Value, Digits;
    DigitsOfConcat(d, rest);
    var s, t, u := d + rest, "-" + (d + rest), "+" + (d + rest);
    assert s[0] == d[0] && IsDigit(s[0]);
    assert SkipSpace(s) == s && Unsigned(s) == s && t[1..] == s && u[1..] == s;
    assert SkipSpace(t) == t && Unsigned(t) == s && SkipSpace(u) == u && Unsigned(u) == s;
  }

  /**
   Printing a number and reading it back gives the number exactly when it fits 64 or 32 bits, whatever non-digit follows
   and with or without a sign.
   */
  lemma StolOfDecimal(n: nat, rest: string)
    requires rest != "" ==> !IsDigit(rest[0])
    ensures var s, t := Decimal(n) + rest, "-" + (Decimal(n) + rest);
            && Stol(s) == Stol("+" + s) == (if n <= 9223372036854775807 then Some(n) else None)
            && Stol(t) == (if n <= 9223372036854775808 then Some(0 - n) else None)
            && Stoi(s) == Stoi("+" + s) == (if n <= 2147483647 then Some(n) else None)
            && Stoi(t) == (if n <= 2147483648 then Some(0 - n) else None)
  {
    hide Decimal, Whole, Value;
    DecimalReadsBack(n);
    WholeOfDigits(Decimal(n), rest);
  }

  /** Leading zeros make no difference. */
  lemma LeadingZero(d: string, rest: string)
    requires d != "" && AllDigits(d) && (rest != "" ==> !IsDigit(rest[0]))
    ensures Stol("0" + d + rest) == Stol(d + rest) && Stoi("0" + d + rest) == Stoi(d + rest)
  {
    hide Whole, Value;
    ZeroAdds(d);
    WholeOfDigits("0" + d, rest);
    WholeOfDigits(d, rest);
  }

  lemma {:induction false} ZeroAdds(d: string)
    requires AllDigits(d)
    ensures AllDigits("0" + d) && Value("0" + d) == Value(d)
  {
    if d == "" {
      assert "0" + d == "" + ['0'];
      ValueAppends("", '0');
    } else {
      var front, last := d[..|d| - 1], d[|d| - 1];
      ZeroAdds(front);
      assert IsDigit(last) && d == front + [last] && "0" + d == ("0" + front) + [last];
      ValueAppends(front, last);
      ValueAppends("0" + front, last);
    }
  }

  /** Blanks, tabs and line ends before a number make no difference. */
  lemma {:induction false} BlanksSkipped(b: string, s: string)
    requires forall i | 0 <= i < |b| :: b[i] in {' ', '\t', '\n', '\U{000B}', '\U{000C}', '\r'}
    ensures Stol(b + s) == Stol(s) && Stoi(b + s) == Stoi(s) && Stod(b + s) == Stod(s)
  {
    hide Digits, Value, Unsigned, Power10;
    if b == "" {
      assert b + s == s;
    } else {
      assert IsSpace(b[0]);
      assert (b + s)[0] == b[0] && (b + s)[1..] == b[1..] + s;
      BlanksSkipped(b[1..], s);
    }
  }

  /** A text that begins with anything but a blank, a sign, a point or a digit is no number. */
  lemma NoNumber(s: string)
    requires s == "" || s[0] !in {' ', '\t', '\n', '\U{000B}', '\U{000C}', '\r', '+', '-', '.'}
    requires s == "" || s[0] !in "0123456789"
    ensures Stol(s) == Stoi(s) == None && Stod(s) == None
  {
    if s != "" && IsDigit(s[0]) {
      DigitChars(s[0]);
    }
  }

  lemma DigitChars(c: char)
    requires IsDigit(c)
    ensures c in "0123456789"
  {
    var i := c as int - '0' as int;
    assert "0123456789"[i] == c;
  }

  // ---- decimal points ----

  lemma FractionParts(w: string, p: string)
    requires w != "" && AllDigits(w) && AllDigits(p)
    ensures var s := w + "." + p;
            && Digits(s) == w && s[|w|..] == "." + p && Digits(p) == p
            && SkipSpace(s) == s && Unsigned(s) == s && !Signed(s)
  {
    hide Digits;
    DigitsOfConcat(w, "." + p);
    DigitsOfConcat(p, "");
    var s := w + "." + p;
    assert s == w + ("." + p) && p + "" == p;
    assert s[0] == w[0] && IsDigit(s[0]);
  }

  lemma SignedParts(c: char, s: string)
    requires c == '+' || c == '-'
    ensures var t := [c] + s; SkipSpace(t) == t && Unsigned(t) == s && Signed(t) && t[0] == c
  {
    assert ([c] + s)[1..] == s;
  }

  lemma ReadsAs(t: string, w: string, p: string)
    requires w != "" && AllDigits(w) && AllDigits(p) && SkipSpace(t) == t && Unsigned(t) == w + "." + p
    ensures var x := Fraction(w, p);
            Stod(t) == Some(if Signed(t) && t[0] == '-' then -x else x)
  {
    hide Fraction, Digits, SkipSpace, Unsigned, Signed;
    FractionParts(w, p);
    assert ("." + p)[1..] == p;
  }

  lemma ReadsFraction(w: string, p: string)
    requires w != "" && AllDigits(w) && AllDigits(p)
    ensures var s, x := w + "." + p, Value(w) as real + Value(p) as real / Power10(|p|) as real;
            Stod(s) == Stod("+" + s) == Some(x) && Stod("-" + s) == Some(-x)
  {
    hide Stod, Value, Digits, Power10, SkipSpace, Unsigned, Signed;
    var s := w + "." + p;
    FractionParts(w, p);
    SignedParts('+', s);
    SignedParts('-', s);
    ReadsAs(s, w, p);
    ReadsAs("+" + s, w, p);
    ReadsAs("-" + s, w, p);
  }

  lemma WholeParts(w: string)
    requires w != "" && AllDigits(w)
    ensures Digits(w) == w && w[|w|..] == "" && SkipSpace(w) == w && Unsigned(w) == w && !Signed(w)
  {
    hide Digits;
    DigitsOfConcat(w, "");
    assert w + "" == w && IsDigit(w[0]);
  }

  /** Without a fraction stod reads what stol reads, with or without the point. */
  lemma StodOfWhole(w: string)
    requires w != "" && AllDigits(w)
    ensures Whole(w).Some?
    ensures Stod(w) == Stod(w + ".") == Some(Whole(w).value as real)
  {
    hide Value, Digits, Power10, SkipSpace, Unsigned, Signed;
    WholeParts(w);
    FractionParts(w, "");
    SameWhole(Value(w));
    EmptyValue();
    assert w + "." + "" == w + "." && ("." + "")[1..] == "";
  }

  lemma SameWhole(n: nat)
    ensures n as real + 0 as real / 1 as real == n as real
  {
  }

  /** Moving the point one digit to the right multiplies by ten. */
  lemma PointMoves(w: string, c: char, p: string)
    requires w != "" && AllDigits(w) && IsDigit(c) && AllDigits(p)
    ensures var x := Stod(w + "." + ([c] + p)); x.Some? && Stod(w + [c] + "." + p) == Some(10.0 * x.value)
  {
    hide Stod, Value;
    ReadsFraction(w, [c] + p);
    ReadsFraction(w + [c], p);
    ValueAppends(w, c);
    ValueJoins([c], p);
    ValueAppends("", c);
    assert "" + [c] == [c];
    var v, d, k := Value(w), c as int - '0' as int, Power10(|p|);
    assert Value("") == 0 by { EmptyValue(); }
    PointArithmetic(v, d, Value(p), k);
    assert Power10(|[c] + p|) == 10 * k;
  }

  lemma EmptyValue()
    ensures Value("") == 0 && Power10(0) == 1
  {
  }

  lemma PointArithmetic(v: int, d: int, f: int, k: nat)
    requires 0 < k
    ensures 10.0 * (v as real + (d * k + f) as real / (10 * k) as real) == (10 * v + d) as real + f as real / k as real
  {
    var x := (d * k + f) as real / (10 * k) as real;
    assert x * (10 * k) as real == (d * k + f) as real;
    assert (10.0 * x) * k as real == d as real * k as real + f as real;
    assert 10.0 * x == d as real + f as real / k as real;
  }

  lemma {:induction false} ValueJoins(a: string, b: string)
    requires AllDigits(a) && AllDigits(b)
    ensures AllDigits(a + b) && Value(a + b) == Value(a) * Power10(|b|) + Value(b)
    decreases |b|
  {
    hide Value, Power10;
    EmptyValue();
    if b == "" {
      assert a + b == a;
    } else {
      var front, last := b[..|b| - 1], b[|b| - 1];
      assert IsDigit(last) && b == front + [last] && a + b == (a + front) + [last];
      ValueJoins(a, front);
      ValueAppends(front, last);
      ValueAppends(a + front, last);
      OnePlaceMore(Value(a), |front|);
    }
  }

  lemma OnePlaceMore(x: nat, n: nat)
    ensures 10 * (x * Power10(n)) == x * Power10(n + 1)
  {
    var k := Power10(n);
    assert 10 * (x * k) == x * (10 * k);
  }

  /** A minus sign negates, and a plus sign makes no difference. */
  lemma SignsOfFractions(w: string, p: string)
    requires w != "" && AllDigits(w) && AllDigits(p)
    ensures var s := w + "." + p;
            Stod(s).Some? && Stod("+" + s) == Stod(s) && Stod("-" + s) == Some(-Stod(s).value)
  {
    hide Stod;
    ReadsFraction(w, p);
  }

  /** A zero at the end of the fraction makes no difference. */
  lemma TrailingZero(w: string, p: string)
    requires w != "" && AllDigits(w) && AllDigits(p)
    ensures Stod(w + "." + (p + "0")) == Stod(w + "." + p)
  {
    hide Stod, Value;
    ReadsFraction(w, p);
    ReadsFraction(w, p + "0");
    ValueAppends(p, '0');
    assert |p + "0"| == |p| + 1;
    var f, k := Value(p), Power10(|p|);
    assert (10 * f) as real / (10 * k) as real == f as real / k as real;
  }

  /**
   A thousand times a number, with what is behind the third digit of its fraction cut off, is what stol reads without
   the point.
   */
  lemma Thousandfold(w: string, d: string, p: string)
    requires w != "" && AllDigits(w) && AllDigits(d) && |d| == 3 && AllDigits(p)
    ensures var x, n := Stod(w + "." + (d + p)), Whole(w + d);
            && x.Some? && n.Some?
            && n.value as real <= 1000.0 * x.value < n.value as real + 1.0
            && (p == "" ==> 1000.0 * x.value == n.value as real)
  {
    hide Stod, Whole, Value;
    assert IsDigit(d[0]) && IsDigit(d[1]) && IsDigit(d[2]);
    assert d + p == [d[0]] + ([d[1]] + ([d[2]] + p));
    var w1, w2 := w + [d[0]], w + [d[0]] + [d[1]];
    assert AllDigits(w1) && AllDigits(w2);
    PointMoves(w, d[0], [d[1]] + ([d[2]] + p));
    PointMoves(w1, d[1], [d[2]] + p);
    PointMoves(w2, d[2], p);
    assert w2 + [d[2]] == w + d && AllDigits(w + d);
    WholeOfDigits(w + d, "");
    assert w + d + "" == w + d;
    ReadsFraction(w + d, p);
    FractionBelowOne(p);
    if p == "" {
      assert Value("") == 0 by { EmptyValue(); }
    }
  }

  lemma {:induction false} ValueBelow(p: string)
    requires AllDigits(p)
    ensures Value(p) < Power10(|p|)
  {
    if p != "" {
      var front, last := p[..|p| - 1], p[|p| - 1];
      assert IsDigit(last) && p == front + [last];
      ValueBelow(front);
      ValueAppends(front, last);
    }
  }

  lemma FractionBelowOne(p: string)
    requires AllDigits(p)
    ensures 0.0 <= Value(p) as real / Power10(|p|) as real < 1.0
  {
    hide Value, Power10;
    ValueBelow(p);
    BelowOne(Value(p), Power10(|p|));
  }

  lemma BelowOne(f: nat, k: nat)
    requires f < k
    ensures 0.0 <= f as real / k as real < 1.0
  {
    var x := f as real / k as real;
    assert x * k as real == f as real;
  }

  /** A number may begin with its point, but needs a digit. */
  lemma PointFirst(p: string)
    requires AllDigits(p) && p != ""
    ensures Stod("." + p) == Stod("0" + "." + p) && Stod(".") == None
  {
    hide Value, Power10, Digits;
    DigitsOfConcat(p, "");
    DigitsOfConcat("", "." + p);
    assert p + "" == p && "" + ("." + p) == "." + p;
    var t := "." + p;
    assert SkipSpace(t) == t && Unsigned(t) == t && t[0..] == t && t[1..] == p;
    ReadsFraction("0", p);
    EmptyValue();
    ZeroIsZero();
    DigitsOfConcat("", ".");
    assert "" + "." == "." && SkipSpace(".") == "." && Unsigned(".") == "." && "."[0..] == "." && "."[1..] == "";
    DigitsOfConcat("", "");
    assert "" + "" == "";
  }

  lemma ZeroIsZero()
    ensures AllDigits("0") && Value("0") == 0
  {
    assert "0"[..0] == "";
  }
}
