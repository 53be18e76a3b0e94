/** `format_number`: the compact, human-readable rendering of a tick or
    annotation value (year short-cut, B/M/K magnitudes, units, decimals,
    thousands separators, currency and percent marks). */
module NumberFormatting {
  import opened Common

  /** The value handed to the formatter: a Python int, a finite Python float
      (given by its exact value, which every finite double has), or any
      other object (given by what `str` makes of it). */
  datatype PyValue = PyInt(i: int) | PyFloat(x: real) | PyOther(text: string)

  function ValueOf(v: PyValue): real
    requires !v.PyOther?
  {
    if v.PyInt? then v.i as real else v.x
  }

  /** `isinstance(value, int) or float(value).is_integer()`. */
  predicate IsIntegral(v: PyValue)
    requires !v.PyOther?
  {
    v.PyInt? || v.x == v.x.Floor as real
  }

  function Abs(x: real): (r: real)
    ensures r >= 0.0 && (r == x || r == -x)
  {
    if x < 0.0 then -x else x
  }

  function Pow10(d: nat): (p: nat)
    ensures p >= 1
  {
    if d == 0 then 1 else 10 * Pow10(d - 1)
  }

  // ---------------------------------------------------------------------
  // Rounding and decimal numerals
  // ---------------------------------------------------------------------

  /** Round-half-even to an integer, the rule Python's 'f' formatting
      applies to the exact value of its argument. */
  function RoundHalfEven(q: real): (n: int)
    ensures Abs(n as real - q) <= 0.5
    ensures Abs(n as real - q) == 0.5 ==> n % 2 == 0
    ensures q >= 0.0 ==> n >= 0
  {
    var f := q.Floor;
    var frac := q - f as real;
    if frac < 0.5 then f
    else if frac > 0.5 then f + 1
    else if f % 2 == 0 then f else f + 1
  }

  predicate IsDigit(c: char) { '0' <= c <= '9' }

  function DigitChar(d: nat): (c: char)
    requires d < 10
    ensures IsDigit(c) && c as int - '0' as int == d
  {
    ('0' as int + d) as char
  }

  /** The value of a digit; any other character reads as 0. */
  function DigitValue(c: char): (d: nat)
    ensures d < 10
  {
    if IsDigit(c) then c as int - '0' as int else 0
  }

  predicate AllDigits(s: string) { forall i :: 0 <= i < |s| ==> IsDigit(s[i]) }

  /** Python's `str(n)` for a non-negative integer. */
  function NatToString(n: nat): (s: string)
    ensures |s| >= 1 && AllDigits(s)
    ensures |s| > 1 ==> s[0] != '0'
  {
    if n < 10 then [DigitChar(n)] else NatToString(n / 10) + [DigitChar(n % 10)]
  }

  /** Reads a string of digits as a natural number. */
  function ParseNat(s: string): nat
  {
    if s == [] then 0 else 10 * ParseNat(s[..|s| - 1]) + DigitValue(s[|s| - 1])
  }

  /** `str(n)` read back gives `n`. */
  lemma {:induction false} ParseNatToString(n: nat)
    ensures ParseNat(NatToString(n)) == n
  {
    if n >= 10 {
      var s := NatToString(n);
      assert s[..|s| - 1] == NatToString(n / 10);
      ParseNatToString(n / 10);
    }
  }

  /** The last `d` decimal digits of `n`, zero-padded on the left. */
  function LastDigits(n: nat, d: nat): (s: string)
    ensures |s| == d && AllDigits(s)
  {
    if d == 0 then [] else LastDigits(n / 10, d - 1) + [DigitChar(n % 10)]
  }

  /** `n` with its last `d` decimal digits dropped. */
  function DropDigits(n: nat, d: nat): nat
  {
    if d == 0 then n else DropDigits(n / 10, d - 1)
  }

  /** The dropped part and the last digits put back together give `n`. */
  lemma {:induction false} SplitDigits(n: nat, d: nat)
    ensures n == DropDigits(n, d) * Pow10(d) + ParseNat(LastDigits(n, d))
  {
    if d > 0 {
      var q, p := DropDigits(n / 10, d - 1), Pow10(d - 1);
      var r := ParseNat(LastDigits(n / 10, d - 1));
      ParseLastDigit(n, d);
      SplitDigits(n / 10, d - 1);
      ScaleStep(DropDigits(n, d), Pow10(d), q, p);
      Recombine(n, DropDigits(n, d) * Pow10(d), ParseNat(LastDigits(n, d)), q * p, r);
    }
  }

  lemma ScaleStep(a: int, b: int, q: int, p: int)
    requires a == q && b == 10 * p
    ensures a * b == 10 * (q * p)
  {
  }

  /** `n` is ten times its prefix plus its last digit. */
  lemma Recombine(n: nat, high: int, low: int, m: int, r: int)
    requires n / 10 == m + r && low == 10 * r + n % 10 && high == 10 * m
    ensures n == high + low
  {
  }

  lemma ParseLastDigit(n: nat, d: nat)
    requires d > 0
    ensures ParseNat(LastDigits(n, d)) == 10 * ParseNat(LastDigits(n / 10, d - 1)) + n % 10
  {
    var s := LastDigits(n, d);
    assert s[..|s| - 1] == LastDigits(n / 10, d - 1);
  }

  /** `y * 10^d`, written as `d` multiplications by ten. */
  function Shift10(y: real, d: nat): (r: real)
    ensures y >= 0.0 ==> r >= 0.0
  {
    if d == 0 then y else 10.0 * Shift10(y, d - 1)
  }

  /** `y / 10^d`, written as `d` divisions by ten. */
  function Unshift10(y: real, d: nat): real
  {
    if d == 0 then y else Unshift10(y, d - 1) / 10.0
  }

  lemma {:induction false} ShiftUnshift(y: real, d: nat)
    ensures Shift10(Unshift10(y, d), d) == y
  {
    if d > 0 {
      ShiftOfQuotient(Unshift10(y, d - 1), d - 1);
      ShiftUnshift(y, d - 1);
    }
  }

  lemma {:induction false} ShiftOfQuotient(y: real, d: nat)
    ensures Shift10(y / 10.0, d) == Shift10(y, d) / 10.0
  {
    if d > 0 {
      ShiftOfQuotient(y, d - 1);
    }
  }

  lemma {:induction false} UnshiftAdd(a: real, b: real, d: nat)
    ensures Unshift10(a + b, d) == Unshift10(a, d) + Unshift10(b, d)
  {
    if d > 0 {
      UnshiftAdd(a, b, d - 1);
    }
  }

  lemma {:induction false} ShiftSub(a: real, b: real, d: nat)
    ensures Shift10(a - b, d) == Shift10(a, d) - Shift10(b, d)
  {
    if d > 0 {
      ShiftSub(a, b, d - 1);
    }
  }

  lemma {:induction false} ShiftAbs(y: real, d: nat)
    ensures Shift10(Abs(y), d) == Abs(Shift10(y, d))
    ensures (Shift10(y, d) < 0.0) == (y < 0.0)
  {
    if d > 0 {
      ShiftAbs(y, d - 1);
    }
  }

  lemma {:induction false} UnshiftOfMultiple(q: nat, d: nat)
    ensures Unshift10((q * Pow10(d)) as real, d) == q as real
  {
    if d > 0 {
      var m := q * Pow10(d - 1);
      assert q * Pow10(d) == 10 * m by {
        assert q * (10 * Pow10(d - 1)) == 10 * (q * Pow10(d - 1));
      }
      assert (10 * m) as real == 10.0 * m as real;
      UnshiftOfTen(m as real, d);
      UnshiftOfMultiple(q, d - 1);
    }
  }

  lemma {:induction false} UnshiftOfTen(y: real, d: nat)
    requires d > 0
    ensures Unshift10(10.0 * y, d) == Unshift10(y, d - 1)
  {
    if d > 1 {
      UnshiftOfTen(y, d - 1);
    }
  }

  /** Index of the first '.' in `s`, or |s| when there is none. */
  function PointIndex(s: string): (k: nat)
    ensures k <= |s|
    ensures k < |s| ==> s[k] == '.'
    ensures forall i :: 0 <= i < k ==> s[i] != '.'
  {
    if s == [] || s[0] == '.' then 0 else 1 + PointIndex(s[1..])
  }

  /** Reads a numeral "[-]digits[.digits]" as an exact rational. */
  function ReadDecimal(s: string): real
  {
    if |s| > 0 && s[0] == '-' then -ReadUnsigned(s[1..]) else ReadUnsigned(s)
  }

  function ReadUnsigned(s: string): real
  {
    var k := PointIndex(s);
    if k == |s| then ParseNat(s) as real
    else ParseNat(s[..k]) as real + Unshift10(ParseNat(s[k + 1..]) as real, |s| - k - 1)
  }

  /** The digits of n / 10^d with `d` places after the point. */
  function PlacedDigits(n: nat, d: nat): (s: string)
    ensures |s| >= 1 && IsDigit(s[0])
  {
    if d == 0 then NatToString(n) else NatToString(DropDigits(n, d)) + "." + LastDigits(n, d)
  }

  /** The text of an unsigned `{:.<d>f}` numeral: an integer part of digits
      with no leading zero, then, when `d > 0`, a '.' and exactly `d`
      digits. */
  predicate UnsignedNumeral(s: string, d: nat)
  {
    var k := |s| - (if d == 0 then 0 else d + 1);
    && k >= 1
    && AllDigits(s[..k])
    && (k > 1 ==> s[0] != '0')
    && (d > 0 ==> s[k] == '.' && AllDigits(s[k + 1..]))
  }

  /** `PlacedDigits` prints exactly `d` places, trailing zeros included,
      and no point at all when `d == 0`. */
  lemma PlacedDigitsShape(n: nat, d: nat)
    ensures UnsignedNumeral(PlacedDigits(n, d), d)
    ensures d == 0 ==> '.' !in PlacedDigits(n, d)
    ensures d > 0 ==> PointIndex(PlacedDigits(n, d)) == |PlacedDigits(n, d)| - d - 1
  {
    var s := PlacedDigits(n, d);
    if d == 0 {
      assert s[..|s|] == s;
      assert forall i :: 0 <= i < |s| ==> s[i] != '.';
    } else {
      var a, b := NatToString(DropDigits(n, d)), LastDigits(n, d);
      assert s == a + "." + b;
      assert s[..|a|] == a && s[|a|] == '.' && s[|a| + 1..] == b;
      PointAfterDigits(a, b);
    }
  }

  lemma PointAfterDigits(a: string, b: string)
    requires AllDigits(a)
    ensures PointIndex(a + "." + b) == |a|
  {
    var s := a + "." + b;
    assert s[|a|] == '.';
    assert forall i :: 0 <= i < |a| ==> s[i] == a[i];
  }

  /** A numeral with a point reads as its integer part plus its fraction. */
  lemma ReadWithPoint(a: string, b: string)
    requires AllDigits(a)
    ensures ReadUnsigned(a + "." + b) == ParseNat(a) as real + Unshift10(ParseNat(b) as real, |b|)
  {
    var s := a + "." + b;
    assert s[|a|] == '.';
    assert PointIndex(s) == |a|;
    assert s[..|a|] == a;
    assert s[|a| + 1..] == b;
  }

  /** The digits placed by `PlacedDigits`, read back, give n / 10^d. */
  lemma PlacedDigitsReadBack(n: nat, d: nat)
    ensures ReadUnsigned(PlacedDigits(n, d)) == Unshift10(n as real, d)
  {
    if d == 0 {
      WholeDigitsReadBack(n);
    } else {
      FractionDigitsReadBack(n, d);
    }
  }

  lemma WholeDigitsReadBack(n: nat)
    ensures ReadUnsigned(NatToString(n)) == n as real
  {
    var s := NatToString(n);
    assert forall i :: 0 <= i < |s| ==> s[i] != '.';
    ParseNatToString(n);
  }

  lemma FractionDigitsReadBack(n: nat, d: nat)
    requires d > 0
    ensures ReadUnsigned(NatToString(DropDigits(n, d)) + "." + LastDigits(n, d)) == Unshift10(n as real, d)
  {
    var q, r := DropDigits(n, d), ParseNat(LastDigits(n, d));
    SplitDigits(n, d);
    ParseNatToString(q);
    ReadWithPoint(NatToString(q), LastDigits(n, d));
    WholeAndFraction(n, q, r, d);
  }

  lemma WholeAndFraction(n: nat, q: nat, r: nat, d: nat)
    requires n == q * Pow10(d) + r
    ensures q as real + Unshift10(r as real, d) == Unshift10(n as real, d)
  {
    assert n as real == (q * Pow10(d)) as real + r as real;
    UnshiftAdd((q * Pow10(d)) as real, r as real, d);
    UnshiftOfMultiple(q, d);
  }

  /** `"{:.<d>f}".format(x)`: sign, then |x| rounded half-even to `d`
      places. A negative value that rounds to zero keeps its sign. */
  function Fixed(x: real, d: nat): string
  {
    (if x < 0.0 then "-" else "") + PlacedDigits(RoundHalfEven(Shift10(Abs(x), d)), d)
  }

  /** What `Fixed` prints, read back, is its sign and the rounded digits. */
  lemma FixedReadsBackExactly(x: real, d: nat)
    ensures var n := RoundHalfEven(Shift10(Abs(x), d));
            ReadDecimal(Fixed(x, d)) == if x < 0.0 then -Unshift10(n as real, d) else Unshift10(n as real, d)
  {
    var n := RoundHalfEven(Shift10(Abs(x), d));
    var body := PlacedDigits(n, d);
    PlacedDigitsReadBack(n, d);
    if x < 0.0 {
      assert Fixed(x, d) == "-" + body;
      assert ("-" + body)[1..] == body;
    } else {
      assert Fixed(x, d) == body;
    }
  }

  /** The text of `{:.<d>f}`: a '-' exactly for a negative value (so a
      negative value that rounds to zero prints "-0.00"), then an unsigned
      numeral with exactly `d` places. */
  lemma FixedShape(x: real, d: nat)
    ensures var f := Fixed(x, d);
            (|f| > 0 && f[0] == '-') <==> x < 0.0
    ensures var f := Fixed(x, d);
            UnsignedNumeral(if x < 0.0 then f[1..] else f, d)
  {
    var n := RoundHalfEven(Shift10(Abs(x), d));
    var body := PlacedDigits(n, d);
    PlacedDigitsShape(n, d);
    if x < 0.0 {
      assert Fixed(x, d) == "-" + body;
      assert ("-" + body)[1..] == body;
    } else {
      assert Fixed(x, d) == body;
    }
  }

  /** What `Fixed` prints, read back, is within half a unit of its last
      place from the value printed. */
  lemma FixedReadsBack(x: real, d: nat)
    ensures Shift10(Abs(ReadDecimal(Fixed(x, d)) - x), d) <= 0.5
  {
    FixedReadsBackExactly(x, d);
    SignedReadBack(Fixed(x, d), x, d);
  }

  /** Any numeral that reads back as the sign of `x` and the half-even
      rounding of |x| to `d` places is within half a unit of `x`. */
  lemma SignedReadBack(s: string, x: real, d: nat)
    requires var n := RoundHalfEven(Shift10(Abs(x), d));
             ReadDecimal(s) == if x < 0.0 then -Unshift10(n as real, d) else Unshift10(n as real, d)
    ensures Shift10(Abs(ReadDecimal(s) - x), d) <= 0.5
  {
    var n := RoundHalfEven(Shift10(Abs(x), d));
    var u := Unshift10(n as real, d);
    var r := ReadDecimal(s);
    SignedError(r, x, u);
    ErrorBound(Abs(r - x), Abs(x), n, d);
  }

  /** A value printed as its magnitude `u` with the sign of `x` is off from
      `x` by the distance between `u` and |x|. */
  lemma SignedError(r: real, x: real, u: real)
    requires r == if x < 0.0 then -u else u
    ensures Abs(r - x) == Abs(u - Abs(x))
  {
  }

  lemma ErrorBound(e: real, a: real, n: int, d: nat)
    requires e == Abs(Unshift10(n as real, d) - a)
    requires Abs(n as real - Shift10(a, d)) <= 0.5
    ensures Shift10(e, d) <= 0.5
  {
    ShiftedDistance(n, a, d);
  }

  lemma ShiftedDistance(n: int, a: real, d: nat)
    ensures Shift10(Abs(Unshift10(n as real, d) - a), d) == Abs(n as real - Shift10(a, d))
  {
    var u := Unshift10(n as real, d);
    ShiftAbs(u - a, d);
    ShiftSub(u, a, d);
    ShiftUnshift(n as real, d);
  }

  // ---------------------------------------------------------------------
  // Thousands grouping
  // ---------------------------------------------------------------------

  /** Inserts a ',' between every group of three digits, from the right. */
  function GroupThousands(s: string): (g: string)
    ensures |s| >= 1 ==> |g| == |s| + (|s| - 1) / 3
    decreases |s|
  {
    if |s| <= 3 then s else GroupThousands(s[..|s| - 3]) + "," + s[|s| - 3..]
  }

  /** A ',' stands exactly at the positions 4, 8, 12, ... counted from the
      end of `g`. */
  predicate CommasEveryFourth(g: string)
  {
    forall i :: 0 <= i < |g| ==> (g[i] == ',' <==> (|g| - i) % 4 == 0)
  }

  /** Where the separators go: a comma precedes each group of three digits
      counted from the right, and no other character is a comma. */
  lemma {:induction false} GroupThousandsCommas(s: string)
    requires AllDigits(s)
    ensures CommasEveryFourth(GroupThousands(s))
    decreases |s|
  {
    if |s| > 3 {
      var hi, lo := s[..|s| - 3], s[|s| - 3..];
      assert AllDigits(hi) && AllDigits(lo);
      GroupThousandsCommas(hi);
      CommaThenGroup(GroupThousands(hi), lo);
    } else {
      assert forall i :: 0 <= i < |s| ==> s[i] != ',' && 0 < |s| - i < 4;
    }
  }

  /** One step of the grouping: a comma and three more digits keep the
      commas every fourth place from the end. */
  lemma CommaThenGroup(rest: string, lo: string)
    requires CommasEveryFourth(rest) && |lo| == 3 && AllDigits(lo)
    ensures CommasEveryFourth(rest + "," + lo)
  {
    var g := rest + "," + lo;
    forall i | 0 <= i < |g|
      ensures g[i] == ',' <==> (|g| - i) % 4 == 0
    {
      if i < |rest| {
        assert g[i] == rest[i] && (|g| - i) % 4 == (|rest| - i) % 4;
      } else if i > |rest| {
        assert g[i] == lo[i - |rest| - 1] && 0 < |g| - i < 4;
      } else {
        assert g[i] == ',' && |g| - i == 4;
      }
    }
  }

  function RemoveCommas(s: string): (r: string)
    ensures ',' !in r
  {
    if s == [] then [] else RemoveCommas(s[..|s| - 1]) + (if s[|s| - 1] == ',' then "" else [s[|s| - 1]])
  }

  lemma {:induction false} RemoveCommasAppend(a: string, b: string)
    ensures RemoveCommas(a + b) == RemoveCommas(a) + RemoveCommas(b)
    decreases |b|
  {
    if b != [] {
      var b' := b[..|b| - 1];
      assert (a + b)[..|a + b| - 1] == a + b';
      RemoveCommasAppend(a, b');
    } else {
      assert a + b == a;
    }
  }

  lemma {:induction false} RemoveCommasNoop(s: string)
    requires ',' !in s
    ensures RemoveCommas(s) == s
    decreases |s|
  {
    if s != [] {
      RemoveCommasNoop(s[..|s| - 1]);
    }
  }

  /** Grouping only inserts separators: dropping them gives the digits back. */
  lemma {:induction false} UngroupThousands(s: string)
    requires AllDigits(s)
    ensures RemoveCommas(GroupThousands(s)) == s
    decreases |s|
  {
    if |s| <= 3 {
      RemoveCommasNoop(s);
    } else {
      var hi, lo := s[..|s| - 3], s[|s| - 3..];
      var g := GroupThousands(hi);
      assert GroupThousands(s) == (g + ",") + lo;
      calc {
        RemoveCommas((g + ",") + lo);
        { RemoveCommasAppend(g + ",", lo); }
        RemoveCommas(g + ",") + RemoveCommas(lo);
        { RemoveCommasAppend(g, ","); }
        RemoveCommas(g) + RemoveCommas(",") + RemoveCommas(lo);
        { UngroupThousands(hi); RemoveCommasNoop(lo); assert RemoveCommas(",") == []; }
        hi + [] + lo;
        { assert hi + lo == s; }
        s;
      }
    }
  }

  /** `"{:,.0f}".format(x)`. */
  function Grouped(x: real): string
  {
    (if x < 0.0 then "-" else "") + GroupThousands(NatToString(RoundHalfEven(Abs(x))))
  }

  /** Dropping the separators from `{:,.0f}` gives `{:.0f}`. */
  lemma UngroupedIsFixed(x: real)
    ensures RemoveCommas(Grouped(x)) == Fixed(x, 0)
  {
    var digits := NatToString(RoundHalfEven(Abs(x)));
    assert Shift10(Abs(x), 0) == Abs(x);
    UngroupThousands(digits);
    assert PlacedDigits(RoundHalfEven(Shift10(Abs(x), 0)), 0) == digits;
    if x < 0.0 {
      assert Grouped(x) == "-" + GroupThousands(digits);
      assert Fixed(x, 0) == "-" + digits;
      RemoveCommasAppend("-", GroupThousands(digits));
      RemoveCommasNoop("-");
    } else {
      assert Grouped(x) == GroupThousands(digits);
      assert Fixed(x, 0) == digits;
    }
  }

  /** The grouped numeral, separators dropped and read back, is the value
      rounded to an integer. */
  lemma GroupedReadsBack(x: real)
    ensures Abs(ReadDecimal(RemoveCommas(Grouped(x))) - x) <= 0.5
  {
    UngroupedIsFixed(x);
    FixedReadsBack(x, 0);
  }

  // ---------------------------------------------------------------------
  // The formatting stages
  // ---------------------------------------------------------------------

  /** Magnitude stage: the divisor and the suffix chosen from |value|. */
  function Magnitude(absVal: real): (r: (real, string))
    requires absVal >= 0.0
    ensures r.0 > 0.0
    ensures r.1 == "B" <==> absVal >= 1000000000.0
    ensures r.1 == "B" ==> r.0 == 1000000000.0
    ensures r.1 == "M" ==> r.0 == 1000000.0 && 1000000.0 <= absVal < 1000000000.0
    ensures r.1 == "K" ==> r.0 == 1000.0 && 10000.0 <= absVal < 1000000.0
    ensures r.1 == "" ==> r.0 == 1.0 && absVal < 10000.0
    ensures r.1 in ["B", "M", "K", ""]
  {
    if absVal >= 1000000000.0 then (1000000000.0, "B")
    else if absVal >= 1000000.0 then (1000000.0, "M")
    else if absVal >= 10000.0 then (1000.0, "K")
    else (1.0, "")
  }

  /** Python's `s.replace(c, t)` for a one-character pattern. */
  function Replace(s: string, c: char, t: string): (r: string)
    ensures c !in s ==> r == s
  {
    if s == [] then []
    else (if s[0] == c then t else [s[0]]) + Replace(s[1..], c, t)
  }

  const SpecialUnits: map<string, string> :=
    map["watt" := "w", "tons" := "t", "bits" := "b", "bytes" := "B"]

  /** Unit stage: a special unit rewrites the magnitude letter in three
      successive `replace` calls; any other non-empty unit is appended. */
  function ApplyUnit(suffix: string, unit: Option<string>): string
  {
    if unit.Some? && unit.value in SpecialUnits then
      var a := SpecialUnits[unit.value];
      Replace(Replace(Replace(suffix, 'B', "G" + a), 'M', "M" + a), 'K', "K" + a)
    else if unit.Some? && unit.value != "" then
      suffix + unit.value
    else
      suffix
  }

  /** The three replacements never interfere: B becomes G+abbr, M becomes
      M+abbr, K becomes K+abbr, and no suffix stays no suffix. */
  lemma SpecialUnitTable(suffix: string, u: string)
    requires suffix in ["B", "M", "K", ""] && u in SpecialUnits
    ensures var a := SpecialUnits[u];
            ApplyUnit(suffix, Some(u)) ==
              if suffix == "B" then "G" + a
              else if suffix == "M" then "M" + a
              else if suffix == "K" then "K" + a
              else ""
  {
    var a := SpecialUnits[u];
    assert a in ["w", "t", "b", "B"];
    assert |a| == 1;
    if suffix == "B" {
      assert Replace("B", 'B', "G" + a) == "G" + a;
      assert 'M' !in "G" + a && 'K' !in "G" + a;
    } else if suffix == "M" {
      assert Replace("M", 'M', "M" + a) == "M" + a;
      assert 'K' !in "M" + a;
    } else if suffix == "K" {
      assert Replace("K", 'K', "K" + a) == "K" + a;
    }
  }

  /** Decimal-count stage. */
  function Decimals(integral: bool, absScaled: real): (d: nat)
    ensures d <= 2
    ensures integral ==> d == 0
    ensures !integral ==> (d == 2 <==> absScaled < 1.0) && (d == 0 <==> absScaled >= 100.0)
  {
    if integral then 0
    else if absScaled < 1.0 then 2
    else if absScaled < 100.0 then 1
    else 0
  }

  predicate IsYear(v: PyValue)
    requires !v.PyOther?
  {
    1000.0 <= ValueOf(v) <= 2100.0 && IsIntegral(v)
  }

  /** The suffix after the unit stage. */
  function FinalSuffix(v: PyValue, unit: Option<string>): string
    requires !v.PyOther?
  {
    ApplyUnit(Magnitude(Abs(ValueOf(v))).1, unit)
  }

  /** The value after the magnitude stage. */
  function Scaled(v: PyValue): real
    requires !v.PyOther?
  {
    ValueOf(v) / Magnitude(Abs(ValueOf(v))).0
  }

  predicate UsesGrouping(v: PyValue, unit: Option<string>)
    requires !v.PyOther?
  {
    FinalSuffix(v, unit) == "" && Abs(ValueOf(v)) >= 1000.0
  }

  /** The numeral part of the result, before the marks and the suffix. */
  function NumberText(v: PyValue, unit: Option<string>): string
    requires !v.PyOther?
  {
    if UsesGrouping(v, unit) then Grouped(ValueOf(v))
    else Fixed(Scaled(v), Decimals(IsIntegral(v), Abs(Scaled(v))))
  }

  /** `format_number(value, unit, is_percent, is_currency)`. */
  function FormatNumber(v: PyValue, unit: Option<string>, isPercent: bool, isCurrency: bool): (r: string)
    ensures v.PyOther? ==> r == v.text
    ensures !v.PyOther? && IsYear(v) ==> r == NatToString(ValueOf(v).Floor)
    ensures !v.PyOther? && !IsYear(v) ==>
              r == (if isCurrency then "$" else "") + NumberText(v, unit)
                   + (if isPercent then "%" else "") + FinalSuffix(v, unit)
  {
    match v
    case PyOther(text) => text
    case _ =>
      if IsYear(v) then NatToString(ValueOf(v).Floor)
      else
        (if isCurrency then "$" else "") + NumberText(v, unit)
        + (if isPercent then "%" else "") + FinalSuffix(v, unit)
  }

  // ---------------------------------------------------------------------
  // Properties of format_number
  // ---------------------------------------------------------------------

  /** Integral values from 1000 to 2100 print as plain integers whatever the
      unit, percent and currency flags say; read back they give the value. */
  lemma YearShortcut(v: PyValue, unit: Option<string>, isPercent: bool, isCurrency: bool)
    requires !v.PyOther? && IsYear(v)
    ensures AllDigits(FormatNumber(v, unit, isPercent, isCurrency))
    ensures ParseNat(FormatNumber(v, unit, isPercent, isCurrency)) as real == ValueOf(v)
  {
    var x := ValueOf(v);
    assert x == x.Floor as real;
    ParseNatToString(x.Floor);
  }

  /** Grouping happens only for values of four integer digits, with no
      suffix, and the grouped numeral reads back as the value rounded. */
  lemma GroupingOnlyForFourDigits(v: PyValue, unit: Option<string>)
    requires !v.PyOther? && UsesGrouping(v, unit)
    ensures 1000.0 <= Abs(ValueOf(v)) < 10000.0
    ensures Magnitude(Abs(ValueOf(v))).1 == ""
    ensures Abs(ReadDecimal(RemoveCommas(NumberText(v, unit))) - ValueOf(v)) <= 0.5
  {
    var x := ValueOf(v);
    var suf := Magnitude(Abs(x)).1;
    if suf != "" {
      if unit.Some? && unit.value in SpecialUnits {
        SpecialUnitTable(suf, unit.value);
      }
      assert false;
    }
    GroupedReadsBack(x);
  }

  /** A plain (non-special, non-empty) unit always leaves a suffix, so the
      numeral is never comma-grouped. */
  lemma PlainUnitPreventsGrouping(v: PyValue, u: string)
    requires !v.PyOther? && u != "" && u !in SpecialUnits
    ensures FinalSuffix(v, Some(u)) == Magnitude(Abs(ValueOf(v))).1 + u
    ensures !UsesGrouping(v, Some(u))
  {
  }

  /** Outside the grouping case the numeral, read back, is within half a
      unit of its last printed place from the scaled value. */
  lemma NumberTextReadsBack(v: PyValue, unit: Option<string>)
    requires !v.PyOther? && !UsesGrouping(v, unit)
    ensures var d := Decimals(IsIntegral(v), Abs(Scaled(v)));
            Shift10(Abs(ReadDecimal(NumberText(v, unit)) - Scaled(v)), d) <= 0.5
  {
    FixedReadsBack(Scaled(v), Decimals(IsIntegral(v), Abs(Scaled(v))));
  }

  lemma UngroupedNumberText(v: PyValue, unit: Option<string>)
    requires !v.PyOther? && !UsesGrouping(v, unit)
    ensures NumberText(v, unit) == Fixed(Scaled(v), Decimals(IsIntegral(v), Abs(Scaled(v))))
  {
  }

  /** Ties round to even: 2.5 million prints as 2M, 3.5 million as 4M. */
  lemma HalfEvenExamples()
    ensures FormatNumber(PyInt(2500000), None, false, false) == "2M"
    ensures FormatNumber(PyInt(3500000), None, false, false) == "4M"
  {
    assert RoundHalfEven(2.5) == 2 && NatToString(2) == "2";
    MillionsExample(2500000, 2.5, 2);
    assert RoundHalfEven(3.5) == 4 && NatToString(4) == "4";
    MillionsExample(3500000, 3.5, 4);
  }

  /** An integer of millions, printed with the M suffix and no decimals. */
  lemma MillionsExample(i: int, scaled: real, n: nat)
    requires 1000000 <= i < 1000000000 && scaled * 1000000.0 == i as real
    requires RoundHalfEven(scaled) == n
    ensures FormatNumber(PyInt(i), None, false, false) == NatToString(n) + "M"
  {
    var v := PyInt(i);
    assert !IsYear(v);
    assert Magnitude(Abs(i as real)) == (1000000.0, "M");
    assert FinalSuffix(v, None) == "M";
    assert !UsesGrouping(v, None);
    assert Scaled(v) == scaled;
    assert Decimals(true, Abs(scaled)) == 0;
    assert Fixed(scaled, 0) == NatToString(n);
  }

  /** Marks and suffix in their order: currency, numeral, percent, suffix. */
  lemma MarkOrderExample()
    ensures FormatNumber(PyInt(12345), Some("bytes"), true, true) == "$12%KB"
  {
    var v := PyInt(12345);
    assert Magnitude(12345.0) == (1000.0, "K");
    SpecialUnitTable("K", "bytes");
    assert FinalSuffix(v, Some("bytes")) == "KB";
    assert !UsesGrouping(v, Some("bytes"));
    assert Scaled(v) == 12.345;
    assert Decimals(true, 12.345) == 0;
    assert RoundHalfEven(Shift10(Abs(12.345), 0)) == 12;
    assert NatToString(12) == "12";
    assert Fixed(12.345, 0) == "12";
    assert NumberText(v, Some("bytes")) == "12";
  }

  /** A fraction below one gets two places, the tie going to the even digit. */
  lemma TwoPlacesExample()
    ensures FormatNumber(PyFloat(0.125), None, false, false) == "0.12"
  {
    var v := PyFloat(0.125);
    assert !IsIntegral(v);
    assert Magnitude(0.125) == (1.0, "");
    assert !UsesGrouping(v, None);
    assert Scaled(v) == 0.125;
    assert Decimals(false, 0.125) == 2;
    UngroupedNumberText(v, None);
    EighthToTwoPlaces();
  }

  /** `"{:.2f}".format(0.125)` is "0.12": the tie goes to the even 12. */
  lemma EighthToTwoPlaces()
    ensures Fixed(0.125, 2) == "0.12"
  {
    assert Shift10(0.125, 2) == 12.5;
    assert RoundHalfEven(12.5) == 12;
    assert LastDigits(12, 2) == "12";
    assert PlacedDigits(12, 2) == "0.12";
  }

  /** A four-digit value without suffix is comma-grouped, sign first. */
  lemma GroupingExample()
    ensures FormatNumber(PyInt(-2500), None, false, false) == "-2,500"
  {
    var v := PyInt(-2500);
    assert !IsYear(v);
    assert Magnitude(2500.0) == (1.0, "");
    assert FinalSuffix(v, None) == "";
    assert UsesGrouping(v, None);
    assert RoundHalfEven(2500.0) == 2500;
    assert NatToString(2500) == "2500";
    assert GroupThousands("2500") == "2,500";
    assert NumberText(v, None) == "-2,500";
  }
}
