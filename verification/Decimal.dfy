/** `std::to_string(int)` and `std::stoi` (ISO C++14 section 21.5; `strtol` in C11 section 7.22.1.4). */
module Decimal {
  import opened Text

  const INT_MIN: int := -0x8000_0000
  const INT_MAX: int := 0x7fff_ffff
  const LONG_MAX: int := 0x7fff_ffff_ffff_ffff

  predicate IsInt32(n: int) {
    INT_MIN <= n <= INT_MAX
  }

  /** The C++ `int`. */
  type int32 = n: int | IsInt32(n) witness 0

  predicate IsDigit(c: char) {
    '0' <= c <= '9'
  }

  ghost predicate AllDigits(s: string) {
    forall i | 0 <= i < |s| :: IsDigit(s[i])
  }

  function DigitValue(c: char): nat
    requires IsDigit(c)
  {
    c as int - '0' as int
  }

  function Digit(d: nat): (c: char)
    requires d < 10
    ensures IsDigit(c) && DigitValue(c) == d
  {
    (d + '0' as int) as char
  }

  /** The decimal numeral of a natural number, without leading zeros. */
  function Digits(n: nat): (s: string)
    ensures s != [] && AllDigits(s)
  {
    if n < 10 then [Digit(n)] else Digits(n / 10) + [Digit(n % 10)]
  }

  function ToString(n: int): string {
    if n < 0 then "-" + Digits(-n) else Digits(n)
  }

  /** The number that the digits `ds` denote when written after a numeral for `acc`. */
  function ValueFrom(acc: nat, ds: string): nat
    requires AllDigits(ds)
    decreases |ds|
  {
    if ds == [] then acc else ValueFrom(10 * acc + DigitValue(ds[0]), ds[1..])
  }

  datatype Numeral = Numeral(negative: bool, digits: string)

  function LeadingDigits(s: string): (ds: string)
    ensures AllDigits(ds)
  {
    if s != [] && IsDigit(s[0]) then [s[0]] + LeadingDigits(s[1..]) else ""
  }

  /** The subject sequence of `strtol`: blanks skipped, one optional sign, the longest run of digits. */
  function Subject(s: string): (r: Numeral)
    ensures AllDigits(r.digits)
  {
    var t := SkipSpaces(s);
    if t != [] && t[0] in "+-" then Numeral(t[0] == '-', LeadingDigits(t[1..]))
    else Numeral(false, LeadingDigits(t))
  }

  /** Digit accumulation that gives up before it would exceed `limit`. */
  function Accumulate(ds: string, acc: nat, limit: nat): Option<nat>
    requires AllDigits(ds)
  {
    if ds == [] then Some(acc)
    else
      var d := DigitValue(ds[0]);
      if acc > limit / 10 || (acc == limit / 10 && d > limit % 10) then None
      else Accumulate(ds[1..], 10 * acc + d, limit)
  }

  datatype StoiResult = Number(n: int32) | InvalidArgument | OutOfRange

  /** `stoi`: a 64-bit `strtol`, then the check against the range of `int`. */
  function Stoi(s: string): StoiResult {
    var subject := Subject(s);
    if subject.digits == [] then InvalidArgument
    else
      match Accumulate(subject.digits, 0, if subject.negative then LONG_MAX + 1 else LONG_MAX)
      case None => OutOfRange
      case Some(v) =>
        var n := if subject.negative then -(v as int) else v as int;
        if IsInt32(n) then Number(n) else OutOfRange
  }

  lemma {:induction false} ValueGrows(acc: nat, ds: string)
    requires AllDigits(ds)
    ensures ValueFrom(acc, ds) >= acc
    decreases |ds|
  {
    if ds != [] {
      ValueGrows(10 * acc + DigitValue(ds[0]), ds[1..]);
    }
  }

  /** The accumulator fails exactly when the number itself exceeds the limit. */
  lemma {:induction false} AccumulateExact(ds: string, acc: nat, limit: nat)
    requires AllDigits(ds) && acc <= limit
    ensures Accumulate(ds, acc, limit)
         == if ValueFrom(acc, ds) <= limit then Some(ValueFrom(acc, ds)) else None
  {
    if ds != [] {
      var next := 10 * acc + DigitValue(ds[0]);
      ValueGrows(next, ds[1..]);
      if next <= limit {
        AccumulateExact(ds[1..], next, limit);
      }
    }
  }

  ghost function SignedValue(s: string): int {
    var subject := Subject(s);
    var v: int := ValueFrom(0, subject.digits);
    if subject.negative then -v else v
  }

  /** `stoi` yields the number written, and reports a range error exactly when it is not an `int`. */
  lemma StoiExact(s: string)
    ensures Stoi(s).InvalidArgument? <==> Subject(s).digits == []
    ensures Stoi(s).OutOfRange? <==> Subject(s).digits != [] && !IsInt32(SignedValue(s))
    ensures Stoi(s).Number? ==> Stoi(s).n == SignedValue(s)
  {
    var subject := Subject(s);
    AccumulateExact(subject.digits, 0, if subject.negative then LONG_MAX + 1 else LONG_MAX);
  }

  /** The text starts with no number, or with one that is no `int`. */
  ghost predicate NotAnInt(s: string) {
    Subject(s).digits == [] || !IsInt32(SignedValue(s))
  }

  lemma StoiThrows(s: string)
    ensures Stoi(s).Number? <==> !NotAnInt(s)
  {
    StoiExact(s);
  }

  lemma LetterIsNoInt()
    ensures NotAnInt("x")
  {
    assert Subject("x").digits == [];
  }

  lemma {:induction false} ValueOfLastDigit(acc: nat, ds: string, c: char)
    requires AllDigits(ds) && IsDigit(c)
    ensures ValueFrom(acc, ds + [c]) == 10 * ValueFrom(acc, ds) + DigitValue(c)
    decreases |ds|
  {
    if ds == [] {
      assert ds + [c] == [c];
    } else {
      assert (ds + [c])[1..] == ds[1..] + [c];
      ValueOfLastDigit(10 * acc + DigitValue(ds[0]), ds[1..], c);
    }
  }

  lemma {:induction false} DigitsDenote(n: nat)
    ensures ValueFrom(0, Digits(n)) == n
  {
    if n >= 10 {
      DigitsDenote(n / 10);
      ValueOfLastDigit(0, Digits(n / 10), Digit(n % 10));
    }
  }

  lemma {:induction false} LeadingDigitsStop(ds: string, rest: string)
    requires AllDigits(ds) && (rest == [] || !IsDigit(rest[0]))
    ensures LeadingDigits(ds + rest) == ds
  {
    if ds == [] {
      assert ds + rest == rest;
    } else {
      assert (ds + rest)[1..] == ds[1..] + rest;
      LeadingDigitsStop(ds[1..], rest);
    }
  }

  /** Decimal inverse: a printed number parses back, whatever blanks precede it and whatever
      non-digit follows it, if and only if it is an `int`; otherwise it is a range error. */
  lemma PrintThenParse(blanks: string, n: int, rest: string)
    requires AllSpace(blanks) && (rest == [] || !IsDigit(rest[0]))
    ensures Stoi(blanks + ToString(n) + rest) == if IsInt32(n) then Number(n) else OutOfRange
  {
    PrintedSubject(blanks, n, rest);
    DigitsDenote(if n < 0 then -n else n);
    StoiExact(blanks + ToString(n) + rest);
  }

  lemma PrintedSubject(blanks: string, n: int, rest: string)
    requires AllSpace(blanks) && (rest == [] || !IsDigit(rest[0]))
    ensures Subject(blanks + ToString(n) + rest) == Numeral(n < 0, Digits(if n < 0 then -n else n))
  {
    hide Digits;
    var ds := Digits(if n < 0 then -n else n);
    AppendAssoc(blanks, ToString(n), rest);
    SpacesSkipped(blanks, ToString(n) + rest);
    assert ToString(n)[0] == '-' || IsDigit(ToString(n)[0]);
    if n < 0 {
      assert (ToString(n) + rest)[1..] == ds + rest;
    } else {
      assert ToString(n) + rest == ds + rest;
    }
    LeadingDigitsStop(ds, rest);
  }

  lemma RoundTrip(n: int32)
    ensures Stoi(ToString(n)) == Number(n)
  {
    PrintThenParse("", n, "");
    assert "" + ToString(n) + "" == ToString(n);
  }

  lemma PrintedShape(n: int)
    ensures IsToken(ToString(n)) && ':' !in ToString(n)
  {
    var s := ToString(n);
    forall i | 0 <= i < |s| ensures s[i] == '-' || IsDigit(s[i]) {
    }
  }

  lemma PrintInjective(m: int, n: int)
    requires ToString(m) == ToString(n)
    ensures m == n
  {
    var s := ToString(m);
    assert s[0] == '-' <==> m < 0 by { PrintedShape(m); assert m >= 0 ==> IsDigit(s[0]); }
    assert s[0] == '-' <==> n < 0 by { assert n >= 0 ==> IsDigit(s[0]); }
    DigitsDenote(if m < 0 then -m else m);
    DigitsDenote(if n < 0 then -n else n);
    if m < 0 {
      assert s[1..] == Digits(-m) && s[1..] == Digits(-n);
    }
  }

  // Printed numbers and numerals, without naming how they are computed.

  /** No leading zero, and no minus before a zero. */
  ghost predicate CanonicalNumeral(s: string) {
    var ds := if s != [] && s[0] == '-' then s[1..] else s;
    ds != [] && AllDigits(ds) && (ds[0] == '0' ==> s == "0")
  }

  lemma {:induction false} NoLeadingZero(n: nat)
    ensures Digits(n)[0] == '0' ==> n == 0 && Digits(n) == "0"
  {
    if n >= 10 {
      NoLeadingZero(n / 10);
    }
  }

  lemma PrintedCanonical(n: int)
    ensures CanonicalNumeral(ToString(n)) && SignedValue(ToString(n)) == n
  {
    var v := if n < 0 then -n else n;
    NoLeadingZero(v);
    DigitsDenote(v);
    PrintedSubject("", n, "");
    assert "" + ToString(n) + "" == ToString(n);
    if n < 0 {
      assert ToString(n)[1..] == Digits(v);
    }
  }

  lemma SubjectOf(blanks: string, t: string)
    requires AllSpace(blanks) && (t == [] || !IsSpace(t[0]))
    ensures Subject(blanks + t)
         == if t != [] && t[0] in "+-" then Numeral(t[0] == '-', LeadingDigits(t[1..])) else Numeral(false, LeadingDigits(t))
  {
    hide LeadingDigits;
    SpacesSkipped(blanks, t);
  }

  lemma NumeralSubject(blanks: string, sign: string, ds: string, rest: string)
    requires AllSpace(blanks) && (sign == "" || sign == "+" || sign == "-") && ds != [] && AllDigits(ds)
    requires rest == [] || !IsDigit(rest[0])
    ensures Subject(blanks + (sign + (ds + rest))) == Numeral(sign == "-", ds)
  {
    var t := sign + (ds + rest);
    assert ds[0] == (ds + rest)[0];
    assert sign == "" ==> t == ds + rest;
    assert sign != "" ==> t[0] == sign[0] && t[1..] == ds + rest;
    SubjectOf(blanks, t);
    LeadingDigitsStop(ds, rest);
  }

  /** Any numeral parses: blanks, an optional sign of either kind, digits with any leading zeros, anything after them. */
  lemma NumeralParses(blanks: string, sign: string, ds: string, rest: string)
    requires AllSpace(blanks) && (sign == "" || sign == "+" || sign == "-") && ds != [] && AllDigits(ds)
    requires rest == [] || !IsDigit(rest[0])
    ensures var v := if sign == "-" then -(ValueFrom(0, ds) as int) else ValueFrom(0, ds);
            Stoi(blanks + (sign + (ds + rest))) == if IsInt32(v) then Number(v) else OutOfRange
  {
    hide Subject, Stoi;
    NumeralSubject(blanks, sign, ds, rest);
    StoiExact(blanks + (sign + (ds + rest)));
  }

  /** Nothing else does. */
  lemma OthersDoNot(blanks: string, t: string)
    requires AllSpace(blanks) && (t == [] || !IsSpace(t[0]))
    requires t == [] || (!IsDigit(t[0]) && (t[0] == '+' || t[0] == '-' ==> |t| == 1 || !IsDigit(t[1])))
    ensures Stoi(blanks + t).InvalidArgument?
  {
    SubjectOf(blanks, t);
    hide Subject, Stoi;
    StoiExact(blanks + t);
  }

  /** The range is that of a 32-bit integer. */
  lemma IntRange()
    ensures Stoi(ToString(2147483647)) == Number(2147483647) && Stoi(ToString(2147483648)) == OutOfRange
    ensures Stoi(ToString(-2147483648)) == Number(-2147483648) && Stoi(ToString(-2147483649)) == OutOfRange
  {
    hide ToString, Stoi;
    PrintThenParse("", 2147483647, "");
    PrintThenParse("", 2147483648, "");
    PrintThenParse("", -2147483648, "");
    PrintThenParse("", -2147483649, "");
    forall n: int ensures "" + ToString(n) + "" == ToString(n) {
    }
  }
}
