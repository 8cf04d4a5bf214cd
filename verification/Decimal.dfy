/** Decimal numerals: reading them, printing them, and the round trip. */
module Decimal {

  /** MAX_INT_DIGITS */
  const MAX_INT_DIGITS := 8

  function Pow10(k: int): (p: real)
    ensures p > 0.0
    decreases if k < 0 then -k else k
  {
    if k == 0 then 1.0 else if k > 0 then 10.0 * Pow10(k - 1) else Pow10(k + 1) / 10.0
  }

  lemma Pow10Step(k: int)
    ensures Pow10(k + 1) == 10.0 * Pow10(k)
  {
  }

  lemma {:induction false} Pow10Sum(j: int, k: nat)
    ensures Pow10(j + k) == Pow10(j) * Pow10(k)
    decreases k
  {
    hide Pow10;
    if k == 0 {
      NoPlaces();
    } else {
      Pow10Sum(j, k - 1);
      Pow10Step(j + (k - 1));
      Pow10Step(k - 1);
      assert Pow10(j) * (10.0 * Pow10(k - 1)) == 10.0 * (Pow10(j) * Pow10(k - 1));
    }
  }

  /** `x` moved by `k` decimal places. */
  function Moved(x: real, k: int): real {
    x * Pow10(k)
  }

  lemma MovedStep(x: real, k: int)
    ensures Moved(x, k + 1) == 10.0 * Moved(x, k) == Moved(10.0 * x, k)
    ensures Moved(x, 0) == x && Moved(0.0, k) == 0.0
  {
    Pow10Step(k);
    assert x * (10.0 * Pow10(k)) == 10.0 * (x * Pow10(k)) == (10.0 * x) * Pow10(k);
  }

  /** The number a sequence of digits denotes. */
  function Numeral(digits: seq<nat>): nat {
    if digits == [] then 0 else 10 * Numeral(digits[..|digits| - 1]) + digits[|digits| - 1]
  }

  // ---------------------------------------------------------------- reading

  /** A line is ended by a zero character. */
  function CharAt(line: string, i: nat): char {
    if i < |line| then line[i] else '\0'
  }

  predicate IsDigit(c: char) {
    '0' <= c <= '9'
  }

  function DigitOf(c: char): (d: nat)
    requires IsDigit(c)
    ensures d <= 9
  {
    c as int - '0' as int
  }

  /** The digits of a numeral, how many of them stand before the point, and where it ends. */
  datatype Scanned = Scanned(digits: seq<nat>, whole: nat, end: nat)

  /** The longest numeral from `i` on; `point`: its decimal point has been passed. */
  function Scan(line: string, i: nat, point: bool): (s: Scanned)
    ensures s.end >= i && s.whole <= |s.digits|
    decreases |line| - i
  {
    if i >= |line| then Scanned([], 0, i)
    else if IsDigit(line[i]) then
      var s := Scan(line, i + 1, point);
      Scanned([DigitOf(line[i])] + s.digits, if point then 0 else s.whole + 1, s.end)
    else if line[i] == '.' && !point then
      var s := Scan(line, i + 1, true);
      Scanned(s.digits, 0, s.end)
    else Scanned([], 0, i)
  }

  function Least(a: nat, b: nat): nat {
    if a < b then a else b
  }

  /** The value of a numeral: its first eight digits, at the right power of ten. */
  function ValueOf(digits: seq<nat>, whole: nat): real {
    var m := Least(|digits|, MAX_INT_DIGITS);
    Moved(Numeral(digits[..m]) as real, whole - m)
  }

  /** The scaling loops of read_float. */
  method Scale(value: real, exponent: int) returns (scaled: real)
    ensures scaled == Moved(value, exponent)
  {
    hide Moved;
    MovedStep(value, exponent);
    scaled := value;
    var exp := exponent;
    if scaled != 0.0 {
      while exp <= -2
        invariant exp <= 0 || exp == exponent
        invariant Moved(scaled, exp) == Moved(value, exponent)
      {
        MovedStep(0.1 * scaled, exp);
        MovedStep(0.01 * scaled, exp + 1);
        scaled := scaled * 0.01;
        exp := exp + 2;
      }
      if exp < 0 {
        MovedStep(scaled * 0.1, -1);
        MovedStep(scaled * 0.1, 0);
        scaled := scaled * 0.1;
      } else if exp > 0 {
        while exp > 0
          invariant exp >= 0
          invariant Moved(scaled, exp) == Moved(value, exponent)
        {
          MovedStep(scaled, exp - 1);
          scaled := scaled * 10.0;
          exp := exp - 1;
        }
        MovedStep(scaled, 0);
      } else {
        MovedStep(scaled, 0);
      }
    }
  }

  /** Where a numeral starts: after its sign. */
  function AfterSign(line: string, i: nat): nat {
    if CharAt(line, i) == '-' || CharAt(line, i) == '+' then i + 1 else i
  }

  /** What read_float is to return: nothing when there is no digit, else value and new cursor. */
  datatype Reading = NoNumber | Number(value: real, cursor: nat)

  function Read(line: string, i: nat): Reading {
    var s := Scan(line, AfterSign(line, i), false);
    if s.digits == [] then NoNumber
    else
      var v := ValueOf(s.digits, s.whole);
      Number(if CharAt(line, i) == '-' then -v else v, s.end)
  }

  lemma ReadAdvances(line: string, i: nat)
    ensures Read(line, i).Number? ==> i <= Read(line, i).cursor
  {
  }

  /** The digits read so far, and what is still to be scanned. */
  ghost predicate Scanning(all: Scanned, line: string, p: nat, point: bool, done: seq<nat>, whole: nat, intval: nat,
                           exp: int, ndigit: nat) {
    var rest := Scan(line, p, point);
    && all == Scanned(done + rest.digits, if point then whole else whole + rest.whole, rest.end)
    && (!point ==> whole == |done|) && whole <= |done| && ndigit == |done|
    && intval == Numeral(done[..Least(|done|, MAX_INT_DIGITS)])
    && exp == whole - Least(|done|, MAX_INT_DIGITS)
  }

  lemma ScanningDigit(all: Scanned, line: string, p: nat, point: bool, done: seq<nat>, whole: nat, intval: nat,
                      exp: int, ndigit: nat)
    requires Scanning(all, line, p, point, done, whole, intval, exp, ndigit) && p < |line| && IsDigit(line[p])
    ensures var d := DigitOf(line[p]);
      Scanning(all, line, p + 1, point, done + [d], if point then whole else whole + 1,
               if ndigit < MAX_INT_DIGITS then intval * 10 + d else intval,
               if ndigit < MAX_INT_DIGITS then if point then exp - 1 else exp
               else if point then exp else exp + 1,
               ndigit + 1)
  {
    var d := DigitOf(line[p]);
    var next := done + [d];
    assert done + ([d] + Scan(line, p + 1, point).digits) == next + Scan(line, p + 1, point).digits;
    if ndigit < MAX_INT_DIGITS {
      assert next[..Least(|next|, MAX_INT_DIGITS)] == next && done[..Least(|done|, MAX_INT_DIGITS)] == done;
      assert next[..|next| - 1] == done;
    } else {
      assert next[..MAX_INT_DIGITS] == done[..MAX_INT_DIGITS];
    }
  }

  lemma ScanningPoint(all: Scanned, line: string, p: nat, done: seq<nat>, whole: nat, intval: nat, exp: int,
                      ndigit: nat)
    requires Scanning(all, line, p, false, done, whole, intval, exp, ndigit) && p < |line| && line[p] == '.'
    ensures Scanning(all, line, p + 1, true, done, whole, intval, exp, ndigit)
  {
  }

  /** The digit loop of read_float. */
  method ScanDigits(line: string, start: nat) returns (ptr: nat, intval: nat, exp: int, ndigit: nat)
    ensures var s := Scan(line, start, false);
      && ptr == s.end && ndigit == |s.digits|
      && intval == Numeral(s.digits[..Least(|s.digits|, MAX_INT_DIGITS)])
        && exp == s.whole - Least(|s.digits|, MAX_INT_DIGITS)
  {
    ghost var all := Scan(line, start, false);
    ghost var done: seq<nat>, whole: nat := [], 0;
    ptr, intval, exp, ndigit := start, 0, 0, 0;
    var point, more := false, true;
    while more
      invariant Scanning(all, line, ptr, point, done, whole, intval, exp, ndigit)
      invariant !more ==> Scan(line, ptr, point) == Scanned([], 0, ptr)
      decreases more, |line| - ptr
    {
      hide Scanning, Numeral;
      var c := CharAt(line, ptr);
      if IsDigit(c) {
        ScanningDigit(all, line, ptr, point, done, whole, intval, exp, ndigit);
        ghost var d := DigitOf(c);
        done, whole := done + [d], if point then whole else whole + 1;
        if ndigit + 1 <= MAX_INT_DIGITS {
          if point {
            exp := exp - 1;
          }
          intval := intval * 10 + DigitOf(c);
        } else {
          if !point {
            exp := exp + 1;
          }
        }
        ndigit := ndigit + 1;
        ptr := ptr + 1;
      } else if c == '.' && !point {
        ScanningPoint(all, line, ptr, done, whole, intval, exp, ndigit);
        point := true;
        ptr := ptr + 1;
      } else {
        more := false;
      }
    }
    assert done + [] == done;
  }

  /** read_float */
  method ReadFloat(line: string, charCounter: nat) returns (ok: bool, value: real, cursor: nat)
    ensures ok <==> Read(line, charCounter).Number?
    ensures ok ==> value == Read(line, charCounter).value && cursor == Read(line, charCounter).cursor
    ensures !ok ==> cursor == charCounter
  {
    hide Pow10, Numeral, Scan, Least;
    value, cursor := 0.0, charCounter;
    var ptr := charCounter;
    var negative := CharAt(line, ptr) == '-';
    if negative || CharAt(line, ptr) == '+' {
      ptr := ptr + 1;
    }
    var intval, exp, ndigit;
    ptr, intval, exp, ndigit := ScanDigits(line, ptr);
    if ndigit == 0 {
      return false, value, charCounter;
    }
    var fval := Scale(intval as real, exp);
    value := if negative then -fval else fval;
    cursor := ptr;
    ok := true;
  }

  // ---------------------------------------------------------------- printing

  /** The decimal digits of `a`, most significant first, at least `w` of them. */
  function Digits(a: nat, w: nat): (d: seq<nat>)
    ensures |d| >= w && forall i :: 0 <= i < |d| ==> d[i] <= 9
    decreases a, w
  {
    if a == 0 && w == 0 then [] else Digits(a / 10, if w > 0 then w - 1 else 0) + [a % 10]
  }

  lemma {:induction false} DigitsDenote(a: nat, w: nat)
    ensures Numeral(Digits(a, w)) == a
    decreases a, w
  {
    if a != 0 || w != 0 {
      var v := if w > 0 then w - 1 else 0;
      DigitsDenote(a / 10, v);
      assert Digits(a, w)[..|Digits(a, w)| - 1] == Digits(a / 10, v);
    }
  }

  lemma {:induction false} EnoughDigits(a: nat, w: nat)
    requires w <= |Digits(a, 0)|
    ensures Digits(a, w) == Digits(a, 0)
    decreases a, w
  {
    if w > 0 {
      EnoughDigits(a / 10, w - 1);
    }
  }

  lemma {:induction false} OneMoreDigit(a: nat, w: nat)
    requires |Digits(a, w)| == w
    ensures Digits(a, w + 1) == [0] + Digits(a, w)
    decreases a, w
  {
    if w > 0 {
      OneMoreDigit(a / 10, w - 1);
      assert ([0] + Digits(a / 10, w - 1)) + [a % 10] == [0] + (Digits(a / 10, w - 1) + [a % 10]);
    } else {
      assert a == 0;
      assert Digits(0, 0) == [] && Digits(0, 1) == [] + [0];
    }
  }

  function Ch(d: nat): (c: char)
    requires d <= 9
    ensures IsDigit(c) && DigitOf(c) == d
  {
    ('0' as int + d) as char
  }

  /** The digits from index `m` on, with the point before the last `d` of all digits. */
  function Tail(digits: seq<nat>, d: nat, m: nat): string
    requires m <= |digits| && forall i :: 0 <= i < |digits| ==> digits[i] <= 9
    decreases |digits| - m
  {
    if m == |digits| then "" else (if |digits| - m == d then "." else "") + [Ch(digits[m])] + Tail(digits, d, m + 1)
  }

  function Magnitude(n: real): real {
    if n < 0.0 then -n else n
  }

  /** The integer printFloat prints: the magnitude in units of the last place, rounded. */
  function Rounded(n: real, d: nat): (a: nat)
  {
    var x := Moved(Magnitude(n), d) + 0.5;
    assert Magnitude(n) * Pow10(d) >= 0.0;
    x.Floor
  }

  /** What printFloat sends. */
  function Printed(n: real, d: nat): string {
    (if n < 0.0 then "-" else "") + Tail(Digits(Rounded(n, d), d + 1), d, 0)
  }

  /** The buffer, which is filled from the last digit on, as digits. */
  function Back(buf: string): (s: seq<nat>)
    requires forall i :: 0 <= i < |buf| ==> IsDigit(buf[i])
    ensures |s| == |buf|
  {
    seq(|buf|, i requires 0 <= i < |buf| => DigitOf(buf[|buf| - 1 - i]))
  }

  lemma BackGrows(buf: string, d: nat)
    requires (forall i :: 0 <= i < |buf| ==> IsDigit(buf[i])) && d <= 9
    ensures Back(buf + [Ch(d)]) == [d] + Back(buf)
  {
  }

  /** The scaling loop of printFloat. */
  method Raise(value: real, places: nat) returns (n: real)
    ensures n == Moved(value, places)
  {
    hide Moved;
    n := value;
    var decimals := places;
    while decimals >= 2
      invariant Moved(n, decimals) == Moved(value, places)
    {
      MovedStep(n, decimals - 1);
      MovedStep(10.0 * n, decimals - 2);
      n := n * 100.0;
      decimals := decimals - 2;
    }
    MovedStep(n, 0);
    if decimals > 0 {
      n := n * 10.0;
    }
  }

  /** The digits of `value`, backwards, with zeros up to one place before the point. */
  method FillBuffer(value: nat, places: nat) returns (buf: string)
    ensures (forall i :: 0 <= i < |buf| ==> IsDigit(buf[i])) && Back(buf) == Digits(value, places + 1)
  {
    buf := [];
    var a := value;
    while a > 0
      invariant forall i :: 0 <= i < |buf| ==> IsDigit(buf[i])
      invariant Digits(a, 0) + Back(buf) == Digits(value, 0)
    {
      BackGrows(buf, a % 10);
      assert Digits(a, 0) == Digits(a / 10, 0) + [a % 10];
      buf := buf + [Ch(a % 10)];
      a := a / 10;
    }
    assert Back(buf) == Digits(value, 0);
    if |buf| > places {
      EnoughDigits(value, places + 1);
    } else {
      EnoughDigits(value, |buf|);
    }
    while |buf| < places
      invariant forall i :: 0 <= i < |buf| ==> IsDigit(buf[i])
      invariant |buf| <= places ==> Back(buf) == Digits(value, |buf|)
      invariant |buf| > places ==> Back(buf) == Digits(value, places + 1)
    {
      BackGrows(buf, 0);
      OneMoreDigit(value, |buf|);
      buf := buf + ['0'];
    }
    if |buf| == places {
      BackGrows(buf, 0);
      OneMoreDigit(value, |buf|);
      buf := buf + ['0'];
    }
  }

  lemma EmitStep(buf: string, digits: seq<nat>, d: nat, i: nat, m: nat, point: string)
    requires (forall k :: 0 <= k < |buf| ==> IsDigit(buf[k])) && (forall k :: 0 <= k < |digits| ==> digits[k] <= 9)
    requires Back(buf) == digits && 0 < i <= |buf| && m == |buf| - i && point == (if i == d then "." else "")
    ensures Tail(digits, d, m) == point + [buf[i - 1]] + Tail(digits, d, m + 1)
  {
    assert digits[m] == DigitOf(buf[i - 1]);
    assert Ch(digits[m]) == buf[i - 1];
  }

  /** Sends the buffer, last character first, with the decimal point in its place. */
  method Emit(buf: string, digits: seq<nat>, places: nat, sign: string) returns (out: string)
    requires (forall k :: 0 <= k < |buf| ==> IsDigit(buf[k])) && (forall k :: 0 <= k < |digits| ==> digits[k] <= 9)
    requires Back(buf) == digits
    ensures out == sign + Tail(digits, places, 0)
  {
    out := sign;
    var i := |buf|;
    while i > 0
      invariant 0 <= i <= |buf| == |digits|
      invariant out + Tail(digits, places, |buf| - i) == sign + Tail(digits, places, 0)
    {
      ghost var m, before := |buf| - i, out;
      ghost var point := if i == places then "." else "";
      EmitStep(buf, digits, places, i, m, point);
      hide Tail, Back;
      if i == places {
        out := out + ".";
      }
      out := out + [buf[i - 1]];
      assert out == before + (point + [buf[i - 1]]);
      assert before + (point + [buf[i - 1]] + Tail(digits, places, m + 1)) == out + Tail(digits, places, m + 1);
      i := i - 1;
    }
  }

  /** printFloat */
  method PrintFloat(value: real, decimalPlaces: nat) returns (out: string)
    ensures out == Printed(value, decimalPlaces)
  {
    hide Pow10, Digits, Tail, Back;
    var sign := "";
    var n := value;
    if n < 0.0 {
      sign := "-";
      n := -n;
    }
    n := Raise(n, decimalPlaces);
    n := n + 0.5;
    var a := n.Floor;
    assert a == Rounded(value, decimalPlaces);
    var buf := FillBuffer(a, decimalPlaces);
    out := Emit(buf, Back(buf), decimalPlaces, sign);
  }

  // ---------------------------------------------------------------- the round trip

  /** What follows the number in the line ends it: no digit, and no point unless one was printed. */
  predicate Stops(rest: string, d: nat) {
    rest == "" || (!IsDigit(rest[0]) && (rest[0] != '.' || d > 0))
  }

  lemma {:induction false} ScanTail(line: string, i: nat, digits: seq<nat>, d: nat, m: nat, rest: string)
    requires (forall k :: 0 <= k < |digits| ==> digits[k] <= 9) && d < |digits| && m <= |digits| && Stops(rest, d)
    requires i <= |line| && line[i..] == Tail(digits, d, m) + rest
    ensures Scan(line, i, |digits| - m < d)
      == Scanned(digits[m..], if |digits| - m < d then 0 else |digits| - d - m, i + |Tail(digits, d, m)|)
    decreases |digits| - m
  {
    if m == |digits| {
      assert line[i..] == rest;
      assert i < |line| ==> line[i] == line[i..][0] == rest[0];
      assert digits[m..] == [];
    } else {
      var c, next := Ch(digits[m]), Tail(digits, d, m + 1);
      assert digits[m..] == [digits[m]] + digits[m + 1..];
      if |digits| - m == d {
        assert Tail(digits, d, m) == ['.', c] + next;
        assert line[i] == line[i..][0] == '.' && line[i + 1] == line[i..][1] == c;
        assert line[i + 2..] == line[i..][2..] == next + rest;
        ScanTail(line, i + 2, digits, d, m + 1, rest);
        assert Scan(line, i + 1, true).digits == [digits[m]] + digits[m + 1..];
      } else {
        assert Tail(digits, d, m) == [c] + next;
        assert line[i] == line[i..][0] == c;
        assert line[i + 1..] == line[i..][1..] == next + rest;
        ScanTail(line, i + 1, digits, d, m + 1, rest);
      }
    }
  }

  lemma Pow10Inverse(d: int)
    requires d >= 0
    ensures Pow10(-d) * Pow10(d) == 1.0
  {
    Pow10Sum(-d, d);
  }

  lemma Quotient(a: real, q: real, p: real)
    requires q * p == 1.0 && p > 0.0
    ensures a * q == a / p
  {
    assert (a * q) * p == a * (q * p);
  }

  lemma ValueIsRounded(a: nat, d: nat, digits: seq<nat>)
    requires digits == Digits(a, d + 1) && |digits| <= MAX_INT_DIGITS
    ensures ValueOf(digits, |digits| - d) == a as real / Pow10(d)
  {
    hide Pow10, Digits, Numeral;
    DigitsDenote(a, d + 1);
    var e: int := d;
    Pow10Inverse(e);
    Quotient(a as real, Pow10(-e), Pow10(e));
    assert digits[..|digits|] == digits;
    assert ValueOf(digits, |digits| - d) == Numeral(digits) as real * Pow10(-e);
  }

  lemma FirstIsDigit(line: string, i: nat, sign: string, digits: seq<nat>, d: nat, rest: string)
    requires (forall k :: 0 <= k < |digits| ==> digits[k] <= 9) && d < |digits| && i <= |line|
    requires line[i..] == sign + (Tail(digits, d, 0) + rest) && (sign == "-" || sign == "")
    ensures (CharAt(line, i) == '-' <==> sign == "-") && AfterSign(line, i) == i + |sign|
  {
    assert Tail(digits, d, 0)[0] == Ch(digits[0]);
    assert line[i] == line[i..][0];
  }

  lemma PrintedAt(n: real, d: nat, digits: seq<nat>, sign: string, line: string, i: nat, rest: string)
    requires digits == Digits(Rounded(n, d), d + 1) && sign == (if n < 0.0 then "-" else "")
    requires i <= |line| && line[i..] == Printed(n, d) + rest
    ensures line[i..] == sign + (Tail(digits, d, 0) + rest) && line[i + |sign|..] == Tail(digits, d, 0) + rest
    ensures |Printed(n, d)| == |sign| + |Tail(digits, d, 0)|
  {
    hide Digits, Tail, Rounded;
    assert line[i..] == sign + (Tail(digits, d, 0) + rest);
    assert line[i + |sign|..] == line[i..][|sign|..];
  }

  /** Rounding is to the nearest integer, halves up. */
  lemma RoundedIsNearest(n: real, d: nat)
    ensures Rounded(n, d) as real - 0.5 <= (if n < 0.0 then -n else n) * Pow10(d) < Rounded(n, d) as real + 0.5
  {
    hide Pow10;
  }

  /** When at most eight digits are printed, reading the number back gives the rounded value exactly, at
      most half a unit of its last place away, and leaves the cursor behind its last character. */
  lemma RoundTrip(n: real, d: nat, line: string, i: nat, rest: string)
    requires i <= |line| && line[i..] == Printed(n, d) + rest && Stops(rest, d)
    requires |Digits(Rounded(n, d), d + 1)| <= 8
    ensures Rounded(n, d) as real - 0.5 <= (if n < 0.0 then -n else n) * Pow10(d) < Rounded(n, d) as real + 0.5
    ensures var v := Rounded(n, d) as real / Pow10(d);
      Read(line, i) == Number(if n < 0.0 then -v else v, i + |Printed(n, d)|)
  {
    RoundedIsNearest(n, d);
    hide Pow10, Digits, Tail, Scan, Rounded, ValueOf, Printed, Stops, CharAt, AfterSign;
    var a := Rounded(n, d);
    var digits := Digits(a, d + 1);
    var sign := if n < 0.0 then "-" else "";
    PrintedAt(n, d, digits, sign, line, i, rest);
    FirstIsDigit(line, i, sign, digits, d, rest);
    ScanTail(line, i + |sign|, digits, d, 0, rest);
    ValueIsRounded(a, d, digits);
    assert digits[0..] == digits;
  }

  /** Of a longer numeral, reading keeps the first eight digits: the digits behind them are read as
      zeros, whole or decimal. */
  lemma LongNumeral(digits: seq<nat>, whole: nat)
    requires |digits| > 8 && whole <= |digits|
    ensures ValueOf(digits, whole) == ValueOf(digits[..8] + Zeros(|digits| - 8), whole)
    ensures ValueOf(digits, whole) == Numeral(digits[..8]) as real * Pow10(whole - 8)
  {
    var cut := digits[..MAX_INT_DIGITS] + Zeros(|digits| - MAX_INT_DIGITS);
    assert cut[..MAX_INT_DIGITS] == digits[..MAX_INT_DIGITS];
  }

  function Zeros(n: nat): (z: seq<nat>)
    ensures |z| == n
  {
    seq(n, _ => 0)
  }

  /** The exact value of a numeral. */
  function ExactValue(digits: seq<nat>, whole: nat): real {
    Moved(Numeral(digits) as real, whole - |digits|)
  }

  lemma NumeralLast(b: seq<nat>)
    requires b != []
    ensures Numeral(b) as real == 10.0 * Numeral(b[..|b| - 1]) as real + b[|b| - 1] as real
  {
  }

  lemma {:induction false} NumeralSplits(a: seq<nat>, b: seq<nat>)
    requires forall i :: 0 <= i < |b| ==> b[i] <= 9
    ensures Numeral(a + b) as real == Moved(Numeral(a) as real, |b|) + Numeral(b) as real
    ensures Numeral(b) as real <= Pow10(|b|) - 1.0
    decreases |b|
  {
    hide Moved, Pow10;
    if b == [] {
      assert a + b == a;
      MovedStep(Numeral(a) as real, 0);
      NoPlaces();
    } else {
      hide Numeral;
      var most := b[..|b| - 1];
      NumeralSplits(a, most);
      assert (a + b)[..|a + b| - 1] == a + most;
      NumeralLast(a + b);
      NumeralLast(b);
      Pow10Step(|most|);
      MovedStep(Numeral(a) as real, |most|);
    }
  }

  lemma NoPlaces()
    ensures Pow10(0) == 1.0
  {
  }

  lemma Within(first: real, rest: real, k: real, unit: real, p: real)
    requires k * unit == p && p > 0.0 && unit > 0.0 && 0.0 <= rest < k
    ensures first * p <= (first * k + rest) * unit < first * p + p
  {
    assert (first * k) * unit == first * (k * unit);
    assert 0.0 <= rest * unit < k * unit;
  }

  predicate AllDigits(line: string, i: nat, j: nat)
    requires i <= j <= |line|
  {
    forall k :: i <= k < j ==> '0' <= line[k] <= '9'
  }

  /** The digits of a part of the line. */
  function DigitsIn(line: string, i: nat, j: nat): (d: seq<nat>)
    requires i <= j <= |line| && AllDigits(line, i, j)
    ensures |d| == j - i && forall k :: 0 <= k < |d| ==> d[k] <= 9
  {
    seq(j - i, k requires 0 <= k < j - i => line[i + k] as int - '0' as int)
  }

  /** Scanning goes through a run of digits. */
  lemma {:induction false} ScanRun(line: string, i: nat, j: nat, point: bool)
    requires i <= j <= |line| && AllDigits(line, i, j)
    ensures var s := Scan(line, j, point);
      Scan(line, i, point)
        == Scanned(DigitsIn(line, i, j) + s.digits, if point then 0 else j - i + s.whole, s.end)
    decreases j - i
  {
    var s := Scan(line, j, point);
    if i < j {
      ScanRun(line, i + 1, j, point);
      assert DigitsIn(line, i, j) + s.digits == [DigitOf(line[i])] + (DigitsIn(line, i + 1, j) + s.digits);
    } else {
      assert DigitsIn(line, i, j) + s.digits == s.digits;
      PointEndsWhole(line, j);
    }
  }

  /** Behind the point no digit counts as a whole one. */
  lemma PointEndsWhole(line: string, i: nat)
    ensures Scan(line, i, true).whole == 0
  {
  }

  /** What is read behind a sign, if there is one: the digits up to `p`, and if a point is there, it and
      the digits behind it, up to `e`.  There is no number exactly when there is no digit. */
  lemma NumeralRead(line: string, start: nat, i: nat, p: nat, e: nat)
    requires i == if CharAt(line, start) in {'+', '-'} then start + 1 else start
    requires i <= p <= e <= |line| && AllDigits(line, i, p)
    requires if p < e then line[p] == '.' && AllDigits(line, p + 1, e) && !('0' <= CharAt(line, e) <= '9')
             else !('0' <= CharAt(line, e) <= '9') && CharAt(line, e) != '.'
    ensures var digits := DigitsIn(line, i, p) + if p < e then DigitsIn(line, p + 1, e) else [];
      var v := ValueOf(digits, p - i);
      Read(line, start)
        == if digits == [] then NoNumber else Number(if CharAt(line, start) == '-' then -v else v, e)
  {
    hide Pow10, Moved, Numeral, ValueOf;
    var first := DigitsIn(line, i, p);
    ScanRun(line, i, p, false);
    if p < e {
      var rest := DigitsIn(line, p + 1, e);
      ScanRun(line, p + 1, e, true);
      assert Scan(line, e, true) == Scanned([], 0, e) && rest + [] == rest;
      assert Scan(line, i, false) == Scanned(first + rest, p - i, e);
    } else {
      assert Scan(line, p, false) == Scanned([], 0, p);
    }
  }

  /** Reading never exceeds the exact value, and is short of it by less than one unit of the last digit
      it kept; up to eight digits it is exact. */
  lemma ReadingError(digits: seq<nat>, whole: nat)
    requires forall i :: 0 <= i < |digits| ==> digits[i] <= 9
    ensures |digits| <= 8 ==> ValueOf(digits, whole) == ExactValue(digits, whole)
    ensures ValueOf(digits, whole) <= ExactValue(digits, whole) < ValueOf(digits, whole) + Pow10(whole - 8)
  {
    hide Pow10, Numeral;
    if |digits| <= MAX_INT_DIGITS {
      assert digits[..|digits|] == digits;
    } else {
      var first, rest := digits[..MAX_INT_DIGITS], digits[MAX_INT_DIGITS..];
      assert digits == first + rest;
      NumeralSplits(first, rest);
      Pow10Sum(whole - |digits|, |rest|);
      assert Moved(Numeral(first) as real, |rest|) == Numeral(first) as real * Pow10(|rest|);
      Within(Numeral(first) as real, Numeral(rest) as real, Pow10(|rest|), Pow10(whole - |digits|),
             Pow10(whole - MAX_INT_DIGITS));
    }
  }
}
