/**
 * The exact decimal amount parser of the Bitcoin Core adapter
 * (src/direct-funding/bitcoin-core.ts): text in BTC to a whole number of satoshis.
 *
 * The reference is the real number a decimal text denotes. Exponents are read
 * as exact integers.
 */
module Satoshis {

  datatype Option<T> = None | Some(value: T)

  datatype Sign = NoSign | Plus | Minus

  datatype Exponent = NoExponent | Exponent(mark: char, sign: Sign, digits: string)

  /** The capture groups of the amount pattern. */
  datatype Notation = Notation(whole: string, fraction: Option<string>, exponent: Exponent)

  datatype Error = Malformed | BadPrecision | FractionalSatoshi | ExceedsSupply

  datatype Result = Ok(amount: nat) | Err(error: Error)

  const SUPPLY: nat := 2_100_000_000_000_000
  const MAX_SCALE: nat := 100

  predicate IsDigit(c: char) { '0' <= c <= '9' }

  predicate AllDigits(s: string) { forall i :: 0 <= i < |s| ==> IsDigit(s[i]) }

  predicate IsMark(c: char) { c == 'e' || c == 'E' }

  function Digit(c: char): (d: nat)
    requires IsDigit(c)
    ensures d < 10
  {
    c as int - '0' as int
  }

  // ----- the pattern -----

  predicate WellFormed(p: Notation) {
    && p.whole != "" && AllDigits(p.whole)
    && (p.fraction.Some? ==> p.fraction.value != "" && AllDigits(p.fraction.value))
    && (p.exponent.Exponent? ==>
          && IsMark(p.exponent.mark)
          && p.exponent.digits != "" && AllDigits(p.exponent.digits))
  }

  function SignText(s: Sign): string {
    match s
    case NoSign => []
    case Plus => ['+']
    case Minus => ['-']
  }

  function ExponentText(e: Exponent): string {
    if e.NoExponent? then "" else [e.mark] + SignText(e.sign) + e.digits
  }

  function FractionText(f: Option<string>): string {
    if f.None? then "" else "." + f.value
  }

  function Text(p: Notation): string {
    p.whole + (FractionText(p.fraction) + ExponentText(p.exponent))
  }

  /** The length of the longest run of leading digits. */
  function DigitRun(s: string): (n: nat)
    ensures n <= |s| && AllDigits(s[..n])
    ensures n < |s| ==> !IsDigit(s[n])
  {
    if s == "" || !IsDigit(s[0]) then 0 else
      var n := 1 + DigitRun(s[1..]);
      assert s[..n] == [s[0]] + s[1..][..n - 1];
      n
  }

  function SignAt(s: string): Sign {
    if s == "" then NoSign else if s[0] == '+' then Plus else if s[0] == '-' then Minus else NoSign
  }

  function MatchExponent(s: string): (e: Option<Exponent>)
    ensures e.Some? && e.value.Exponent? ==>
      IsMark(e.value.mark) && e.value.digits != "" && AllDigits(e.value.digits)
  {
    if s == "" then Some(NoExponent)
    else if !IsMark(s[0]) then None
    else
      var sign := SignAt(s[1..]);
      var digits := if sign == NoSign then s[1..] else s[2..];
      if digits != "" && DigitRun(digits) == |digits| then
        assert digits[..|digits|] == digits;
        Some(Exponent(s[0], sign, digits))
      else None
  }

  function MatchTail(whole: string, fraction: Option<string>, rest: string): Option<Notation> {
    var e := MatchExponent(rest);
    if e.None? then None else Some(Notation(whole, fraction, e.value))
  }

  /** The pattern, read from left to right. */
  function Match(text: string): (p: Option<Notation>)
    ensures p.Some? ==> WellFormed(p.value)
  {
    var n := DigitRun(text);
    var whole, rest := text[..n], text[n..];
    if n == 0 then None
    else if rest == "" || rest[0] != '.' then MatchTail(whole, None, rest)
    else
      var m := DigitRun(rest[1..]);
      if m == 0 then None else MatchTail(whole, Some(rest[1..][..m]), rest[1..][m..])
  }

  lemma {:induction false} RunStops(digits: string, rest: string)
    requires AllDigits(digits) && (rest == "" || !IsDigit(rest[0]))
    ensures DigitRun(digits + rest) == |digits|
  {
    if digits == "" {
      assert digits + rest == rest;
    } else {
      assert (digits + rest)[1..] == digits[1..] + rest;
      RunStops(digits[1..], rest);
    }
  }

  lemma MatchExponentSound(s: string)
    requires MatchExponent(s).Some?
    ensures ExponentText(MatchExponent(s).value) == s
  {
    if s != "" {
      var sign := SignAt(s[1..]);
      var digits := if sign == NoSign then s[1..] else s[2..];
      assert s == [s[0]] + SignText(sign) + digits;
    }
  }

  lemma MatchExponentComplete(e: Exponent)
    requires e.Exponent? ==> IsMark(e.mark) && e.digits != "" && AllDigits(e.digits)
    ensures MatchExponent(ExponentText(e)) == Some(e)
  {
    if e.Exponent? {
      var s := ExponentText(e);
      assert s[0] == e.mark;
      RunStops(e.digits, "");
      assert e.digits + "" == e.digits;
      assert s[1..] == SignText(e.sign) + e.digits;
      assert e.sign != NoSign ==> s[2..] == e.digits;
    }
  }

  lemma TailSound(whole: string, fraction: Option<string>, rest: string)
    requires MatchTail(whole, fraction, rest).Some?
    ensures Text(MatchTail(whole, fraction, rest).value) == whole + (FractionText(fraction) + rest)
  {
    MatchExponentSound(rest);
  }

  lemma MatchSound(text: string)
    requires Match(text).Some?
    ensures Text(Match(text).value) == text
  {
    hide WellFormed, MatchTail, Text, AllDigits;
    var n := DigitRun(text);
    var whole, rest := text[..n], text[n..];
    assert text == whole + rest;
    if rest == "" || rest[0] != '.' {
      TailSound(whole, None, rest);
      assert "" + rest == rest;
    } else {
      var m := DigitRun(rest[1..]);
      var f, tail := rest[1..][..m], rest[1..][m..];
      TailSound(whole, Some(f), tail);
      assert rest == FractionText(Some(f)) + tail;
    }
  }

  lemma MatchComplete(p: Notation)
    requires WellFormed(p)
    ensures Match(Text(p)) == Some(p)
  {
    var tail := ExponentText(p.exponent);
    var rest := FractionText(p.fraction) + tail;
    MatchExponentComplete(p.exponent);
    RunStops(p.whole, rest);
    Splits(p.whole, rest);
    hide DigitRun, AllDigits, MatchExponent;
    if p.fraction.Some? {
      FractionComplete(p.fraction.value, tail);
    } else {
      assert rest == tail;
    }
  }

  lemma FractionComplete(f: string, tail: string)
    requires AllDigits(f) && (tail == "" || !IsDigit(tail[0]))
    ensures var rest := FractionText(Some(f)) + tail;
      rest[0] == '.' && DigitRun(rest[1..]) == |f| && rest[1..][..|f|] == f && rest[1..][|f|..] == tail
  {
    var rest := FractionText(Some(f)) + tail;
    RunStops(f, tail);
    hide DigitRun, AllDigits;
    assert rest[1..] == f + tail;
    Splits(f, tail);
  }

  lemma Splits(s: string, t: string)
    ensures (s + t)[..|s|] == s && (s + t)[|s|..] == t
  {
  }

  /** The scan accepts exactly the texts of the pattern, and reads the one way they can be read. */
  lemma MatchExact(text: string, p: Notation)
    ensures Match(text) == Some(p) <==> Reads(text, p)
  {
    hide Match, WellFormed, Text;
    if Match(text) == Some(p) {
      MatchSound(text);
    }
    if Reads(text, p) {
      MatchComplete(p);
    }
  }

  ghost predicate Reads(text: string, p: Notation) {
    WellFormed(p) && text == Text(p)
  }

  // ----- what a notation denotes -----

  function Whole(s: string): (n: nat)
    requires AllDigits(s)
  {
    if s == "" then 0 else Whole(s[..|s| - 1]) * 10 + Digit(s[|s| - 1])
  }

  /** The value of the digits after the point. */
  function Fraction(s: string): (r: real)
    requires AllDigits(s)
  {
    if s == "" then 0.0 else (Digit(s[0]) as real + Fraction(s[1..])) / 10.0
  }

  function TenTo(e: int): (r: real)
    ensures r > 0.0
    decreases if e < 0 then -e else e
  {
    if e == 0 then 1.0 else if e > 0 then 10.0 * TenTo(e - 1) else TenTo(e + 1) / 10.0
  }

  function FractionDigits(p: Notation): (s: string)
    requires WellFormed(p)
    ensures AllDigits(s)
  {
    if p.fraction.None? then "" else p.fraction.value
  }

  /** All the digits, the point left out. */
  function Digits(p: Notation): (s: string)
    requires WellFormed(p)
    ensures AllDigits(s)
  {
    p.whole + FractionDigits(p)
  }

  function Power(p: Notation): int
    requires WellFormed(p)
  {
    if p.exponent.NoExponent? then 0
    else if p.exponent.sign == Minus then 0 - Whole(p.exponent.digits)
    else Whole(p.exponent.digits)
  }

  /** The amount in BTC that the text denotes. */
  function Btc(p: Notation): real
    requires WellFormed(p)
  {
    (Whole(p.whole) as real + Fraction(FractionDigits(p))) * TenTo(Power(p))
  }

  // ----- the parser -----

  function Pow10(n: nat): (r: nat)
    ensures r > 0
  {
    if n == 0 then 1 else 10 * Pow10(n - 1)
  }

  function Scale(p: Notation): int
    requires WellFormed(p)
  {
    8 + Power(p) - |FractionDigits(p)|
  }

  function Within(amount: nat): Result {
    if amount > SUPPLY then Err(ExceedsSupply) else Ok(amount)
  }

  /** The amount a matched notation stands for. */
  function Amount(p: Notation): (r: Result)
    requires WellFormed(p)
  {
    var scale := Scale(p);
    var amount := Whole(Digits(p));
    if scale > MAX_SCALE || 0 - scale > MAX_SCALE then Err(BadPrecision)
    else if scale < 0 then
      var divisor := Pow10(0 - scale);
      if amount % divisor != 0 then Err(FractionalSatoshi) else Within(amount / divisor)
    else Within(amount * Pow10(scale))
  }

  function Parse(text: string): (r: Result) {
    var m := Match(text);
    if m.None? then Err(Malformed) else Amount(m.value)
  }

  // ----- exactness -----

  lemma {:induction false} PowIsTenTo(n: nat)
    ensures TenTo(n) == Pow10(n) as real
    ensures TenTo(0 - n) * Pow10(n) as real == 1.0
  {
    if n > 0 {
      PowIsTenTo(n - 1);
    }
  }

  lemma TenToNext(e: int)
    ensures TenTo(e + 1) == 10.0 * TenTo(e)
  {
  }

  function Times(a: real, b: real): real { a * b }

  lemma TimesTen(a: real, b: real)
    ensures Times(a, 10.0 * b) == 10.0 * Times(a, b) && Times(a, 1.0) == a
  {
  }

  lemma {:induction false} TenToUp(e: int, n: nat)
    ensures TenTo(e + n) == Times(TenTo(e), TenTo(n))
  {
    hide Times;
    if n == 0 {
      TimesTen(TenTo(e), 1.0);
    } else {
      TenToUp(e, n - 1);
      TenToNext(e + (n - 1));
      TenToNext(n - 1);
      TimesTen(TenTo(e), TenTo(n - 1));
    }
  }

  /** Digits after the point shift the point: 12.34 is 1234 scaled by the two digits. */
  lemma {:induction false} FractionShifts(w: string, f: string)
    requires AllDigits(w) && AllDigits(f)
    ensures AllDigits(w + f)
    ensures Whole(w + f) as real == (Whole(w) as real + Fraction(f)) * TenTo(|f|)
    decreases |f|
  {
    hide Whole;
    if f == "" {
      assert w + f == w;
    } else {
      var longer := w + [f[0]];
      WholeAppend(w, f[0]);
      assert longer + f[1..] == w + f;
      FractionShifts(longer, f[1..]);
      Regroup(Whole(w) as real, Digit(f[0]) as real, Fraction(f[1..]), TenTo(|f| - 1));
    }
  }

  lemma WholeAppend(w: string, c: char)
    requires AllDigits(w) && IsDigit(c)
    ensures AllDigits(w + [c]) && Whole(w + [c]) == Whole(w) * 10 + Digit(c)
  {
    assert (w + [c])[..|w|] == w;
  }

  lemma Regroup(w: real, d: real, f: real, t: real)
    ensures (w * 10.0 + d + f) * t == (w + (d + f) / 10.0) * (10.0 * t)
  {
  }

  /** In satoshis, a notation is its digits scaled by Scale. */
  lemma AmountScales(p: Notation)
    requires WellFormed(p)
    ensures Btc(p) * 100000000.0 == Whole(Digits(p)) as real * TenTo(Scale(p))
  {
    hide TenTo, Whole, Fraction, AllDigits;
    var f := FractionDigits(p);
    FractionShifts(p.whole, f);
    TenToUp(Scale(p), |f|);
    TenToUp(Power(p), 8);
    assert TenTo(8) == 100000000.0 by { PowIsTenTo(8); }
    var v := Whole(p.whole) as real + Fraction(f);
    var digits := Whole(Digits(p)) as real;
    assert Scale(p) + |f| == Power(p) + 8;
    Reassociate(v, TenTo(Power(p)), TenTo(8), TenTo(|f|), TenTo(Scale(p)), digits);
  }

  lemma Reassociate(v: real, power: real, eight: real, shift: real, scale: real, digits: real)
    requires digits == v * shift && scale * shift == power * eight
    ensures v * power * eight == digits * scale
  {
    assert v * power * eight == v * (power * eight);
    assert v * (scale * shift) == (v * shift) * scale;
  }

  /** Dividing by the scale is exact just when the digits are a multiple of it. */
  lemma ScaledDown(digits: nat, k: nat, n: int)
    ensures digits as real * TenTo(0 - k) == n as real <==> digits % Pow10(k) == 0 && n == digits / Pow10(k)
  {
    PowIsTenTo(k);
    InverseScale(digits, TenTo(0 - k), Pow10(k), n);
  }

  lemma InverseScale(digits: nat, t: real, d: nat, n: int)
    requires d > 0 && t * d as real == 1.0
    ensures digits as real * t == n as real <==> digits % d == 0 && n == digits / d
  {
    assert (digits as real * t) * d as real == digits as real * (t * d as real) == digits as real;
    assert (n as real * d as real) * t == n as real * (t * d as real) == n as real;
    assert (n * d) as real == n as real * d as real;
    assert digits as real * t == n as real <==> digits == n * d;
    if digits == n * d {
      Multiple(n, d);
    }
  }

  lemma Multiple(n: int, d: nat)
    requires d > 0
    ensures (n * d) % d == 0 && (n * d) / d == n
  {
    var q, r := (n * d) / d, (n * d) % d;
    assert n * d == q * d + r;
    assert (n - q) * d == r;
    assert n - q >= 1 ==> (n - q) * d >= d;
    assert n - q <= -1 ==> (n - q) * d <= 0 - d;
  }

  lemma ScaledUp(digits: nat, k: nat, n: int)
    ensures digits as real * TenTo(k) == n as real <==> n == digits * Pow10(k)
  {
    PowIsTenTo(k);
    assert (digits * Pow10(k)) as real == digits as real * Pow10(k) as real;
  }

  ghost predicate Denotes(p: Notation, n: nat)
    requires WellFormed(p)
  {
    Btc(p) * 100000000.0 == n as real
  }

  ghost predicate IsWhole(p: Notation)
    requires WellFormed(p)
  {
    exists n: nat :: Denotes(p, n)
  }

  ghost predicate ScaleOk(p: Notation)
    requires WellFormed(p)
  {
    0 - MAX_SCALE <= Scale(p) <= MAX_SCALE
  }

  /** The answer for a notation, in terms of the amount it denotes alone. */
  lemma AmountExact(p: Notation, n: nat)
    requires WellFormed(p)
    ensures Amount(p) == Err(BadPrecision) <==> !ScaleOk(p)
    ensures ScaleOk(p) && Denotes(p, n) ==> Amount(p) == (if n > SUPPLY then Err(ExceedsSupply) else Ok(n))
    ensures Amount(p).Ok? ==> Denotes(p, Amount(p).amount) && Amount(p).amount <= SUPPLY
    ensures Amount(p) == Err(ExceedsSupply) ==> exists k: nat :: k > SUPPLY && Denotes(p, k)
    ensures Amount(p) != Err(Malformed)
  {
    hide WellFormed, Btc, Whole, TenTo, Pow10, Digits, Scale;
    if ScaleOk(p) {
      if Scale(p) < 0 {
        DownExact(p, n);
      } else {
        UpExact(p, n);
      }
    }
  }

  lemma DownExact(p: Notation, n: nat)
    requires WellFormed(p) && Scale(p) < 0
    ensures var digits, d := Whole(Digits(p)), Pow10(0 - Scale(p));
      && (Denotes(p, n) <==> digits % d == 0 && n == digits / d)
      && (digits % d == 0 ==> Denotes(p, digits / d))
  {
    hide WellFormed, Btc, Whole, TenTo, Pow10, Digits, Scale;
    AmountScales(p);
    var digits, scale := Whole(Digits(p)), Scale(p);
    ScaledDown(digits, 0 - scale, n);
    ScaledDown(digits, 0 - scale, digits / Pow10(0 - scale));
  }

  lemma UpExact(p: Notation, n: nat)
    requires WellFormed(p) && Scale(p) >= 0
    ensures var amount := Whole(Digits(p)) * Pow10(Scale(p)); (Denotes(p, n) <==> n == amount) && Denotes(p, amount)
  {
    hide WellFormed, Btc, Whole, TenTo, Pow10, Digits, Scale;
    AmountScales(p);
    ScaledUp(Whole(Digits(p)), Scale(p), n);
    ScaledUp(Whole(Digits(p)), Scale(p), Whole(Digits(p)) * Pow10(Scale(p)));
  }

  /** Exact, and complete: a text is accepted as n just when it denotes n satoshis, within supply and precision. */
  lemma ParseExact(text: string, n: nat)
    ensures Parse(text) == Ok(n) <==>
      exists p :: Reads(text, p) && ScaleOk(p) && Denotes(p, n) && n <= SUPPLY
  {
    hide Match, Amount, Denotes, ScaleOk, WellFormed, Text;
    if Parse(text) == Ok(n) {
      var p := Match(text).value;
      MatchExact(text, p);
      AmountExact(p, n);
      assert Reads(text, p);
    }
    if p :| Reads(text, p) && ScaleOk(p) && Denotes(p, n) && n <= SUPPLY {
      MatchExact(text, p);
      AmountExact(p, n);
    }
  }

  /** Each refusal names its reason. */
  lemma ParseRefuses(text: string)
    ensures Parse(text) == Err(Malformed) <==> !exists p :: Reads(text, p)
    ensures Parse(text) == Err(BadPrecision) <==> exists p :: Reads(text, p) && !ScaleOk(p)
    ensures Parse(text) == Err(FractionalSatoshi) <==> exists p :: Reads(text, p) && ScaleOk(p) && !IsWhole(p)
    ensures Parse(text) == Err(ExceedsSupply) <==>
      exists p, n: nat :: Reads(text, p) && ScaleOk(p) && Denotes(p, n) && n > SUPPLY
  {
    hide Match, Amount, Denotes, ScaleOk, WellFormed, Text;
    forall p ensures Reads(text, p) <==> Match(text) == Some(p) {
      MatchExact(text, p);
    }
    if Match(text).Some? {
      var p := Match(text).value;
      assert Reads(text, p);
      forall n: nat ensures ScaleOk(p) && Denotes(p, n) ==>
          Amount(p) == (if n > SUPPLY then Err(ExceedsSupply) else Ok(n)) {
        AmountExact(p, n);
      }
      AmountExact(p, 0);
      assert ScaleOk(p) && !IsWhole(p) ==> Amount(p) == Err(FractionalSatoshi) by {
        if ScaleOk(p) && !IsWhole(p) {
          match Amount(p) {
            case Ok(n) =>
            case Err(e) =>
              match e {
                case Malformed =>
                case BadPrecision =>
                case FractionalSatoshi =>
                case ExceedsSupply =>
              }
          }
        }
      }
      assert Amount(p) == Err(FractionalSatoshi) ==> ScaleOk(p) && !IsWhole(p);
    }
  }

  /** Two notations of the same amount that both parse give the same number, and only those do. */
  lemma SameAmount(s: string, t: string, p: Notation, q: Notation)
    requires Reads(s, p) && Reads(t, q) && Parse(s).Ok? && Parse(t).Ok?
    ensures Parse(s) == Parse(t) <==> Btc(p) == Btc(q)
  {
    hide Match, Amount, Btc, WellFormed, Text;
    MatchExact(s, p);
    MatchExact(t, q);
    AmountExact(p, Parse(s).amount);
    AmountExact(q, Parse(t).amount);
  }
}
