/** Pure part of the tempo controller: clamping, rounding to hundredths,
    the pitch-compensation parameter and the "N.NNx" display text.
    Tempo values are exact reals; JavaScript's IEEE doubles are not modelled. */
module Tempo {

  datatype Option<T> = None | Some(value: T)

  const MinTempo: real := 0.5
  const MaxTempo: real := 2.0
  const DefaultTempo: real := 1.0

  predicate InRange(x: real) { MinTempo <= x <= MaxTempo }

  /** x is an integer number of hundredths. */
  predicate IsHundredth(x: real) { (x * 100.0).Floor as real == x * 100.0 }

  /** A value setTempo can store: in range and a multiple of 0.01. */
  predicate IsTempo(x: real) { InRange(x) && IsHundredth(x) }

  function Abs(x: real): real { if x < 0.0 then -x else x }

  /** The two guards at the head of setTempo. */
  function Clamp(m: real): (r: real)
    ensures InRange(r)
    ensures InRange(m) ==> r == m
    ensures m <= MinTempo ==> r == MinTempo
    ensures m >= MaxTempo ==> r == MaxTempo
  {
    var low := if m < MinTempo then MinTempo else m;
    if low > MaxTempo then MaxTempo else low
  }

  /** Clamp picks the point of [MinTempo, MaxTempo] nearest to its argument. */
  lemma ClampNearest(m: real, y: real)
    requires InRange(y)
    ensures Abs(Clamp(m) - m) <= Abs(y - m)
  {
  }

  /** Math.round(x * 100) / 100: Math.round rounds halves towards +infinity. */
  function RoundHalfUp(x: real): (r: real)
    ensures IsHundredth(r)
    ensures x - 0.005 < r <= x + 0.005
  {
    var k := (x * 100.0 + 0.5).Floor;
    assert k as real <= x * 100.0 + 0.5 < k as real + 1.0;
    assert (k as real / 100.0) * 100.0 == k as real;
    k as real / 100.0
  }

  /** The rounding is the only hundredth in the half-open window (x - 0.005, x + 0.005]. */
  lemma RoundHalfUpUnique(x: real, r: real)
    requires IsHundredth(r)
    requires x - 0.005 < r <= x + 0.005
    ensures RoundHalfUp(x) == r
  {
    var k := (r * 100.0).Floor;
    var j := (x * 100.0 + 0.5).Floor;
    assert j as real <= x * 100.0 + 0.5 < j as real + 1.0;
    assert k as real <= x * 100.0 + 0.5 < k as real + 1.0;
    assert j == k;
    assert RoundHalfUp(x) == j as real / 100.0;
  }

  lemma HundredthSum(a: real, b: real)
    requires IsHundredth(a) && IsHundredth(b)
    ensures IsHundredth(a + b)
  {
    var ka, kb := (a * 100.0).Floor, (b * 100.0).Floor;
    assert (a + b) * 100.0 == (ka + kb) as real;
  }

  /** The value setTempo stores for a requested multiplier m. */
  function Quantize(m: real): (r: real)
    ensures IsTempo(r)
  {
    var c := Clamp(m);
    var r := RoundHalfUp(c);
    BoundsAreHundredths();
    RoundMonotone(MinTempo, c);
    RoundMonotone(c, MaxTempo);
    RoundHalfUpUnique(MinTempo, MinTempo);
    RoundHalfUpUnique(MaxTempo, MaxTempo);
    r
  }

  lemma BoundsAreHundredths()
    ensures IsHundredth(MinTempo) && IsHundredth(MaxTempo)
  {
    assert MinTempo * 100.0 == 50 as real;
    assert MaxTempo * 100.0 == 200 as real;
  }

  lemma RoundMonotone(x: real, y: real)
    requires x <= y
    ensures RoundHalfUp(x) <= RoundHalfUp(y)
  {
    assert (x * 100.0 + 0.5).Floor <= (y * 100.0 + 0.5).Floor;
  }

  /** A stored tempo is a fixed point: setTempo(currentTempo) keeps currentTempo. */
  lemma QuantizeFixesTempo(t: real)
    requires IsTempo(t)
    ensures Quantize(t) == t
  {
    RoundHalfUpUnique(t, t);
  }

  lemma QuantizeIdempotent(m: real)
    ensures Quantize(Quantize(m)) == Quantize(m)
  {
    QuantizeFixesTempo(Quantize(m));
  }

  /** Stepping a stored tempo by a whole number of hundredths involves no rounding:
      the result is the step clamped to the range, so repeated steps do not drift. */
  lemma StepIsExact(t: real, step: real)
    requires IsTempo(t) && IsHundredth(step)
    ensures Quantize(t + step) == Clamp(t + step)
  {
    BoundsAreHundredths();
    HundredthSum(t, step);
    var c := Clamp(t + step);
    assert IsHundredth(c);
    RoundHalfUpUnique(c, c);
  }

  /** The frequency setTempo gives the channel: the base frequency scaled by
      the tempo, so the default tempo plays at the native rate and a faster
      tempo at a higher one. */
  function ChannelFrequency(baseFrequency: real, t: real): (f: real)
    ensures t == DefaultTempo ==> f == baseFrequency
    ensures 0.0 < baseFrequency ==> (f > baseFrequency <==> t > DefaultTempo)
  {
    baseFrequency * t
  }

  /** The float parameter 0 written to the pitch shifter: neutral when
      shiftStatus is set, otherwise it undoes the tempo's pitch change
      (their product is 1). */
  function PitchFor(shiftStatus: bool, t: real): (p: real)
    requires t != 0.0
    ensures shiftStatus ==> p == 1.0
    ensures !shiftStatus ==> p * t == 1.0
  {
    if shiftStatus then 1.0 else 1.0 / t
  }

  /** With compensation on, the pitch shifter exactly cancels the pitch change
      of the faster or slower channel: the heard pitch corresponds to the
      native rate at every tempo. */
  lemma CompensatedPitchIsNative(baseFrequency: real, t: real)
    requires t != 0.0
    ensures ChannelFrequency(baseFrequency, t) * PitchFor(false, t) == baseFrequency
  {
  }

  lemma PitchExample()
    ensures PitchFor(false, 1.25) == 0.8
    ensures PitchFor(false, 0.8) == 1.25
    ensures PitchFor(true, 0.8) == 1.0
  {
  }

  // ---- Display text: multiplier.toFixed(2) + "x" ----

  predicate IsDigit(c: char) { '0' <= c <= '9' }

  predicate AllDigits(s: string) { forall i :: 0 <= i < |s| ==> IsDigit(s[i]) }

  function DigitChar(d: int): (c: char)
    requires 0 <= d < 10
    ensures IsDigit(c)
  {
    ('0' as int + d) as char
  }

  function DigitValue(c: char): (d: nat)
    requires IsDigit(c)
    ensures d < 10 && DigitChar(d) == c
  {
    c as int - '0' as int
  }

  /** Decimal numeral of n without leading zeros. */
  function DecimalString(n: nat): (s: string)
    ensures 1 <= |s| && AllDigits(s)
    ensures n < 10 <==> |s| == 1
  {
    if n < 10 then [DigitChar(n)] else DecimalString(n / 10) + [DigitChar(n % 10)]
  }

  /** Value of a string of decimal digits. */
  function DecimalValue(s: string): nat
    requires AllDigits(s)
  {
    if s == [] then 0 else DecimalValue(s[..|s| - 1]) * 10 + DigitValue(s[|s| - 1])
  }

  lemma {:induction false} DecimalRoundTrip(n: nat)
    ensures DecimalValue(DecimalString(n)) == n
  {
    var s := DecimalString(n);
    if n < 10 {
      assert s[..|s| - 1] == [];
    } else {
      assert s[..|s| - 1] == DecimalString(n / 10);
      DecimalRoundTrip(n / 10);
    }
  }

  /** Number of hundredths in x. */
  function Hundredths(x: real): int { (x * 100.0).Floor }

  /** x.toFixed(2) for a non-negative multiple of 0.01. */
  function Fixed2(x: real): (s: string)
    requires 0.0 <= x && IsHundredth(x)
    ensures |s| >= 4 && s[|s| - 3] == '.'
    ensures AllDigits(s[..|s| - 3]) && IsDigit(s[|s| - 2]) && IsDigit(s[|s| - 1])
    ensures x < 10.0 ==> |s| == 4
  {
    var h := Hundredths(x);
    DecimalString(h / 100) + "." + [DigitChar(h / 10 % 10), DigitChar(h % 10)]
  }

  /** Text written to the tempo display. */
  function TempoText(t: real): (s: string)
    requires IsTempo(t)
    ensures |s| == 5 && IsDigit(s[0]) && s[1] == '.' && IsDigit(s[2]) && IsDigit(s[3]) && s[4] == 'x'
  {
    var h := Hundredths(t);
    assert 50 <= h <= 200;
    Fixed2(t) + "x"
  }

  /** Reads a display text back as a tempo; the inverse of TempoText. */
  function ParseTempoText(s: string): Option<real>
  {
    var n := |s|;
    if n >= 5 && s[n - 1] == 'x' && s[n - 4] == '.' && AllDigits(s[..n - 4])
       && IsDigit(s[n - 3]) && IsDigit(s[n - 2])
    then
      var h := DecimalValue(s[..n - 4]) * 100 + DigitValue(s[n - 3]) * 10 + DigitValue(s[n - 2]);
      Some(h as real / 100.0)
    else None
  }

  lemma TempoTextRoundTrip(t: real)
    requires IsTempo(t)
    ensures ParseTempoText(TempoText(t)) == Some(t)
  {
    var h := Hundredths(t);
    var s := TempoText(t);
    var ip := DecimalString(h / 100);
    assert s == ip + "." + [DigitChar(h / 10 % 10), DigitChar(h % 10)] + "x";
    assert s[..|s| - 4] == ip;
    DecimalRoundTrip(h / 100);
    assert h / 100 * 100 + h / 10 % 10 * 10 + h % 10 == h;
  }

  /** Distinct stored tempi are displayed differently. */
  lemma TempoTextInjective(t: real, u: real)
    requires IsTempo(t) && IsTempo(u)
    requires TempoText(t) == TempoText(u)
    ensures t == u
  {
    TempoTextRoundTrip(t);
    TempoTextRoundTrip(u);
  }

  lemma TempoTextExamples()
    ensures TempoText(1.25) == "1.25x"
    ensures TempoText(2.0) == "2.00x"
    ensures TempoText(0.5) == "0.50x"
  {
    assert Hundredths(1.25) == 125;
    assert Hundredths(2.0) == 200;
    assert Hundredths(0.5) == 50;
  }
}
