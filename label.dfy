/** The speed label shown next to the buttons: the speed rendered with no
    decimals ("F0") followed by " m/s". */
module Label {
  import opened Dial

  predicate IsDigit(c: char) {
    '0' <= c <= '9'
  }

  predicate AllDigits(s: string) {
    forall i :: 0 <= i < |s| ==> IsDigit(s[i])
  }

  function DigitChar(d: nat): (c: char)
    requires d < 10
    ensures IsDigit(c)
  {
    ('0' as int + d) as char
  }

  function DigitValue(c: char): (d: nat)
    requires IsDigit(c)
    ensures d < 10
  {
    c as int - '0' as int
  }

  /** The decimal digits of n, most significant first, with no leading zero. */
  function DecimalString(n: nat): (r: string)
    ensures |r| >= 1 && AllDigits(r)
    ensures r[0] == '0' ==> n == 0
    decreases n
  {
    if n < 10 then [DigitChar(n)] else DecimalString(n / 10) + [DigitChar(n % 10)]
  }

  /** The number a string of decimal digits denotes. */
  function DecimalValue(s: string): nat
    requires AllDigits(s)
    decreases |s|
  {
    if s == [] then 0 else DecimalValue(s[..|s| - 1]) * 10 + DigitValue(s[|s| - 1])
  }

  /** Reading the digits back gives the number that was written. */
  lemma {:induction false} DecimalRoundTrip(n: nat)
    ensures DecimalValue(DecimalString(n)) == n
    decreases n
  {
    if n >= 10 {
      var p := DecimalString(n / 10);
      var s := p + [DigitChar(n % 10)];
      assert DecimalString(n) == s;
      assert s[..|s| - 1] == p;
      DecimalRoundTrip(n / 10);
    }
  }

  lemma FloorBounds(v: real)
    ensures v - 1.0 < v.Floor as real <= v
  {
  }

  /** Adding a half does not move the floor of a whole number. */
  lemma WholeFloor(v: real)
    ensures IsWhole(v) ==> (v + 0.5).Floor == v.Floor && (-v + 0.5).Floor == -v.Floor
  {
  }

  /** Rounding to no decimals, midpoints away from zero. */
  function RoundF0(v: real): (r: int)
    ensures IsWhole(v) ==> r as real == v
    ensures v - 0.5 <= r as real <= v + 0.5
  {
    FloorBounds(v + 0.5);
    FloorBounds(-v + 0.5);
    WholeFloor(v);
    if v >= 0.0 then (v + 0.5).Floor else -((-v + 0.5).Floor)
  }

  /** An integer with no decimals: an optional minus sign and its digits. */
  function FormatF0(v: int): string {
    if v < 0 then "-" + DecimalString(-v) else DecimalString(v)
  }

  /** The label: the rounded speed, then the unit. */
  function SpeedLabel(speed: real): (r: string)
    ensures |r| > 4 && r[|r| - 4..] == " m/s"
    ensures IsWhole(speed) && speed >= 0.0 ==>
      speed.Floor >= 0 && r[..|r| - 4] == DecimalString(speed.Floor)
  {
    WholeFloor(speed);
    FormatF0(RoundF0(speed)) + " m/s"
  }

  /** Two whole, non-negative speeds with the same label are the same speed:
      the label, written with every digit, tells the dial's speeds apart. */
  lemma SpeedLabelDistinguishesSpeeds(a: real, b: real)
    requires IsWhole(a) && a >= 0.0
    requires IsWhole(b) && b >= 0.0
    requires SpeedLabel(a) == SpeedLabel(b)
    ensures a == b
  {
    var da, db := DecimalString(RoundF0(a)), DecimalString(RoundF0(b));
    var unit := " m/s";
    assert da == (da + unit)[..|da + unit| - |unit|];
    assert db == (db + unit)[..|db + unit| - |unit|];
    DecimalRoundTrip(RoundF0(a));
    DecimalRoundTrip(RoundF0(b));
  }
}
