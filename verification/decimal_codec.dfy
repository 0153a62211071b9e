/**
  A way to spell numbers, flags and probabilities that has everything the round trip
  asks of a codec: numbers in decimal digits, probabilities as whole multiples of
  10^-17, like "25000000000000000e-17".
*/
module DecimalCodecs {
  import opened Wrappers
  import opened ProtocolDb
  import opened ProtocolDbLaws

  const UNITS := 100000000000000000.0

  function Digit(d: nat): char
    requires d < 10
  {
    ('0' as int + d) as char
  }

  function ShowNat(n: nat): (t: string)
    ensures t != ""
  {
    if n < 10 then [Digit(n)] else ShowNat(n / 10) + [Digit(n % 10)]
  }

  function ReadDigit(ch: char): Option<nat> {
    if '0' <= ch <= '9' then Some(ch as int - '0' as int) else None
  }

  function ReadNat(t: string): Option<nat> {
    if t == "" then None
    else
      match ReadDigit(t[|t| - 1])
      case None => None
      case Some(d) =>
        if |t| == 1 then Some(d)
        else
          match ReadNat(t[..|t| - 1])
          case None => None
          case Some(n) => Some(10 * n + d)
  }

  function ShowBool(b: bool): string {
    if b then "true" else "false"
  }

  function ReadBool(t: string): Option<bool> {
    if t == "true" then Some(true) else if t == "false" then Some(false) else None
  }

  function ShowInt(n: int): string {
    if n < 0 then "-" + ShowNat(-n) else ShowNat(n)
  }

  function ReadInt(t: string): Option<int> {
    if t != "" && t[0] == '-' then
      match ReadNat(t[1..])
      case None => None
      case Some(n) =>
        var size: int := n;
        Some(-size)
    else
      match ReadNat(t)
      case None => None
      case Some(n) => Some(n)
  }

  function Units(x: real): int {
    (x * UNITS).Floor
  }

  function ShowReal(x: real): string {
    ShowInt(Units(x)) + "e-17"
  }

  function ReadReal(t: string): Option<real> {
    if |t| > 4 && t[|t| - 4..] == "e-17" then
      match ReadInt(t[..|t| - 4])
      case None => None
      case Some(n) => Some(n as real / UNITS)
    else None
  }

  function DecimalCodec(): Codec {
    Codec(ShowNat, ReadNat, ShowBool, ReadBool, ShowReal, ReadReal)
  }

  lemma {:induction false} NatReadsBack(n: nat)
    ensures ReadNat(ShowNat(n)) == Some(n)
    ensures ShowNat(n)[0] != '-'
  {
    if n >= 10 {
      NatReadsBack(n / 10);
      var front := ShowNat(n / 10);
      assert (front + [Digit(n % 10)])[..|front|] == front;
      assert (front + [Digit(n % 10)])[0] == front[0];
    }
  }

  lemma IntReadsBack(n: int)
    ensures ReadInt(ShowInt(n)) == Some(n) && ShowInt(n) != ""
  {
    hide ShowNat, ReadNat;
    if n < 0 {
      NatReadsBack(-n);
      assert ("-" + ShowNat(-n))[1..] == ShowNat(-n);
    } else {
      NatReadsBack(n);
    }
  }

  /** A probability reads back as the multiple of 10^-17 at or below it. */
  lemma RealReadsBack(x: real)
    ensures ReadReal(ShowReal(x)) == Some(Units(x) as real / UNITS)
  {
    hide ShowInt, ReadInt;
    IntReadsBack(Units(x));
    var t := ShowReal(x);
    assert t[..|t| - 4] == ShowInt(Units(x)) && t[|t| - 4..] == "e-17";
  }

  lemma UnitsAreWhole(n: int)
    ensures Units(n as real / UNITS) == n
  {
    assert n as real / UNITS * UNITS == n as real;
  }

  /** This codec meets everything that is ever asked of one. */
  lemma DecimalsAreFaithful()
    ensures Faithful(DecimalCodec()) && Repeatable(DecimalCodec())
    ensures forall x :: Legible(DecimalCodec(), x)
    ensures KeepsTimes(Calendar(ShowNat, ReadNat))
  {
    hide ShowNat, ReadNat, ShowReal, ReadInt, Units;
    var c := DecimalCodec();
    forall n: nat ensures c.readNat(c.showNat(n)) == Some(n) {
      NatReadsBack(n);
    }
    forall x ensures Legible(c, x) {
      RealReadsBack(x);
    }
    forall t, x | c.readReal(t) == Some(x) ensures Spelt(c, x) {
      var n := ReadInt(t[..|t| - 4]).value;
      UnitsAreWhole(n);
      RealReadsBack(x);
    }
  }

  /** It spells exactly the multiples of 10^-17. */
  lemma SpeltIffWhole(x: real)
    ensures Spelt(DecimalCodec(), x) <==> x * UNITS == Units(x) as real
  {
    hide ShowReal, ReadReal, Units;
    RealReadsBack(x);
    var n := Units(x) as real;
    assert n / UNITS == x <==> x * UNITS == n;
  }

  /** A meter of thirds is written and read, and not the same afterwards. */
  lemma ThirdsDoNotComeBack(factory: map<string, nat>, name: string)
    requires name in factory && factory[name] == 3
    ensures var third := 1.0 / 3.0;
            var m := MeterModel(name, 1, true, [third, third, third]);
            && ReadMeter(DecimalCodec(), factory, WriteMeter(DecimalCodec(), m)).Value?
            && ReadMeter(DecimalCodec(), factory, WriteMeter(DecimalCodec(), m)) != Value(Some(m))
  {
    hide ReadMeter, WriteMeter, Faithful, Repeatable, Units, Spelt;
    var third := 1.0 / 3.0;
    var m := MeterModel(name, 1, true, [third, third, third]);
    DecimalsAreFaithful();
    MeterRoundTrip(DecimalCodec(), factory, m);
    SpeltIffWhole(third);
    WholeThird(Units(third));
    SpellingKeepsMeter(DecimalCodec(), m);
    assert !Spelt(DecimalCodec(), m.fingerprint[0]);
  }

  lemma WholeThird(n: int)
    ensures 1.0 / 3.0 * UNITS != n as real
  {
    assert (3 * n) as real == 3.0 * n as real;
    assert (3 * n) as real != UNITS;
  }
}
