/** Position sizing, take-profit/stop-loss placement and price rounding
    (src/utils.py). Prices and amounts are exact reals; Python's `round` is
    modelled as decimal rounding with ties to the even neighbour. */
module Utils {
  import opened Common

  /** Risk-to-reward ratio: take-profit distance per unit of stop-loss distance. */
  const RR: real := 1.0

  function Pow10(n: nat): (p: nat)
    ensures p >= 1
  {
    if n == 0 then 1 else 10 * Pow10(n - 1)
  }

  /** The number of price steps of size 10^-precision in `x`. */
  function Scaled(x: real, precision: nat): real {
    x * Pow10(precision) as real
  }

  /** `x` is a whole number of steps of size 10^-precision. */
  predicate OnGrid(x: real, precision: nat) {
    Scaled(x, precision).Floor as real == Scaled(x, precision)
  }

  /** `round(y)`: the nearest integer, ties going to the even neighbour. */
  function RoundHalfEven(y: real): (k: int)
    ensures -0.5 <= y - k as real <= 0.5
    ensures (y - k as real == 0.5 || y - k as real == -0.5) ==> k % 2 == 0
  {
    var f := y.Floor;
    var frac := y - f as real;
    if frac < 0.5 then f
    else if frac > 0.5 then f + 1
    else if f % 2 == 0 then f else f + 1
  }

  /** `convert_to_valid_float`: `round(price, precision)`; the instrument
      argument of the source is unused and left out. */
  function ConvertToValidFloat(precision: nat, price: real): (r: real)
    ensures OnGrid(r, precision)
    ensures -0.5 <= Scaled(r, precision) - Scaled(price, precision) <= 0.5
  {
    var scale := Pow10(precision) as real;
    var k := RoundHalfEven(Scaled(price, precision));
    assert Scaled(k as real / scale, precision) == k as real;
    assert (k as real).Floor == k;
    k as real / scale
  }

  lemma ScaleMonotonic(x: real, y: real, precision: nat)
    requires x <= y
    ensures Scaled(x, precision) <= Scaled(y, precision)
  {
    var scale := Pow10(precision) as real;
    assert y * scale - x * scale == (y - x) * scale;
  }

  lemma UnscaleMonotonic(a: real, b: real, scale: real)
    requires a <= b && scale > 0.0
    ensures a / scale <= b / scale
  {
    assert b / scale - a / scale == (b - a) / scale;
  }

  lemma RoundHalfEvenMonotonic(x: real, y: real)
    requires x <= y
    ensures RoundHalfEven(x) <= RoundHalfEven(y)
  {
    if x.Floor < y.Floor {
      assert RoundHalfEven(x) <= x.Floor + 1 <= y.Floor <= RoundHalfEven(y);
    }
  }

  /** Rounding never reverses the order of two prices. */
  lemma ConvertMonotonic(precision: nat, x: real, y: real)
    requires x <= y
    ensures ConvertToValidFloat(precision, x) <= ConvertToValidFloat(precision, y)
  {
    var scale := Pow10(precision) as real;
    var kx, ky := RoundHalfEven(Scaled(x, precision)), RoundHalfEven(Scaled(y, precision));
    assert kx <= ky by {
      ScaleMonotonic(x, y, precision);
      RoundHalfEvenMonotonic(Scaled(x, precision), Scaled(y, precision));
    }
    assert kx as real / scale <= ky as real / scale by {
      UnscaleMonotonic(kx as real, ky as real, scale);
    }
  }

  /** A price already on the grid is left as it is. */
  lemma ConvertKeepsGridPrice(precision: nat, x: real)
    requires OnGrid(x, precision)
    ensures ConvertToValidFloat(precision, x) == x
  {
    var scale := Pow10(precision) as real;
    var y := Scaled(x, precision);
    assert y.Floor as real == y;
    assert RoundHalfEven(y) == y.Floor;
    assert y / scale == x;
  }

  /** `sub in s` for strings. */
  predicate Contains(s: string, sub: string)
    decreases |s|
  {
    (|sub| <= |s| && s[..|sub|] == sub) || (|s| > 0 && Contains(s[1..], sub))
  }

  /** The pip value used for sizing: a hundredth of the configured one for a
      JPY instrument. */
  function SizingPipValue(instrument: string, pipValue: real): real {
    if Contains(instrument, "JPY") then pipValue / 100.0 else pipValue
  }

  /** `calculate_position_size`: units to trade so that a stop-loss hit loses
      `risk` percent of the account; negative for a short ("s") position. */
  function CalculatePositionSize(accountSize: real, instrument: string, risk: real, position: string,
                                 slPips: real, pipValue: real): (r: Result<int, Error>)
    ensures r.Failure? <==> slPips * SizingPipValue(instrument, pipValue) == 0.0
    ensures r.Failure? ==> r.error == ZeroDivision
  {
    SizeForPip(accountSize, risk, position, slPips, SizingPipValue(instrument, pipValue))
  }

  /** The sizing arithmetic once the pip value is fixed. */
  function SizeForPip(accountSize: real, risk: real, position: string, slPips: real, pip: real): Result<int, Error> {
    var riskAmount := accountSize * (risk / 100.0);
    if slPips * pip == 0.0 then Failure(ZeroDivision)
    else
      var size := Trunc(riskAmount / (slPips * pip));
      Success(if position == "s" then -size else size)
  }

  /** The exact units before `int()` truncates them. */
  function ExactUnits(accountSize: real, instrument: string, risk: real, slPips: real, pipValue: real): real
    requires slPips * SizingPipValue(instrument, pipValue) != 0.0
  {
    accountSize * (risk / 100.0) / (slPips * SizingPipValue(instrument, pipValue))
  }

  /** The long size is the exact units truncated toward zero: it never
      exceeds them in magnitude, falls short by less than one unit, and has
      their sign. */
  lemma LongSizeTruncatesExactUnits(accountSize: real, instrument: string, risk: real, position: string,
                                    slPips: real, pipValue: real)
    requires position != "s"
    requires slPips * SizingPipValue(instrument, pipValue) != 0.0
    ensures var u := ExactUnits(accountSize, instrument, risk, slPips, pipValue);
            var r := CalculatePositionSize(accountSize, instrument, risk, position, slPips, pipValue);
            r.Success? && Abs(r.value as real) <= Abs(u) < Abs(r.value as real) + 1.0
            && (u >= 0.0 ==> r.value >= 0) && (u <= 0.0 ==> r.value <= 0)
  {
    var pip := SizingPipValue(instrument, pipValue);
    assert CalculatePositionSize(accountSize, instrument, risk, position, slPips, pipValue)
        == SizeForPip(accountSize, risk, position, slPips, pip);
    assert ExactUnits(accountSize, instrument, risk, slPips, pipValue) == accountSize * (risk / 100.0) / (slPips * pip);
  }

  /** For identical inputs the short size is the exact negation of the long size. */
  lemma ShortSizeNegatesLong(accountSize: real, instrument: string, risk: real, slPips: real, pipValue: real)
    ensures var l := CalculatePositionSize(accountSize, instrument, risk, "l", slPips, pipValue);
            var s := CalculatePositionSize(accountSize, instrument, risk, "s", slPips, pipValue);
            l.Success? == s.Success? && (l.Success? ==> s.value == -l.value)
  {
  }

  /** With a positive account, risk, stop distance and pip value, a non-short
      size is never negative and a short size never positive. */
  lemma SizeSignFollowsPosition(accountSize: real, instrument: string, risk: real, position: string,
                                slPips: real, pipValue: real)
    requires accountSize > 0.0 && risk > 0.0 && slPips > 0.0 && pipValue > 0.0
    ensures var r := CalculatePositionSize(accountSize, instrument, risk, position, slPips, pipValue);
            r.Success? && (position != "s" ==> r.value >= 0) && (position == "s" ==> r.value <= 0)
  {
    var pip := SizingPipValue(instrument, pipValue);
    assert pip > 0.0;
    assert slPips * pip > 0.0;
    assert accountSize * (risk / 100.0) > 0.0;
  }

  /** A JPY instrument is sized exactly as any other instrument with a
      hundredth of the pip value. */
  lemma JpySizingUsesHundredthPip(accountSize: real, jpy: string, other: string, risk: real, position: string,
                                  slPips: real, pipValue: real)
    requires Contains(jpy, "JPY") && !Contains(other, "JPY")
    ensures CalculatePositionSize(accountSize, jpy, risk, position, slPips, pipValue)
         == CalculatePositionSize(accountSize, other, risk, position, slPips, pipValue / 100.0)
  {
    var pip := pipValue / 100.0;
    assert SizingPipValue(jpy, pipValue) == pip;
    assert SizingPipValue(other, pip) == pip;
  }

  /** 10,000 account, 1% risk, 20-pip stop, 0.0001 pip value on a non-JPY
      instrument: 50,000 units long and -50,000 short. */
  lemma PositionSizeExample(instrument: string)
    requires !Contains(instrument, "JPY")
    ensures CalculatePositionSize(10000.0, instrument, 1.0, "l", 20.0, 0.0001) == Success(50000)
    ensures CalculatePositionSize(10000.0, instrument, 1.0, "s", 20.0, 0.0001) == Success(-50000)
  {
    assert 10000.0 * (1.0 / 100.0) / (20.0 * 0.0001) == 50000.0;
  }

  /** Take-profit and stop-loss before rounding, as the pair (tp, sl). Any
      position other than "s" is long. */
  function UnroundedTpSl(position: string, currentPrice: real, slPips: real, pipValue: real): (r: (real, real))
    ensures position == "s" ==>
      currentPrice - r.0 == slPips * RR * pipValue && r.1 - currentPrice == slPips * pipValue
    ensures position != "s" ==>
      r.0 - currentPrice == slPips * RR * pipValue && currentPrice - r.1 == slPips * pipValue
  {
    var tpPips := slPips * RR;
    var slDist := slPips * pipValue;
    var tpDist := tpPips * pipValue;
    if position == "s" then (currentPrice - tpDist, currentPrice + slDist)
    else (currentPrice + tpDist, currentPrice - slDist)
  }

  /** `calculate_tp_sl_prices`: the pair (tp, sl), each rounded to the
      instrument's precision. */
  function CalculateTpSlPrices(position: string, currentPrice: real, slPips: real, pipValue: real,
                               precision: nat): (r: (real, real))
    ensures OnGrid(r.0, precision) && OnGrid(r.1, precision)
    ensures var u := UnroundedTpSl(position, currentPrice, slPips, pipValue);
            -0.5 <= Scaled(r.0, precision) - Scaled(u.0, precision) <= 0.5
            && -0.5 <= Scaled(r.1, precision) - Scaled(u.1, precision) <= 0.5
  {
    var u := UnroundedTpSl(position, currentPrice, slPips, pipValue);
    (ConvertToValidFloat(precision, u.0), ConvertToValidFloat(precision, u.1))
  }

  /** Long, before rounding: sl = price - distance < price < price + distance = tp. */
  lemma LongTpSlBracketEntry(position: string, price: real, slPips: real, pipValue: real)
    requires position != "s" && slPips > 0.0 && pipValue > 0.0
    ensures var (tp, sl) := UnroundedTpSl(position, price, slPips, pipValue);
            sl == price - slPips * pipValue && tp == price + slPips * RR * pipValue && sl < price < tp
  {
    assert slPips * pipValue > 0.0;
  }

  /** Short, before rounding: tp < price < sl. */
  lemma ShortTpSlBracketEntry(price: real, slPips: real, pipValue: real)
    requires slPips > 0.0 && pipValue > 0.0
    ensures var (tp, sl) := UnroundedTpSl("s", price, slPips, pipValue);
            sl == price + slPips * pipValue && tp == price - slPips * RR * pipValue && tp < price < sl
  {
    assert slPips * pipValue > 0.0;
  }

  /** With RR = 1 the two levels are equidistant from the entry price. */
  lemma TpSlEquidistant(position: string, price: real, slPips: real, pipValue: real)
    ensures var (tp, sl) := UnroundedTpSl(position, price, slPips, pipValue);
            tp - price == price - sl
  {
  }

  /** After rounding, an entry price on the grid still lies between the two
      levels (they may coincide with it when the distance is under a step). */
  lemma RoundedTpSlBracketEntry(position: string, price: real, slPips: real, pipValue: real, precision: nat)
    requires OnGrid(price, precision) && slPips >= 0.0 && pipValue >= 0.0
    ensures var (tp, sl) := CalculateTpSlPrices(position, price, slPips, pipValue, precision);
            if position == "s" then tp <= price <= sl else sl <= price <= tp
  {
    var (tpu, slu) := UnroundedTpSl(position, price, slPips, pipValue);
    assert slPips * pipValue >= 0.0;
    ConvertKeepsGridPrice(precision, price);
    if position == "s" {
      ConvertMonotonic(precision, tpu, price);
      ConvertMonotonic(precision, price, slu);
    } else {
      ConvertMonotonic(precision, slu, price);
      ConvertMonotonic(precision, price, tpu);
    }
  }

  /** Long at 1.10000 with a 20-pip stop and 0.0001 pip value, 5 decimals:
      take-profit 1.10200, stop-loss 1.09800. */
  lemma TpSlExample()
    ensures CalculateTpSlPrices("l", 1.1, 20.0, 0.0001, 5) == (1.102, 1.098)
  {
    assert Pow10(5) == 100000;
    assert RoundHalfEven(1.102 * 100000.0) == 110200;
    assert RoundHalfEven(1.098 * 100000.0) == 109800;
  }
}
