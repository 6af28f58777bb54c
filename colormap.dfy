/**
 * The colour mapper of main.py (`get_color_for_temp`): a reading is rounded up
 * to a whole-degree tier and mapped linearly onto a red/blue ramp over the
 * calibration range [minTemp, maxTemp]; green is always 0 and neither channel
 * is clamped.  The float products of the source are computed here exactly,
 * over `real`.
 */
module ColorMap {
  import opened Arith

  /** An RGB fill triple as handed to the drawing primitives (not clamped). */
  datatype Rgb = Rgb(red: int, green: int, blue: int)

  const Black := Rgb(0, 0, 0)

  /** `int(math.trunc(math.ceil(degrees)))`: the whole-degree tier of a reading. */
  function Tier(degrees: real): (t: int)
    ensures degrees <= t as real < degrees + 1.0
  {
    Ceil(degrees)
  }

  /** The unclamped channel value `255 / (maxTemp - minTemp) * k`, exactly. */
  function Scaled(k: int, span: int): real
    requires span != 0
  {
    255.0 / span as real * k as real
  }

  /** The colour of a reading under the calibration range [minTemp, maxTemp]. */
  function ColorForTemp(degrees: real, minTemp: int, maxTemp: int): (c: Rgb)
    requires maxTemp != minTemp
    ensures c.green == 0
  {
    var temp := Tier(degrees);
    var redValue := Scaled(temp - minTemp, maxTemp - minTemp);
    var blueValue := Scaled(maxTemp - temp, maxTemp - minTemp);
    Rgb(Trunc(redValue), 0, Trunc(blueValue))
  }

  /**
   * An integer reference for the colour: on a positive range each channel is
   * 255 times its distance from the opposite bound, divided by the span with
   * truncation.
   */
  lemma ColorAsIntegers(degrees: real, minTemp: int, maxTemp: int)
    requires minTemp < maxTemp
    ensures var c := ColorForTemp(degrees, minTemp, maxTemp);
      c.red == TruncDiv(255 * (Tier(degrees) - minTemp), maxTemp - minTemp) &&
      c.blue == TruncDiv(255 * (maxTemp - Tier(degrees)), maxTemp - minTemp)
  {
    var temp, span := Tier(degrees), maxTemp - minTemp;
    ScaledIsQuotient(temp - minTemp, span);
    ScaledIsQuotient(maxTemp - temp, span);
    TruncOfQuotient(255 * (temp - minTemp), span);
    TruncOfQuotient(255 * (maxTemp - temp), span);
  }

  lemma ScaledIsQuotient(k: int, span: int)
    requires span > 0
    ensures Scaled(k, span) == (255 * k) as real / span as real
  {
  }

  /** Multiplying by a positive factor keeps the order. */
  lemma ScaledMonotone(k1: int, k2: int, span: int)
    requires span > 0 && k1 <= k2
    ensures Scaled(k1, span) <= Scaled(k2, span)
  {
    var q := 255.0 / span as real;
    SignOfProduct(q, span as real);
    assert Scaled(k2, span) - Scaled(k1, span) == q * (k2 - k1) as real;
    SignOfProduct((k2 - k1) as real, q);
  }

  lemma ScaledAt(k: int, span: int)
    requires span > 0
    ensures k == 0 ==> Scaled(k, span) == 0.0
    ensures k == span ==> Scaled(k, span) == 255.0
    ensures Scaled(k, span) + Scaled(span - k, span) == 255.0
  {
    var q := 255.0 / span as real;
    assert q * span as real == 255.0;
    assert Scaled(k, span) + Scaled(span - k, span) == q * (k + (span - k)) as real;
  }

  lemma TruncMonotone(x: real, y: real)
    requires x <= y
    ensures Trunc(x) <= Trunc(y)
  {
  }

  /** A reading whose tier is minTemp is pure blue. */
  lemma ColorAtMin(degrees: real, minTemp: int, maxTemp: int)
    requires minTemp < maxTemp && Tier(degrees) == minTemp
    ensures ColorForTemp(degrees, minTemp, maxTemp) == Rgb(0, 0, 255)
  {
    ScaledAt(0, maxTemp - minTemp);
  }

  /** A reading whose tier is maxTemp is pure red. */
  lemma ColorAtMax(degrees: real, minTemp: int, maxTemp: int)
    requires minTemp < maxTemp && Tier(degrees) == maxTemp
    ensures ColorForTemp(degrees, minTemp, maxTemp) == Rgb(255, 0, 0)
  {
    ScaledAt(maxTemp - minTemp, maxTemp - minTemp);
  }

  /**
   * Inside the range both channels are in [0, 255], and they add up to 255
   * (254 when truncation drops a fraction from both).
   */
  lemma ColorInRange(degrees: real, minTemp: int, maxTemp: int)
    requires minTemp < maxTemp && minTemp <= Tier(degrees) <= maxTemp
    ensures var c := ColorForTemp(degrees, minTemp, maxTemp);
      0 <= c.red <= 255 && 0 <= c.blue <= 255 && 254 <= c.red + c.blue <= 255
  {
    var t, span := Tier(degrees), maxTemp - minTemp;
    ScaledMonotone(0, t - minTemp, span);
    ScaledMonotone(t - minTemp, span, span);
    ScaledAt(0, span);
    ScaledAt(span, span);
    ScaledAt(t - minTemp, span);
  }

  /**
   * Below the range the channels are not clamped: red drops to 0 or below and
   * blue rises to 255 or above, strictly so whenever the range spans at most
   * 255 degrees.
   */
  lemma ColorBelowRange(degrees: real, minTemp: int, maxTemp: int)
    requires minTemp < maxTemp && Tier(degrees) < minTemp
    ensures var c := ColorForTemp(degrees, minTemp, maxTemp);
      c.red <= 0 && c.blue >= 255 &&
      (maxTemp - minTemp <= 255 ==> c.red < 0 && c.blue > 255)
  {
    var t, span := Tier(degrees), maxTemp - minTemp;
    var k := t - minTemp;
    ScaledMonotone(k, 0, span);
    ScaledAt(0, span);
    ScaledAt(k, span);
    if span <= 255 {
      ScaledMonotone(k, -1, span);
      ScaledAt(-1, span);
      ScaledMonotone(span, 255, span);
      ScaledAt(span, span);
      assert Scaled(-1, span) <= -1.0 by {
        assert Scaled(255, span) >= 255.0;
        assert Scaled(-1, span) * 255.0 == -Scaled(255, span);
      }
    }
  }

  /**
   * Above the range the channels are not clamped either: red rises to 255 or
   * above and blue drops to 0 or below, strictly so whenever the range spans
   * at most 255 degrees.
   */
  lemma ColorAboveRange(degrees: real, minTemp: int, maxTemp: int)
    requires minTemp < maxTemp && Tier(degrees) > maxTemp
    ensures var c := ColorForTemp(degrees, minTemp, maxTemp);
      c.red >= 255 && c.blue <= 0 &&
      (maxTemp - minTemp <= 255 ==> c.red > 255 && c.blue < 0)
  {
    var t, span := Tier(degrees), maxTemp - minTemp;
    var k := maxTemp - t;
    ScaledMonotone(k, 0, span);
    ScaledAt(0, span);
    ScaledAt(k, span);
    if span <= 255 {
      ScaledMonotone(k, -1, span);
      ScaledAt(-1, span);
      ScaledMonotone(span, 255, span);
      ScaledAt(span, span);
      assert Scaled(-1, span) <= -1.0 by {
        assert Scaled(255, span) >= 255.0;
        assert Scaled(-1, span) * 255.0 == -Scaled(255, span);
      }
    }
  }

  /** A warmer reading never has less red and never has more blue. */
  lemma ColorMonotone(d1: real, d2: real, minTemp: int, maxTemp: int)
    requires minTemp < maxTemp && d1 <= d2
    ensures ColorForTemp(d1, minTemp, maxTemp).red <= ColorForTemp(d2, minTemp, maxTemp).red
    ensures ColorForTemp(d1, minTemp, maxTemp).blue >= ColorForTemp(d2, minTemp, maxTemp).blue
  {
    var t1, t2, span := Tier(d1), Tier(d2), maxTemp - minTemp;
    assert t1 <= t2;
    ScaledMonotone(t1 - minTemp, t2 - minTemp, span);
    ScaledMonotone(maxTemp - t2, maxTemp - t1, span);
    TruncMonotone(Scaled(t1 - minTemp, span), Scaled(t2 - minTemp, span));
    TruncMonotone(Scaled(maxTemp - t2, span), Scaled(maxTemp - t1, span));
  }
}
