/**
 * The legend of main.py (`draw_range`): a strip at the right of the screen is
 * cleared, ten colour bands for readings running evenly from maxTemp down to
 * 0 are stacked in 20-pixel steps, and the calibration bounds are written at
 * the top (maxTemp) and near the bottom (minTemp).  `LegendOps` is the log
 * one call appends.
 */
module Legend {
  import opened ColorMap
  import opened Canvas
  import opened Arith

  const StripX := 265
  const BandX0 := 290
  const BandX1 := 310
  const TopY := 15
  const BoxSize := 20

  /** `np.linspace(start, stop, num)` in exact arithmetic. */
  function Linspace(start: real, stop: real, num: nat): (r: seq<real>)
    ensures |r| == num
  {
    if num <= 1 then seq(num, i => start)
    else seq(num, i requires 0 <= i < num => start + i as real * ((stop - start) / (num - 1) as real))
  }

  /** The values run from `start` to `stop` in equal steps. */
  lemma LinspaceEven(start: real, stop: real, num: nat)
    ensures num >= 1 ==> Linspace(start, stop, num)[0] == start
    ensures num >= 2 ==> Linspace(start, stop, num)[num - 1] == stop
    ensures num >= 2 ==> forall i :: 0 <= i < num - 1 ==>
      Linspace(start, stop, num)[i] - Linspace(start, stop, num)[i + 1] == (start - stop) / (num - 1) as real
  {
    if num >= 2 {
      var r := Linspace(start, stop, num);
      var d := (num - 1) as real;
      var step := (stop - start) / d;
      assert r[num - 1] == start + d * step;
      DivThenMul(stop - start, d);
      forall i | 0 <= i < num - 1
        ensures r[i] - r[i + 1] == (start - stop) / d
      {
        assert r[i] == start + i as real * step;
        assert r[i + 1] == start + (i + 1) as real * step;
        NegatedQuotient(stop - start, d);
      }
    }
  }

  lemma DivThenMul(a: real, d: real)
    requires d != 0.0
    ensures a / d * d == a
  {
  }

  lemma NegatedQuotient(a: real, d: real)
    requires d != 0.0
    ensures -a / d == -(a / d)
  {
  }

  function BandRect(i: int): Rect
  {
    Rect(BandX0, TopY + BoxSize * i, BandX1, TopY + BoxSize * i + BoxSize)
  }

  /** The fills of the first n bands, in loop order. */
  function BandOps(elements: seq<real>, n: nat, minTemp: int, maxTemp: int): (ops: seq<Op>)
    requires n <= |elements| && maxTemp != minTemp
    ensures |ops| == n
  {
    if n == 0 then []
    else BandOps(elements, n - 1, minTemp, maxTemp)
         + [Fill(BandRect(n - 1), ColorForTemp(elements[n - 1], minTemp, maxTemp))]
  }

  /** Band i of the first n is painted at BandRect(i) in the colour of reading i. */
  lemma {:induction false} BandAt(elements: seq<real>, n: nat, minTemp: int, maxTemp: int, i: int)
    requires n <= |elements| && maxTemp != minTemp && 0 <= i < n
    ensures BandOps(elements, n, minTemp, maxTemp)[i] ==
      Fill(BandRect(i), ColorForTemp(elements[i], minTemp, maxTemp))
  {
    if i < n - 1 {
      BandAt(elements, n - 1, minTemp, maxTemp, i);
    }
  }

  /** Every band starts at the band column, x = 290. */
  lemma {:induction false} BandsRightOf(elements: seq<real>, n: nat, minTemp: int, maxTemp: int)
    requires n <= |elements| && maxTemp != minTemp
    ensures RightOf(BandOps(elements, n, minTemp, maxTemp), BandX0)
  {
    if n > 0 {
      BandsRightOf(elements, n - 1, minTemp, maxTemp);
      RightOfConcat(BandOps(elements, n - 1, minTemp, maxTemp),
                    [Fill(BandRect(n - 1), ColorForTemp(elements[n - 1], minTemp, maxTemp))], BandX0);
    }
  }

  /** The readings the bands stand for: maxTemp down to 0 in ten steps. */
  function LegendValues(maxTemp: int): seq<real>
  {
    Linspace(maxTemp as real, 0.0, 10)
  }

  /** Everything one `draw_range` call draws, in order. */
  function LegendOps(minTemp: int, maxTemp: int): seq<Op>
    requires maxTemp != minTemp
  {
    var elements := LegendValues(maxTemp);
    var bottom := TopY + BoxSize * |elements|;
    [Fill(Rect(StripX, TopY, BandX1, bottom), Black), NumberLabel(maxTemp, StripX, TopY)]
    + BandOps(elements, |elements|, minTemp, maxTemp)
    + [NumberLabel(minTemp, StripX, bottom - BoxSize / 2), Flush]
  }

  /** The legend log as its three parts: the cleared strip and top label, the bands, the bottom label and flush. */
  lemma LegendParts(minTemp: int, maxTemp: int)
    requires maxTemp != minTemp
    ensures LegendOps(minTemp, maxTemp) ==
      [Fill(Rect(265, 15, 310, 215), Black), NumberLabel(maxTemp, 265, 15)]
      + BandOps(LegendValues(maxTemp), 10, minTemp, maxTemp)
      + [NumberLabel(minTemp, 265, 205), Flush]
  {
  }

  /** Appending band i to the first i bands. */
  lemma BandStep(before: seq<Op>, elements: seq<real>, i: nat, minTemp: int, maxTemp: int)
    requires i < |elements| && maxTemp != minTemp
    ensures before + BandOps(elements, i + 1, minTemp, maxTemp) ==
      before + BandOps(elements, i, minTemp, maxTemp)
      + [Fill(Rect(290, 15 + 20 * i, 310, 15 + 20 * i + 20), ColorForTemp(elements[i], minTemp, maxTemp))]
  {
  }

  /**
   * The legend clears (265, 15)-(310, 215), writes maxTemp at (265, 15),
   * paints band i at (290, 15 + 20 i)-(310, 35 + 20 i) in the colour of the
   * reading maxTemp * (9 - i) / 9, writes minTemp at (265, 205) and flushes.
   */
  lemma LegendLayout(minTemp: int, maxTemp: int)
    requires maxTemp != minTemp
    ensures var ops := LegendOps(minTemp, maxTemp);
      |ops| == 14 &&
      ops[0] == Fill(Rect(265, 15, 310, 215), Black) &&
      ops[1] == NumberLabel(maxTemp, 265, 15) &&
      ops[12] == NumberLabel(minTemp, 265, 205) &&
      ops[13] == Flush
    ensures forall i :: 0 <= i < 10 ==>
      LegendOps(minTemp, maxTemp)[2 + i] ==
        Fill(Rect(290, 15 + 20 * i, 310, 35 + 20 * i),
             ColorForTemp(maxTemp as real * (9 - i) as real / 9.0, minTemp, maxTemp))
  {
    var elements := LegendValues(maxTemp);
    var ops := LegendOps(minTemp, maxTemp);
    var bands := BandOps(elements, 10, minTemp, maxTemp);
    var head := [Fill(Rect(StripX, TopY, BandX1, 215), Black), NumberLabel(maxTemp, StripX, TopY)];
    var tail := [NumberLabel(minTemp, StripX, 205), Flush];
    assert ops == head + bands + tail;
    forall i | 0 <= i < 10
      ensures ops[2 + i] == Fill(Rect(290, 15 + 20 * i, 310, 35 + 20 * i),
                                 ColorForTemp(maxTemp as real * (9 - i) as real / 9.0, minTemp, maxTemp))
    {
      assert ops[2 + i] == bands[i];
      BandAt(elements, 10, minTemp, maxTemp, i);
      LegendValueAt(maxTemp, i);
    }
  }

  lemma LegendValueAt(maxTemp: int, i: int)
    requires 0 <= i < 10
    ensures LegendValues(maxTemp)[i] == maxTemp as real * (9 - i) as real / 9.0
  {
    var m := maxTemp as real;
    assert LegendValues(maxTemp)[i] == m + i as real * ((0.0 - m) / 9.0);
  }

  lemma LegendValueRange(maxTemp: int, i: int)
    requires 0 < maxTemp && 0 <= i < 10
    ensures 0.0 <= LegendValues(maxTemp)[i] <= maxTemp as real
  {
    var m := maxTemp as real;
    var q := m / 9.0;
    assert LegendValues(maxTemp)[i] == m + i as real * ((0.0 - m) / 9.0);
    assert LegendValues(maxTemp)[i] == m - i as real * q;
    SignOfProduct(i as real, q);
    assert m - i as real * q == (9 - i) as real * q;
    SignOfProduct((9 - i) as real, q);
  }

  /** The band values fall evenly, by maxTemp / 9 per band, from maxTemp to 0. */
  lemma LegendValuesEven(maxTemp: int)
    ensures var v := LegendValues(maxTemp);
      |v| == 10 && v[0] == maxTemp as real && v[9] == 0.0 &&
      forall i :: 0 <= i < 9 ==> v[i] - v[i + 1] == maxTemp as real / 9.0
  {
    LinspaceEven(maxTemp as real, 0.0, 10);
  }

  /**
   * For a positive range with minTemp <= 0 every band colour is in range,
   * red never increases and blue never decreases down the bar, the top band
   * is pure red, and with minTemp == 0 the bottom band is pure blue.
   */
  lemma LegendColors(minTemp: int, maxTemp: int)
    requires minTemp <= 0 < maxTemp
    ensures var v := LegendValues(maxTemp);
      ColorForTemp(v[0], minTemp, maxTemp) == Rgb(255, 0, 0) &&
      (minTemp == 0 ==> ColorForTemp(v[9], minTemp, maxTemp) == Rgb(0, 0, 255)) &&
      (forall i :: 0 <= i < 10 ==>
        var c := ColorForTemp(v[i], minTemp, maxTemp);
        0 <= c.red <= 255 && 0 <= c.blue <= 255) &&
      (forall i :: 0 <= i < 9 ==>
        ColorForTemp(v[i + 1], minTemp, maxTemp).red <= ColorForTemp(v[i], minTemp, maxTemp).red &&
        ColorForTemp(v[i + 1], minTemp, maxTemp).blue >= ColorForTemp(v[i], minTemp, maxTemp).blue)
  {
    var v := LegendValues(maxTemp);
    LegendValuesEven(maxTemp);
    assert Tier(v[0]) == maxTemp;
    ColorAtMax(v[0], minTemp, maxTemp);
    assert Tier(v[9]) == 0;
    if minTemp == 0 {
      ColorAtMin(v[9], minTemp, maxTemp);
    }
    forall i | 0 <= i < 10
      ensures var c := ColorForTemp(v[i], minTemp, maxTemp);
        0 <= c.red <= 255 && 0 <= c.blue <= 255
    {
      LegendValueRange(maxTemp, i);
      ColorInRange(v[i], minTemp, maxTemp);
    }
    forall i | 0 <= i < 9
      ensures ColorForTemp(v[i + 1], minTemp, maxTemp).red <= ColorForTemp(v[i], minTemp, maxTemp).red
      ensures ColorForTemp(v[i + 1], minTemp, maxTemp).blue >= ColorForTemp(v[i], minTemp, maxTemp).blue
    {
      ColorMonotone(v[i + 1], v[i], minTemp, maxTemp);
    }
  }

  /** Over the band column, pixel (px, py) shows the band the later fill assigns it. */
  lemma {:induction false} BandVisible(elements: seq<real>, n: nat, minTemp: int, maxTemp: int, px: int, py: int)
    requires 1 <= n <= |elements| && maxTemp != minTemp
    requires BandX0 <= px <= BandX1 && TopY <= py <= TopY + BoxSize * n
    ensures Visible(BandOps(elements, n, minTemp, maxTemp), px, py) ==
      Some(ColorForTemp(elements[if (py - TopY) / BoxSize < n then (py - TopY) / BoxSize else n - 1], minTemp, maxTemp))
  {
    var ops := BandOps(elements, n, minTemp, maxTemp);
    var prev := BandOps(elements, n - 1, minTemp, maxTemp);
    assert ops[..|ops| - 1] == prev;
    var k := (py - TopY) / BoxSize;
    if py < TopY + BoxSize * (n - 1) {
      assert k < n - 1;
      assert !Covers(BandRect(n - 1), px, py);
      BandVisible(elements, n - 1, minTemp, maxTemp, px, py);
    } else {
      assert k >= n - 1;
      assert Covers(BandRect(n - 1), px, py);
    }
  }

  /** Labels and flushes paint no rectangle. */
  lemma NoFills(s: seq<Op>, t: seq<Op>, px: int, py: int)
    requires forall i :: 0 <= i < |t| ==> !t[i].Fill?
    ensures Visible(s + t, px, py) == Visible(s, px, py)
  {
    VisibleAppend(s, t, px, py);
  }

  /**
   * After the legend is drawn, the band column (290..310, 15..215) shows the
   * band colours top to bottom and the rest of the strip (265..289, 15..215)
   * is black, whatever was drawn before; text extents are not modelled.
   */
  lemma LegendVisible(before: seq<Op>, minTemp: int, maxTemp: int, px: int, py: int)
    requires maxTemp != minTemp && 265 <= px <= 310 && 15 <= py <= 215
    ensures var v := LegendValues(maxTemp);
      Visible(before + LegendOps(minTemp, maxTemp), px, py) ==
        if px >= 290 then Some(ColorForTemp(v[if py < 215 then (py - 15) / 20 else 9], minTemp, maxTemp))
        else Some(Black)
  {
    var v := LegendValues(maxTemp);
    var head := [Fill(Rect(StripX, TopY, BandX1, 215), Black), NumberLabel(maxTemp, StripX, TopY)];
    var bands := BandOps(v, 10, minTemp, maxTemp);
    var tail := [NumberLabel(minTemp, StripX, 205), Flush];
    assert before + LegendOps(minTemp, maxTemp) == (before + head + bands) + tail;
    NoFills(before + head + bands, tail, px, py);
    if px >= 290 {
      VisibleAppend(before + head, bands, px, py);
      BandVisible(v, 10, minTemp, maxTemp, px, py);
    } else {
      BandsRightOf(v, 10, minTemp, maxTemp);
      MissesLeftOf(before + head, bands, BandX0, px, py);
      assert Visible(head, px, py) == Some(Black) by {
        assert head[..1] == [head[0]];
        assert [head[0]][..0] == [];
      }
      VisibleAppend(before, head, px, py);
    }
  }
}
