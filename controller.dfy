/**
 * The interaction loop of main.py: the module-level globals (`max_temp`,
 * `min_temp`, `display_debug`, `t_array`, `update_full_display` and the frame
 * buffer) become the fields of a `HeatCam`, `draw_plot` and `draw_range`
 * become its drawing methods, and one pass of `while True` becomes `Step`.
 * The sensor frame, the button states and the measured frame time are inputs.
 */
module Controller {
  import opened ColorMap
  import opened Canvas
  import opened Raster
  import opened Legend
  import opened FrameWindow

  /** The four buttons of the Display HAT Mini, as read in one iteration. */
  datatype Buttons = Buttons(x: bool, a: bool, b: bool, y: bool)

  /** What the button checks of one iteration lead to. */
  datatype Action = Quit | Raise | Lower | ToggleDebug | NoAction

  /** One iteration's inputs: the sensor read (None when it raised), buttons, frame time. */
  datatype Input = Input(frame: Option<seq<seq<real>>>, buttons: Buttons, elapsed: real)

  const InitialMax := 50
  const InitialMin := 0
  const MaxCeiling := 100
  const MaxFloor := 20
  const MaxStep := 10

  /**
   * The `if/elif` chain over the buttons: X wins over A, A over B, B over Y,
   * and exactly one action results.
   */
  function Pressed(b: Buttons): (act: Action)
    ensures (act == Quit) == b.x
    ensures (act == Raise) == (!b.x && b.a)
    ensures (act == Lower) == (!b.x && !b.a && b.b)
    ensures (act == ToggleDebug) == (!b.x && !b.a && !b.b && b.y)
    ensures (act == NoAction) == !(b.x || b.a || b.b || b.y)
  {
    if b.x then Quit
    else if b.a then Raise
    else if b.b then Lower
    else if b.y then ToggleDebug
    else NoAction
  }

  /** `max_temp` after the button handling. */
  function AdjustMax(maxTemp: int, act: Action): (m: int)
    ensures m == maxTemp
      || (act == Raise && maxTemp < MaxCeiling && m == maxTemp + MaxStep)
      || (act == Lower && maxTemp > MaxFloor && m == maxTemp - MaxStep)
    ensures act == Raise && maxTemp < MaxCeiling ==> m == maxTemp + MaxStep
    ensures act == Lower && maxTemp > MaxFloor ==> m == maxTemp - MaxStep
  {
    match act
    case Raise => if maxTemp < MaxCeiling then maxTemp + MaxStep else maxTemp
    case Lower => if maxTemp > MaxFloor then maxTemp - MaxStep else maxTemp
    case _ => maxTemp
  }

  /** Whether the button handling redraws the legend (A or B changed `max_temp`). */
  predicate RedrawsLegend(maxTemp: int, act: Action)
  {
    (act == Raise && maxTemp < MaxCeiling) || (act == Lower && maxTemp > MaxFloor)
  }

  /**
   * `display_debug` after the Y branch as written: it is set to True when it
   * is True and to False when it is False, so it never changes.
   */
  function DebugAfter(debug: bool, act: Action): (d: bool)
    ensures d == debug
  {
    if act == ToggleDebug then (if debug then true else false) else debug
  }

  /** The calibration range the button handling maintains. */
  predicate Calibrated(minTemp: int, maxTemp: int)
  {
    minTemp == InitialMin && MaxFloor <= maxTemp <= MaxCeiling && maxTemp % MaxStep == 0
  }

  /** The button handling keeps the range calibrated, so the colour division is safe. */
  lemma AdjustKeepsCalibration(minTemp: int, maxTemp: int, act: Action)
    requires Calibrated(minTemp, maxTemp)
    ensures Calibrated(minTemp, AdjustMax(maxTemp, act))
    ensures AdjustMax(maxTemp, act) - minTemp > 0
  {
  }

  /** `max_temp` after k presses of the same button. */
  function Repeat(maxTemp: int, act: Action, k: nat): int
  {
    if k == 0 then maxTemp else AdjustMax(Repeat(maxTemp, act, k - 1), act)
  }

  /** k presses of A from a calibrated max climb in steps of 10 and stop at 100. */
  lemma {:induction false} RaiseRepeatedly(maxTemp: int, k: nat)
    requires Calibrated(InitialMin, maxTemp)
    ensures Repeat(maxTemp, Raise, k) == Raster.Min(maxTemp + MaxStep * k, MaxCeiling)
  {
    if k > 0 {
      RaiseRepeatedly(maxTemp, k - 1);
      var q := maxTemp / MaxStep;
      assert maxTemp == MaxStep * q;
      assert MaxStep * k == MaxStep * (k - 1) + MaxStep;
      // below the ceiling, a multiple of 10 is at most 90, so one more step stays within it
      assert maxTemp + MaxStep * (k - 1) < MaxCeiling ==> q + (k - 1) < 10;
    }
  }

  /** k presses of B from a calibrated max descend in steps of 10 and stop at 20. */
  lemma {:induction false} LowerRepeatedly(maxTemp: int, k: nat)
    requires Calibrated(InitialMin, maxTemp)
    ensures Repeat(maxTemp, Lower, k) == Raster.Max(maxTemp - MaxStep * k, MaxFloor)
  {
    if k > 0 {
      LowerRepeatedly(maxTemp, k - 1);
      var q := maxTemp / MaxStep;
      assert maxTemp == MaxStep * q;
      assert MaxStep * k == MaxStep * (k - 1) + MaxStep;
      // above the floor, a multiple of 10 is at least 30, so one more step stays within it
      assert maxTemp - MaxStep * (k - 1) > MaxFloor ==> q - (k - 1) > 2;
    }
  }

  /** From the start-up value, five presses of A reach 100 and a sixth does nothing; three of B reach 20 and a fourth does nothing. */
  lemma StartUpPresses()
    ensures Repeat(InitialMax, Raise, 5) == 100 && Repeat(InitialMax, Raise, 6) == 100
    ensures Repeat(InitialMax, Lower, 3) == 20 && Repeat(InitialMax, Lower, 4) == 20
  {
    RaiseRepeatedly(InitialMax, 5);
    RaiseRepeatedly(InitialMax, 6);
    LowerRepeatedly(InitialMax, 3);
    LowerRepeatedly(InitialMax, 4);
  }

  /** An iteration that reads a frame and sees X: the program exits after it. */
  predicate Quits(input: Input)
  {
    input.frame.Some? && input.buttons.x
  }

  /** `max_temp` after the iterations `inputs`; an iteration whose read failed changes nothing. */
  function MaxAfter(maxTemp: int, inputs: seq<Input>): int
  {
    if inputs == [] then maxTemp
    else NextMax(MaxAfter(maxTemp, inputs[..|inputs| - 1]), inputs[|inputs| - 1])
  }

  /** `max_temp` after one iteration: a failed read skips the button handling. */
  function NextMax(maxTemp: int, input: Input): int
  {
    if input.frame.Some? then AdjustMax(maxTemp, Pressed(input.buttons)) else maxTemp
  }

  /** However the buttons are pressed, the range stays calibrated. */
  lemma {:induction false} MaxAfterCalibrated(maxTemp: int, inputs: seq<Input>)
    requires Calibrated(InitialMin, maxTemp)
    ensures Calibrated(InitialMin, MaxAfter(maxTemp, inputs))
  {
    if inputs != [] {
      MaxAfterCalibrated(maxTemp, inputs[..|inputs| - 1]);
      AdjustKeepsCalibration(InitialMin, MaxAfter(maxTemp, inputs[..|inputs| - 1]), Pressed(inputs[|inputs| - 1].buttons));
    }
  }

  /** `update_full_display` after the iterations `inputs`: it stays set only while every read fails. */
  predicate FullDisplayAfter(full: bool, inputs: seq<Input>)
  {
    if inputs == [] then full
    else FullDisplayAfter(full, inputs[..|inputs| - 1]) && inputs[|inputs| - 1].frame.None?
  }

  /** The full display stays pending exactly while every read so far has failed. */
  lemma {:induction false} FullDisplayPending(full: bool, inputs: seq<Input>)
    ensures FullDisplayAfter(full, inputs) <==> full && forall i :: 0 <= i < |inputs| ==> inputs[i].frame.None?
  {
    if inputs != [] {
      FullDisplayPending(full, inputs[..|inputs| - 1]);
    }
  }

  /** The frame times of the iterations whose read succeeded, in order. */
  function SampledTimes(inputs: seq<Input>): (times: seq<real>)
    ensures |times| <= |inputs|
  {
    if inputs == [] then []
    else
      var last := inputs[|inputs| - 1];
      SampledTimes(inputs[..|inputs| - 1]) + (if last.frame.Some? then [last.elapsed] else [])
  }

  /** `t_array` after the iterations `inputs` with debugging on: each successful read records its time. */
  function WindowAfter(window: seq<real>, inputs: seq<Input>): seq<real>
  {
    if inputs == [] then window
    else NextWindow(WindowAfter(window, inputs[..|inputs| - 1]), inputs[|inputs| - 1])
  }

  /** `t_array` after one iteration with debugging on. */
  function NextWindow(window: seq<real>, input: Input): seq<real>
  {
    if input.frame.Some? then Record(window, input.elapsed) else window
  }

  /** From an empty window, the window holds the last ten frame times of successful reads, oldest first. */
  lemma {:induction false} WindowAfterKeepsRecent(inputs: seq<Input>)
    ensures WindowAfter([], inputs) == RecordAll(SampledTimes(inputs))
    ensures WindowAfter([], inputs) == Last(SampledTimes(inputs), Capacity)
  {
    if inputs != [] {
      var init, last := inputs[..|inputs| - 1], inputs[|inputs| - 1];
      WindowAfterKeepsRecent(init);
      var times := SampledTimes(init);
      if last.frame.Some? {
        var grown := times + [last.elapsed];
        assert grown[..|grown| - 1] == times;
      } else {
        assert SampledTimes(inputs) == times;
      }
    }
    RecordAllKeepsRecent(SampledTimes(inputs));
  }

  /** Extending the run by input k extends each of its summaries by that iteration. */
  lemma PrefixStep(debug: bool, full: bool, window: seq<real>, maxTemp: int, inputs: seq<Input>, k: nat)
    requires Calibrated(InitialMin, maxTemp) && k < |inputs|
    ensures Calibrated(InitialMin, MaxAfter(maxTemp, inputs[..k]))
    ensures MaxAfter(maxTemp, inputs[..k + 1]) == NextMax(MaxAfter(maxTemp, inputs[..k]), inputs[k])
    ensures FullDisplayAfter(full, inputs[..k + 1]) ==
      (FullDisplayAfter(full, inputs[..k]) && inputs[k].frame.None?)
    ensures WindowAfter(window, inputs[..k + 1]) == NextWindow(WindowAfter(window, inputs[..k]), inputs[k])
  {
    MaxAfterCalibrated(maxTemp, inputs[..k]);
    assert inputs[..k + 1][..k] == inputs[..k];
  }

  /** The frame-rate overlay of the debug branch: a cleared strip and the rate text. */
  const DebugOps := [Fill(Rect(260, 0, 320, 240), Black), RateLabel(0, 0)]

  /** The status LED colour shown after the first legend is drawn. */
  const RangeLed := Led(0.5, 0.0, 0.0)

  /** The debug branch's drawing. */
  function OverlayOps(debug: bool): seq<Op>
  {
    if debug then DebugOps else []
  }

  /** The `update_full_display` branch's drawing: the first legend and the LED. */
  function FirstLegendOps(fullDisplay: bool, minTemp: int, maxTemp: int): seq<Op>
    requires maxTemp != minTemp
  {
    if fullDisplay then LegendOps(minTemp, maxTemp) + [RangeLed] else []
  }

  /** The legend redrawn by A or B when it changed `max_temp`. */
  function ButtonOps(minTemp: int, maxTemp: int, act: Action): seq<Op>
    requires Calibrated(minTemp, maxTemp)
  {
    AdjustKeepsCalibration(minTemp, maxTemp, act);
    if RedrawsLegend(maxTemp, act) then LegendOps(minTemp, AdjustMax(maxTemp, act)) else []
  }

  /** What one iteration appends to the frame buffer after the plot. */
  function AfterPlotOps(debug: bool, fullDisplay: bool, minTemp: int, maxTemp: int, act: Action): seq<Op>
    requires Calibrated(minTemp, maxTemp)
  {
    [Flush] + OverlayOps(debug) + FirstLegendOps(fullDisplay, minTemp, maxTemp) + ButtonOps(minTemp, maxTemp, act)
  }

  /** What one iteration whose sensor read succeeded appends to the frame buffer. */
  function FrameOps(grid: seq<seq<real>>, debug: bool, fullDisplay: bool,
                    minTemp: int, maxTemp: int, act: Action): seq<Op>
    requires Calibrated(minTemp, maxTemp)
  {
    PlotOps(grid, |grid|, minTemp, maxTemp) + AfterPlotOps(debug, fullDisplay, minTemp, maxTemp, act)
  }

  lemma AppendAssoc(a: seq<Op>, b: seq<Op>, c: seq<Op>)
    ensures (a + b) + c == a + (b + c)
  {
  }

  /** Regrouping the six parts one iteration appends. */
  lemma RegroupFrame(a: seq<Op>, b: seq<Op>, c: seq<Op>, d: seq<Op>, e: seq<Op>, f: seq<Op>)
    ensures a + b + c + d + e + f == a + (b + (c + d + e + f))
  {
  }

  /** Every rectangle of the legend starts at the strip's left edge, x = 265, or further right. */
  lemma LegendRightOfPlot(minTemp: int, maxTemp: int)
    requires maxTemp != minTemp
    ensures RightOf(LegendOps(minTemp, maxTemp), StripX)
  {
    var bands := BandOps(LegendValues(maxTemp), 10, minTemp, maxTemp);
    var head := [Fill(Rect(265, 15, 310, 215), Black), NumberLabel(maxTemp, 265, 15)];
    var tail := [NumberLabel(minTemp, 265, 205), Flush];
    LegendParts(minTemp, maxTemp);
    BandsRightOf(LegendValues(maxTemp), 10, minTemp, maxTemp);
    RightOfConcat(head, bands, StripX);
    RightOfConcat(head + bands, tail, StripX);
  }

  /** Every rectangle drawn after the plot in an iteration starts at x = 260 or further right. */
  lemma AfterPlotRightOfPlot(debug: bool, fullDisplay: bool, minTemp: int, maxTemp: int, act: Action)
    requires Calibrated(minTemp, maxTemp)
    ensures RightOf(AfterPlotOps(debug, fullDisplay, minTemp, maxTemp, act), 260)
  {
    AdjustKeepsCalibration(minTemp, maxTemp, act);
    var a := [Flush] + OverlayOps(debug);
    var b := FirstLegendOps(fullDisplay, minTemp, maxTemp);
    var c := ButtonOps(minTemp, maxTemp, act);
    assert RightOf(a, 260);
    if fullDisplay {
      LegendRightOfPlot(minTemp, maxTemp);
      RightOfConcat(LegendOps(minTemp, maxTemp), [RangeLed], 260);
    }
    if RedrawsLegend(maxTemp, act) {
      LegendRightOfPlot(minTemp, AdjustMax(maxTemp, act));
    }
    RightOfConcat(a, b, 260);
    RightOfConcat(a + b, c, 260);
  }

  /**
   * After an iteration on a 24 x 32 frame, each pixel of the plotted region
   * [0, 240] x [0, 320] has the fill value of its sensor cell, whatever the
   * buffer held before: nothing drawn later in the iteration reaches it.
   */
  lemma FrameShown(before: seq<Op>, grid: seq<seq<real>>, debug: bool, fullDisplay: bool,
                                      minTemp: int, maxTemp: int, act: Action, px: int, py: int)
    requires Calibrated(minTemp, maxTemp) && |grid| == Rows && IsRectangular(grid, Cols)
    requires 0 <= px <= 240 && 0 <= py <= 320
    ensures Visible(before + FrameOps(grid, debug, fullDisplay, minTemp, maxTemp, act), px, py) ==
      Some(ColorForTemp(grid[Min(px / 10, 23)][Min(py / 10, 31)], minTemp, maxTemp))
  {
    var plot := PlotOps(grid, |grid|, minTemp, maxTemp);
    var rest := AfterPlotOps(debug, fullDisplay, minTemp, maxTemp, act);
    AppendAssoc(before, plot, rest);
    AfterPlotRightOfPlot(debug, fullDisplay, minTemp, maxTemp, act);
    MissesLeftOf(before + plot, rest, 260, px, py);
    PlotHidesEarlier(before, grid, Cols, minTemp, maxTemp, px, py);
    PlotVisible(grid, Cols, |grid|, minTemp, maxTemp, px, py);
  }

  lemma RowStep(before: seq<Op>, row: seq<real>, x: int, y: nat, minTemp: int, maxTemp: int)
    requires y < |row| && maxTemp != minTemp
    ensures before + RowOps(row, x, y + 1, minTemp, maxTemp) ==
      before + RowOps(row, x, y, minTemp, maxTemp)
      + [Fill(Rect(Block * x, Block * y, Block * x + 10, Block * y + 10), ColorForTemp(row[y], minTemp, maxTemp))]
  {
  }

  lemma PlotStep(before: seq<Op>, grid: seq<seq<real>>, x: nat, minTemp: int, maxTemp: int)
    requires x < |grid| && maxTemp != minTemp
    ensures before + PlotOps(grid, x + 1, minTemp, maxTemp) ==
      before + PlotOps(grid, x, minTemp, maxTemp) + RowOps(grid[x], x, |grid[x]|, minTemp, maxTemp)
  {
  }

  class HeatCam {
    var maxTemp: int
    var minTemp: int
    var displayDebug: bool
    var tArray: seq<real>
    var updateFullDisplay: bool
    /** The frame buffer, as the log of what was drawn into it. */
    var canvas: seq<Op>

    ghost predicate Valid()
      reads this
    {
      Calibrated(minTemp, maxTemp) && |tArray| <= Capacity
    }

    /** The module-level initial settings. */
    constructor ()
      ensures Valid()
      ensures maxTemp == InitialMax && minTemp == InitialMin
      ensures !displayDebug && tArray == [] && updateFullDisplay && canvas == []
    {
      maxTemp := InitialMax;
      minTemp := InitialMin;
      displayDebug := false;
      tArray := [];
      updateFullDisplay := true;
      canvas := [];
    }

    /** `draw_plot` after a successful sensor read of `grid`. */
    method DrawPlot(grid: seq<seq<real>>)
      requires maxTemp != minTemp
      modifies this`canvas
      ensures canvas == old(canvas) + PlotOps(grid, |grid|, minTemp, maxTemp) + [Flush]
    {
      ghost var start := canvas;
      var x := 0;
      var drawX := 0;
      while x < |grid|
        invariant 0 <= x <= |grid|
        invariant drawX == Block * x
        invariant canvas == start + PlotOps(grid, x, minTemp, maxTemp)
      {
        var y := 0;
        var drawY := 0;
        ghost var rowStart := canvas;
        while y < |grid[x]|
          invariant 0 <= y <= |grid[x]|
          invariant drawY == Block * y
          invariant canvas == rowStart + RowOps(grid[x], x, y, minTemp, maxTemp)
        {
          var colorTemp := ColorForTemp(grid[x][y], minTemp, maxTemp);
          RowStep(rowStart, grid[x], x, y, minTemp, maxTemp);
          canvas := canvas + [Fill(Rect(drawX, drawY, drawX + 10, drawY + 10), colorTemp)];
          y := y + 1;
          drawY := y * 10;
        }
        PlotStep(start, grid, x, minTemp, maxTemp);
        x := x + 1;
        drawX := x * 10;
      }
      canvas := canvas + [Flush];
    }

    /** `draw_range`: the legend for the current range. */
    method DrawRange()
      requires maxTemp != minTemp
      modifies this`canvas
      ensures canvas == old(canvas) + LegendOps(minTemp, maxTemp)
    {
      var elements := Linspace(maxTemp as real, 0.0, 10);
      var startX := 290;
      var endX := 310;
      var startY := 15;
      var boxSize := 20;
      ghost var head := [Fill(Rect(265, 15, 310, 215), Black), NumberLabel(maxTemp, 265, 15)];
      ghost var start := canvas + head;
      canvas := canvas + [Fill(Rect(265, 15, endX, startY + boxSize * |elements|), Black)];
      canvas := canvas + [NumberLabel(maxTemp, 265, 15)];
      for i := 0 to |elements|
        invariant startY == 15 + 20 * i
        invariant canvas == start + BandOps(elements, i, minTemp, maxTemp)
      {
        BandStep(start, elements, i, minTemp, maxTemp);
        canvas := canvas + [Fill(Rect(startX, startY, endX, startY + boxSize),
                                 ColorForTemp(elements[i], minTemp, maxTemp))];
        startY := startY + boxSize;
      }
      startY := startY - boxSize / 2;
      canvas := canvas + [NumberLabel(minTemp, 265, startY)];
      canvas := canvas + [Flush];
      LegendParts(minTemp, maxTemp);
    }

    /** The `display_debug` branch: record the frame time and draw the rate overlay. */
    method DebugOverlay(elapsed: real)
      requires |tArray| <= Capacity
      modifies this`tArray, this`canvas
      ensures |tArray| <= Capacity
      ensures tArray == (if displayDebug then Record(old(tArray), elapsed) else old(tArray))
      ensures canvas == old(canvas) + OverlayOps(displayDebug)
    {
      if displayDebug {
        tArray := Record(tArray, elapsed);
        canvas := canvas + [Fill(Rect(260, 0, 320, 240), Black)];
        canvas := canvas + [RateLabel(0, 0)];
      }
    }

    /** The `update_full_display` branch: the first legend, then the LED. */
    method FirstLegend()
      requires maxTemp != minTemp
      modifies this`canvas, this`updateFullDisplay
      ensures !updateFullDisplay
      ensures canvas == old(canvas) + FirstLegendOps(old(updateFullDisplay), minTemp, maxTemp)
    {
      if updateFullDisplay {
        DrawRange();
        updateFullDisplay := false;
        canvas := canvas + [Led(0.5, 0.0, 0.0)];
      }
    }

    /**
     * The button checks: X asks to exit with status 0, A and B step
     * `max_temp` within [20, 100] and redraw the legend, Y leaves
     * `display_debug` as it was.
     */
    method HandleButtons(b: Buttons) returns (exitCode: Option<int>)
      requires Calibrated(minTemp, maxTemp)
      modifies this`maxTemp, this`displayDebug, this`canvas
      ensures Calibrated(minTemp, maxTemp)
      ensures exitCode == (if b.x then Some(0) else None)
      ensures maxTemp == AdjustMax(old(maxTemp), Pressed(b))
      ensures displayDebug == DebugAfter(old(displayDebug), Pressed(b))
      ensures canvas == old(canvas) + ButtonOps(minTemp, old(maxTemp), Pressed(b))
    {
      AdjustKeepsCalibration(minTemp, maxTemp, Pressed(b));
      exitCode := None;
      if b.x {
        exitCode := Some(0);
      } else if b.a {
        if maxTemp < 100 {
          maxTemp := maxTemp + 10;
          DrawRange();
        }
      } else if b.b {
        if maxTemp > 20 {
          maxTemp := maxTemp - 10;
          DrawRange();
        }
      } else if b.y {
        if displayDebug {
          displayDebug := true;
        } else {
          displayDebug := false;
        }
      }
    }

    /**
     * One pass of the main loop.  A failed read skips the rest of the pass;
     * otherwise the plot, the debug overlay and the first legend are drawn and
     * the buttons are handled, X ending the program with status 0.
     */
    method Step(input: Input) returns (exitCode: Option<int>)
      requires Valid()
      modifies this
      ensures Valid()
      ensures minTemp == old(minTemp) && displayDebug == old(displayDebug)
      ensures input.frame.None? ==>
        exitCode == None && maxTemp == old(maxTemp) && tArray == old(tArray) &&
        updateFullDisplay == old(updateFullDisplay) && canvas == old(canvas)
      ensures exitCode == (if Quits(input) then Some(0) else None)
      ensures maxTemp == NextMax(old(maxTemp), input)
      ensures tArray == if old(displayDebug) then NextWindow(old(tArray), input) else old(tArray)
      ensures updateFullDisplay == (old(updateFullDisplay) && input.frame.None?)
      ensures input.frame.Some? ==>
        canvas == old(canvas) + FrameOps(input.frame.value, old(displayDebug), old(updateFullDisplay),
                                         old(minTemp), old(maxTemp), Pressed(input.buttons))
    {
      if input.frame.None? {
        return None;
      }
      ghost var start, lo, hi, debug, full := canvas, minTemp, maxTemp, displayDebug, updateFullDisplay;
      ghost var act := Pressed(input.buttons);
      DrawPlot(input.frame.value);
      DebugOverlay(input.elapsed);
      FirstLegend();
      exitCode := HandleButtons(input.buttons);
      RegroupFrame(start, PlotOps(input.frame.value, |input.frame.value|, lo, hi), [Flush],
                  OverlayOps(debug), FirstLegendOps(full, lo, hi), ButtonOps(lo, hi, act));
    }

    /**
     * The `while True` loop over a finite run of inputs: it stops after the
     * first pass that reads a frame and sees X, and otherwise consumes every
     * input.
     */
    method Run(inputs: seq<Input>) returns (steps: nat, exitCode: Option<int>)
      requires Valid()
      modifies this
      ensures Valid()
      ensures minTemp == old(minTemp) && displayDebug == old(displayDebug)
      ensures steps <= |inputs|
      ensures maxTemp == MaxAfter(old(maxTemp), inputs[..steps])
      ensures updateFullDisplay == FullDisplayAfter(old(updateFullDisplay), inputs[..steps])
      ensures tArray == if old(displayDebug) then WindowAfter(old(tArray), inputs[..steps]) else old(tArray)
      ensures exitCode.None? ==> steps == |inputs| && forall i :: 0 <= i < |inputs| ==> !Quits(inputs[i])
      ensures exitCode.Some? ==> exitCode == Some(0) && 1 <= steps && Quits(inputs[steps - 1])
      ensures forall i :: 0 <= i < |inputs| && Quits(inputs[i]) ==> exitCode.Some? && steps - 1 <= i
    {
      steps := 0;
      while steps < |inputs|
        invariant Valid()
        invariant 0 <= steps <= |inputs|
        invariant minTemp == old(minTemp) && displayDebug == old(displayDebug)
        invariant maxTemp == MaxAfter(old(maxTemp), inputs[..steps])
        invariant updateFullDisplay == FullDisplayAfter(old(updateFullDisplay), inputs[..steps])
        invariant tArray == if old(displayDebug) then WindowAfter(old(tArray), inputs[..steps]) else old(tArray)
        invariant forall i :: 0 <= i < steps ==> !Quits(inputs[i])
      {
        PrefixStep(old(displayDebug), old(updateFullDisplay), old(tArray), old(maxTemp), inputs, steps);
        exitCode := Step(inputs[steps]);
        steps := steps + 1;
        if exitCode.Some? {
          return;
        }
      }
      exitCode := None;
    }
  }
}
