# pi-heat-cam: a Dafny model of the render-and-interact loop

pi-heat-cam drives a Raspberry Pi thermal camera. An MLX90640 sensor gives a
24 x 32 grid of temperatures; a Display HAT Mini shows them and has four
buttons. The program has one main file. Its core is modelled here:

- the colour mapper `get_color_for_temp` (module `ColorMap`, over the exact
  arithmetic of `Arith`);
- the grid rasteriser `draw_plot` (module `Raster` and method
  `Controller.HeatCam.DrawPlot`);
- the legend renderer `draw_range` (module `Legend` and method
  `Controller.HeatCam.DrawRange`);
- the frame-time window `t_array` (module `FrameWindow`);
- the `while True` loop and its button state machine (module `Controller`,
  class `HeatCam`).

The program keeps its state in module-level globals: `max_temp`, `min_temp`,
`display_debug`, `t_array`, `update_full_display` and the frame buffer. They
become the fields of the class `HeatCam`. Its methods update them in place,
as the source does.

The frame buffer is modelled as the ordered log of what is drawn into it
(`Canvas.Op`):

- filled rectangles;
- number labels and the frame-rate text;
- `display()` flushes;
- LED settings.

`Canvas.Visible` gives the log its pixel meaning. For a pixel, it gives the
fill value handed to `draw.rectangle` by the last rectangle drawn over it. That
value is unclamped, as the program computes it. Pillow fills both corner pixels, so a
rectangle covers x0..x1 and y0..y1 inclusive. Neighbouring 10-pixel blocks
therefore share a one-pixel seam, and the block drawn later owns it.

Each drawing method is proved against a specification function: `PlotOps`,
`LegendOps` or `FrameOps`. The properties the program relies on are proved as
lemmas about those functions:

- the row-major block layout;
- every pixel of the plot shows its own cell;
- the legend geometry and colours;
- the calibration range stays within its bounds;
- the button priority;
- the FIFO window.

Two behaviours of the loop shape what the model proves:

- **A and B redraw at once.** When they change `max_temp`, they call
  `draw_range()` directly. The LED `set_led(0.5, 0, 0)` is set only after the
  first legend, inside the `update_full_display` branch.
- **Y leaves the flag alone.** The branch sets `display_debug` to the value it
  already has. The model proves that the flag never changes, so with its
  start-up value False the debug overlay is never drawn.

## Model

| member | source | states |
|---|---|---|
| ColorMap.Tier | main.py:60 | The reading rounded up to a whole degree: the least integer not below it. |
| Arith.Ceil | main.py:60 | `math.ceil`: the least integer at or above x. |
| Arith.Trunc | main.py:63 | `math.trunc`: rounds toward zero. For x >= 0 this is the floor; for x <= 0 it is the ceiling. |
| Arith.TruncDiv | main.py:61-63 | Integer division rounding toward zero: `q*d <= a < q*d + d` for a >= 0, and the mirror bounds for a < 0. |
| Arith.TruncOfQuotient | main.py:61-63 | Truncating the exact quotient a/d equals the truncating integer division. |
| ColorMap.ColorForTemp | main.py:59-63 | The green channel is always 0. |
| ColorMap.ColorAsIntegers | main.py:59-63 | On a positive range, red = trunc(255*(tier-min)/span) and blue = trunc(255*(max-tier)/span). This is an integer reference for the exact-real formula. |
| ColorMap.ColorAtMin | main.py:60-63 | A reading whose tier equals min_temp is pure blue (0,0,255). |
| ColorMap.ColorAtMax | main.py:60-63 | A reading whose tier equals max_temp is pure red (255,0,0). |
| ColorMap.ColorInRange | main.py:60-63 | For a tier inside [min, max], both channels are in [0,255] and red + blue is 254 or 255. |
| ColorMap.ColorBelowRange | main.py:60-63 | Below the range nothing is clamped: red <= 0 and blue >= 255. Both are strict when the span is at most 255. |
| ColorMap.ColorAboveRange | main.py:60-63 | Above the range nothing is clamped: red >= 255 and blue <= 0. Both are strict when the span is at most 255. |
| ColorMap.ColorMonotone | main.py:60-63 | A warmer reading never has less red and never has more blue. |
| Canvas.Visible | main.py:80-81 | A pixel has a fill value iff some rectangle in the log covers it, both corners inclusive. |
| Canvas.VisibleLastWriter | main.py:80-81 | A pixel's fill value is that of a rectangle covering it with no later rectangle covering it: the last writer wins. |
| Canvas.VisibleAppend | main.py:80-81 | What a later part of the buffer paints over a pixel hides what was painted before. |
| Canvas.MissesLeftOf | main.py:80-81 | Drawing only right of column x leaves every pixel left of x unchanged. |
| Raster.RowAt | main.py:78-83 | Entry y of row x's fills is the block (10x, 10y, 10x+10, 10y+10), in the colour of reading [x][y]. |
| Raster.PlotLength | main.py:73-86 | n rows of `cols` readings paint exactly n*cols blocks. |
| Raster.PlotCellAt | main.py:73-86 | Block number x*cols + y is cell (x, y) at (10x, 10y, 10x+10, 10y+10), in the colour of reading [x][y]. This is row-major order, with the row index on the horizontal axis. |
| Raster.PlotBounds | main.py:73-86 | Every block lies inside [0, 10n] x [0, 10 cols]. |
| Raster.RowVisible | main.py:78-83 | Within row x's strip, a pixel shows the cell min(py/10, n-1) of that row. |
| Raster.RowMisses | main.py:78-83 | A row paints nothing outside its own 10-pixel strip. |
| Raster.PlotVisible | main.py:73-86 | Every pixel of [0, 10n] x [0, 10 cols] is painted. It shows cell (min(px/10, n-1), min(py/10, cols-1)). |
| Raster.PlotHidesEarlier | main.py:73-86 | A plot drawn over any buffer replaces every pixel of its region and leaves every pixel outside it as it was. |
| Controller.HeatCam.DrawPlot | main.py:66-90 | The nested loops append exactly `PlotOps` for the whole grid, then a flush. |
| Legend.LinspaceEven | main.py:94 | `linspace` starts at start and ends at stop. Consecutive values differ by (start-stop)/(num-1). |
| Legend.LegendValuesEven | main.py:94 | The ten legend values run from max_temp down to 0 in steps of max_temp/9. |
| Legend.LegendValueAt | main.py:94 | Legend value i is max_temp*(9-i)/9. |
| Legend.LegendValueRange | main.py:94 | For a positive max_temp, every legend value lies in [0, max_temp]. |
| Legend.BandAt | main.py:103-105 | Band i is the rectangle (290, 15+20i, 310, 35+20i), in the colour of legend value i. |
| Legend.BandsRightOf | main.py:103-105 | Every band starts at x = 290. |
| Legend.BandVisible | main.py:103-105 | Over the band column, a pixel shows the band the later fill assigns it. |
| Legend.LegendLayout | main.py:93-110 | The legend has 14 entries. It clears (265,15,310,215) and writes max_temp at (265,15). Band i is at (290,15+20i,310,35+20i) in the colour of max_temp*(9-i)/9. It writes min_temp at (265,205), then flushes. |
| Legend.LegendColors | main.py:94-104 | For min <= 0 < max: every band colour has channels in [0,255]; red never increases down the bar and blue never decreases; the top band is pure red; with min = 0 the bottom band is pure blue. |
| Legend.LegendVisible | main.py:93-110 | After a legend, the band column (290..310) x (15..215) shows the band colours top to bottom. The rest of the strip (265..289) is black, whatever the buffer held before. |
| Controller.HeatCam.DrawRange | main.py:93-110 | The method appends exactly `LegendOps` for the current range. |
| FrameWindow.Record | main.py:124-126 | Appending a sample to a window of at most ten keeps its last ten samples. |
| FrameWindow.RecordAllKeepsRecent | main.py:124-126 | From an empty window, any run of samples leaves at most ten: the most recent, in arrival order. |
| Controller.HeatCam.DebugOverlay | main.py:123-129 | With debugging on, the method records the frame time and draws the cleared strip and the rate text. Otherwise nothing changes. The window stays within ten. |
| Controller.HeatCam.FirstLegend | main.py:131-134 | While the full-display flag is set, the method draws the legend, sets the LED and clears the flag. The flag is false afterwards. |
| Controller.Pressed | main.py:136-150 | X wins over A, A over B, and B over Y. Each action happens iff its button is pressed and no higher one is. |
| Controller.AdjustMax | main.py:138-145 | max_temp is unchanged, raised by 10 (A, below 100) or lowered by 10 (B, above 20). Each step happens exactly when its condition holds. |
| Controller.AdjustKeepsCalibration | main.py:136-145 | min_temp = 0 and a max_temp that is a multiple of 10 in [20, 100] stay so after any action. The colour division is therefore never by zero. |
| Controller.RaiseRepeatedly | main.py:138-141 | k presses of A take a calibrated max_temp to min(max_temp + 10k, 100). |
| Controller.LowerRepeatedly | main.py:142-145 | k presses of B take a calibrated max_temp to max(max_temp - 10k, 20). |
| Controller.StartUpPresses | main.py:138-145 | From 50, five presses of A reach 100 and a sixth does nothing. Three presses of B reach 20 and a fourth does nothing. |
| Controller.DebugAfter | main.py:146-150 | The Y branch leaves display_debug as it was. |
| Controller.HeatCam.HandleButtons | main.py:136-150 | The button chain: exit code 0 iff X; max_temp per `AdjustMax` of the winning action, calibration kept; display_debug unchanged; the legend is redrawn for the new range exactly when A or B changed it. |
| Controller.LegendRightOfPlot | main.py:100-108 | Every rectangle of the legend starts at x = 265 or further right. |
| Controller.AfterPlotRightOfPlot | main.py:122-150 | Every rectangle an iteration draws after the plot starts at x = 260 or further right. |
| Controller.FrameShown | main.py:116-134 | After an iteration on a 24 x 32 frame, every pixel of [0,240] x [0,320] is given by rectangles as its sensor cell's colour, whatever the buffer held before. |
| Controller.MaxAfterCalibrated | main.py:116-152 | However the buttons are pressed, over any number of iterations, the range stays calibrated. |
| Controller.FullDisplayPending | main.py:118-133 | After a run of iterations, the full-display flag is still set iff it was set at the start and every sensor read failed. |
| Controller.WindowAfterKeepsRecent | main.py:118-126 | With debugging on from an empty window, the window after any run holds the last ten frame times of the successful iterations, in order. |
| Controller.HeatCam.constructor | main.py:113-115 | The start-up state: max 50, min 0 (lines 36-37), debugging off, an empty window, the full-display flag set. |
| Controller.HeatCam.Step | main.py:116-152 | After a failed sensor read, nothing changes. Otherwise the iteration appends `FrameOps` (plot, flush, overlay, first legend, button redraw), records the frame time iff debugging, clears the full-display flag and adjusts max_temp by the winning button. It returns exit code 0 iff X. min_temp and display_debug never change. |
| Controller.HeatCam.Run | main.py:116-152 | The loop stops right after the first iteration that read a frame and saw X, with exit code 0. It returns no exit code iff no input is a read with X, and then it consumes every input. max_temp follows `MaxAfter`, the full-display flag `FullDisplayAfter` and the window `WindowAfter` over the iterations run. min_temp and display_debug never change. |

## Left out

- Hardware bring-up is not modelled: I2C, the sensor driver, the panel, the bring-up LED value and the font. The sensor read is an input: a grid, or a failure. So are the buttons and the measured frame time. `time.monotonic` and `time.sleep` are not modelled.
- Controller.HeatCam.Step: the frame is an arbitrary grid of reals. The model does not keep the fixed 768-entry buffer that `getFrame` overwrites in place.
- A reading that is NaN or infinite makes `math.ceil` raise partway through `draw_plot`, after some blocks are painted, and the loop then continues. Reals have no such values, so this partial repaint is not modelled.
- ColorMap.ColorForTemp: computes over exact reals, not IEEE doubles. When max_temp is 50 (the start-up value) or 100, with min_temp 0, wherever 255·k/span is a nonzero whole number the double product `255/m*k` can land just short of it in magnitude. Truncation then goes one step toward zero: one lower where the channel is positive, one higher where it is negative. Inside [0, max_temp] this happens only at the two endpoints: red 254 at a tier equal to max_temp, and blue 254 at a tier equal to min_temp. Over tiers −40..300 the further differences are as follows. With max_temp 50: red one lower at 90, 100 and 170–200; blue one lower at −40; blue one higher (less negative) at 100, 140, 150 and 220–250. With max_temp 100: red one lower at 180 and 200; blue one higher (less negative) at 200, 280 and 300. Outside that window further tiers differ in the same way. On the other calibrated ranges the exact and double values agree at every tier.
- ColorMap.ColorAsIntegers: the truncating integer divisions are a reference for the colour formula over exact reals, not over IEEE doubles; at the tiers listed above, the program's channels are one step closer to zero.
- ColorMap.ColorAtMax: pure red (255) holds in exact arithmetic; with IEEE doubles and max_temp 50 or 100 the program computes red 254.
- ColorMap.ColorAtMin: pure blue (255) holds in exact arithmetic; with IEEE doubles and max_temp 50 or 100 the program computes blue 254.
- ColorMap.ColorInRange: the channel bounds and the sum of 254 or 255 are stated for exact arithmetic, not IEEE doubles.
- Legend.LegendColors: the pure red top band and pure blue bottom band hold in exact arithmetic; with IEEE doubles and max_temp 50 or 100 the program gives 254 there.
- Canvas.Visible: gives the fill value handed to `draw.rectangle`, which can lie below 0 or above 255 for a reading outside [min_temp, max_temp]. The RGB buffer stores 8-bit channels, and that storage is not modelled.
- Legend.Linspace: exact arithmetic; numpy's rounding of the intermediate values is not modelled.
- Text is recorded as a label entry with its position, not as pixels. `Visible` gives the colour of rectangles only. The glyphs of the legend labels are not part of it. Nor is the frame-rate text drawn at (0, 0) over the plot when debugging is on (main.py:128); since `display_debug` stays False, that text is never drawn.
- The frame-rate value `len(t_array) / sum(t_array)` and its `{0:2.1f}` formatting are not modelled. The label is recorded without its text.
- Canvas.Visible: the 320 x 240 panel size is not modelled, so clipping of drawing outside the panel is not represented.
- Controller.HeatCam.Run: `sys.exit(0)` is modelled as a returned exit code that ends the loop.
- Controller.HeatCam.Run: the frame buffer after a run is given only per iteration, by Step's ensures (`FrameOps`), not as a function of the whole input sequence.
- The loop runs forever; Run models any finite prefix of its inputs.

