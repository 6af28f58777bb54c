/**
 * The frame buffer of main.py, seen as the ordered log of what is drawn into
 * it and pushed to the panel.  `Visible` gives the log its pixel meaning: the
 * fill value of a pixel is that of the last rectangle drawn over it.  Pillow's
 * `draw.rectangle((x0, y0, x1, y1))` fills both corner pixels, so a rectangle
 * covers x0..x1 and y0..y1 inclusive.
 */
module Canvas {
  import opened ColorMap

  datatype Option<T> = None | Some(value: T)

  /** The corners (x0, y0, x1, y1) of a filled rectangle, both inclusive. */
  datatype Rect = Rect(x0: int, y0: int, x1: int, y1: int)

  datatype Op =
    | Fill(rect: Rect, color: Rgb)
      /** `str(value)` stamped in white, top-left corner at (x, y). */
    | NumberLabel(value: int, x: int, y: int)
      /** The frame-rate string, top-left corner at (x, y). */
    | RateLabel(x: int, y: int)
      /** `displayhatmini.display()`: push the buffer to the panel. */
    | Flush
      /** `displayhatmini.set_led(r, g, b)`. */
    | Led(r: real, g: real, b: real)

  predicate Covers(r: Rect, px: int, py: int)
  {
    r.x0 <= px <= r.x1 && r.y0 <= py <= r.y1
  }

  /** The fill value of the last rectangle in `log` that covers pixel (px, py). */
  function Visible(log: seq<Op>, px: int, py: int): (c: Option<Rgb>)
    ensures c.Some? <==> exists i :: 0 <= i < |log| && log[i].Fill? && Covers(log[i].rect, px, py)
    decreases |log|
  {
    if log == [] then None
    else
      var last := log[|log| - 1];
      var c := if last.Fill? && Covers(last.rect, px, py) then Some(last.color)
               else Visible(log[..|log| - 1], px, py);
      assert forall i :: 0 <= i < |log| - 1 ==> log[..|log| - 1][i] == log[i];
      c
  }

  /**
   * The fill value of a pixel is that of a rectangle in the log covering it,
   * and no rectangle after that one covers it: the last writer wins.
   */
  lemma {:induction false} VisibleLastWriter(log: seq<Op>, px: int, py: int)
    requires Visible(log, px, py).Some?
    ensures exists i ::
              0 <= i < |log| && log[i].Fill? && Covers(log[i].rect, px, py) &&
              Visible(log, px, py).value == log[i].color &&
              forall j :: i < j < |log| ==> !(log[j].Fill? && Covers(log[j].rect, px, py))
    decreases |log|
  {
    var n := |log| - 1;
    var last := log[n];
    if last.Fill? && Covers(last.rect, px, py) {
      assert log[n].Fill? && Covers(log[n].rect, px, py) && Visible(log, px, py).value == log[n].color;
    } else {
      var init := log[..n];
      VisibleLastWriter(init, px, py);
      var i :| 0 <= i < |init| && init[i].Fill? && Covers(init[i].rect, px, py) &&
        Visible(init, px, py).value == init[i].color &&
        forall j :: i < j < |init| ==> !(init[j].Fill? && Covers(init[j].rect, px, py));
      assert log[i] == init[i];
      forall j | i < j < |log|
        ensures !(log[j].Fill? && Covers(log[j].rect, px, py))
      {
        if j < n {
          assert log[j] == init[j];
        }
      }
    }
  }

  /** What a later part of the log draws over a pixel hides what came before. */
  lemma {:induction false} VisibleAppend(s: seq<Op>, t: seq<Op>, px: int, py: int)
    ensures Visible(s + t, px, py) ==
      if Visible(t, px, py).Some? then Visible(t, px, py) else Visible(s, px, py)
    decreases |t|
  {
    if t == [] {
      assert s + t == s;
    } else {
      var u := t[..|t| - 1];
      assert (s + t)[..|s + t| - 1] == s + u;
      VisibleAppend(s, u, px, py);
    }
  }

  /** Every rectangle drawn by `s` starts at column x or further right. */
  predicate RightOf(s: seq<Op>, x: int)
  {
    forall i :: 0 <= i < |s| ==> s[i].Fill? ==> s[i].rect.x0 >= x
  }

  lemma RightOfConcat(s: seq<Op>, t: seq<Op>, x: int)
    requires RightOf(s, x) && RightOf(t, x)
    ensures RightOf(s + t, x)
  {
    forall i | 0 <= i < |s + t|
      ensures (s + t)[i].Fill? ==> (s + t)[i].rect.x0 >= x
    {
      if i >= |s| {
        assert (s + t)[i] == t[i - |s|];
      }
    }
  }

  /** Drawing only right of column x leaves every pixel left of it as it was. */
  lemma MissesLeftOf(s: seq<Op>, t: seq<Op>, x: int, px: int, py: int)
    requires RightOf(t, x) && px < x
    ensures Visible(s + t, px, py) == Visible(s, px, py)
  {
    VisibleAppend(s, t, px, py);
  }
}
