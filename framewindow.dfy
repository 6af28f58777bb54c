/**
 * The frame-time window of main.py (`t_array`): each sample is appended and,
 * when that makes more than ten, the oldest one is dropped.
 */
module FrameWindow {

  const Capacity := 10

  /** The last min(|s|, k) elements of s. */
  function Last<T>(s: seq<T>, k: nat): (r: seq<T>)
    ensures |r| == if |s| < k then |s| else k
    ensures forall i :: 0 <= i < |r| ==> r[i] == s[|s| - |r| + i]
  {
    if |s| <= k then s else s[|s| - k..]
  }

  /** `t_array.append(sample)` followed by `t_array = t_array[1:]` when over capacity. */
  function Record(window: seq<real>, sample: real): (w: seq<real>)
    ensures |window| <= Capacity ==> w == Last(window + [sample], Capacity)
  {
    var grown := window + [sample];
    if |grown| > Capacity then grown[1..] else grown
  }

  /** The window after recording `samples`, in order, from an empty one. */
  function RecordAll(samples: seq<real>): seq<real>
  {
    if samples == [] then []
    else Record(RecordAll(samples[..|samples| - 1]), samples[|samples| - 1])
  }

  /**
   * However many samples arrive, the window holds at most ten: the most
   * recent ones, in arrival order, the older ones dropped.
   */
  lemma {:induction false} RecordAllKeepsRecent(samples: seq<real>)
    ensures RecordAll(samples) == Last(samples, Capacity)
    ensures |RecordAll(samples)| <= Capacity
  {
    if samples != [] {
      var init, e := samples[..|samples| - 1], samples[|samples| - 1];
      RecordAllKeepsRecent(init);
      assert init + [e] == samples;
      var w := Last(init, Capacity);
      assert Last(w + [e], Capacity) == Last(samples, Capacity);
    }
  }
}
