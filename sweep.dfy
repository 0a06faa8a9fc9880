/**
 * `render_set`: the camera sweep over heights 500 .. 2500 at one fixed
 * view, recording one frame and one duration per height with a running
 * sum and a running maximum of the durations, and the two frame rates
 * reported afterwards.
 */
module Sweep {
  import opened Wrappers
  import Reals

  /** Python's `range(start, stop, step)` for a positive step. */
  function PyRange(start: int, stop: int, step: nat): (r: seq<int>)
    requires step > 0
    ensures forall k :: 0 <= k < |r| ==> r[k] == start + k * step && r[k] < stop
    ensures start + |r| * step >= stop
    decreases stop - start
  {
    if start >= stop then [] else [start] + PyRange(start + step, stop, step)
  }

  /** `range(500, 2525, 25)`: the heights, in centimetres, of the sweep. */
  function Heights(): seq<int>
  {
    PyRange(500, 2525, 25)
  }

  /** The sweep has 81 heights, strictly increasing in steps of 25 from 500 to 2500. */
  lemma HeightsSweep()
    ensures |Heights()| == 81
    ensures forall k :: 0 <= k < 81 ==> Heights()[k] == 500 + 25 * k
    ensures Heights()[0] == 500 && Heights()[80] == 2500
    ensures forall j, k :: 0 <= j < k < 81 ==> Heights()[j] < Heights()[k]
  {
    var h := Heights();
    assert 500 + |h| * 25 >= 2525;
    assert h[|h| - 1] < 2525;
  }

  /** `idx = 481`: every frame is rendered from this view. */
  const ViewIndex: nat := 481

  /** The arguments of `loadCamV2(lp, idx, views[idx], 1.0, pitch, height / 100)`. */
  datatype CameraRequest<V> = CameraRequest(index: nat, view: V, scale: real, pitch: real, height: real)

  /** The camera of the frame at `height` centimetres: view 481, scale 1, height in metres. */
  function Request<V>(views: seq<V>, pitch: real, height: int): (c: CameraRequest<V>)
    requires |views| > ViewIndex
    ensures c.index == ViewIndex && c.view == views[ViewIndex] && c.scale == 1.0
    ensures c.pitch == pitch && c.height * 100.0 == height as real
  {
    CameraRequest(ViewIndex, views[ViewIndex], 1.0, pitch, height as real / 100.0)
  }

  /** The sum of the durations, accumulated front to back from 0. */
  function Sum(s: seq<real>): real
  {
    if |s| == 0 then 0.0 else Sum(s[..|s| - 1]) + s[|s| - 1]
  }

  /** `max(max(max(0, d0), d1), ...)`: the running maximum, starting from 0. */
  function RunningMax(s: seq<real>): real
  {
    if |s| == 0 then 0.0 else Reals.MaxOf(RunningMax(s[..|s| - 1]), s[|s| - 1])
  }

  /**
   * The running maximum bounds 0 and every duration, and it is 0 or one of
   * the durations.
   */
  lemma {:induction false} RunningMaxSpec(s: seq<real>)
    ensures 0.0 <= RunningMax(s)
    ensures forall i :: 0 <= i < |s| ==> s[i] <= RunningMax(s)
    ensures RunningMax(s) == 0.0 || exists i :: 0 <= i < |s| && s[i] == RunningMax(s)
  {
    if |s| > 0 {
      var front := s[..|s| - 1];
      RunningMaxSpec(front);
      assert forall i :: 0 <= i < |front| ==> s[i] == front[i];
      if RunningMax(s) != 0.0 && RunningMax(s) != s[|s| - 1] {
        var i :| 0 <= i < |front| && front[i] == RunningMax(front);
        assert s[i] == RunningMax(s);
      }
    }
  }

  /** Durations that are all `d` add up to `|s| * d`. */
  lemma {:induction false} SumUniform(s: seq<real>, d: real)
    requires forall i :: 0 <= i < |s| ==> s[i] == d
    ensures Sum(s) == |s| as real * d
  {
    if |s| > 0 {
      SumUniform(s[..|s| - 1], d);
    }
  }

  /** Positive durations have a positive sum. */
  lemma {:induction false} SumPositive(s: seq<real>)
    requires |s| > 0
    requires forall i :: 0 <= i < |s| ==> s[i] > 0.0
    ensures Sum(s) > 0.0
  {
    if |s| > 1 {
      SumPositive(s[..|s| - 1]);
    }
  }

  /**
   * The sweep loop over a list of heights. `render` stands for rendering the
   * fixed scene with the fixed pipeline and background from a camera, and
   * `timings[k]` for the wall-clock time the k-th render took. Frames and
   * durations are recorded in lockstep in sweep order; the accumulators end
   * as the sum and the running maximum of the durations.
   */
  method SweepHeights<V, Img>(views: seq<V>, pitch: real, render: CameraRequest<V> -> Img,
                              heights: seq<int>, timings: seq<real>)
    returns (frames: seq<Img>, durationList: seq<real>, avgRenderTime: real, maxRenderTime: real)
    requires |views| > ViewIndex
    requires |timings| == |heights|
    ensures |frames| == |durationList| == |heights|
    ensures forall k :: 0 <= k < |frames| ==> frames[k] == render(Request(views, pitch, heights[k]))
    ensures durationList == timings
    ensures avgRenderTime == Sum(timings)
    ensures maxRenderTime == RunningMax(timings)
  {
    avgRenderTime, maxRenderTime := 0.0, 0.0;
    frames, durationList := [], [];
    var k := 0;
    while k < |heights|
      invariant 0 <= k <= |heights|
      invariant |frames| == k
      invariant forall j :: 0 <= j < k ==> frames[j] == render(Request(views, pitch, heights[j]))
      invariant durationList == timings[..k]
      invariant avgRenderTime == Sum(timings[..k])
      invariant maxRenderTime == RunningMax(timings[..k])
    {
      var height := heights[k];
      var viewpointCam := Request(views, pitch, height);
      var img := render(viewpointCam);
      var duration := timings[k];
      frames := frames + [img];
      durationList := durationList + [duration];
      assert timings[..k + 1][..k] == timings[..k];
      avgRenderTime := avgRenderTime + duration;
      maxRenderTime := Reals.MaxOf(maxRenderTime, duration);
      k := k + 1;
    }
    assert timings[..k] == timings;
  }

  /**
   * `render_set`: the sweep over `range(500, 2525, 25)` from view 481. It
   * renders 81 frames, `frames` and `duration_list` in lockstep.
   */
  method RenderSet<V, Img>(views: seq<V>, pitch: real, render: CameraRequest<V> -> Img, timings: seq<real>)
    returns (frames: seq<Img>, durationList: seq<real>, avgRenderTime: real, maxRenderTime: real)
    requires |views| > ViewIndex
    requires |timings| == |Heights()|
    ensures |frames| == |durationList| == 81
    ensures forall k :: 0 <= k < 81 ==> frames[k] == render(Request(views, pitch, 500 + 25 * k))
    ensures durationList == timings
    ensures avgRenderTime == Sum(timings)
    ensures maxRenderTime == RunningMax(timings)
  {
    HeightsSweep();
    frames, durationList, avgRenderTime, maxRenderTime := SweepHeights(views, pitch, render, Heights(), timings);
  }

  /**
   * `len(views) / avg_render_time` as the code prints it: the number of
   * views over the total render time of the sweep, or the error Python
   * raises for a zero total.
   */
  function AverageFpsAsWritten(numViews: nat, durations: seq<real>): (r: Result<real>)
    ensures r.Ok? <==> Sum(durations) != 0.0
    ensures r.Ok? ==> r.value * Sum(durations) == numViews as real
  {
    var total := Sum(durations);
    if total == 0.0 then Err("ZeroDivisionError: float division by zero") else Ok(numViews as real / total)
  }

  /** The average frame rate of the sweep: frames rendered over their total render time. */
  function AverageFps(durations: seq<real>): (r: Result<real>)
    ensures r.Ok? <==> Sum(durations) != 0.0
    ensures r.Ok? ==> r.value * Sum(durations) == |durations| as real
  {
    var total := Sum(durations);
    if total == 0.0 then Err("ZeroDivisionError: float division by zero") else Ok(|durations| as real / total)
  }

  /** When every frame takes `d > 0`, the average frame rate is `1 / d`. */
  lemma AverageFpsUniform(durations: seq<real>, d: real)
    requires |durations| > 0 && d > 0.0
    requires forall i :: 0 <= i < |durations| ==> durations[i] == d
    ensures AverageFps(durations) == Ok(1.0 / d)
  {
    SumUniform(durations, d);
    var n := |durations| as real;
    assert Sum(durations) == n * d > 0.0;
    assert AverageFps(durations) == Ok(n / (n * d));
    assert n / (n * d) == 1.0 / d;
  }

  /**
   * As written the reported average counts views instead of frames: with the
   * at least 482 views `render_set` needs and positive durations it exceeds
   * the frame rate of the 81-frame sweep by the factor `len(views) / 81`.
   */
  lemma AverageFpsAsWrittenOverstates(numViews: nat, durations: seq<real>)
    requires numViews > ViewIndex && |durations| == |Heights()|
    requires forall i :: 0 <= i < |durations| ==> durations[i] > 0.0
    ensures AverageFpsAsWritten(numViews, durations).Ok? && AverageFps(durations).Ok?
    ensures AverageFpsAsWritten(numViews, durations).value * |durations| as real ==
            AverageFps(durations).value * numViews as real
    ensures AverageFpsAsWritten(numViews, durations).value > AverageFps(durations).value
  {
    HeightsSweep();
    SumPositive(durations);
    var total := Sum(durations);
    var wrong := AverageFpsAsWritten(numViews, durations).value;
    var right := AverageFps(durations).value;
    assert wrong * total * |durations| as real == right * total * numViews as real;
    assert wrong * |durations| as real == right * numViews as real;
    assert right > 0.0;
  }

  /** A concrete sweep: 482 views and 81 frames of 0.01 s report 595.06... instead of 100 frames per second. */
  lemma AverageFpsAsWrittenExample()
    ensures AverageFpsAsWritten(482, seq(81, _ => 0.01)) == Ok(482.0 / 0.81)
    ensures AverageFps(seq(81, _ => 0.01)) == Ok(100.0)
    ensures 482.0 / 0.81 != 100.0
  {
    SumUniform(seq(81, _ => 0.01), 0.01);
  }

  /** `1 / max_render_time`, or the error Python raises when the maximum stayed 0. */
  function MinFps(maxRenderTime: real): (r: Result<real>)
    ensures r.Ok? <==> maxRenderTime != 0.0
    ensures r.Ok? ==> r.value * maxRenderTime == 1.0
  {
    if maxRenderTime == 0.0 then Err("ZeroDivisionError: float division by zero") else Ok(1.0 / maxRenderTime)
  }

  /**
   * With positive durations the reported minimum frame rate is that of the
   * slowest frame: no frame is slower, and one frame is exactly that slow.
   */
  lemma MinFpsIsSlowestFrame(durations: seq<real>)
    requires |durations| > 0
    requires forall i :: 0 <= i < |durations| ==> durations[i] > 0.0
    ensures MinFps(RunningMax(durations)).Ok?
    ensures forall i :: 0 <= i < |durations| ==> MinFps(RunningMax(durations)).value <= 1.0 / durations[i]
    ensures exists i :: 0 <= i < |durations| && MinFps(RunningMax(durations)).value == 1.0 / durations[i]
  {
    RunningMaxSpec(durations);
    var m := RunningMax(durations);
    assert durations[0] <= m;
    forall i | 0 <= i < |durations|
      ensures 1.0 / m <= 1.0 / durations[i]
    {
      DivideAntitone(durations[i], m);
    }
    var i :| 0 <= i < |durations| && durations[i] == m;
  }

  /** `1 / x` decreases as `x` grows over the positive reals. */
  lemma DivideAntitone(a: real, b: real)
    requires 0.0 < a <= b
    ensures 1.0 / b <= 1.0 / a
  {
    assert (1.0 / b) * a <= (1.0 / b) * b;
    assert (1.0 / b) * a <= 1.0 == (1.0 / a) * a;
  }
}
