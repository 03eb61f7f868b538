/** Coordinate transform, frame timing and axis auto-detection (visualization/scripts/config.py). */
module Config {
  import opened Wrappers
  import opened Geometry
  import opened Text
  import opened EpisodeData

  /** The three transform fields of VisualizationConfig, as one value. */
  datatype Transform = Transform(scale: real, invertZ: bool, zOffset: real)

  /** The mutable configuration object; its class-level defaults are the constructor's values. */
  class VisualizationConfig {
    var scaleFactor: real
    var invertZ: bool
    var zOffset: real
    var showTrajectories: bool
    var showVehicleMarkers: bool
    var vehicleMarkerOffset: real

    constructor ()
      ensures scaleFactor == 1.0 && !invertZ && zOffset == 0.0
      ensures showTrajectories && showVehicleMarkers && vehicleMarkerOffset == 0.0
    {
      scaleFactor := 1.0;
      invertZ := false;
      zOffset := 0.0;
      showTrajectories := true;
      showVehicleMarkers := true;
      vehicleMarkerOffset := 0.0;
    }

    function CurrentTransform(): Transform
      reads this
    {
      Transform(scaleFactor, invertZ, zOffset)
    }
  }

  /**
   * transform_position: scale all axes, negate z when invertZ, then add zOffset to z. Undoing the
   * offset and the inversion of the result gives back the scaled recorded z.
   */
  function TransformPosition(p: Vec3, t: Transform): (r: Vec3)
    ensures r.x == t.scale * p.x && r.y == t.scale * p.y
    ensures (if t.invertZ then t.zOffset - r.z else r.z - t.zOffset) == t.scale * p.z
  {
    var s := Scale(t.scale, p);
    Vec3(s.x, s.y, (if t.invertZ then -s.z else s.z) + t.zOffset)
  }

  /** x and y are only scaled: the inversion flag and the offset never reach them. */
  lemma TransformKeepsHorizontalAxes(p: Vec3, t: Transform)
    ensures TransformPosition(p, t).x == t.scale * p.x
    ensures TransformPosition(p, t).y == t.scale * p.y
    ensures forall inv: bool, off: real ::
      TransformPosition(p, Transform(t.scale, inv, off)).x == TransformPosition(p, t).x &&
      TransformPosition(p, Transform(t.scale, inv, off)).y == TransformPosition(p, t).y
  {
  }

  /** With scale 1, no inversion and no offset the transform is the identity, hence idempotent. */
  lemma IdentityTransform(p: Vec3)
    ensures TransformPosition(p, Transform(1.0, false, 0.0)) == p
    ensures TransformPosition(TransformPosition(p, Transform(1.0, false, 0.0)), Transform(1.0, false, 0.0))
         == TransformPosition(p, Transform(1.0, false, 0.0))
  {
  }

  /** The offset cancels in a difference of transformed points; z keeps or flips its sign. */
  lemma TransformDifference(a: Vec3, b: Vec3, t: Transform)
    ensures Sub(TransformPosition(a, t), TransformPosition(b, t))
         == Vec3(t.scale * (a.x - b.x), t.scale * (a.y - b.y),
                 (if t.invertZ then -1.0 else 1.0) * (t.scale * (a.z - b.z)))
  {
    assert t.scale * a.x - t.scale * b.x == t.scale * (a.x - b.x);
    assert t.scale * a.y - t.scale * b.y == t.scale * (a.y - b.y);
    assert t.scale * a.z - t.scale * b.z == t.scale * (a.z - b.z);
  }

  const LastFrameWait: real := 0.1
  const MinimumWait: real := 0.001

  /**
   * get_frame_timing: 0.1 s at or past the last frame, otherwise the time to the next frame
   * divided by the playback speed, never less than 0.001 s. A zero speed raises ZeroDivisionError.
   */
  function GetFrameTiming(frames: seq<Frame>, frameIdx: nat, playbackSpeed: real): (r: Result<real>)
    ensures frameIdx + 1 >= |frames| ==> r == Ok(LastFrameWait)
    ensures r.Err? <==> frameIdx + 1 < |frames| && playbackSpeed == 0.0
    ensures r.Ok? ==> r.value >= MinimumWait
    ensures r.Ok? && frameIdx + 1 < |frames| && r.value != MinimumWait ==>
      r.value * playbackSpeed == frames[frameIdx + 1].t - frames[frameIdx].t
    ensures r.Ok? && frameIdx + 1 < |frames| ==>
      r.value >= (frames[frameIdx + 1].t - frames[frameIdx].t) / playbackSpeed
  {
    if frameIdx >= |frames| - 1 then Ok(LastFrameWait)
    else if playbackSpeed == 0.0 then Err(DivisionByZero)
    else
      var adjusted := (frames[frameIdx + 1].t - frames[frameIdx].t) / playbackSpeed;
      Ok(if adjusted > MinimumWait then adjusted else MinimumWait)
  }

  /** The indices Python's range(start, stop, step) yields. */
  function Range(start: nat, stop: nat, step: nat): (r: seq<nat>)
    requires step >= 1
    ensures forall k :: 0 <= k < |r| ==> start <= r[k] < stop
    decreases stop - start
  {
    if start >= stop then [] else [start] + Range(start + step, stop, step)
  }

  function SampleStep(n: nat): (r: nat)
    ensures r >= 1
  {
    if n / 10 > 1 then n / 10 else 1
  }

  function SampleStop(n: nat): nat {
    if n < 10 then n else 10
  }

  /** The frame indices auto-detection samples: range(0, min(10, n), max(1, n // 10)). */
  function SampleIndices(n: nat): seq<nat> {
    Range(0, SampleStop(n), SampleStep(n))
  }

  /** The z values one frame contributes: the defender's, then the attacker's, when present. */
  function FrameZ(f: Frame): seq<real> {
    (if f.defender.Some? then [f.defender.value.pos.z] else []) +
    (if f.attacker.Some? then [f.attacker.value.pos.z] else [])
  }

  function ZSamplesAt(frames: seq<Frame>, idx: seq<nat>): seq<real>
    requires forall k :: 0 <= k < |idx| ==> idx[k] < |frames|
  {
    if |idx| == 0 then [] else FrameZ(frames[idx[0]]) + ZSamplesAt(frames, idx[1..])
  }

  /** The k-th index of range(start, stop, step) is start + k*step; there are as many as fit below stop. */
  lemma {:induction false} RangeElements(start: nat, stop: nat, step: nat)
    requires step >= 1
    ensures forall k :: 0 <= k < |Range(start, stop, step)| ==> Range(start, stop, step)[k] == start + k * step
    ensures |Range(start, stop, step)| > 0 ==> start + (|Range(start, stop, step)| - 1) * step < stop
    ensures start + |Range(start, stop, step)| * step >= stop
    decreases stop - start
  {
    if start < stop {
      var rest := Range(start + step, stop, step);
      RangeElements(start + step, stop, step);
      assert Range(start, stop, step) == [start] + rest;
      forall k | 1 <= k < |rest| + 1
        ensures Range(start, stop, step)[k] == start + k * step
      {
        assert Range(start, stop, step)[k] == rest[k - 1];
        assert start + step + (k - 1) * step == start + k * step;
      }
      if |rest| > 0 {
        assert start + step + (|rest| - 1) * step == start + |rest| * step;
      }
      assert start + step + |rest| * step == start + (|rest| + 1) * step;
    }
  }

  /**
   * Only the first ten frames are ever sampled: for fewer than 20 frames every one of them,
   * from 100 frames on only frame 0.
   */
  lemma SampleIndicesShape(n: nat)
    ensures forall k :: 0 <= k < |SampleIndices(n)| ==> SampleIndices(n)[k] < SampleStop(n) <= 10
    ensures forall k :: 0 <= k < |SampleIndices(n)| ==> SampleIndices(n)[k] == k * SampleStep(n)
    ensures n < 20 ==> SampleIndices(n) == seq(SampleStop(n), k requires 0 <= k < SampleStop(n) => k)
    ensures n >= 100 ==> SampleIndices(n) == [0]
  {
    RangeElements(0, SampleStop(n), SampleStep(n));
    var r := SampleIndices(n);
    if n < 20 {
      assert SampleStep(n) == 1;
      assert |r| == SampleStop(n);
    }
    if n >= 100 {
      assert SampleStep(n) >= 10;
      assert |r| == 1;
    }
  }

  lemma ZSamplesStep(frames: seq<Frame>, i: nat, stop: nat, step: nat)
    requires step >= 1 && i < stop <= |frames|
    ensures ZSamplesAt(frames, Range(i, stop, step)) == FrameZ(frames[i]) + ZSamplesAt(frames, Range(i + step, stop, step))
  {
    assert Range(i, stop, step)[1..] == Range(i + step, stop, step);
  }

  /** One pass of the sampling loop keeps "collected so far + still to collect" equal to all samples. */
  lemma ZSamplesAdvance(frames: seq<Frame>, before: seq<real>, i: nat, stop: nat, step: nat, total: seq<real>)
    requires step >= 1 && i < stop <= |frames|
    requires before + ZSamplesAt(frames, Range(i, stop, step)) == total
    ensures (before + FrameZ(frames[i])) + ZSamplesAt(frames, Range(i + step, stop, step)) == total
  {
    ZSamplesStep(frames, i, stop, step);
    var later := ZSamplesAt(frames, Range(i + step, stop, step));
    assert (before + FrameZ(frames[i])) + later == before + (FrameZ(frames[i]) + later);
  }

  /** One frame's turn in the sampling loop: its defender's z, then its attacker's, when present. */
  method AppendFrameZ(samples: seq<real>, frame: Frame) returns (r: seq<real>)
    ensures r == samples + FrameZ(frame)
  {
    r := samples;
    if frame.defender.Some? {
      r := r + [frame.defender.value.pos.z];
    }
    if frame.attacker.Some? {
      r := r + [frame.attacker.value.pos.z];
    }
  }

  /** The loop of auto_configure_from_metadata that collects sample_z_values. */
  method SampleZValues(frames: seq<Frame>) returns (samples: seq<real>)
    ensures samples == ZSamplesAt(frames, SampleIndices(|frames|))
  {
    var n := |frames|;
    var stop, step := SampleStop(n), SampleStep(n);
    samples := [];
    var i := 0;
    ghost var total := ZSamplesAt(frames, Range(0, stop, step));
    while i < stop
      invariant samples + ZSamplesAt(frames, Range(i, stop, step)) == total
      decreases stop - i
    {
      ZSamplesAdvance(frames, samples, i, stop, step, total);
      samples := AppendFrameZ(samples, frames[i]);
      i := i + step;
    }
  }

  function Sum(xs: seq<real>): real {
    if |xs| == 0 then 0.0 else xs[0] + Sum(xs[1..])
  }

  function Mean(xs: seq<real>): real
    requires |xs| > 0
  {
    Sum(xs) / (|xs| as real)
  }

  const ZUpThreshold: real := 1.0

  /** The mean exceeds the 1.0 m threshold exactly when the sum exceeds the number of samples. */
  lemma MeanAboveThreshold(xs: seq<real>)
    requires |xs| > 0
    ensures Mean(xs) > ZUpThreshold <==> Sum(xs) > |xs| as real
  {
    var n := |xs| as real;
    assert Mean(xs) * n == Sum(xs);
  }

  /**
   * auto_configure_from_metadata: INVERT_Z from the mean of the sampled z values when episode
   * frames are given (unchanged when nothing was sampled), else from the coordinate-system label;
   * Z_OFFSET becomes 0.0 and SCALE_FACTOR is kept.
   */
  method AutoConfigureFromMetadata(metadata: Metadata, config: VisualizationConfig?, episodeFrames: Option<seq<Frame>>)
    returns (c: VisualizationConfig)
    modifies config
    ensures config != null ==> c == config
    ensures config == null ==> fresh(c) && c.showTrajectories && c.showVehicleMarkers && c.vehicleMarkerOffset == 0.0
    ensures c.scaleFactor == (if config != null then old(config.scaleFactor) else 1.0)
    ensures config != null ==>
      c.showTrajectories == old(config.showTrajectories) &&
      c.showVehicleMarkers == old(config.showVehicleMarkers) &&
      c.vehicleMarkerOffset == old(config.vehicleMarkerOffset)
    ensures c.zOffset == 0.0
    ensures episodeFrames.None? ==> c.invertZ == (Upper(metadata.coordinateSystem.GetOr("NED")) != "NED")
    ensures episodeFrames.Some? ==>
      var samples := ZSamplesAt(episodeFrames.value, SampleIndices(|episodeFrames.value|));
      c.invertZ == if |samples| > 0 then Mean(samples) > ZUpThreshold
                   else if config != null then old(config.invertZ) else false
  {
    if config == null {
      c := new VisualizationConfig();
    } else {
      c := config;
    }
    var coordSystem := Upper(metadata.coordinateSystem.GetOr("NED"));
    if episodeFrames.Some? {
      var samples := SampleZValues(episodeFrames.value);
      if |samples| > 0 {
        var avg := Sum(samples) / (|samples| as real);
        c.invertZ := avg > ZUpThreshold;
      }
    } else {
      c.invertZ := coordSystem != "NED";
    }
    c.zOffset := 0.0;
  }
}
