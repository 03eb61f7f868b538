/** The stateful two-drone controller (visualization/scripts/multi_agent_runner.py). */
module MultiAgentRunnerModule {
  import opened Wrappers
  import opened Geometry
  import opened EpisodeData
  import opened Config
  import opened Simulator

  const FrameVelocity: real := 5.0
  const FrameTimeout: real := 30.0
  const BaseMarkerHeight: real := -0.3
  const TrailEvery: nat := 10

  /** The persistent base sphere, drawn just above the ground at the base's x and y. */
  function BaseMarker(base: Vec3): (r: Command)
    ensures r.PlotPoints? && r.persistent && |r.points| == 1
    ensures r.points[0] == Vec3(base.x, base.y, BaseMarkerHeight)
  {
    PlotPoints([Vec3(base.x, base.y, BaseMarkerHeight)], true)
  }

  /** _draw_trajectories when called: each trail is drawn only with more than one point. */
  function TrailCommands(showTrajectories: bool, defenderTrail: seq<Vec3>, attackerTrail: seq<Vec3>): (r: seq<Command>)
    ensures !showTrajectories ==> r == []
    ensures forall c :: c in r ==>
      (c.PlotLineStrip? &&
       ((c.vehicle == Defender && c.points == defenderTrail && |defenderTrail| > 1) ||
        (c.vehicle == Attacker && c.points == attackerTrail && |attackerTrail| > 1)))
    ensures showTrajectories && |defenderTrail| > 1 ==> PlotLineStrip(Defender, defenderTrail) in r
    ensures showTrajectories && |attackerTrail| > 1 ==> PlotLineStrip(Attacker, attackerTrail) in r
  {
    if !showTrajectories then []
    else (if |defenderTrail| > 1 then [PlotLineStrip(Defender, defenderTrail)] else []) +
         (if |attackerTrail| > 1 then [PlotLineStrip(Attacker, attackerTrail)] else [])
  }

  /** _draw_vehicle_markers: nothing when markers are off, else a point above each target. */
  function MarkerCommands(showMarkers: bool, offset: real, d: Vec3, a: Vec3): (r: seq<Command>)
    ensures !showMarkers ==> r == []
    ensures showMarkers ==>
      (|r| == 2 && r[0].PlotPoints? && r[1].PlotPoints? &&
       r[0].points == [Vec3(d.x, d.y, d.z + offset)] && r[1].points == [Vec3(a.x, a.y, a.z + offset)] &&
       !r[0].persistent && !r[1].persistent)
  {
    if !showMarkers then []
    else [PlotPoints([Vec3(d.x, d.y, d.z + offset)], false), PlotPoints([Vec3(a.x, a.y, a.z + offset)], false)]
  }

  /** The timed move of both drones to their targets, awaited only when `wait` is set. */
  function MoveCommands(d: Vec3, a: Vec3, wait: bool): (r: seq<Command>)
    ensures |r| == if wait then 4 else 2
    ensures r[0] == MoveToPosition(Defender, d, FrameVelocity, Some(FrameTimeout), None)
    ensures r[1] == MoveToPosition(Attacker, a, FrameVelocity, Some(FrameTimeout), None)
    ensures (Join(Defender) in r || Join(Attacker) in r) <==> wait
  {
    [MoveToPosition(Defender, d, FrameVelocity, Some(FrameTimeout), None),
     MoveToPosition(Attacker, a, FrameVelocity, Some(FrameTimeout), None)] +
    (if wait then [Join(Defender), Join(Attacker)] else [])
  }

  /** A frame move_to_frame can read: defender, attacker and base are all present. */
  predicate Complete(f: Frame) {
    f.defender.Some? && f.attacker.Some? && f.base.Some?
  }

  /**
   * MultiAgentRunner's bookkeeping: the transformed targets sent so far, the base position
   * seen first, and the number of frames moved to; `commands` is what it has sent.
   */
  class MultiAgentRunner {
    const config: VisualizationConfig
    var defenderTrajectory: seq<Vec3>
    var attackerTrajectory: seq<Vec3>
    var basePosition: Option<Vec3>
    var frameCount: nat
    var startTime: Option<real>
    var commands: seq<Command>

    /** Both trajectories have one target per frame moved to; the base is known once a frame was. */
    predicate Valid()
      reads this
    {
      |defenderTrajectory| == frameCount && |attackerTrajectory| == frameCount &&
      (basePosition.None? <==> frameCount == 0)
    }

    constructor (cfg: VisualizationConfig?)
      ensures Valid()
      ensures cfg != null ==> config == cfg
      ensures cfg == null ==>
        (fresh(config) && config.scaleFactor == 1.0 && !config.invertZ &&
         config.zOffset == 0.0 && config.showTrajectories && config.showVehicleMarkers &&
         config.vehicleMarkerOffset == 0.0)
      ensures defenderTrajectory == [] && attackerTrajectory == [] && basePosition.None?
      ensures frameCount == 0 && startTime.None? && commands == []
    {
      if cfg != null {
        config := cfg;
      } else {
        config := new VisualizationConfig();
      }
      defenderTrajectory := [];
      attackerTrajectory := [];
      basePosition := None;
      frameCount := 0;
      startTime := None;
      commands := [];
    }

    /** setup and takeoff: API control, arming, then both takeoffs awaited. */
    method SetupAndTakeoff()
      modifies this
      ensures commands == old(commands) + ArmBoth() + TakeoffBoth()
      ensures defenderTrajectory == old(defenderTrajectory) && attackerTrajectory == old(attackerTrajectory)
      ensures basePosition == old(basePosition) && frameCount == old(frameCount) && startTime == old(startTime)
    {
      commands := commands + ArmBoth() + TakeoffBoth();
    }

    /**
     * move_to_frame: a frame missing defender, attacker or base raises KeyError before any
     * change; otherwise the base is recorded on the first call, both drones are sent to their
     * transformed targets, one target is appended to each trajectory and the count advances.
     */
    method MoveToFrame(frame: Frame, wait: bool) returns (ok: bool)
      requires Valid()
      modifies this
      ensures Valid()
      ensures ok <==> Complete(frame)
      ensures !ok ==>
        (defenderTrajectory == old(defenderTrajectory) && attackerTrajectory == old(attackerTrajectory) &&
         basePosition == old(basePosition) && frameCount == old(frameCount) && commands == old(commands))
      ensures ok ==>
        var t := old(config.CurrentTransform());
        var d := TransformPosition(frame.defender.value.pos, t);
        var a := TransformPosition(frame.attacker.value.pos, t);
        var b := TransformPosition(frame.base.value, t);
        defenderTrajectory == old(defenderTrajectory) + [d] &&
        attackerTrajectory == old(attackerTrajectory) + [a] &&
        frameCount == old(frameCount) + 1 &&
        basePosition == (if old(basePosition).None? then Some(b) else old(basePosition)) &&
        commands == old(commands) +
          (if old(basePosition).None? then [BaseMarker(b)] else []) +
          MoveCommands(d, a, wait) +
          (if frameCount % TrailEvery == 0
           then TrailCommands(config.showTrajectories, defenderTrajectory, attackerTrajectory) else []) +
          MarkerCommands(config.showVehicleMarkers, config.vehicleMarkerOffset, d, a)
      ensures startTime == old(startTime)
    {
      if !Complete(frame) {
        return false;
      }
      var t := config.CurrentTransform();
      var d := TransformPosition(frame.defender.value.pos, t);
      var a := TransformPosition(frame.attacker.value.pos, t);
      var b := TransformPosition(frame.base.value, t);
      var baseCommands: seq<Command> := [];
      if basePosition.None? {
        basePosition := Some(b);
        baseCommands := [BaseMarker(b)];
      }
      var moves := MoveCommands(d, a, wait);
      defenderTrajectory := defenderTrajectory + [d];
      attackerTrajectory := attackerTrajectory + [a];
      var trails: seq<Command> := [];
      if config.showTrajectories && |defenderTrajectory| % TrailEvery == 0 {
        trails := TrailCommands(config.showTrajectories, defenderTrajectory, attackerTrajectory);
      }
      var markers := MarkerCommands(config.showVehicleMarkers, config.vehicleMarkerOffset, d, a);
      frameCount := frameCount + 1;
      commands := commands + baseCommands + moves + trails + markers;
      return true;
    }

    /** land_and_disarm: the landing sequence, without a fallback. */
    method LandAndDisarm()
      modifies this
      ensures commands == old(commands) + LandingSequence()
      ensures defenderTrajectory == old(defenderTrajectory) && attackerTrajectory == old(attackerTrajectory)
      ensures basePosition == old(basePosition) && frameCount == old(frameCount) && startTime == old(startTime)
    {
      commands := commands + LandingSequence();
    }

    /** reset: reset the simulator and return the bookkeeping to its initial state. */
    method Reset()
      modifies this
      ensures Valid()
      ensures commands == old(commands) + [ResetSimulation]
      ensures defenderTrajectory == [] && attackerTrajectory == [] && basePosition.None? && frameCount == 0
      ensures startTime == old(startTime)
    {
      commands := commands + [ResetSimulation];
      defenderTrajectory := [];
      attackerTrajectory := [];
      basePosition := None;
      frameCount := 0;
    }

    /**
     * print_statistics: nothing without a start time; otherwise the frames processed out of
     * the episode's total and the elapsed time (`now` is the clock reading).
     */
    method PrintStatistics(totalFrames: nat, now: real) returns (report: Option<(nat, nat, real)>)
      ensures report.None? <==> startTime.None?
      ensures report.Some? ==> report.value == (frameCount, totalFrames, now - startTime.value)
    {
      if startTime.None? {
        return None;
      }
      return Some((frameCount, totalFrames, now - startTime.value));
    }
  }

  /**
   * A fresh runner never gets a start time from its own methods, so print_statistics reports
   * nothing on any run driven only by them.
   */
  method StatisticsNeverReported(cfg: VisualizationConfig?, frames: seq<Frame>, totalFrames: nat, now: real)
    returns (report: Option<(nat, nat, real)>)
    ensures report.None?
  {
    var runner := new MultiAgentRunner(cfg);
    runner.SetupAndTakeoff();
    for i := 0 to |frames|
      invariant runner.Valid() && runner.startTime.None?
      invariant fresh(runner)
    {
      var _ := runner.MoveToFrame(frames[i], true);
    }
    runner.LandAndDisarm();
    runner.Reset();
    report := runner.PrintStatistics(totalFrames, now);
  }

  /**
   * Replaying frames in order: every complete frame adds exactly one target to each
   * trajectory, so both lengths equal the number of complete frames, and the base is the
   * transformed base of the first complete frame, under the configuration's transform (the
   * default one when none is given).
   */
  method ReplayFrames(cfg: VisualizationConfig?, frames: seq<Frame>, wait: bool)
    returns (moved: nat, defenderLength: nat, attackerLength: nat, base: Option<Vec3>)
    ensures moved == defenderLength == attackerLength == CountComplete(frames)
    ensures base.None? <==> moved == 0
    ensures base == FirstCompleteBase(frames, if cfg != null then cfg.CurrentTransform() else Transform(1.0, false, 0.0))
  {
    var runner := new MultiAgentRunner(cfg);
    ghost var t := runner.config.CurrentTransform();
    moved := 0;
    for i := 0 to |frames|
      invariant runner.Valid() && fresh(runner)
      invariant moved == runner.frameCount == CountComplete(frames[..i])
      invariant runner.config.CurrentTransform() == t
      invariant runner.basePosition == FirstCompleteBase(frames[..i], t)
    {
      var ok := ReplayStep(runner, frames[i], wait);
      assert frames[..i + 1] == frames[..i] + [frames[i]];
      CountCompleteAppend(frames[..i], frames[i]);
      FirstCompleteBaseAppend(frames[..i], frames[i], t);
      if ok {
        moved := moved + 1;
      }
    }
    assert frames[..|frames|] == frames;
    return moved, |runner.defenderTrajectory|, |runner.attackerTrajectory|, runner.basePosition;
  }

  /** One move_to_frame call, seen through the bookkeeping ReplayFrames keeps. */
  method ReplayStep(runner: MultiAgentRunner, frame: Frame, wait: bool) returns (ok: bool)
    requires runner.Valid()
    modifies runner
    ensures runner.Valid()
    ensures ok <==> Complete(frame)
    ensures runner.frameCount == old(runner.frameCount) + (if ok then 1 else 0)
    ensures runner.basePosition ==
      if old(runner.basePosition).Some? then old(runner.basePosition)
      else if ok then Some(TransformPosition(frame.base.value, old(runner.config.CurrentTransform())))
      else None
  {
    ok := runner.MoveToFrame(frame, wait);
  }

  /** The transformed base of the first frame that carries all three agents, if there is one. */
  function FirstCompleteBase(frames: seq<Frame>, t: Transform): Option<Vec3> {
    if |frames| == 0 then None
    else if Complete(frames[0]) then Some(TransformPosition(frames[0].base.value, t))
    else FirstCompleteBase(frames[1..], t)
  }

  /** FirstCompleteBase is set exactly when some frame is complete, and then it is the first one's base. */
  lemma {:induction false} FirstCompleteBaseIsFirst(frames: seq<Frame>, t: Transform)
    ensures FirstCompleteBase(frames, t).Some? <==> exists i :: 0 <= i < |frames| && Complete(frames[i])
    ensures FirstCompleteBase(frames, t).Some? ==>
      exists i :: (0 <= i < |frames| && Complete(frames[i]) &&
        (forall j :: 0 <= j < i ==> !Complete(frames[j])) &&
        FirstCompleteBase(frames, t).value == TransformPosition(frames[i].base.value, t))
  {
    if |frames| > 0 && !Complete(frames[0]) {
      FirstCompleteBaseIsFirst(frames[1..], t);
      assert forall i :: 1 <= i < |frames| ==> frames[i] == frames[1..][i - 1];
      if FirstCompleteBase(frames, t).Some? {
        var k :| 0 <= k < |frames| - 1 && Complete(frames[1..][k]) &&
          (forall j :: 0 <= j < k ==> !Complete(frames[1..][j])) &&
          FirstCompleteBase(frames[1..], t).value == TransformPosition(frames[1..][k].base.value, t);
        assert frames[k + 1] == frames[1..][k];
        assert forall j :: 0 <= j < k + 1 ==> !Complete(frames[j]) by {
          forall j | 0 <= j < k + 1 ensures !Complete(frames[j]) {
            if j > 0 { assert frames[j] == frames[1..][j - 1]; }
          }
        }
      }
    } else if |frames| > 0 {
      assert Complete(frames[0]);
    }
  }

  /** One more frame changes the first complete base only when there was none yet. */
  lemma {:induction false} FirstCompleteBaseAppend(frames: seq<Frame>, f: Frame, t: Transform)
    ensures FirstCompleteBase(frames + [f], t) ==
      if FirstCompleteBase(frames, t).Some? then FirstCompleteBase(frames, t)
      else if Complete(f) then Some(TransformPosition(f.base.value, t)) else None
  {
    if |frames| > 0 {
      assert (frames + [f])[1..] == frames[1..] + [f];
      FirstCompleteBaseAppend(frames[1..], f, t);
    }
  }

  /** The number of frames that carry all three agents. */
  function CountComplete(frames: seq<Frame>): (r: nat)
    ensures r <= |frames|
    ensures r == |frames| <==> forall i :: 0 <= i < |frames| ==> Complete(frames[i])
  {
    if |frames| == 0 then 0
    else CountComplete(frames[..|frames| - 1]) + (if Complete(frames[|frames| - 1]) then 1 else 0)
  }

  lemma CountCompleteAppend(frames: seq<Frame>, f: Frame)
    ensures CountComplete(frames + [f]) == CountComplete(frames) + (if Complete(f) then 1 else 0)
  {
    assert (frames + [f])[..|frames|] == frames;
  }
}
