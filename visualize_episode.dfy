/**
 * Playback of a recorded episode with drift-corrected relative paths
 * (visualization/scripts/visualize_episode.py).
 */
module VisualizeEpisode {
  import opened Wrappers
  import opened Geometry
  import opened Json
  import opened EpisodeData
  import opened Config
  import opened Simulator

  /** An end_frame of None, or one past the last frame, becomes len(frames). */
  function ClampEndFrame(endFrame: Option<int>, n: nat): (r: int)
    ensures r <= n
    ensures r == n <==> endFrame.None? || endFrame.value >= n
    ensures r != n ==> r == endFrame.value
  {
    if endFrame.None? || endFrame.value > n then n else endFrame.value
  }

  /**
   * The drift-corrected path in closed form: the observed start, moved by the scaled
   * displacement of each recorded position from the first one.
   */
  function RelativePath(raw: seq<Vec3>, anchor: Vec3, scale: real): (r: seq<Vec3>)
    ensures |r| == if |raw| == 0 then 1 else |raw|
  {
    if |raw| == 0 then [anchor]
    else seq(|raw|, k requires 0 <= k < |raw| => Add(anchor, Scale(scale, Sub(raw[k], raw[0]))))
  }

  /** The path starts at the anchor and each step is the scaled recorded step. */
  lemma RelativePathSteps(raw: seq<Vec3>, anchor: Vec3, scale: real)
    ensures RelativePath(raw, anchor, scale)[0] == anchor
    ensures forall i :: 1 <= i < |raw| ==>
      Sub(RelativePath(raw, anchor, scale)[i], RelativePath(raw, anchor, scale)[i - 1]) == Scale(scale, Sub(raw[i], raw[i - 1]))
  {
    var r := RelativePath(raw, anchor, scale);
    if |raw| > 0 {
      assert r[0] == Add(anchor, Scale(scale, Sub(raw[0], raw[0])));
    }
    forall i | 1 <= i < |raw|
      ensures Sub(r[i], r[i - 1]) == Scale(scale, Sub(raw[i], raw[i - 1]))
    {
      var a, b, c := raw[0], raw[i - 1], raw[i];
      assert scale * (c.x - a.x) - scale * (b.x - a.x) == scale * (c.x - b.x);
      assert scale * (c.y - a.y) - scale * (b.y - a.y) == scale * (c.y - b.y);
      assert scale * (c.z - a.z) - scale * (b.z - a.z) == scale * (c.z - b.z);
    }
  }

  /** Moving the anchor moves the whole path rigidly: only the start depends on the simulator. */
  lemma RelativePathRigid(raw: seq<Vec3>, a: Vec3, b: Vec3, scale: real)
    ensures forall k :: 0 <= k < |RelativePath(raw, a, scale)| ==>
      Sub(RelativePath(raw, a, scale)[k], RelativePath(raw, b, scale)[k]) == Sub(a, b)
  {
  }

  /** The absolute path: every recorded position transformed. */
  function AbsolutePath(raw: seq<Vec3>, t: Transform): (r: seq<Vec3>)
    ensures |r| == |raw|
  {
    seq(|raw|, k requires 0 <= k < |raw| => TransformPosition(raw[k], t))
  }

  /**
   * The relative path's steps are the absolute path's steps on x and y; on z they agree
   * without inversion and are opposite with it (the relative builder never inverts z).
   */
  lemma RelativeStepsVersusAbsolute(raw: seq<Vec3>, anchor: Vec3, t: Transform, i: nat)
    requires 1 <= i < |raw|
    ensures var rel, abs := RelativePath(raw, anchor, t.scale), AbsolutePath(raw, t);
      var dr, da := Sub(rel[i], rel[i - 1]), Sub(abs[i], abs[i - 1]);
      dr.x == da.x && dr.y == da.y && (if t.invertZ then dr.z == -da.z else dr.z == da.z)
  {
    RelativePathSteps(raw, anchor, t.scale);
    TransformDifference(raw[i], raw[i - 1], t);
  }

  /** The loop that builds both relative paths from the observed post-takeoff positions. */
  method BuildRelativePaths(episodeFrames: seq<Frame>, defenderStart: Vec3, attackerStart: Vec3, scale: real)
    returns (defenderPath: seq<Vec3>, attackerPath: seq<Vec3>)
    requires |episodeFrames| <= 1 || HasDrones(episodeFrames)
    ensures |defenderPath| == |attackerPath| == (if |episodeFrames| == 0 then 1 else |episodeFrames|)
    ensures defenderPath[0] == defenderStart && attackerPath[0] == attackerStart
    ensures |episodeFrames| >= 2 ==>
      defenderPath == RelativePath(DefenderPositions(episodeFrames), defenderStart, scale) &&
      attackerPath == RelativePath(AttackerPositions(episodeFrames), attackerStart, scale)
  {
    defenderPath := [defenderStart];
    attackerPath := [attackerStart];
    var i := 1;
    while i < |episodeFrames|
      invariant 1 <= i <= if |episodeFrames| == 0 then 1 else |episodeFrames|
      invariant |defenderPath| == i && |attackerPath| == i
      invariant defenderPath[0] == defenderStart && attackerPath[0] == attackerStart
      invariant |episodeFrames| >= 2 ==>
        var dr, ar := DefenderPositions(episodeFrames), AttackerPositions(episodeFrames);
        defenderPath == RelativePath(dr, defenderStart, scale)[..i] &&
        attackerPath == RelativePath(ar, attackerStart, scale)[..i]
    {
      var prev, curr := episodeFrames[i - 1], episodeFrames[i];
      var defenderDelta := Scale(scale, Sub(curr.defender.value.pos, prev.defender.value.pos));
      var attackerDelta := Scale(scale, Sub(curr.attacker.value.pos, prev.attacker.value.pos));
      ScaledStepsTelescope(defenderStart, scale, episodeFrames[0].defender.value.pos,
        prev.defender.value.pos, curr.defender.value.pos);
      ScaledStepsTelescope(attackerStart, scale, episodeFrames[0].attacker.value.pos,
        prev.attacker.value.pos, curr.attacker.value.pos);
      if i == 1 {
        assert defenderPath[0] == Add(defenderStart, Scale(scale, Sub(episodeFrames[0].defender.value.pos, episodeFrames[0].defender.value.pos)));
        assert attackerPath[0] == Add(attackerStart, Scale(scale, Sub(episodeFrames[0].attacker.value.pos, episodeFrames[0].attacker.value.pos)));
      }
      defenderPath := defenderPath + [Add(defenderPath[i - 1], defenderDelta)];
      attackerPath := attackerPath + [Add(attackerPath[i - 1], attackerDelta)];
      i := i + 1;
    }
  }

  /**
   * Trail and marker points: x and y as every transform with this scale places them, whatever
   * its inversion and offset, and z left as recorded.
   */
  function VisualPoint(p: Vec3, scale: real): (r: Vec3)
    ensures forall t: Transform :: t.scale == scale ==>
      r.x == TransformPosition(p, t).x && r.y == TransformPosition(p, t).y
    ensures r.z == p.z
  {
    Vec3(p.x * scale, p.y * scale, p.z)
  }

  /** The loop that builds the trails drawn for both drones, one point per frame. */
  method BuildVisualPaths(episodeFrames: seq<Frame>, scale: real)
    returns (defenderVisual: seq<Vec3>, attackerVisual: seq<Vec3>)
    requires HasDrones(episodeFrames)
    ensures |defenderVisual| == |episodeFrames| && |attackerVisual| == |episodeFrames|
    ensures forall k :: 0 <= k < |episodeFrames| ==>
      defenderVisual[k] == VisualPoint(episodeFrames[k].defender.value.pos, scale) &&
      attackerVisual[k] == VisualPoint(episodeFrames[k].attacker.value.pos, scale)
  {
    defenderVisual, attackerVisual := [], [];
    for i := 0 to |episodeFrames|
      invariant |defenderVisual| == i && |attackerVisual| == i
      invariant forall k :: 0 <= k < i ==>
        defenderVisual[k] == VisualPoint(episodeFrames[k].defender.value.pos, scale) &&
        attackerVisual[k] == VisualPoint(episodeFrames[k].attacker.value.pos, scale)
    {
      var frame := episodeFrames[i];
      defenderVisual := defenderVisual + [VisualPoint(frame.defender.value.pos, scale)];
      attackerVisual := attackerVisual + [VisualPoint(frame.attacker.value.pos, scale)];
    }
  }

  /**
   * The monitoring loop: poll both drones each tick, record their positions, stop when both
   * are within 1.0 of their final waypoints, after at most 10000 ticks.
   */
  method MonitorFlight(poll: nat -> PollResult, finalDefender: Vec3, finalAttacker: Vec3)
    returns (e: MonitorEnd, defenderTrajectory: seq<Vec3>, attackerTrajectory: seq<Vec3>)
    ensures MonitorSpec(poll, finalDefender, finalAttacker, e)
    ensures |defenderTrajectory| == |attackerTrajectory| == PollsRead(e) <= MaxIterations
    ensures forall j :: 0 <= j < |defenderTrajectory| ==>
      poll(j).Poses? && defenderTrajectory[j] == poll(j).defender && attackerTrajectory[j] == poll(j).attacker
  {
    defenderTrajectory, attackerTrajectory := [], [];
    var iteration := 0;
    while iteration < MaxIterations
      invariant iteration <= MaxIterations
      invariant StillFlying(poll, finalDefender, finalAttacker, iteration)
      invariant |defenderTrajectory| == iteration && |attackerTrajectory| == iteration
      invariant forall j :: 0 <= j < iteration ==>
        poll(j).Poses? && defenderTrajectory[j] == poll(j).defender && attackerTrajectory[j] == poll(j).attacker
    {
      var r := poll(iteration);
      if r.Interrupted? {
        return Interrupt(iteration), defenderTrajectory, attackerTrajectory;
      }
      if r.QueryFailed? {
        return Fault(iteration), defenderTrajectory, attackerTrajectory;
      }
      defenderTrajectory := defenderTrajectory + [r.defender];
      attackerTrajectory := attackerTrajectory + [r.attacker];
      if Near(r.defender, finalDefender) && Near(r.attacker, finalAttacker) {
        return Arrived(iteration), defenderTrajectory, attackerTrajectory;
      }
      iteration := iteration + 1;
    }
    e := Exhausted;
  }

  /** Arming, a best-effort flush of old persistent markers, then takeoff. */
  function PlaybackStartup(): seq<Command> {
    ArmBoth() + [FlushPersistentMarkers] + TakeoffBoth()
  }

  /** After a normal loop exit: wait for both path tasks, then cancel whatever is left of them. */
  function FinishFlight(): seq<Command> {
    [Join(Defender), Join(Attacker), CancelLastTask(Defender), CancelLastTask(Attacker)]
  }

  /** How a playback run ended, as the except/finally structure distinguishes it. */
  datatype ExitCause = Completed | UserInterrupt | Error

  datatype Session = Session(cause: ExitCause, monitor: Option<MonitorEnd>,
                             defenderTrajectory: seq<Vec3>, attackerTrajectory: seq<Vec3>)

  const BaseVelocity: real := 0.25

  /** The frames after which path construction, marker drawing and the speed division succeed. */
  predicate Playable(episodeFrames: seq<Frame>, scale: real) {
    |episodeFrames| > 0 && HasDrones(episodeFrames) && episodeFrames[0].base.Some? && scale != 0.0
  }

  /** Persistent start markers for base, defender and attacker, then the two trails. */
  function OverlayCommands(first: Frame, scale: real, defenderVisual: seq<Vec3>, attackerVisual: seq<Vec3>): seq<Command>
    requires first.defender.Some? && first.attacker.Some? && first.base.Some?
  {
    [PlotPoints([VisualPoint(first.base.value, scale)], true),
     PlotPoints([VisualPoint(first.defender.value.pos, scale)], true),
     PlotPoints([VisualPoint(first.attacker.value.pos, scale)], true),
     PlotLineStrip(Defender, defenderVisual),
     PlotLineStrip(Attacker, attackerVisual)]
  }

  function VisualTrail(frames: seq<Frame>, scale: real, defender: bool): (r: seq<Vec3>)
    requires HasDrones(frames)
    ensures |r| == |frames|
  {
    seq(|frames|, k requires 0 <= k < |frames| =>
      VisualPoint(if defender then frames[k].defender.value.pos else frames[k].attacker.value.pos, scale))
  }

  /** The frames visualize_episode plays: frames[start_frame:end_frame] after the end clamp. */
  function EpisodeWindow(frames: seq<Frame>, startFrame: int, endFrame: Option<int>): (r: seq<Frame>)
    ensures |r| <= |frames|
    ensures startFrame == 0 && endFrame.None? ==> r == frames
    ensures 0 <= startFrame <= |frames| && (endFrame.None? || endFrame.value >= |frames|) ==> r == frames[startFrame..]
    ensures endFrame.Some? && 0 <= startFrame <= endFrame.value <= |frames| ==> r == frames[startFrame..endFrame.value]
  {
    Slice(frames, startFrame, ClampEndFrame(endFrame, |frames|))
  }

  /** The except clause a monitoring end leads to. */
  function CauseOf(e: MonitorEnd): ExitCause {
    match e
    case Interrupt(_) => UserInterrupt
    case Fault(_) => Error
    case _ => Completed
  }

  /**
   * visualize_episode: start up, build the relative paths from the observed post-takeoff
   * positions, draw overlays, dispatch both paths at one shared velocity, monitor, cancel
   * after a normal exit, and land on every exit path.
   */
  method PlayEpisode(frames: seq<Frame>, t: Transform, startFrame: int, endFrame: Option<int>,
                     defenderObserved: Vec3, attackerObserved: Vec3,
                     poll: nat -> PollResult, cleanupFailAt: Option<nat>)
    returns (session: Session, commands: seq<Command>)
    ensures var ef := EpisodeWindow(frames, startFrame, endFrame);
      !Playable(ef, t.scale) ==>
        session.cause == Error && session.monitor.None? &&
        commands == PlaybackStartup() +
          (if Playable(ef, 1.0) then
             OverlayCommands(ef[0], t.scale, VisualTrail(ef, t.scale, true), VisualTrail(ef, t.scale, false))
           else []) +
          Cleanup(cleanupFailAt)
    ensures var ef := EpisodeWindow(frames, startFrame, endFrame);
      Playable(ef, t.scale) ==>
        var dp := RelativePath(DefenderPositions(ef), defenderObserved, t.scale);
        var ap := RelativePath(AttackerPositions(ef), attackerObserved, t.scale);
        var v := BaseVelocity * t.scale;
        session.monitor.Some? &&
        MonitorSpec(poll, dp[|dp| - 1], ap[|ap| - 1], session.monitor.value) &&
        session.cause == CauseOf(session.monitor.value) &&
        commands == PlaybackStartup() +
          OverlayCommands(ef[0], t.scale, VisualTrail(ef, t.scale, true), VisualTrail(ef, t.scale, false)) +
          [MoveOnPath(Defender, dp, v), MoveOnPath(Attacker, ap, v)] +
          (if session.cause == Completed then FinishFlight() else []) +
          Cleanup(cleanupFailAt)
    ensures |session.defenderTrajectory| == |session.attackerTrajectory| <= MaxIterations
  {
    var ef := EpisodeWindow(frames, startFrame, endFrame);
    if !(|ef| > 0 && HasDrones(ef) && ef[0].base.Some?) {
      // KeyError or IndexError inside the try block
      session := Session(Error, None, [], []);
      commands := PlaybackStartup() + [] + Cleanup(cleanupFailAt);
      return;
    }
    session, commands := FlyEpisode(ef, t, defenderObserved, attackerObserved, poll, cleanupFailAt);
  }

  /** visualize_episode once the window has both drones in every frame and a base in the first. */
  method FlyEpisode(ef: seq<Frame>, t: Transform, defenderObserved: Vec3, attackerObserved: Vec3,
                    poll: nat -> PollResult, cleanupFailAt: Option<nat>)
    returns (session: Session, commands: seq<Command>)
    requires Playable(ef, 1.0)
    ensures t.scale == 0.0 ==>
      session.cause == Error && session.monitor.None? &&
      commands == PlaybackStartup() +
        OverlayCommands(ef[0], t.scale, VisualTrail(ef, t.scale, true), VisualTrail(ef, t.scale, false)) +
        Cleanup(cleanupFailAt)
    ensures t.scale != 0.0 ==>
      var dp := RelativePath(DefenderPositions(ef), defenderObserved, t.scale);
      var ap := RelativePath(AttackerPositions(ef), attackerObserved, t.scale);
      var v := BaseVelocity * t.scale;
      session.monitor.Some? &&
      MonitorSpec(poll, dp[|dp| - 1], ap[|ap| - 1], session.monitor.value) &&
      session.cause == CauseOf(session.monitor.value) &&
      commands == PlaybackStartup() +
        OverlayCommands(ef[0], t.scale, VisualTrail(ef, t.scale, true), VisualTrail(ef, t.scale, false)) +
        [MoveOnPath(Defender, dp, v), MoveOnPath(Attacker, ap, v)] +
        (if session.cause == Completed then FinishFlight() else []) +
        Cleanup(cleanupFailAt)
    ensures |session.defenderTrajectory| == |session.attackerTrajectory| <= MaxIterations
  {
    var cleanup := Cleanup(cleanupFailAt);
    var defenderPath, attackerPath := BuildRelativePaths(ef, defenderObserved, attackerObserved, t.scale);
    var defenderVisual, attackerVisual := BuildVisualPaths(ef, t.scale);
    assert defenderVisual == VisualTrail(ef, t.scale, true);
    assert attackerVisual == VisualTrail(ef, t.scale, false);
    var overlay := OverlayCommands(ef[0], t.scale, defenderVisual, attackerVisual);
    var velocity := BaseVelocity * t.scale;
    assert velocity == 0.0 <==> t.scale == 0.0;
    if velocity == 0.0 {
      // ZeroDivisionError computing the expected flight time
      session := Session(Error, None, [], []);
      commands := PlaybackStartup() + overlay + cleanup;
      return;
    }
    assert defenderPath == RelativePath(DefenderPositions(ef), defenderObserved, t.scale);
    assert attackerPath == RelativePath(AttackerPositions(ef), attackerObserved, t.scale);
    var dispatch := [MoveOnPath(Defender, defenderPath, velocity), MoveOnPath(Attacker, attackerPath, velocity)];
    var e, defenderTrajectory, attackerTrajectory :=
      MonitorFlight(poll, defenderPath[|defenderPath| - 1], attackerPath[|attackerPath| - 1]);
    ghost var dp, ap := defenderPath, attackerPath;
    assert MonitorSpec(poll, dp[|dp| - 1], ap[|ap| - 1], e);
    var cause := CauseOf(e);
    var finish := if cause == Completed then FinishFlight() else [];
    commands := PlaybackStartup() + overlay + dispatch + finish + cleanup;
    session := Session(cause, Some(e), defenderTrajectory, attackerTrajectory);
  }

  /** The settings update_settings_with_frame_0 creates when settings.json is missing. */
  function Frame0DefaultSettings(): map<string, Json> {
    map["SettingsVersion" := JNum(1.2), "SimMode" := JStr("Multirotor"), "ClockSpeed" := JNum(20.0),
        "ViewMode" := JStr("SpringArmChase"), "Vehicles" := JObject(map[])]
  }

  /** A vehicle's spawn entry: SimpleFlight at a position with a yaw. */
  function SpawnEntry(pos: Vec3, yaw: real): Json {
    JObject(map["VehicleType" := JStr("SimpleFlight"), "X" := JNum(pos.x), "Y" := JNum(pos.y),
                "Z" := JNum(pos.z), "Yaw" := JNum(yaw)])
  }

  /** Frame 0 assigns at least one spawn entry. */
  predicate AssignsVehicle(f: Frame) {
    f.defender.Some? || f.attacker.Some?
  }

  /** A vehicle entry frame 0 does not overwrite. */
  predicate KeptEntry(name: string, f: Frame) {
    !(name == "Defender" && f.defender.Some?) && !(name == "Attacker" && f.attacker.Some?)
  }

  /**
   * update_settings_with_frame_0: the dictionary written to settings.json, or None when nothing
   * is written (no frames, an unreadable or non-object file, or a Vehicles entry that is not a
   * dictionary when an entry must go into it; the exception is caught and reported).
   */
  method UpdateSettingsWithFrame0(frames: seq<Frame>, t: Transform, file: SettingsFile)
    returns (written: Option<map<string, Json>>)
    ensures var start := StartingSettings(file, Frame0DefaultSettings());
      written.None? <==>
        |frames| == 0 || start.None? ||
        (AssignsVehicle(frames[0]) && "Vehicles" in start.value && !start.value["Vehicles"].JObject?)
    ensures written.Some? ==>
      var start := StartingSettings(file, Frame0DefaultSettings()).value;
      var w := written.value;
      w.Keys == start.Keys + {"Vehicles"} &&
      (forall k :: k in start && k != "Vehicles" ==> w[k] == start[k]) &&
      (!AssignsVehicle(frames[0]) ==> w["Vehicles"] == (if "Vehicles" in start then start["Vehicles"] else JObject(map[])))
    ensures written.Some? && AssignsVehicle(frames[0]) ==>
      var start := StartingSettings(file, Frame0DefaultSettings()).value;
      var before := if "Vehicles" in start then start["Vehicles"].fields else map[];
      var f := frames[0];
      written.value["Vehicles"].JObject? &&
      var after := written.value["Vehicles"].fields;
      after.Keys == before.Keys + (if f.defender.Some? then {"Defender"} else {})
                                + (if f.attacker.Some? then {"Attacker"} else {}) &&
      (f.defender.Some? ==>
        after["Defender"] == SpawnEntry(TransformPosition(f.defender.value.pos, t), f.defender.value.rpy.z)) &&
      (f.attacker.Some? ==>
        after["Attacker"] == SpawnEntry(TransformPosition(f.attacker.value.pos, t), f.attacker.value.rpy.z)) &&
      (forall name :: name in before && KeptEntry(name, f) ==> after[name] == before[name])
  {
    if |frames| == 0 {
      return None;
    }
    var frame0 := frames[0];
    var loaded := StartingSettings(file, Frame0DefaultSettings());
    if loaded.None? {
      return None;
    }
    var settings := loaded.value;
    if "Vehicles" !in settings {
      settings := settings["Vehicles" := JObject(map[])];
    }
    if !AssignsVehicle(frame0) {
      return Some(settings);
    }
    if !settings["Vehicles"].JObject? {
      // TypeError: item assignment into a value that is not a dictionary
      return None;
    }
    var vehicles := settings["Vehicles"].fields;
    if frame0.defender.Some? {
      var d := frame0.defender.value;
      vehicles := vehicles["Defender" := SpawnEntry(TransformPosition(d.pos, t), d.rpy.z)];
    }
    if frame0.attacker.Some? {
      var a := frame0.attacker.value;
      vehicles := vehicles["Attacker" := SpawnEntry(TransformPosition(a.pos, t), a.rpy.z)];
    }
    settings := settings["Vehicles" := JObject(vehicles)];
    return Some(settings);
  }
}
