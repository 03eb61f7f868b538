/**
 * The single-drone trajectory runner: it flies the default vehicle through the waypoints of a
 * trajectory file (centimetres, converted to metres), logs the pose reached at each waypoint,
 * stops at the first collision, saves the log with its error statistics and lands.
 *
 * The simulator is abstracted as in the rest of the model: commands are appended to the
 * runner's `commands` trace, the pose and collision reads after each waypoint are the parameter
 * `readings`, the wall clock is `clock` (its k-th read), and the Euclidean norm of the position
 * error is the parameter `norm`.
 */
module RunTrajectoryAuto {
  import opened Wrappers
  import opened Geometry
  import opened Text
  import opened Simulator
  import Config

  datatype TrajectoryWaypoint = TrajectoryWaypoint(
    id: int,
    description: string,
    position: Option<Vec3>,     // centimetres; None when the 'position' key is absent
    yaw: Option<real>)

  datatype Trajectory = Trajectory(
    name: string,
    description: string,
    waypoints: seq<TrajectoryWaypoint>,
    velocity: real)

  /** What the script reads back after reaching a waypoint. */
  datatype Reading = Reading(actual: Vec3, collided: bool)

  datatype LogEntry = LogEntry(waypointId: int, timestamp: real, target: Vec3, actual: Vec3, error: real)

  datatype ErrorStats = ErrorStats(mean: real, max: real, min: real)

  datatype LogFile = LogFile(
    fileName: string,
    trajectory: string,
    timestamp: string,
    totalTimeSeconds: real,
    waypoints: seq<LogEntry>,
    meanError: real,
    maxError: real,
    completed: nat,
    total: nat)

  /** How run_trajectory returns: normally, by an exception, or by KeyboardInterrupt. */
  datatype RunEnd = RunFinished | RunFailed(error: Error) | RunInterrupted

  const DefaultYaw: real := 0.0
  const ClimbVelocity: real := 2.0

  // ---- the waypoint loop as a specification

  /** Where the waypoint loop, from waypoint `i` on, stops: `logged` is one past the last logged waypoint. */
  datatype Walked = Walked(logged: nat, end: RunEnd)

  /**
   * The loop of run_trajectory from waypoint `i`: a waypoint without a position raises KeyError
   * before anything is sent, an interrupt during its move ends the run unlogged, and a collision
   * read after logging it ends the loop.
   */
  function Walk(wps: seq<TrajectoryWaypoint>, readings: nat -> Reading, interruptAt: Option<nat>, i: nat): (r: Walked)
    requires i <= |wps|
    ensures i <= r.logged <= |wps|
    ensures forall j :: i <= j < r.logged ==> wps[j].position.Some?
    ensures r.end.RunInterrupted? ==> r.logged < |wps| && wps[r.logged].position.Some?
    decreases |wps| - i
  {
    if i == |wps| then Walked(i, RunFinished)
    else if wps[i].position.None? then Walked(i, RunFailed(KeyMissing))
    else if interruptAt == Some(i) then Walked(i, RunInterrupted)
    else if readings(i).collided then Walked(i + 1, RunFinished)
    else Walk(wps, readings, interruptAt, i + 1)
  }

  function Target(w: TrajectoryWaypoint): Vec3
    requires w.position.Some?
  {
    CentimetersToMeters(w.position.value)
  }

  /** moveToPositionAsync(x, y, z, velocity, yaw) for one waypoint, its yaw defaulting to 0. */
  function MoveCommand(w: TrajectoryWaypoint, velocity: real): Command
    requires w.position.Some?
  {
    MoveToPosition(DefaultVehicle, Target(w), velocity, None, Some(w.yaw.GetOr(DefaultYaw)))
  }

  /** The moves, each joined, to the first `n` waypoints. */
  function MoveTrace(wps: seq<TrajectoryWaypoint>, velocity: real, n: nat): (r: seq<Command>)
    requires n <= |wps|
    requires forall j :: 0 <= j < n ==> wps[j].position.Some?
    ensures |r| == 2 * n
  {
    if n == 0 then [] else MoveTrace(wps, velocity, n - 1) + [MoveCommand(wps[n - 1], velocity), Join(DefaultVehicle)]
  }

  /** The log entry of waypoint `j`, read with the (j+1)-th clock read (the 0th is the start). */
  function EntryAt(wps: seq<TrajectoryWaypoint>, readings: nat -> Reading, clock: nat -> real, norm: Vec3 -> real, j: nat): LogEntry
    requires j < |wps| && wps[j].position.Some?
  {
    var target := Target(wps[j]);
    LogEntry(wps[j].id, clock(j + 1) - clock(0), target, readings(j).actual, norm(Sub(readings(j).actual, target)))
  }

  /** One log entry per visited waypoint, in order, each carrying that waypoint's id and target. */
  function EntriesFor(wps: seq<TrajectoryWaypoint>, readings: nat -> Reading, clock: nat -> real, norm: Vec3 -> real, n: nat): (r: seq<LogEntry>)
    requires n <= |wps|
    requires forall j :: 0 <= j < n ==> wps[j].position.Some?
    ensures |r| == n
  {
    if n == 0 then [] else EntriesFor(wps, readings, clock, norm, n - 1) + [EntryAt(wps, readings, clock, norm, n - 1)]
  }

  /** Entry j of the log is waypoint j's: its id, its target in metres and the pose read there. */
  lemma {:induction false} EntriesCarryWaypoints(wps: seq<TrajectoryWaypoint>, readings: nat -> Reading, clock: nat -> real, norm: Vec3 -> real, n: nat)
    requires n <= |wps|
    requires forall j :: 0 <= j < n ==> wps[j].position.Some?
    ensures var r := EntriesFor(wps, readings, clock, norm, n);
      forall j :: 0 <= j < n ==>
        r[j].waypointId == wps[j].id && r[j].target == Target(wps[j]) && r[j].actual == readings(j).actual &&
        r[j].timestamp == clock(j + 1) - clock(0)
  {
    if n > 0 {
      EntriesCarryWaypoints(wps, readings, clock, norm, n - 1);
    }
  }

  /** The trace of a run that ended as `w` says: the joined moves, plus the unjoined move an interrupt cut short. */
  function RunTrace(t: Trajectory, w: Walked): seq<Command>
    requires w.logged <= |t.waypoints|
    requires forall j :: 0 <= j < w.logged ==> t.waypoints[j].position.Some?
    requires w.end.RunInterrupted? ==> w.logged < |t.waypoints| && t.waypoints[w.logged].position.Some?
  {
    MoveTrace(t.waypoints, t.velocity, w.logged) +
    (if w.end.RunInterrupted? then [MoveCommand(t.waypoints[w.logged], t.velocity)] else [])
  }

  /**
   * The loop visits a prefix of the waypoints, in order; it goes past a waypoint only when no
   * collision was read there, and a normal end before the last waypoint means the last logged
   * one collided. A failure or an interrupt names the waypoint that caused it.
   */
  lemma {:induction false} WalkStopsAtFirstCollision(wps: seq<TrajectoryWaypoint>, readings: nat -> Reading, interruptAt: Option<nat>, i: nat)
    requires i <= |wps|
    ensures var w := Walk(wps, readings, interruptAt, i);
      (forall j :: i <= j < w.logged ==> interruptAt != Some(j)) &&
      (forall j :: i <= j < w.logged - 1 ==> !readings(j).collided) &&
      (w.end.RunFinished? && w.logged < |wps| ==> i < w.logged && readings(w.logged - 1).collided) &&
      (w.end.RunFailed? ==> w.logged < |wps| && wps[w.logged].position.None? && w.end.error == KeyMissing) &&
      (w.end.RunInterrupted? ==> w.logged < |wps| && wps[w.logged].position.Some? && interruptAt == Some(w.logged))
    decreases |wps| - i
  {
    if i < |wps| && wps[i].position.Some? && interruptAt != Some(i) && !readings(i).collided {
      WalkStopsAtFirstCollision(wps, readings, interruptAt, i + 1);
    }
  }

  /** With every position present, no interrupt and no collision, all waypoints are visited. */
  lemma {:induction false} WalkVisitsAll(wps: seq<TrajectoryWaypoint>, readings: nat -> Reading, i: nat)
    requires i <= |wps|
    requires forall j :: i <= j < |wps| ==> wps[j].position.Some? && !readings(j).collided
    ensures Walk(wps, readings, None, i) == Walked(|wps|, RunFinished)
    decreases |wps| - i
  {
    if i < |wps| {
      WalkVisitsAll(wps, readings, i + 1);
    }
  }

  /** One pass of the loop: a waypoint that is logged extends the move trace and the log by its own part. */
  lemma WalkStep(wps: seq<TrajectoryWaypoint>, readings: nat -> Reading, clock: nat -> real, norm: Vec3 -> real,
                 interruptAt: Option<nat>, velocity: real, i: nat)
    requires i < |wps|
    requires forall j :: 0 <= j <= i ==> wps[j].position.Some?
    requires interruptAt != Some(i)
    ensures MoveTrace(wps, velocity, i + 1) == MoveTrace(wps, velocity, i) + [MoveCommand(wps[i], velocity), Join(DefaultVehicle)]
    ensures EntriesFor(wps, readings, clock, norm, i + 1) == EntriesFor(wps, readings, clock, norm, i) + [EntryAt(wps, readings, clock, norm, i)]
    ensures Walk(wps, readings, interruptAt, i) ==
      if readings(i).collided then Walked(i + 1, RunFinished) else Walk(wps, readings, interruptAt, i + 1)
  {
  }

  // ---- error statistics

  function Errors(log: seq<LogEntry>): (r: seq<real>)
    ensures |r| == |log|
    ensures forall j :: 0 <= j < |log| ==> r[j] == log[j].error
  {
    seq(|log|, j requires 0 <= j < |log| => log[j].error)
  }

  function MaxOf(xs: seq<real>): (r: real)
    requires |xs| > 0
    ensures forall j :: 0 <= j < |xs| ==> xs[j] <= r
    ensures exists j :: 0 <= j < |xs| && xs[j] == r
  {
    if |xs| == 1 then xs[0]
    else
      var m := MaxOf(xs[1..]);
      assert forall j :: 1 <= j < |xs| ==> xs[j] == xs[1..][j - 1];
      if xs[0] >= m then xs[0] else m
  }

  function MinOf(xs: seq<real>): (r: real)
    requires |xs| > 0
    ensures forall j :: 0 <= j < |xs| ==> r <= xs[j]
    ensures exists j :: 0 <= j < |xs| && xs[j] == r
  {
    if |xs| == 1 then xs[0]
    else
      var m := MinOf(xs[1..]);
      assert forall j :: 1 <= j < |xs| ==> xs[j] == xs[1..][j - 1];
      if xs[0] <= m then xs[0] else m
  }

  /** np.mean, np.max and np.min of the errors. */
  function Statistics(errors: seq<real>): ErrorStats
    requires |errors| > 0
  {
    ErrorStats(Config.Mean(errors), MaxOf(errors), MinOf(errors))
  }

  /** When every element lies between `lo` and `hi`, the sum lies between n * lo and n * hi. */
  lemma {:induction false} SumBetween(xs: seq<real>, lo: real, hi: real)
    requires forall j :: 0 <= j < |xs| ==> lo <= xs[j] <= hi
    ensures (|xs| as real) * lo <= Config.Sum(xs) <= (|xs| as real) * hi
  {
    if |xs| > 0 {
      var rest := xs[1..];
      assert forall j :: 0 <= j < |rest| ==> rest[j] == xs[j + 1];
      SumBetween(rest, lo, hi);
      var m := |rest| as real;
      assert Config.Sum(xs) == xs[0] + Config.Sum(rest);
      assert |xs| as real == m + 1.0;
      assert (m + 1.0) * lo == m * lo + lo && (m + 1.0) * hi == m * hi + hi;
    }
  }

  /** Dividing by a positive count keeps a quotient between the bounds its numerator had. */
  lemma QuotientBetween(s: real, n: real, lo: real, hi: real)
    requires n > 0.0 && n * lo <= s <= n * hi
    ensures lo <= s / n <= hi
  {
    assert (s / n) * n == s;
  }

  /** The reported statistics are ordered: min <= mean <= max. */
  lemma StatisticsOrdered(errors: seq<real>)
    requires |errors| > 0
    ensures var s := Statistics(errors); s.min <= s.mean <= s.max
  {
    var lo, hi := MinOf(errors), MaxOf(errors);
    var total, n := Config.Sum(errors), |errors| as real;
    SumBetween(errors, lo, hi);
    QuotientBetween(total, n, lo, hi);
    assert Statistics(errors) == ErrorStats(total / n, hi, lo);
  }

  // ---- the log file

  /** name.replace(' ', '_').lower() + "_" + timestamp + ".json" */
  function LogFileName(name: string, stamp: string): (r: string)
    ensures |r| == |name| + 1 + |stamp| + 5
    ensures forall j :: 0 <= j < |name| ==> r[j] == (if name[j] == ' ' then '_' else LowerChar(name[j]))
    ensures forall j :: 0 <= j < |name| ==> r[j] != ' ' && !IsUpperAscii(r[j])
    ensures r[|name|] == '_' && r[|name| + 1..|name| + 1 + |stamp|] == stamp
    ensures r[|r| - 5..] == ".json"
  {
    Lower(ReplaceChar(name, ' ', '_')) + "_" + stamp + ".json"
  }

  /** A name already lower-case and without spaces is kept as the file name's stem. */
  lemma LogFileNameKeepsPlainNames(name: string, stamp: string)
    requires forall j :: 0 <= j < |name| ==> name[j] != ' ' && !IsUpperAscii(name[j])
    ensures LogFileName(name, stamp) == name + "_" + stamp + ".json"
  {
    var r := LogFileName(name, stamp);
    var e := name + "_" + stamp + ".json";
    forall j | 0 <= j < |name| ensures r[j] == e[j] {
      assert LowerChar(name[j]) == name[j];
    }
    assert r[..|name|] == e[..|name|];
    assert r[|name|..] == e[|name|..];
    assert r == r[..|name|] + r[|name|..];
    assert e == e[..|name|] + e[|name|..];
  }

  function LandSteps(): seq<Command> {
    [Land(DefaultVehicle), Join(DefaultVehicle), ArmDisarm(DefaultVehicle, false), EnableApiControl(DefaultVehicle, false)]
  }

  /** land_and_disarm as run when step `failAt` (if any) raises: the steps up to and including it. */
  function LandAttempt(failAt: Option<nat>): (r: seq<Command>)
    ensures 1 <= |r| <= |LandSteps()| && r[0] == Land(DefaultVehicle)
    ensures r == LandSteps()[..|r|]
    ensures |r| == |LandSteps()| <==> failAt.None? || failAt.value >= |LandSteps()| - 1
  {
    if failAt.Some? && failAt.value < |LandSteps()| then LandSteps()[..failAt.value + 1] else LandSteps()
  }

  predicate LandFails(failAt: Option<nat>) {
    failAt.Some? && failAt.value < |LandSteps()|
  }

  function SetupPrefix(): seq<Command> {
    [ResetSimulation, EnableApiControl(DefaultVehicle, true), ArmDisarm(DefaultVehicle, true)]
  }

  /** setup_drone's trace: reset, control, arm, then, given a first waypoint with a position, take off and climb to its z. */
  function SetupTrace(t: Trajectory): seq<Command> {
    if |t.waypoints| > 0 && t.waypoints[0].position.Some?
    then SetupPrefix() + [Takeoff(DefaultVehicle), Join(DefaultVehicle),
                          MoveToZ(DefaultVehicle, Target(t.waypoints[0]).z, ClimbVelocity), Join(DefaultVehicle)]
    else SetupPrefix()
  }

  predicate SetupSucceeds(t: Trajectory) {
    |t.waypoints| > 0 && t.waypoints[0].position.Some?
  }

  /**
   * setup_drone always resets, takes control and arms; it goes on to take off and climb to the
   * first waypoint's height, in metres, exactly when that waypoint exists with a position.
   */
  lemma SetupTraceShape(t: Trajectory)
    ensures var r := SetupTrace(t); |r| >= 3 && r[..3] == SetupPrefix()
    ensures |SetupTrace(t)| > 3 <==> SetupSucceeds(t)
    ensures SetupSucceeds(t) ==> var r := SetupTrace(t);
      r[3] == Takeoff(DefaultVehicle) &&
      r[|r| - 2] == MoveToZ(DefaultVehicle, t.waypoints[0].position.value.z / 100.0, ClimbVelocity)
  {
  }

  /**
   * The loop of run_trajectory over the waypoints of `t`: the log entries it records and the
   * commands it sends, stopping as Walk says.
   */
  method WaypointLoop(t: Trajectory, readings: nat -> Reading, clock: nat -> real, norm: Vec3 -> real, interruptAt: Option<nat>)
    returns (w: Walked, log: seq<LogEntry>, sent: seq<Command>)
    ensures w == Walk(t.waypoints, readings, interruptAt, 0)
    ensures log == EntriesFor(t.waypoints, readings, clock, norm, w.logged)
    ensures sent == RunTrace(t, w)
  {
    var wps := t.waypoints;
    ghost var spec := Walk(wps, readings, interruptAt, 0);
    log, sent := [], [];
    var i := 0;
    var end := RunFinished;
    while i < |wps|
      invariant i <= |wps|
      invariant forall j :: 0 <= j < i ==> wps[j].position.Some?
      invariant Walk(wps, readings, interruptAt, i) == spec
      invariant log == EntriesFor(wps, readings, clock, norm, i)
      invariant sent == MoveTrace(wps, t.velocity, i)
    {
      var wp := wps[i];
      if wp.position.None? {
        end := RunFailed(KeyMissing);
        assert spec == Walked(i, end);
        break;
      }
      var move := MoveCommand(wp, t.velocity);
      if interruptAt == Some(i) {
        end := RunInterrupted;
        assert spec == Walked(i, end);
        sent := sent + [move];
        break;
      }
      WalkStep(wps, readings, clock, norm, interruptAt, t.velocity, i);
      sent := sent + [move, Join(DefaultVehicle)];
      var collided := readings(i).collided;
      log := log + [EntryAt(wps, readings, clock, norm, i)];
      i := i + 1;
      if collided {
        assert spec == Walked(i, end);
        break;
      }
    }
    w := Walked(i, end);
  }

  class TrajectoryRunner {
    var trajectory: Option<Trajectory>
    var startTime: Option<real>
    var positionsLog: seq<LogEntry>
    var commands: seq<Command>

    constructor ()
      ensures trajectory == None && startTime == None && positionsLog == [] && commands == []
    {
      trajectory := None;
      startTime := None;
      positionsLog := [];
      commands := [];
    }

    /** load_trajectory: `file` is None when it does not exist or cannot be read as a trajectory. */
    method LoadTrajectory(file: Option<Trajectory>) returns (ok: bool)
      modifies this`trajectory
      ensures ok <==> file.Some?
      ensures trajectory == (if file.Some? then file else old(trajectory))
    {
      ok := file.Some?;
      if ok {
        trajectory := file;
      }
    }

    /**
     * setup_drone: reset, enable control and arm, then take off and climb to the first
     * waypoint's altitude. No trajectory (TypeError), no waypoint (IndexError) or no position
     * (KeyError) raises after the first three commands.
     */
    method SetupDrone() returns (r: Result<real>)
      modifies this`commands
      ensures old(trajectory).None? ==> r == Err(TypeMismatch) && commands == old(commands) + SetupPrefix()
      ensures old(trajectory).Some? ==>
        var t := old(trajectory).value;
        commands == old(commands) + SetupTrace(t) &&
        (r.Ok? <==> SetupSucceeds(t)) &&
        (|t.waypoints| == 0 ==> r == Err(IndexOutOfRange)) &&
        (|t.waypoints| > 0 && t.waypoints[0].position.None? ==> r == Err(KeyMissing)) &&
        (r.Ok? ==> r.value * 100.0 == t.waypoints[0].position.value.z)
    {
      commands := commands + SetupPrefix();
      if trajectory.None? {
        return Err(TypeMismatch);
      }
      var t := trajectory.value;
      if |t.waypoints| == 0 {
        return Err(IndexOutOfRange);
      }
      if t.waypoints[0].position.None? {
        return Err(KeyMissing);
      }
      var z := t.waypoints[0].position.value.z / 100.0;
      commands := commands + [Takeoff(DefaultVehicle), Join(DefaultVehicle), MoveToZ(DefaultVehicle, z, ClimbVelocity), Join(DefaultVehicle)];
      r := Ok(z);
    }

    /** The waypoint loop of run_trajectory for the trajectory `t`, appending its log entries and commands. */
    method FlyWaypoints(t: Trajectory, readings: nat -> Reading, clock: nat -> real, norm: Vec3 -> real, interruptAt: Option<nat>)
      returns (w: Walked)
      modifies this`positionsLog, this`commands
      ensures w == Walk(t.waypoints, readings, interruptAt, 0)
      ensures positionsLog == old(positionsLog) + EntriesFor(t.waypoints, readings, clock, norm, w.logged)
      ensures commands == old(commands) + RunTrace(t, w)
    {
      var log, sent;
      w, log, sent := WaypointLoop(t, readings, clock, norm, interruptAt);
      positionsLog := positionsLog + log;
      commands := commands + sent;
    }

    /**
     * run_trajectory: flies the waypoints in order and appends one log entry per visited
     * waypoint to the log (which earlier runs may already hold). When it ends normally with a
     * non-empty log it reports the statistics and, if asked, saves the log, reading the clock
     * once for the total time and once more inside save_log.
     */
    method RunTrajectory(readings: nat -> Reading, clock: nat -> real, norm: Vec3 -> real, interruptAt: Option<nat>,
                         saveLog: bool, stamp: string)
      returns (end: RunEnd, stats: Option<ErrorStats>, saved: Option<LogFile>)
      modifies this`startTime, this`positionsLog, this`commands
      ensures old(trajectory).None? ==>
        end == RunFailed(TypeMismatch) && stats.None? && saved.None? &&
        startTime == old(startTime) && positionsLog == old(positionsLog) && commands == old(commands)
      ensures old(trajectory).Some? ==>
        var t := old(trajectory).value;
        var w := Walk(t.waypoints, readings, interruptAt, 0);
        end == w.end && startTime == Some(clock(0)) &&
        positionsLog == old(positionsLog) + EntriesFor(t.waypoints, readings, clock, norm, w.logged) &&
        commands == old(commands) + RunTrace(t, w) &&
        (stats.Some? <==> end.RunFinished? && |positionsLog| > 0) &&
        (stats.Some? ==> stats.value == Statistics(Errors(positionsLog))) &&
        (saved.Some? <==> stats.Some? && saveLog) &&
        (saved.Some? ==> saved.value == LogOf(t, stamp, clock(w.logged + 2) - clock(0), positionsLog))
      ensures saved.Some? ==>
        saved.value.completed == |positionsLog| > 0 && saved.value.meanError <= saved.value.maxError
    {
      stats, saved := None, None;
      if trajectory.None? {
        return RunFailed(TypeMismatch), stats, saved;
      }
      var t := trajectory.value;
      startTime := Some(clock(0));
      var w := FlyWaypoints(t, readings, clock, norm, interruptAt);
      end := w.end;
      if end.RunFinished? && |positionsLog| > 0 {
        stats := Some(Statistics(Errors(positionsLog)));
        if saveLog {
          var total := clock(w.logged + 2) - clock(0);
          var file := SaveLog(stamp, total);
          saved := Some(file);
        }
      }
    }

    /** save_log: the logged entries with their mean and maximum error, and completed/total counts. */
    method SaveLog(stamp: string, totalTime: real) returns (file: LogFile)
      requires trajectory.Some? && |positionsLog| > 0
      ensures file == LogOf(trajectory.value, stamp, totalTime, positionsLog)
      ensures file.fileName == LogFileName(trajectory.value.name, stamp)
      ensures file.completed == |positionsLog| && file.total == |trajectory.value.waypoints|
      ensures file.meanError <= file.maxError
    {
      var t := trajectory.value;
      var errors := Errors(positionsLog);
      StatisticsOrdered(errors);
      file := LogFile(LogFileName(t.name, stamp), t.name, stamp, totalTime, positionsLog,
                      Config.Mean(errors), MaxOf(errors), |positionsLog|, |t.waypoints|);
    }

    /** land_and_disarm: land (joined), disarm, release; `failAt` is the step that raises, if any. */
    method LandAndDisarm(failAt: Option<nat>) returns (ok: bool)
      modifies this`commands
      ensures ok <==> !LandFails(failAt)
      ensures commands == old(commands) + LandAttempt(failAt)
    {
      var attempt := LandAttempt(failAt);
      commands := commands + attempt;
      ok := !LandFails(failAt);
    }
  }

  /** The log save_log writes for these entries. */
  function LogOf(t: Trajectory, stamp: string, totalTime: real, log: seq<LogEntry>): LogFile
    requires |log| > 0
  {
    LogFile(LogFileName(t.name, stamp), t.name, stamp, totalTime, log,
            Config.Mean(Errors(log)), MaxOf(Errors(log)), |log|, |t.waypoints|)
  }

  /** How far main got before it stopped. */
  datatype ScriptEnd = Usage | LoadFailed | SetupFailed | RunStopped | LandingFailed | Landed

  /** Where main stops: the first stage of the try block that raises, if any. */
  function ScriptStage(argument: Option<string>, file: Option<Trajectory>, readings: nat -> Reading,
                       interruptAt: Option<nat>, landFailAt: Option<nat>): ScriptEnd
  {
    if argument.None? then Usage
    else if file.None? then LoadFailed
    else if !SetupSucceeds(file.value) then SetupFailed
    else if !Walk(file.value.waypoints, readings, interruptAt, 0).end.RunFinished? then RunStopped
    else if LandFails(landFailAt) then LandingFailed
    else Landed
  }

  /** The commands the try block of main sends before it stops or completes. */
  function TryTrace(file: Option<Trajectory>, readings: nat -> Reading, interruptAt: Option<nat>, landFailAt: Option<nat>): seq<Command> {
    if file.None? then []
    else if !SetupSucceeds(file.value) then SetupTrace(file.value)
    else
      var t := file.value;
      var w := Walk(t.waypoints, readings, interruptAt, 0);
      SetupTrace(t) + RunTrace(t, w) + (if w.end.RunFinished? then LandAttempt(landFailAt) else [])
  }

  /** The whole trace of main: the try block, then the handler's landing attempt when a stage raised. */
  function ScriptTrace(argument: Option<string>, file: Option<Trajectory>, readings: nat -> Reading,
                       interruptAt: Option<nat>, landFailAt: Option<nat>, retryFailAt: Option<nat>): seq<Command>
  {
    var stage := ScriptStage(argument, file, readings, interruptAt, landFailAt);
    if stage == Usage then []
    else TryTrace(file, readings, interruptAt, landFailAt) + (if stage == Landed then [] else LandAttempt(retryFailAt))
  }

  /**
   * main's trace when it stops early: nothing without an argument, only the handler's landing
   * when the file does not load, and the setup steps issued, then that landing, when setup raises.
   */
  lemma ScriptTraceFailedStages(argument: Option<string>, file: Option<Trajectory>, readings: nat -> Reading,
                                interruptAt: Option<nat>, landFailAt: Option<nat>, retryFailAt: Option<nat>)
    ensures var r := ScriptTrace(argument, file, readings, interruptAt, landFailAt, retryFailAt);
      (argument.None? ==> r == []) &&
      (argument.Some? && file.None? ==> r == LandAttempt(retryFailAt)) &&
      (argument.Some? && file.Some? && !SetupSucceeds(file.value) ==>
         r == SetupTrace(file.value) + LandAttempt(retryFailAt))
  {
  }

  /**
   * Whatever stage fails, main ends by attempting land_and_disarm: the trace always ends with a
   * landing sequence started by land(), and when a stage raised that sequence is the handler's.
   */
  lemma ScriptEndsWithLanding(argument: Option<string>, file: Option<Trajectory>, readings: nat -> Reading,
                              interruptAt: Option<nat>, landFailAt: Option<nat>, retryFailAt: Option<nat>)
    requires argument.Some?
    ensures var tr := ScriptTrace(argument, file, readings, interruptAt, landFailAt, retryFailAt);
      exists n :: 1 <= n <= |LandSteps()| && n <= |tr| && tr[|tr| - n..] == LandSteps()[..n]
    ensures var tr := ScriptTrace(argument, file, readings, interruptAt, landFailAt, retryFailAt);
      ScriptStage(argument, file, readings, interruptAt, landFailAt) != Landed ==>
      |tr| >= |LandAttempt(retryFailAt)| && tr[|tr| - |LandAttempt(retryFailAt)|..] == LandAttempt(retryFailAt)
  {
    var tr := ScriptTrace(argument, file, readings, interruptAt, landFailAt, retryFailAt);
    var stage := ScriptStage(argument, file, readings, interruptAt, landFailAt);
    var front := TryTrace(file, readings, interruptAt, landFailAt);
    var last := if stage == Landed then [] else LandAttempt(retryFailAt);
    assert tr == front + last;
    if stage == Landed {
      var w := Walk(file.value.waypoints, readings, interruptAt, 0);
      var l := LandAttempt(landFailAt);
      assert tr == SetupTrace(file.value) + RunTrace(file.value, w) + l;
      assert tr[|tr| - |l|..] == l;
    } else {
      assert tr[|tr| - |last|..] == last;
    }
  }

  /** A loaded trajectory's run always starts with reset, enable control and arm. */
  lemma ScriptStartsWithSetup(argument: Option<string>, file: Option<Trajectory>, readings: nat -> Reading,
                              interruptAt: Option<nat>, landFailAt: Option<nat>, retryFailAt: Option<nat>)
    requires argument.Some? && file.Some?
    ensures var tr := ScriptTrace(argument, file, readings, interruptAt, landFailAt, retryFailAt);
      |tr| >= 3 && tr[..3] == SetupPrefix()
  {
    var tr := ScriptTrace(argument, file, readings, interruptAt, landFailAt, retryFailAt);
    var st := SetupTrace(file.value);
    assert st[..3] == SetupPrefix();
    assert tr == st + tr[|st|..];
  }

  /**
   * main: with no argument it exits with status 1 and does nothing. Otherwise load, set up,
   * run (saving the log) and land; an error or an interrupt at any stage, including a failing
   * landing, goes to a handler that attempts land_and_disarm once more and swallows its
   * failure, so the script then ends normally.
   */
  method RunTrajectoryScript(argument: Option<string>, file: Option<Trajectory>, readings: nat -> Reading,
                             clock: nat -> real, norm: Vec3 -> real, interruptAt: Option<nat>, stamp: string,
                             landFailAt: Option<nat>, retryFailAt: Option<nat>)
    returns (exitCode: int, stage: ScriptEnd, commands: seq<Command>, saved: Option<LogFile>)
    ensures exitCode == (if argument.None? then 1 else 0)
    ensures stage == ScriptStage(argument, file, readings, interruptAt, landFailAt)
    ensures commands == ScriptTrace(argument, file, readings, interruptAt, landFailAt, retryFailAt)
    ensures saved.Some? <==>
      stage in {RunStopped, LandingFailed, Landed} && Walk(file.value.waypoints, readings, interruptAt, 0).end.RunFinished? &&
      Walk(file.value.waypoints, readings, interruptAt, 0).logged > 0
    ensures saved.Some? ==> saved.value.completed > 0 && saved.value.meanError <= saved.value.maxError
  {
    saved := None;
    if argument.None? {
      return 1, Usage, [], saved;
    }
    exitCode := 0;
    var runner := new TrajectoryRunner();
    var loaded := runner.LoadTrajectory(file);
    if !loaded {
      var _ := runner.LandAndDisarm(retryFailAt);
      return exitCode, LoadFailed, runner.commands, saved;
    }
    stage, saved := RunLoaded(runner, file.value, readings, clock, norm, interruptAt, stamp, landFailAt, retryFailAt);
    commands := runner.commands;
    if SetupSucceeds(file.value) {
      LoadedScriptTrace(argument, file.value, readings, interruptAt, landFailAt, retryFailAt);
    }
  }

  /** main after the trajectory loaded: set up, run, land, and the handler when a stage raises. */
  method RunLoaded(runner: TrajectoryRunner, t: Trajectory, readings: nat -> Reading,
                   clock: nat -> real, norm: Vec3 -> real, interruptAt: Option<nat>, stamp: string,
                   landFailAt: Option<nat>, retryFailAt: Option<nat>)
    returns (stage: ScriptEnd, saved: Option<LogFile>)
    requires runner.trajectory == Some(t) && runner.commands == [] && runner.positionsLog == []
    modifies runner
    ensures !SetupSucceeds(t) ==>
      stage == SetupFailed && saved.None? && runner.commands == SetupTrace(t) + LandAttempt(retryFailAt)
    ensures SetupSucceeds(t) ==>
      var w := Walk(t.waypoints, readings, interruptAt, 0);
      runner.commands == SetupTrace(t) + RunTrace(t, w) + Landings(w.end, landFailAt, retryFailAt) &&
      stage == (if !w.end.RunFinished? then RunStopped else if LandFails(landFailAt) then LandingFailed else Landed) &&
      (saved.Some? <==> w.end.RunFinished? && w.logged > 0)
    ensures saved.Some? ==> saved.value.completed > 0 && saved.value.meanError <= saved.value.maxError
  {
    saved := None;
    var setup := runner.SetupDrone();
    ghost var afterSetup := runner.commands;
    assert afterSetup == SetupTrace(t) && (setup.Ok? <==> SetupSucceeds(t));
    if setup.Err? {
      var _ := runner.LandAndDisarm(retryFailAt);
      assert runner.commands == afterSetup + LandAttempt(retryFailAt);
      return SetupFailed, saved;
    }
    stage, saved := FlyAndLand(runner, t, readings, clock, norm, interruptAt, stamp, landFailAt, retryFailAt);
  }

  /** After a successful setup, main's trace is the setup, the run and the landing attempts. */
  lemma LoadedScriptTrace(argument: Option<string>, t: Trajectory, readings: nat -> Reading,
                          interruptAt: Option<nat>, landFailAt: Option<nat>, retryFailAt: Option<nat>)
    requires argument.Some? && SetupSucceeds(t)
    ensures var w := Walk(t.waypoints, readings, interruptAt, 0);
      ScriptTrace(argument, Some(t), readings, interruptAt, landFailAt, retryFailAt) ==
      SetupTrace(t) + RunTrace(t, w) + Landings(w.end, landFailAt, retryFailAt)
  {
    var w := Walk(t.waypoints, readings, interruptAt, 0);
    var a, b := SetupTrace(t), RunTrace(t, w);
    var l1, l2 := LandAttempt(landFailAt), LandAttempt(retryFailAt);
    var stage := ScriptStage(argument, Some(t), readings, interruptAt, landFailAt);
    var r := ScriptTrace(argument, Some(t), readings, interruptAt, landFailAt, retryFailAt);
    if !w.end.RunFinished? {
      assert stage == RunStopped && r == a + b + [] + l2;
    } else if LandFails(landFailAt) {
      assert stage == LandingFailed && r == a + b + l1 + l2;
      assert (a + b + l1) + l2 == a + b + (l1 + l2);
    } else {
      assert stage == Landed && r == a + b + l1 + [];
    }
  }

  /** The landing attempts after a run that ended as `end`: the handler's when the run or the landing raised. */
  function Landings(end: RunEnd, landFailAt: Option<nat>, retryFailAt: Option<nat>): seq<Command> {
    if !end.RunFinished? then LandAttempt(retryFailAt)
    else if LandFails(landFailAt) then LandAttempt(landFailAt) + LandAttempt(retryFailAt)
    else LandAttempt(landFailAt)
  }

  /**
   * After a run that ended as `end`, the normal landing comes first when the run finished, and
   * the handler's attempt comes last when the run or that landing raised.
   */
  lemma LandingsShape(end: RunEnd, landFailAt: Option<nat>, retryFailAt: Option<nat>)
    ensures var r := Landings(end, landFailAt, retryFailAt); |r| >= 1 && r[0] == Land(DefaultVehicle)
    ensures end.RunFinished? ==> var r, l := Landings(end, landFailAt, retryFailAt), LandAttempt(landFailAt);
      |r| >= |l| && r[..|l|] == l
    ensures !end.RunFinished? || LandFails(landFailAt) ==>
      var r, l := Landings(end, landFailAt, retryFailAt), LandAttempt(retryFailAt);
      |r| >= |l| && r[|r| - |l|..] == l
    ensures end.RunFinished? && !LandFails(landFailAt) ==> Landings(end, landFailAt, retryFailAt) == LandSteps()
  {
  }

  /** main after a successful setup: run the trajectory and land, with the handler when either raises. */
  method FlyAndLand(runner: TrajectoryRunner, t: Trajectory, readings: nat -> Reading, clock: nat -> real,
                    norm: Vec3 -> real, interruptAt: Option<nat>, stamp: string,
                    landFailAt: Option<nat>, retryFailAt: Option<nat>)
    returns (stage: ScriptEnd, saved: Option<LogFile>)
    requires runner.trajectory == Some(t) && runner.positionsLog == []
    modifies runner
    ensures var w := Walk(t.waypoints, readings, interruptAt, 0);
      runner.commands == old(runner.commands) + RunTrace(t, w) + Landings(w.end, landFailAt, retryFailAt) &&
      stage == (if !w.end.RunFinished? then RunStopped else if LandFails(landFailAt) then LandingFailed else Landed) &&
      (saved.Some? <==> w.end.RunFinished? && w.logged > 0)
    ensures saved.Some? ==> saved.value.completed > 0 && saved.value.meanError <= saved.value.maxError
  {
    ghost var w := Walk(t.waypoints, readings, interruptAt, 0);
    ghost var before := runner.commands;
    var end, stats;
    end, stats, saved := runner.RunTrajectory(readings, clock, norm, interruptAt, true, stamp);
    ghost var flown := runner.commands;
    assert end == w.end && flown == before + RunTrace(t, w);
    stage := LandAfterRun(runner, end, landFailAt, retryFailAt);
    assert runner.commands == flown + Landings(w.end, landFailAt, retryFailAt);
  }

  /** The landing stage after the run: one landing attempt when the run finished, the
    * cleanup attempt when it stopped early or the first landing failed. */
  method LandAfterRun(runner: TrajectoryRunner, end: RunEnd, landFailAt: Option<nat>, retryFailAt: Option<nat>)
    returns (stage: ScriptEnd)
    modifies runner
    ensures runner.commands == old(runner.commands) + Landings(end, landFailAt, retryFailAt)
    ensures stage == (if !end.RunFinished? then RunStopped else if LandFails(landFailAt) then LandingFailed else Landed)
    ensures runner.trajectory == old(runner.trajectory) && runner.positionsLog == old(runner.positionsLog)
  {
    ghost var flown := runner.commands;
    if !end.RunFinished? {
      var _ := runner.LandAndDisarm(retryFailAt);
      assert runner.commands == flown + LandAttempt(retryFailAt);
      return RunStopped;
    }
    var landed := runner.LandAndDisarm(landFailAt);
    ghost var landing := runner.commands;
    assert landing == flown + LandAttempt(landFailAt);
    if !landed {
      var _ := runner.LandAndDisarm(retryFailAt);
      assert runner.commands == flown + (LandAttempt(landFailAt) + LandAttempt(retryFailAt));
      return LandingFailed;
    }
    return Landed;
  }
}
