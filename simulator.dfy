/**
 * The simulator as the scripts see it: commands they send (recorded as a trace), poses they
 * poll, the arrival test of the monitoring loops and the landing sequence of their cleanup.
 */
module Simulator {
  import opened Wrappers
  import opened Geometry

  datatype Vehicle = Defender | Attacker | DefaultVehicle

  /** One call that changes simulator state, in the order the script issues it. */
  datatype Command =
    | EnableApiControl(vehicle: Vehicle, enabled: bool)
    | ArmDisarm(vehicle: Vehicle, armed: bool)
    | Takeoff(vehicle: Vehicle)
    | MoveToPosition(vehicle: Vehicle, target: Vec3, velocity: real, timeout: Option<real>, yaw: Option<real>)
    | MoveToZ(vehicle: Vehicle, z: real, velocity: real)
    | MoveOnPath(vehicle: Vehicle, path: seq<Vec3>, velocity: real)
    | Join(vehicle: Vehicle)
    | CancelLastTask(vehicle: Vehicle)
    | Land(vehicle: Vehicle)
    | ResetSimulation
    | SpawnObject(name: string, asset: string, position: Vec3, scale: real)
    | DestroyObject(name: string)
    | SetObjectPose(name: string, position: Vec3)
    | PlotPoints(points: seq<Vec3>, persistent: bool)
    | PlotLineStrip(vehicle: Vehicle, points: seq<Vec3>)
    | FlushPersistentMarkers

  /** What one getMultirotorState tick for both drones yields. */
  datatype PollResult =
    | Poses(defender: Vec3, attacker: Vec3)
    | Interrupted      // KeyboardInterrupt arrives during the tick
    | QueryFailed      // the simulator call raises

  /** The monitoring loops' safety limit and arrival radius. */
  const MaxIterations: nat := 10000
  const ArrivalRadius: real := 1.0

  /** distance(p, target) < 1.0, stated on squared distances. */
  predicate Near(p: Vec3, target: Vec3) {
    SqDist(p, target) < ArrivalRadius * ArrivalRadius
  }

  predicate BothNear(r: PollResult, finalDefender: Vec3, finalAttacker: Vec3) {
    r.Poses? && Near(r.defender, finalDefender) && Near(r.attacker, finalAttacker)
  }

  /** The first k ticks all read poses and none of them found both drones at their targets. */
  predicate StillFlying(poll: nat -> PollResult, finalDefender: Vec3, finalAttacker: Vec3, k: nat) {
    forall j: nat :: j < k ==> poll(j).Poses? && !BothNear(poll(j), finalDefender, finalAttacker)
  }

  /** How a monitoring loop ends. */
  datatype MonitorEnd =
    | Arrived(at: nat)        // break at tick `at`
    | Exhausted               // the 10000-tick limit ran out
    | Interrupt(at: nat)      // KeyboardInterrupt at tick `at`
    | Fault(at: nat)          // an exception at tick `at`

  /**
   * The end that `while iteration < 10000` with its arrival `break` reaches on these polls.
   * Every tick before that end read poses, and there are never more than 10000 of them.
   */
  predicate MonitorSpec(poll: nat -> PollResult, finalDefender: Vec3, finalAttacker: Vec3, e: MonitorEnd)
    ensures MonitorSpec(poll, finalDefender, finalAttacker, e) ==>
      PollsRead(e) <= MaxIterations && forall j: nat :: j < PollsRead(e) ==> poll(j).Poses?
  {
    match e
    case Arrived(k) =>
      k < MaxIterations && StillFlying(poll, finalDefender, finalAttacker, k) &&
      BothNear(poll(k), finalDefender, finalAttacker)
    case Exhausted =>
      StillFlying(poll, finalDefender, finalAttacker, MaxIterations)
    case Interrupt(k) =>
      k < MaxIterations && StillFlying(poll, finalDefender, finalAttacker, k) && poll(k).Interrupted?
    case Fault(k) =>
      k < MaxIterations && StillFlying(poll, finalDefender, finalAttacker, k) && poll(k).QueryFailed?
  }

  /** The number of ticks that read poses before the loop ended. */
  function PollsRead(e: MonitorEnd): nat {
    match e
    case Arrived(k) => k + 1
    case Exhausted => MaxIterations
    case Interrupt(k) => k
    case Fault(k) => k
  }

  /** The polls determine the end: the loop exits early exactly at the first tick where both are near. */
  lemma MonitorEndUnique(poll: nat -> PollResult, fd: Vec3, fa: Vec3, e1: MonitorEnd, e2: MonitorEnd)
    requires MonitorSpec(poll, fd, fa, e1) && MonitorSpec(poll, fd, fa, e2)
    ensures e1 == e2
  {
  }

  /** API control and arming of both drones, as every two-drone script starts. */
  function ArmBoth(): seq<Command> {
    [EnableApiControl(Defender, true), EnableApiControl(Attacker, true),
     ArmDisarm(Defender, true), ArmDisarm(Attacker, true)]
  }

  /** Both takeoffs issued, then both awaited. */
  function TakeoffBoth(): seq<Command> {
    [Takeoff(Defender), Takeoff(Attacker), Join(Defender), Join(Attacker)]
  }

  /** A command that winds a drone down: landing, waiting, disarming or releasing API control. */
  predicate WindsDown(c: Command) {
    c.Land? || c.Join? || (c.ArmDisarm? && !c.armed) || (c.EnableApiControl? && !c.enabled)
  }

  /** The `finally` landing: land both and wait, disarm both, release API control of both. */
  function LandingSequence(): (r: seq<Command>)
    ensures |r| == 8 && r[0] == Land(Defender)
    ensures forall i :: 0 <= i < |r| ==> WindsDown(r[i])
  {
    [Land(Defender), Land(Attacker), Join(Defender), Join(Attacker),
     ArmDisarm(Defender, false), ArmDisarm(Attacker, false),
     EnableApiControl(Defender, false), EnableApiControl(Attacker, false)]
  }

  /** The drone is landed, disarmed and released by these commands. */
  predicate Grounds(r: seq<Command>, v: Vehicle) {
    Land(v) in r && Join(v) in r && ArmDisarm(v, false) in r && EnableApiControl(v, false) in r
  }

  /** The landing grounds both drones and never resets the simulation. */
  lemma LandingGroundsBoth()
    ensures Grounds(LandingSequence(), Defender) && Grounds(LandingSequence(), Attacker)
    ensures ResetSimulation !in LandingSequence()
  {
    var r := LandingSequence();
    assert r[0] == Land(Defender) && r[1] == Land(Attacker) && r[2] == Join(Defender) && r[3] == Join(Attacker);
    assert r[4] == ArmDisarm(Defender, false) && r[5] == ArmDisarm(Attacker, false);
    assert r[6] == EnableApiControl(Defender, false) && r[7] == EnableApiControl(Attacker, false);
  }

  /**
   * The landing as run: `failAt` is the landing step that raises, if any; the steps up to and
   * including it were issued, then the except handler calls reset().
   */
  function Cleanup(failAt: Option<nat>): (r: seq<Command>)
    ensures failAt.None? || failAt.value >= |LandingSequence()| ==> r == LandingSequence()
    ensures failAt.Some? && failAt.value < |LandingSequence()| ==>
      |r| == failAt.value + 2 && r[|r| - 1] == ResetSimulation &&
      forall i :: 0 <= i < |r| - 1 ==> r[i] == LandingSequence()[i]
  {
    if failAt.Some? && failAt.value < |LandingSequence()|
    then LandingSequence()[..failAt.value + 1] + [ResetSimulation]
    else LandingSequence()
  }

  /** The phase of the landing a command belongs to. */
  function CleanupPhase(c: Command): nat {
    match c
    case Land(_) => 0
    case Join(_) => 0
    case ArmDisarm(_, _) => 1
    case EnableApiControl(_, _) => 2
    case _ => 3
  }

  /**
   * Cleanup always starts by landing the defender, keeps the order land, disarm, release, reset,
   * and calls reset exactly when a step failed, as its last command.
   */
  lemma CleanupOrdered(failAt: Option<nat>)
    ensures var r := Cleanup(failAt); |r| > 0 && r[0] == Land(Defender)
    ensures var r := Cleanup(failAt);
      forall i, j :: 0 <= i < j < |r| ==> CleanupPhase(r[i]) <= CleanupPhase(r[j])
    ensures var r := Cleanup(failAt);
      (ResetSimulation in r <==> failAt.Some? && failAt.value < |LandingSequence()|) &&
      (ResetSimulation in r ==> r[|r| - 1] == ResetSimulation)
    ensures failAt.None? ==> Cleanup(failAt) == LandingSequence()
  {
    var l := LandingSequence();
    assert forall i, j :: 0 <= i < j < |l| ==> CleanupPhase(l[i]) <= CleanupPhase(l[j]);
    assert ResetSimulation !in l;
    if failAt.Some? && failAt.value < |l| {
      var r := Cleanup(failAt);
      var p := l[..failAt.value + 1];
      assert r == p + [ResetSimulation];
      assert forall i :: 0 <= i < |p| ==> p[i] == l[i];
      assert ResetSimulation !in p;
    }
  }
}
