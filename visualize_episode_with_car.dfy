/**
 * Playback along absolute paths with a ground car standing in for the base
 * (visualization/scripts/visualize_episode_with_car.py).
 */
module VisualizeEpisodeWithCar {
  import opened Wrappers
  import opened Geometry
  import opened EpisodeData
  import opened Config
  import opened Simulator
  import opened VisualizeEpisode

  const CarObjectName: string := "BaseCar"
  const BaseMoveTolerance: real := 0.1
  const ApproachVelocity: real := 5.0
  const CarBaseVelocity: real := 0.125

  function Abs(x: real): (r: real)
    ensures r >= 0.0 && (r == x || r == -x)
  {
    if x < 0.0 then -x else x
  }

  /** The transformed base of frame i differs from frame 0's by more than 0.1 on some axis. */
  predicate MovedAt(frames: seq<Frame>, t: Transform, i: nat)
    requires i < |frames| && frames[0].base.Some? && frames[i].base.Some?
  {
    var first, current := TransformPosition(frames[0].base.value, t), TransformPosition(frames[i].base.value, t);
    Abs(current.x - first.x) > BaseMoveTolerance || Abs(current.y - first.y) > BaseMoveTolerance ||
    Abs(current.z - first.z) > BaseMoveTolerance
  }

  /** The scan reached frame k: frames 0..k-1 have a base and none of 1..k-1 moved. */
  predicate StillUpTo(frames: seq<Frame>, t: Transform, k: nat)
    requires k <= |frames|
  {
    (forall j :: 0 <= j < k ==> frames[j].base.Some?) &&
    (forall j :: 1 <= j < k ==> !MovedAt(frames, t, j))
  }

  /** check_base_trajectory raises KeyError: the scan reaches a frame without a base. */
  predicate BaseScanFails(frames: seq<Frame>, t: Transform) {
    |frames| >= 2 && exists i :: 0 <= i < |frames| && StillUpTo(frames, t, i) && frames[i].base.None?
  }

  /** check_base_trajectory returns True: the scan reaches a frame whose base moved. */
  predicate BaseScanMoves(frames: seq<Frame>, t: Transform) {
    |frames| >= 2 &&
    exists i :: 1 <= i < |frames| && StillUpTo(frames, t, i) && frames[i].base.Some? && MovedAt(frames, t, i)
  }

  /** check_base_trajectory: a scan with early return over the frames after the first. */
  method CheckBaseTrajectory(frames: seq<Frame>, t: Transform) returns (r: Result<bool>)
    ensures |frames| < 2 ==> r == Ok(false)
    ensures r.Err? <==> BaseScanFails(frames, t)
    ensures r == Ok(true) <==> BaseScanMoves(frames, t)
    ensures r == Ok(false) <==> |frames| < 2 || StillUpTo(frames, t, |frames|)
  {
    if |frames| < 2 {
      return Ok(false);
    }
    if frames[0].base.None? {
      assert StillUpTo(frames, t, 0);
      return Err(KeyMissing);
    }
    var i := 1;
    while i < |frames|
      invariant 1 <= i <= |frames|
      invariant StillUpTo(frames, t, i)
    {
      if frames[i].base.None? {
        return Err(KeyMissing);
      }
      if MovedAt(frames, t, i) {
        return Ok(true);
      }
      i := i + 1;
    }
    return Ok(false);
  }

  /** A base that never leaves its first position is reported as stationary. */
  lemma StationaryBaseNotMoving(frames: seq<Frame>, t: Transform)
    requires |frames| > 0 && HasBase(frames)
    requires forall i :: 0 <= i < |frames| ==> frames[i].base == frames[0].base
    ensures StillUpTo(frames, t, |frames|) && !BaseScanMoves(frames, t) && !BaseScanFails(frames, t)
  {
  }

  /** The car's pose: the base's x and y on the ground (z = 0.0). */
  function GroundPose(p: Vec3): (r: Vec3)
    ensures r.x == p.x && r.y == p.y && r.z == 0.0
  {
    Vec3(p.x, p.y, 0.0)
  }

  datatype Asset = Asset(name: string, scale: real)

  /** The fallback assets in their order of preference. */
  function FallbackAssets(): seq<Asset> {
    [Asset("SUV", 1.0), Asset("Sedan", 1.0), Asset("Car", 1.0), Asset("Cube", 2.0)]
  }

  /** The assets of s whose name is not `name`, in order. */
  function Without(s: seq<Asset>, name: string): seq<Asset> {
    if |s| == 0 then []
    else Without(s[..|s| - 1], name) + (if s[|s| - 1].name != name then [s[|s| - 1]] else [])
  }

  /** The order of assets_to_try: the preferred asset (if named) at 1.0, then the other fallbacks. */
  function AssetOrder(preferred: string): seq<Asset> {
    (if |preferred| > 0 then [Asset(preferred, 1.0)] else []) + Without(FallbackAssets(), preferred)
  }

  predicate DistinctNames(s: seq<Asset>) {
    forall i, j :: 0 <= i < j < |s| ==> s[i].name != s[j].name
  }

  lemma {:induction false} WithoutMembers(s: seq<Asset>, name: string)
    ensures forall a :: a in Without(s, name) <==> a in s && a.name != name
  {
    if |s| > 0 {
      var init := s[..|s| - 1];
      WithoutMembers(init, name);
      assert s == init + [s[|s| - 1]];
    }
  }

  lemma {:induction false} WithoutDistinct(s: seq<Asset>, name: string)
    requires DistinctNames(s)
    ensures DistinctNames(Without(s, name))
  {
    if |s| > 0 {
      var init := s[..|s| - 1];
      assert DistinctNames(init);
      WithoutDistinct(init, name);
      WithoutMembers(init, name);
      var w := Without(init, name);
      var last := s[|s| - 1];
      forall a | a in w
        ensures a.name != last.name
      {
        var k :| 0 <= k < |init| && init[k] == a;
      }
    }
  }

  lemma FallbackNamesDistinct()
    ensures DistinctNames(FallbackAssets())
  {
    var f := FallbackAssets();
    assert f[0].name == "SUV" && f[1].name == "Sedan" && f[2].name == "Car" && f[3].name == "Cube";
    assert "SUV"[0] == 'S' && "Sedan"[0] == 'S' && "Car"[0] == 'C' && "Cube"[0] == 'C';
    assert "SUV"[1] != "Sedan"[1] && "Car"[1] != "Cube"[1];
  }

  /** An asset named unlike every asset of a list without repeated names can go in front of it. */
  lemma ConsDistinct(a: Asset, w: seq<Asset>)
    requires DistinctNames(w)
    requires forall x :: x in w ==> x.name != a.name
    ensures DistinctNames([a] + w)
  {
    var r := [a] + w;
    forall i, j | 0 <= i < j < |r|
      ensures r[i].name != r[j].name
    {
      if i == 0 {
        assert r[j] == w[j - 1];
      } else {
        assert r[i] == w[i - 1] && r[j] == w[j - 1];
      }
    }
  }

  /** The asset list never names an asset twice. */
  lemma AssetOrderDistinct(preferred: string)
    ensures DistinctNames(AssetOrder(preferred))
  {
    var f := FallbackAssets();
    FallbackNamesDistinct();
    WithoutDistinct(f, preferred);
    var w := Without(f, preferred);
    if |preferred| > 0 {
      WithoutMembers(f, preferred);
      ConsDistinct(Asset(preferred, 1.0), w);
    } else {
      assert AssetOrder(preferred) == w;
    }
  }

  /**
   * The asset list: the preferred asset first when it is named, every fallback other than the
   * preferred one, nothing else, and no name twice.
   */
  lemma AssetOrderShape(preferred: string)
    ensures var r := AssetOrder(preferred);
      DistinctNames(r) &&
      (|preferred| > 0 ==> r[0] == Asset(preferred, 1.0)) &&
      (forall a :: a in FallbackAssets() && a.name != preferred ==> a in r) &&
      (forall a :: a in r ==> a in FallbackAssets() || a == Asset(preferred, 1.0)) &&
      (Asset("Cube", 2.0) in r <==> preferred != "Cube")
  {
    AssetOrderDistinct(preferred);
    WithoutMembers(FallbackAssets(), preferred);
    assert Asset("Cube", 2.0) in FallbackAssets();
  }

  /** assets_to_try, built by appending. */
  method AssetsToTry(preferred: string) returns (assets: seq<Asset>)
    ensures assets == AssetOrder(preferred)
  {
    assets := [];
    if |preferred| > 0 {
      assets := assets + [Asset(preferred, 1.0)];
    }
    ghost var head := assets;
    var fallbacks := FallbackAssets();
    for i := 0 to |fallbacks|
      invariant assets == head + Without(fallbacks[..i], preferred)
    {
      assert fallbacks[..i + 1][..i] == fallbacks[..i] && fallbacks[..i + 1][i] == fallbacks[i];
      if fallbacks[i].name != preferred {
        assets := assets + [fallbacks[i]];
      }
    }
    assert fallbacks[..|fallbacks|] == fallbacks;
  }

  /** spawn_car_object: destroy any old car, then spawn this asset at the ground pose. */
  function SpawnAttempt(a: Asset, position: Vec3): seq<Command> {
    [DestroyObject(CarObjectName), SpawnObject(CarObjectName, a.name, GroundPose(position), a.scale)]
  }

  function SpawnTrace(assets: seq<Asset>, position: Vec3): seq<Command> {
    if |assets| == 0 then []
    else SpawnTrace(assets[..|assets| - 1], position) + SpawnAttempt(assets[|assets| - 1], position)
  }

  /** How many assets are tried: up to and including the first that spawns. */
  function Attempts(assets: seq<Asset>, spawns: string -> bool): (r: nat)
    ensures r <= |assets|
  {
    if |assets| == 0 then 0
    else if spawns(assets[0].name) then 1
    else 1 + Attempts(assets[1..], spawns)
  }

  /** The attempts stop at the first asset that spawns, and try all of them when none does. */
  lemma {:induction false} AttemptsStopAtFirstSuccess(assets: seq<Asset>, spawns: string -> bool)
    ensures var k := Attempts(assets, spawns);
      (forall i :: 0 <= i < k - 1 ==> !spawns(assets[i].name)) &&
      ((exists i :: 0 <= i < |assets| && spawns(assets[i].name)) <==> k > 0 && spawns(assets[k - 1].name)) &&
      (k < |assets| ==> k > 0 && spawns(assets[k - 1].name))
  {
    if |assets| > 0 && !spawns(assets[0].name) {
      var rest := assets[1..];
      AttemptsStopAtFirstSuccess(rest, spawns);
      var k := Attempts(assets, spawns);
      assert forall i :: 1 <= i < |assets| ==> assets[i] == rest[i - 1];
      if exists i :: 0 <= i < |assets| && spawns(assets[i].name) {
        var i :| 0 <= i < |assets| && spawns(assets[i].name);
        assert spawns(rest[i - 1].name);
      }
    }
  }

  lemma {:induction false} AttemptsSkip(assets: seq<Asset>, spawns: string -> bool, i: nat)
    requires i <= |assets|
    requires forall j :: 0 <= j < i ==> !spawns(assets[j].name)
    ensures Attempts(assets, spawns) == i + Attempts(assets[i..], spawns)
  {
    if i > 0 {
      var rest := assets[1..];
      assert forall j :: 0 <= j < i - 1 ==> rest[j] == assets[j + 1];
      AttemptsSkip(rest, spawns, i - 1);
      assert rest[i - 1..] == assets[i..];
    }
  }

  /** The spawn loop: try the assets in order until one spawns; `spawns` says which the simulator accepts. */
  method SpawnFirstOf(assets: seq<Asset>, position: Vec3, spawns: string -> bool)
    returns (car: Option<string>, commands: seq<Command>)
    ensures commands == SpawnTrace(assets[..Attempts(assets, spawns)], position)
    ensures car.Some? <==> exists i :: 0 <= i < |assets| && spawns(assets[i].name)
    ensures car.Some? ==> car.value == CarObjectName
  {
    commands := [];
    var i := 0;
    while i < |assets|
      invariant i <= |assets|
      invariant forall j :: 0 <= j < i ==> !spawns(assets[j].name)
      invariant commands == SpawnTrace(assets[..i], position)
    {
      commands := commands + SpawnAttempt(assets[i], position);
      assert assets[..i + 1][..i] == assets[..i] && assets[..i + 1][i] == assets[i];
      if spawns(assets[i].name) {
        AttemptsSkip(assets, spawns, i);
        assert assets[i..][0] == assets[i];
        return Some(CarObjectName), commands;
      }
      i := i + 1;
    }
    AttemptsSkip(assets, spawns, i);
    assert assets[..i] == assets;
    return None, commands;
  }

  /** try_spawn_car_with_fallback: the spawn loop over the asset order. */
  method TrySpawnCarWithFallback(position: Vec3, preferred: string, spawns: string -> bool)
    returns (car: Option<string>, commands: seq<Command>)
    ensures var assets := AssetOrder(preferred);
      commands == SpawnTrace(assets[..Attempts(assets, spawns)], position) &&
      (car.Some? <==> exists i :: 0 <= i < |assets| && spawns(assets[i].name)) &&
      (car.Some? ==> car.value == CarObjectName)
  {
    var assets := AssetsToTry(preferred);
    car, commands := SpawnFirstOf(assets, position, spawns);
  }

  /** The absolute path builder: every drone and base position transformed, one per frame. */
  method BuildAbsolutePaths(episodeFrames: seq<Frame>, t: Transform)
    returns (defenderPath: seq<Vec3>, attackerPath: seq<Vec3>, basePath: seq<Vec3>)
    requires HasDrones(episodeFrames) && HasBase(episodeFrames)
    ensures defenderPath == AbsolutePath(DefenderPositions(episodeFrames), t)
    ensures attackerPath == AbsolutePath(AttackerPositions(episodeFrames), t)
    ensures basePath == AbsolutePath(BasePositions(episodeFrames), t)
    ensures |defenderPath| == |attackerPath| == |basePath| == |episodeFrames|
  {
    defenderPath, attackerPath, basePath := [], [], [];
    for i := 0 to |episodeFrames|
      invariant |defenderPath| == i && |attackerPath| == i && |basePath| == i
      invariant forall k :: 0 <= k < i ==>
        defenderPath[k] == TransformPosition(episodeFrames[k].defender.value.pos, t) &&
        attackerPath[k] == TransformPosition(episodeFrames[k].attacker.value.pos, t) &&
        basePath[k] == TransformPosition(episodeFrames[k].base.value, t)
    {
      var frame := episodeFrames[i];
      defenderPath := defenderPath + [TransformPosition(frame.defender.value.pos, t)];
      attackerPath := attackerPath + [TransformPosition(frame.attacker.value.pos, t)];
      basePath := basePath + [TransformPosition(frame.base.value, t)];
    }
  }

  /** The first k ticks all read poses. */
  predicate PosesRead(poll: nat -> PollResult, k: nat) {
    forall j: nat :: j < k ==> poll(j).Poses?
  }

  /** The recorded trajectory of one drone after k ticks. */
  function Trail(poll: nat -> PollResult, k: nat, defender: bool): (r: seq<Vec3>)
    requires PosesRead(poll, k)
    ensures |r| == k
  {
    seq(k, j requires 0 <= j < k => if defender then poll(j).defender else poll(j).attacker)
  }

  lemma TrailStep(poll: nat -> PollResult, k: nat)
    requires PosesRead(poll, k + 1)
    ensures Trail(poll, k + 1, true) == Trail(poll, k, true) + [poll(k).defender]
    ensures Trail(poll, k + 1, false) == Trail(poll, k, false) + [poll(k).attacker]
  {
  }

  /** update_car_position at tick j: only for a moving base, a spawned car and j < len(base_path). */
  function CarTick(car: Option<string>, moving: bool, basePath: seq<Vec3>, j: nat): seq<Command> {
    if moving && car.Some? && j < |basePath| then [SetObjectPose(car.value, GroundPose(basePath[j]))] else []
  }

  /** The commands of tick j: car update, trails every 10th point, markers at the drones. */
  function TickCommands(poll: nat -> PollResult, j: nat, car: Option<string>, moving: bool, basePath: seq<Vec3>): seq<Command>
    requires PosesRead(poll, j + 1)
  {
    CarTick(car, moving, basePath, j) +
    (if j + 1 > 1 && (j + 1) % 10 == 0
     then [PlotLineStrip(Defender, Trail(poll, j + 1, true)), PlotLineStrip(Attacker, Trail(poll, j + 1, false))]
     else []) +
    [PlotPoints([poll(j).defender], false), PlotPoints([poll(j).attacker], false)]
  }

  /** The commands of the first k ticks. */
  function TicksTrace(poll: nat -> PollResult, k: nat, car: Option<string>, moving: bool, basePath: seq<Vec3>): seq<Command>
    requires PosesRead(poll, k)
  {
    if k == 0 then [] else TicksTrace(poll, k - 1, car, moving, basePath) + TickCommands(poll, k - 1, car, moving, basePath)
  }

  /** The car positions a command trace sets, in order. */
  function CarPoses(cs: seq<Command>): seq<Vec3> {
    if |cs| == 0 then []
    else CarPoses(cs[..|cs| - 1]) + (if cs[|cs| - 1].SetObjectPose? then [cs[|cs| - 1].position] else [])
  }

  lemma {:induction false} CarPosesAppend(a: seq<Command>, b: seq<Command>)
    ensures CarPoses(a + b) == CarPoses(a) + CarPoses(b)
  {
    if |b| > 0 {
      var init := b[..|b| - 1];
      assert (a + b)[..|a + b| - 1] == a + init;
      CarPosesAppend(a, init);
    } else {
      assert a + b == a;
    }
  }

  /** A trace without SetObjectPose commands sets no car position. */
  lemma {:induction false} CarPosesNone(cs: seq<Command>)
    requires forall i :: 0 <= i < |cs| ==> !cs[i].SetObjectPose?
    ensures CarPoses(cs) == []
  {
    if |cs| > 0 {
      CarPosesNone(cs[..|cs| - 1]);
    }
  }

  /** One tick sets the car at most once: to the ground pose of base_path[j]. */
  lemma TickCarPoses(poll: nat -> PollResult, j: nat, car: Option<string>, moving: bool, basePath: seq<Vec3>)
    requires PosesRead(poll, j + 1)
    ensures CarPoses(TickCommands(poll, j, car, moving, basePath)) ==
      if moving && car.Some? && j < |basePath| then [GroundPose(basePath[j])] else []
  {
    var ct := CarTick(car, moving, basePath, j);
    var lines := if j + 1 > 1 && (j + 1) % 10 == 0
                 then [PlotLineStrip(Defender, Trail(poll, j + 1, true)), PlotLineStrip(Attacker, Trail(poll, j + 1, false))]
                 else [];
    var markers := [PlotPoints([poll(j).defender], false), PlotPoints([poll(j).attacker], false)];
    var rest := lines + markers;
    assert TickCommands(poll, j, car, moving, basePath) == ct + rest;
    CarPosesAppend(ct, rest);
    CarPosesNone(rest);
    if |ct| > 0 {
      assert ct[..0] == [];
    }
  }

  /** The ground poses of the first m + 1 base points extend those of the first m. */
  lemma GroundPrefixStep(basePath: seq<Vec3>, m: nat)
    requires m < |basePath|
    ensures seq(m + 1, j requires 0 <= j < m + 1 => GroundPose(basePath[j])) ==
      seq(m, j requires 0 <= j < m => GroundPose(basePath[j])) + [GroundPose(basePath[m])]
  {
  }

  /**
   * Over k ticks the car is set to the ground pose of base_path[j] at tick j, for the ticks
   * j < len(base_path), when the base moves and a car exists, and never otherwise.
   */
  lemma {:induction false} CarFollowsBase(poll: nat -> PollResult, k: nat, car: Option<string>, moving: bool, basePath: seq<Vec3>)
    requires PosesRead(poll, k)
    ensures var n := if k < |basePath| then k else |basePath|;
      CarPoses(TicksTrace(poll, k, car, moving, basePath)) ==
        if moving && car.Some?
        then seq(n, j requires 0 <= j < n => GroundPose(basePath[j]))
        else []
  {
    if k > 0 {
      var before := TicksTrace(poll, k - 1, car, moving, basePath);
      var tick := TickCommands(poll, k - 1, car, moving, basePath);
      assert TicksTrace(poll, k, car, moving, basePath) == before + tick;
      CarFollowsBase(poll, k - 1, car, moving, basePath);
      CarPosesAppend(before, tick);
      TickCarPoses(poll, k - 1, car, moving, basePath);
      if moving && car.Some? && k - 1 < |basePath| {
        GroundPrefixStep(basePath, k - 1);
      } else if moving && car.Some? {
        assert CarPoses(tick) == [];
        assert CarPoses(before) + [] == CarPoses(before);
      } else {
        assert CarPoses(before) == [] && CarPoses(tick) == [];
      }
    }
  }

  /** The car script's monitoring loop: as in visualize_episode, plus per-tick car and overlay updates. */
  method MonitorFlightWithCar(poll: nat -> PollResult, finalDefender: Vec3, finalAttacker: Vec3,
                              car: Option<string>, moving: bool, basePath: seq<Vec3>)
    returns (e: MonitorEnd, defenderTrajectory: seq<Vec3>, attackerTrajectory: seq<Vec3>, commands: seq<Command>)
    ensures MonitorSpec(poll, finalDefender, finalAttacker, e)
    ensures PollsRead(e) <= MaxIterations && PosesRead(poll, PollsRead(e))
    ensures defenderTrajectory == Trail(poll, PollsRead(e), true)
    ensures attackerTrajectory == Trail(poll, PollsRead(e), false)
    ensures commands == TicksTrace(poll, PollsRead(e), car, moving, basePath)
  {
    defenderTrajectory, attackerTrajectory, commands := [], [], [];
    var iteration := 0;
    while iteration < MaxIterations
      invariant iteration <= MaxIterations
      invariant StillFlying(poll, finalDefender, finalAttacker, iteration)
      invariant PosesRead(poll, iteration)
      invariant defenderTrajectory == Trail(poll, iteration, true)
      invariant attackerTrajectory == Trail(poll, iteration, false)
      invariant commands == TicksTrace(poll, iteration, car, moving, basePath)
    {
      var r := poll(iteration);
      if r.Interrupted? {
        return Interrupt(iteration), defenderTrajectory, attackerTrajectory, commands;
      }
      if r.QueryFailed? {
        return Fault(iteration), defenderTrajectory, attackerTrajectory, commands;
      }
      TrailStep(poll, iteration);
      defenderTrajectory := defenderTrajectory + [r.defender];
      attackerTrajectory := attackerTrajectory + [r.attacker];
      var tick := CarTick(car, moving, basePath, iteration);
      if |defenderTrajectory| > 1 && |defenderTrajectory| % 10 == 0 {
        tick := tick + [PlotLineStrip(Defender, defenderTrajectory), PlotLineStrip(Attacker, attackerTrajectory)];
      }
      tick := tick + [PlotPoints([r.defender], false), PlotPoints([r.attacker], false)];
      assert tick == TickCommands(poll, iteration, car, moving, basePath);
      commands := commands + tick;
      if Near(r.defender, finalDefender) && Near(r.attacker, finalAttacker) {
        return Arrived(iteration), defenderTrajectory, attackerTrajectory, commands;
      }
      iteration := iteration + 1;
    }
    e := Exhausted;
  }

  /** Move both drones to their first waypoints at 5.0 and wait for both. */
  function Approach(defenderStart: Vec3, attackerStart: Vec3): (r: seq<Command>)
    ensures MoveToPosition(Defender, defenderStart, ApproachVelocity, None, None) in r
    ensures MoveToPosition(Attacker, attackerStart, ApproachVelocity, None, None) in r
    ensures Join(Defender) in r && Join(Attacker) in r
    ensures forall i, j :: 0 <= i < j < |r| && r[i].Join? ==> r[j].Join?
  {
    [MoveToPosition(Defender, defenderStart, ApproachVelocity, None, None),
     MoveToPosition(Attacker, attackerStart, ApproachVelocity, None, None),
     Join(Defender), Join(Attacker)]
  }

  /** The first step of the `finally` clause: destroy the car only if one was spawned. */
  function RemoveCar(car: Option<string>): (r: seq<Command>)
    ensures |r| == 1 <==> car.Some?
    ensures |r| <= 1 && forall c :: c in r ==> c == DestroyObject(car.value)
  {
    if car.Some? then [DestroyObject(car.value)] else []
  }

  /** Every frame of the window has both drones and a base, and the window is not empty. */
  predicate CarReady(episodeFrames: seq<Frame>) {
    |episodeFrames| > 0 && HasDrones(episodeFrames) && HasBase(episodeFrames)
  }

  /**
   * visualize_episode (car variant): scan the base, start up, build absolute paths, spawn the
   * car, approach the first waypoints, fly both paths at one shared velocity while moving the
   * car, then remove the car and land on every exit path inside the try block. `check` is the
   * pose read after the approach (an interrupt there includes one at the confirmation prompt).
   */
  method PlayEpisodeWithCar(frames: seq<Frame>, t: Transform, startFrame: int, endFrame: Option<int>,
                            carAsset: string, spawns: string -> bool, check: PollResult,
                            poll: nat -> PollResult, cleanupFailAt: Option<nat>)
    returns (session: Option<Session>, car: Option<string>, commands: seq<Command>)
    ensures var ef := EpisodeWindow(frames, startFrame, endFrame);
      BaseScanFails(ef, t) ==> session.None? && car.None? && commands == []
    ensures var ef := EpisodeWindow(frames, startFrame, endFrame);
      !BaseScanFails(ef, t) && !CarReady(ef) ==>
        session == Some(Session(Error, None, [], [])) && car.None? &&
        commands == ArmBoth() + TakeoffBoth() + Cleanup(cleanupFailAt)
    ensures var ef := EpisodeWindow(frames, startFrame, endFrame);
      CarReady(ef) ==>
        var assets := AssetOrder(carAsset);
        (car.Some? <==> exists i :: 0 <= i < |assets| && spawns(assets[i].name)) &&
        (car.Some? ==> car.value == CarObjectName)
    ensures var ef := EpisodeWindow(frames, startFrame, endFrame);
      CarReady(ef) && (!check.Poses? || t.scale == 0.0) ==>
        var dp := AbsolutePath(DefenderPositions(ef), t);
        var ap := AbsolutePath(AttackerPositions(ef), t);
        var bp := AbsolutePath(BasePositions(ef), t);
        var assets := AssetOrder(carAsset);
        session == Some(Session(if check.Interrupted? then UserInterrupt else Error, None, [], [])) &&
        commands == ArmBoth() + TakeoffBoth() + SpawnTrace(assets[..Attempts(assets, spawns)], bp[0]) +
          Approach(dp[0], ap[0]) + RemoveCar(car) + Cleanup(cleanupFailAt)
    ensures var ef := EpisodeWindow(frames, startFrame, endFrame);
      CarReady(ef) && check.Poses? && t.scale != 0.0 ==>
        var dp := AbsolutePath(DefenderPositions(ef), t);
        var ap := AbsolutePath(AttackerPositions(ef), t);
        var bp := AbsolutePath(BasePositions(ef), t);
        var assets := AssetOrder(carAsset);
        var v := CarBaseVelocity * t.scale;
        session.Some? && session.value.monitor.Some? &&
        var e := session.value.monitor.value;
        MonitorSpec(poll, dp[|dp| - 1], ap[|ap| - 1], e) &&
        session.value.cause == CauseOf(e) &&
        PosesRead(poll, PollsRead(e)) &&
        commands == ArmBoth() + TakeoffBoth() + SpawnTrace(assets[..Attempts(assets, spawns)], bp[0]) +
          Approach(dp[0], ap[0]) + [MoveOnPath(Defender, dp, v), MoveOnPath(Attacker, ap, v)] +
          TicksTrace(poll, PollsRead(e), car, BaseScanMoves(ef, t), bp) +
          (if CauseOf(e) == Completed then [Join(Defender), Join(Attacker)] else []) +
          RemoveCar(car) + Cleanup(cleanupFailAt)
  {
    var ef := EpisodeWindow(frames, startFrame, endFrame);
    var scan := CheckBaseTrajectory(ef, t);
    if scan.Err? {
      // KeyError before the simulator is touched: the script ends with a traceback
      return None, None, [];
    }
    var moving := scan.value;
    var startup := ArmBoth() + TakeoffBoth();
    if !(|ef| > 0 && HasDrones(ef) && HasBase(ef)) {
      // KeyError or IndexError inside the try block, before the car exists
      return Some(Session(Error, None, [], [])), None, startup + Cleanup(cleanupFailAt);
    }
    var s;
    s, car, commands := FlyEpisodeWithCar(ef, t, moving, carAsset, spawns, check, poll, cleanupFailAt);
    session := Some(s);
  }

  /** The car variant once the window is known to be playable: spawn, approach, fly, remove and land. */
  method FlyEpisodeWithCar(ef: seq<Frame>, t: Transform, moving: bool, carAsset: string, spawns: string -> bool,
                           check: PollResult, poll: nat -> PollResult, cleanupFailAt: Option<nat>)
    returns (session: Session, car: Option<string>, commands: seq<Command>)
    requires CarReady(ef)
    ensures var assets := AssetOrder(carAsset);
      (car.Some? <==> exists i :: 0 <= i < |assets| && spawns(assets[i].name)) &&
      (car.Some? ==> car.value == CarObjectName)
    ensures !check.Poses? || t.scale == 0.0 ==>
      var dp := AbsolutePath(DefenderPositions(ef), t);
      var ap := AbsolutePath(AttackerPositions(ef), t);
      var bp := AbsolutePath(BasePositions(ef), t);
      var assets := AssetOrder(carAsset);
      session == Session(if check.Interrupted? then UserInterrupt else Error, None, [], []) &&
      commands == ArmBoth() + TakeoffBoth() + SpawnTrace(assets[..Attempts(assets, spawns)], bp[0]) +
        Approach(dp[0], ap[0]) + RemoveCar(car) + Cleanup(cleanupFailAt)
    ensures check.Poses? && t.scale != 0.0 ==>
      var dp := AbsolutePath(DefenderPositions(ef), t);
      var ap := AbsolutePath(AttackerPositions(ef), t);
      var bp := AbsolutePath(BasePositions(ef), t);
      var assets := AssetOrder(carAsset);
      var v := CarBaseVelocity * t.scale;
      session.monitor.Some? &&
      var e := session.monitor.value;
      MonitorSpec(poll, dp[|dp| - 1], ap[|ap| - 1], e) &&
      session.cause == CauseOf(e) &&
      PosesRead(poll, PollsRead(e)) &&
      commands == ArmBoth() + TakeoffBoth() + SpawnTrace(assets[..Attempts(assets, spawns)], bp[0]) +
        Approach(dp[0], ap[0]) + [MoveOnPath(Defender, dp, v), MoveOnPath(Attacker, ap, v)] +
        TicksTrace(poll, PollsRead(e), car, moving, bp) +
        (if CauseOf(e) == Completed then [Join(Defender), Join(Attacker)] else []) +
        RemoveCar(car) + Cleanup(cleanupFailAt)
  {
    var startup := ArmBoth() + TakeoffBoth();
    var defenderPath, attackerPath, basePath := BuildAbsolutePaths(ef, t);
    var spawnCommands;
    car, spawnCommands := TrySpawnCarWithFallback(basePath[0], carAsset, spawns);
    var approach := Approach(defenderPath[0], attackerPath[0]);
    if !check.Poses? {
      var cause := if check.Interrupted? then UserInterrupt else Error;
      session := Session(cause, None, [], []);
      commands := startup + spawnCommands + approach + RemoveCar(car) + Cleanup(cleanupFailAt);
      return;
    }
    var velocity := CarBaseVelocity * t.scale;
    if velocity == 0.0 {
      // ZeroDivisionError computing the expected flight time
      session := Session(Error, None, [], []);
      commands := startup + spawnCommands + approach + RemoveCar(car) + Cleanup(cleanupFailAt);
      return;
    }
    var dispatch := [MoveOnPath(Defender, defenderPath, velocity), MoveOnPath(Attacker, attackerPath, velocity)];
    var e, defenderTrajectory, attackerTrajectory, ticks :=
      MonitorFlightWithCar(poll, defenderPath[|defenderPath| - 1], attackerPath[|attackerPath| - 1], car, moving, basePath);
    var cause := CauseOf(e);
    var finish := if cause == Completed then [Join(Defender), Join(Attacker)] else [];
    session := Session(cause, Some(e), defenderTrajectory, attackerTrajectory);
    commands := startup + spawnCommands + approach + dispatch + ticks + finish + RemoveCar(car) + Cleanup(cleanupFailAt);
  }
}
