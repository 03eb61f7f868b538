# AirSim episode replay and trajectory scripts, modelled in Dafny

This project models the Python scripts that replay recorded pursuit–evasion episodes in the
AirSim simulator. There are two drones, a defender and an attacker, and a base, which the car
variant shows as a car. The modelled parts are:

- the coordinate transform, the frame timing and the axis auto-detection (`Config`);
- the playback with drift-corrected relative paths, plus its settings.json update (`VisualizeEpisode`);
- the car variant with absolute paths, base-motion detection and asset fallback (`VisualizeEpisodeWithCar`);
- the stateful frame-by-frame two-drone controller (`MultiAgentRunnerModule`);
- the converter from waypoint files to episodes (`ConvertWaypoints`);
- the single-drone trajectory runner with its log and statistics (`RunTrajectoryAuto`);
- the clock-speed tool (`SetSimSpeed`).

Shared modules hold the data and the simulator abstraction:

- `Geometry`: points with exact real coordinates.
- `EpisodeData`: frames, agents, metadata and Python slicing.
- `Text`: ASCII case mapping, substring search, runs of ASCII decimal digits, and `int()`/`float()` of such strings.
- `Json`: settings values and the settings file as found on disk.
- `Simulator`: the command trace, the per-tick poll results, the monitoring-loop specification and the `finally` landing.
- `Wrappers`: `Option`, `Result` and the exception kinds.

How the simulator, files and clock are modelled:

- **Commands.** Every call that changes simulator state is recorded, in issue order, as a `Command` in a trace. A method returns that trace or appends it to a `commands` field.
- **Reads.** Poses, collisions and the wall clock are function parameters (`poll`, `readings`, `clock`).
- **Failures.** Only some simulator calls can fail in the model:
  - a monitoring poll can raise or be interrupted (`QueryFailed`, `Interrupted`);
  - a cleanup or landing step can raise (`cleanupFailAt`, `landFailAt`, `retryFailAt`);
  - a car spawn can fail (`spawns`);
  - a trajectory move can be interrupted (`interruptAt`).

  Every other simulator call is assumed to succeed.
- **Files.** A file on disk is a value: `SettingsFile`, the converter's `WaypointFile`, or an optional `Trajectory`.

An `Err` result or a `None` stands for the exception the script raises.

Code that changes state in place keeps that form:

- `VisualizationConfig` and `MultiAgentRunner` are classes with `modifies` frames. So is `TrajectoryRunner`.
- Each loop of the source is a `while` or `for` loop with invariants. Each such loop method is proved against a recursive specification function, for example `Walk`, `TicksTrace`, `ZSamplesAt` or `Attempts`.

## Behaviour worth noting

The model follows the code, including these behaviours a reader might not expect:

- **Relative paths.** The relative path builder applies `SCALE_FACTOR` to frame-to-frame deltas only. It never inverts or offsets z, so its z steps are the opposite of the absolute path's when `INVERT_Z` is set (`VisualizeEpisode.RelativeStepsVersusAbsolute`).
- **Velocity.** Both drones get one velocity, `0.25 * scale` (`0.125 * scale` in the car variant), and a zero scale raises `ZeroDivisionError` before the paths are sent.
- **Missing agents.** A frame without an agent raises `KeyError`, which leads to the error path and the cleanup.
- **Loop limit.** Reaching the 10000-tick limit leads to the normal exit, exactly as arriving does.
- **Task cancellation.** Only `visualize_episode.py` cancels the path tasks, and only after a normal loop exit. An interrupt does not cancel them.
- **Axis auto-detection.** It samples `range(0, min(10, n), max(1, n // 10))`, so it only ever reads the first ten frames, and only frame 0 when there are 100 frames or more.
- **Start time.** `MultiAgentRunner.start_time` is never set by the class, so `print_statistics` prints nothing unless a caller sets it (`MultiAgentRunnerModule.StatisticsNeverReported`).
- **Trajectory log.** `run_trajectory` appends to `positions_log` without clearing it, and its statistics are computed over the whole log.
- **Landing retry.** In `run_trajectory_auto.py`, a `land_and_disarm` that raises in the normal path gets a second attempt from the exception handler.

## Model

| member | source | states |
|---|---|---|
| Config.VisualizationConfig.constructor | visualization/scripts/config.py:27-58 | the class defaults: scale 1.0, no z inversion, offset 0.0, trails and markers shown, marker offset 0.0 |
| Config.TransformPosition | visualization/scripts/config.py:61-92 | x and y are the scaled coordinates; removing the offset from z, and negating it when inverting, gives back the scaled z |
| Config.TransformKeepsHorizontalAxes | visualization/scripts/config.py:78-92 | x and y are only scaled; neither the inversion flag nor the offset reaches them |
| Config.IdentityTransform | visualization/scripts/config.py:81-92 | scale 1, no inversion and no offset is the identity, hence idempotent |
| Config.TransformDifference | visualization/scripts/config.py:81-90 | the difference of two transformed points is the scaled difference on x and y and plus or minus the scaled difference on z; the offset cancels |
| Config.GetFrameTiming | visualization/scripts/config.py:140-154 | 0.1 at or past the last frame; a zero playback speed is the only error; otherwise at least 0.001 and, above that floor, exactly the time step divided by the speed |
| Config.Range | visualization/scripts/config.py:179 | every index Python's range yields lies in [start, stop) |
| Config.RangeElements | visualization/scripts/config.py:179 | the k-th index is start + k*step, the last is below stop, and one more step reaches stop |
| Config.SampleStep | visualization/scripts/config.py:179 | the sampling step max(1, n // 10) is at least 1 |
| Config.SampleIndicesShape | visualization/scripts/config.py:179 | sampled indices are k*step below min(10, n); below 20 frames every one of the first min(10, n) frames is sampled; from 100 frames on only frame 0 |
| Config.ZSamplesStep | visualization/scripts/config.py:179-184 | the samples from index i on are frame i's, then those from i + step on |
| Config.ZSamplesAdvance | visualization/scripts/config.py:179-184 | after one pass, the samples collected so far plus those still to collect are all the samples |
| Config.AppendFrameZ | visualization/scripts/config.py:180-184 | one frame adds its defender's z, then its attacker's, when present |
| Config.SampleZValues | visualization/scripts/config.py:176-184 | the loop collects exactly the z values of the sampled frames, in order |
| Config.MeanAboveThreshold | visualization/scripts/config.py:187-189 | the mean exceeds 1.0 exactly when the sum exceeds the number of samples |
| Config.AutoConfigureFromMetadata | visualization/scripts/config.py:169-208 | INVERT_Z is mean(samples) > 1.0, unchanged when nothing was sampled, and upper(coordinate_system) != NED without frames, with NED when the key is absent; Z_OFFSET becomes 0.0; SCALE_FACTOR and the other fields are kept; a fresh config has the defaults |
| VisualizeEpisode.ClampEndFrame | visualization/scripts/visualize_episode.py:190-192 | end_frame None or beyond len(frames) becomes len(frames); any other value is kept |
| VisualizeEpisode.EpisodeWindow | visualization/scripts/visualize_episode.py:190-266 | the window frames[start_frame:end_frame] after clamping end_frame: never longer than the episode, the whole episode by default, the tail without an in-range end, the plain sub-range otherwise |
| VisualizeEpisode.RelativePath | visualization/scripts/visualize_episode.py:266-299 | one point per frame of the window, or the start alone for an empty window |
| VisualizeEpisode.RelativePathSteps | visualization/scripts/visualize_episode.py:269-299 | the path starts at the observed post-takeoff position and each step is the scaled recorded step |
| VisualizeEpisode.RelativePathRigid | visualization/scripts/visualize_episode.py:269-299 | moving the start moves every point by the same vector |
| VisualizeEpisode.RelativeStepsVersusAbsolute | visualization/scripts/visualize_episode.py:278-299 | relative steps equal the transformed path's steps on x and y, and on z without inversion; with inversion the z steps are opposite |
| VisualizeEpisode.AbsolutePath | visualization/scripts/visualize_episode_with_car.py:321-328 | one transformed point per recorded position |
| VisualizeEpisode.BuildRelativePaths | visualization/scripts/visualize_episode.py:266-299 | both paths have length max(1, window length), start at the observed positions, and equal the closed-form relative paths |
| VisualizeEpisode.VisualPoint | visualization/scripts/visualize_episode.py:311-320 | a trail point has the transformed x and y of any transform with that scale, and the recorded z |
| VisualizeEpisode.BuildVisualPaths | visualization/scripts/visualize_episode.py:304-320 | one trail point per frame for each drone, x and y scaled, z raw |
| VisualizeEpisode.VisualTrail | visualization/scripts/visualize_episode.py:304-320 | one point per frame |
| VisualizeEpisode.MonitorFlight | visualization/scripts/visualize_episode.py:486-557 | the loop ends as the monitoring specification says (first tick with both within 1.0, the 10000 limit, an interrupt or a fault); both recorded trajectories are the polled poses, equally long, at most 10000 |
| VisualizeEpisode.PlayEpisode | visualization/scripts/visualize_episode.py:201-603 | the whole command trace: startup, overlays, both paths at one velocity, cancel only after a normal exit, and the landing (or reset) on every exit path; an unplayable window goes straight to the error path |
| VisualizeEpisode.FlyEpisode | visualization/scripts/visualize_episode.py:269-603 | for a playable window: scale 0 gives a zero velocity and the error path; otherwise overlays, both paths, the monitoring trace as specified, cancel after a normal end, and the cleanup |
| VisualizeEpisode.UpdateSettingsWithFrame0 | visualization/scripts/visualize_episode.py:87-145 | nothing is written for no frames or an unreadable file; otherwise Vehicles exists; Defender and Attacker get the transformed frame-0 position with yaw rpy[2]; every other key and vehicle entry is kept |
| Simulator.MonitorSpec | visualization/scripts/visualize_episode.py:492-557 | when a loop end matches the specification, it read at most 10000 polls and every poll it read returned poses |
| Simulator.LandingSequence | visualization/scripts/visualize_episode.py:589-599 | eight commands, starting with the defender's landing, each of which winds down a drone (land, join, disarm, release) |
| Simulator.LandingGroundsBoth | visualization/scripts/visualize_episode.py:589-599 | the landing sequence lands, joins, disarms and releases both drones and never resets |
| Simulator.Cleanup | visualization/scripts/visualize_episode.py:587-603 | the full landing sequence when no step fails; when step k fails, the first k + 1 steps, then reset as the last command |
| Simulator.MonitorEndUnique | visualization/scripts/visualize_episode.py:507-557 | the polls determine how the monitoring loop ends |
| Simulator.CleanupOrdered | visualization/scripts/visualize_episode.py:587-603 | the cleanup starts by landing the defender, keeps the order land, disarm, release, and calls reset exactly when a step failed, as its last command |
| Geometry.CentimetersToMeters | PythonClient/airsim_single_agent/run_trajectory_auto.py:73-75 | scaling the result by 100 gives back the position in centimetres |
| Geometry.SqDist | visualization/scripts/visualize_episode.py:496-499 | the squared distance is non-negative and zero between equal points |
| Geometry.ScaledStepsTelescope | visualization/scripts/visualize_episode.py:287-299 | two consecutive scaled steps add up to the scaled step across both |
| EpisodeData.Slice | visualization/scripts/visualize_episode.py:266 | frames[start:end] matches the plain subsequence for in-range bounds and is never longer than the list |
| EpisodeData.SliceBound | visualization/scripts/visualize_episode.py:266 | a slice bound is clamped into [0, n], keeping in-range bounds |
| EpisodeData.DefenderPositions | visualization/scripts/visualize_episode.py:278-280 | entry i is frame i's defender position |
| EpisodeData.AttackerPositions | visualization/scripts/visualize_episode.py:282-284 | entry i is frame i's attacker position |
| EpisodeData.BasePositions | visualization/scripts/visualize_episode_with_car.py:324 | entry i is frame i's base position |
| Json.StartingSettings | visualization/scripts/visualize_episode.py:97-108 | a missing file starts from the defaults, a parsed object from itself, and an unreadable or non-object file raises |
| Text.Lower | visualization/scripts/convert_waypoints_to_episode.py:56 | same length, each character lower-cased |
| Text.Upper | visualization/scripts/config.py:173 | same length, each character upper-cased |
| Text.ReplaceChar | PythonClient/airsim_single_agent/run_trajectory_auto.py:146 | same length, every occurrence of the character replaced and nothing else changed |
| Text.RunLength | visualization/scripts/convert_waypoints_to_episode.py:23 | the greedy run: all in the class and followed by the end or a character outside it |
| Text.ParseNatDigits | visualization/scripts/convert_waypoints_to_episode.py:51-53 | int() of the decimal digits of n is n |
| Text.NatDigits | visualization/scripts/convert_waypoints_to_episode.py:51-53 | str() of a natural number is a non-empty string of digits |
| Text.ParseDecimal | visualization/scripts/convert_waypoints_to_episode.py:25 | float() of a digit-and-dot string raises exactly when it has no digit or two dots; plain digits give the whole number; never negative |
| Text.FirstDotSplit | visualization/scripts/convert_waypoints_to_episode.py:25 | at the first dot, a second dot exists exactly when the part after it is not all digits, and a digit exists exactly when either part is non-empty |
| Text.ParseDecimalFraction | visualization/scripts/convert_waypoints_to_episode.py:25 | float() of <digits w>.<digits f>, not both empty, is w + f / 10^len(f) |
| Text.DotAfterDigits | visualization/scripts/convert_waypoints_to_episode.py:25 | in digits, a dot and digits, the first dot follows the whole part |
| Text.FractionValue | visualization/scripts/convert_waypoints_to_episode.py:25 | the digits after the dot have a non-negative value |
| Text.IndexOf | visualization/scripts/convert_waypoints_to_episode.py:25 | the first position of the character, with none before it, or the length when absent |
| ConvertWaypoints.FirstTimeMatch | visualization/scripts/convert_waypoints_to_episode.py:23 | the leftmost position where t=<digits and dots>s matches, with no match before it |
| ConvertWaypoints.TimeGroup | visualization/scripts/convert_waypoints_to_episode.py:23-25 | the captured group is non-empty digits and dots |
| ConvertWaypoints.ExtractTime | visualization/scripts/convert_waypoints_to_episode.py:21-26 | 0.0 without a match; otherwise float() of the leftmost group, which may raise |
| ConvertWaypoints.ExtractTimeOfTag | visualization/scripts/convert_waypoints_to_episode.py:21-26 | the leftmost t=<group>s, with no t= before it, is read as float() of that group |
| ConvertWaypoints.ExtractTimeRoundTrip | visualization/scripts/convert_waypoints_to_episode.py:21-26 | a description with t=<n>s, and no t= before it, yields n |
| ConvertWaypoints.ExtractFractionalTimeRoundTrip | visualization/scripts/convert_waypoints_to_episode.py:21-26 | a description with t=<a>.<f>s, and no t= before it, yields a + f / 10^len(f), so t=1.5s yields 1.5 |
| ConvertWaypoints.FirstTimeMatchIs | visualization/scripts/convert_waypoints_to_episode.py:23 | a match with none before it is the leftmost one |
| ConvertWaypoints.TimeTagMatches | visualization/scripts/convert_waypoints_to_episode.py:23 | t=<digits and dots>s is a match whose group is those characters |
| ConvertWaypoints.NoTimeMatchInPrefix | visualization/scripts/convert_waypoints_to_episode.py:23 | a prefix without t= holds no match |
| ConvertWaypoints.RunLengthExact | visualization/scripts/convert_waypoints_to_episode.py:23 | a run ending at a character outside the class is what the greedy group consumes |
| ConvertWaypoints.FirstEpisodeMatch | visualization/scripts/convert_waypoints_to_episode.py:51 | the leftmost episode_<digits> match, with none before it |
| ConvertWaypoints.EpisodeNumber | visualization/scripts/convert_waypoints_to_episode.py:50-53 | 0 without a match |
| ConvertWaypoints.EpisodeTagMatches | visualization/scripts/convert_waypoints_to_episode.py:51 | episode_<digits> followed by a non-digit is a match whose group is the digits |
| ConvertWaypoints.NoEpisodeMatchBefore | visualization/scripts/convert_waypoints_to_episode.py:51 | no match starts before an episode_ that has none before it, not even one overlapping it |
| ConvertWaypoints.FirstEpisodeMatchIs | visualization/scripts/convert_waypoints_to_episode.py:51 | a match with none before it is the leftmost one |
| ConvertWaypoints.EpisodeNumberRoundTrip | visualization/scripts/convert_waypoints_to_episode.py:50-53 | a path whose first episode_ is followed by digits d and then a non-digit names episode int(d) |
| ConvertWaypoints.DocumentedEpisodeNumber | visualization/scripts/convert_waypoints_to_episode.py:12 | the documented input ../data/airsim_waypoints/episode_0010_airsim.json is episode 10 |
| ConvertWaypoints.ClassifyOutcome | visualization/scripts/convert_waypoints_to_episode.py:56-64 | capture, escape, timeout by priority, each exactly when it occurs and no higher-priority keyword does; unknown otherwise |
| ConvertWaypoints.ConvertPosition | visualization/scripts/convert_waypoints_to_episode.py:81-87 | centimetres are divided by 100 (100 times the result is the input); other units pass through |
| ConvertWaypoints.ConvertWaypoint | visualization/scripts/convert_waypoints_to_episode.py:76-140 | multi-agent waypoints need both positions and the base; old-format ones need a time-tag that float() accepts and a position and get the fixed attacker and base; velocity and roll/pitch are zero, yaw defaults to 0 |
| ConvertWaypoints.ConvertFrames | visualization/scripts/convert_waypoints_to_episode.py:73-146 | succeeds exactly when every waypoint converts; otherwise the error is the first failing waypoint's; one frame per waypoint in order; reward one per frame for a capture |
| ConvertWaypoints.ConvertWaypointsToEpisode | visualization/scripts/convert_waypoints_to_episode.py:42-160 | no waypoints is an error; success exactly when every waypoint converts; the first failing waypoint gives the error; frames in order and the metadata (episode number, reward, steps, outcome, coordinate system, units, meters) |
| ConvertWaypoints.ConvertedFramesComplete | visualization/scripts/convert_waypoints_to_episode.py:100-140 | a converted episode has both drones and a base in every frame |
| VisualizeEpisodeWithCar.Abs | visualization/scripts/visualize_episode_with_car.py:103-105 | non-negative and equal to x or -x |
| VisualizeEpisodeWithCar.CheckBaseTrajectory | visualization/scripts/visualize_episode_with_car.py:94-108 | False for fewer than 2 frames; True exactly when a later transformed base differs from frame 0's by more than 0.1 on some axis before any frame lacks a base; that lack is the error |
| VisualizeEpisodeWithCar.StationaryBaseNotMoving | visualization/scripts/visualize_episode_with_car.py:97-108 | a base that never leaves its first position is reported stationary |
| VisualizeEpisodeWithCar.GroundPose | visualization/scripts/visualize_episode_with_car.py:135-137 | the car pose keeps x and y and puts z at 0.0 |
| VisualizeEpisodeWithCar.WithoutMembers | visualization/scripts/visualize_episode_with_car.py:190-192 | the filtered fallbacks are exactly those not named like the preferred asset |
| VisualizeEpisodeWithCar.WithoutDistinct | visualization/scripts/visualize_episode_with_car.py:190-192 | filtering keeps names distinct |
| VisualizeEpisodeWithCar.FallbackNamesDistinct | visualization/scripts/visualize_episode_with_car.py:182-187 | the fallback list names no asset twice |
| VisualizeEpisodeWithCar.ConsDistinct | visualization/scripts/visualize_episode_with_car.py:178-179 | a new name in front keeps names distinct |
| VisualizeEpisodeWithCar.AssetOrderDistinct | visualization/scripts/visualize_episode_with_car.py:175-192 | the asset list names no asset twice |
| VisualizeEpisodeWithCar.AssetOrderShape | visualization/scripts/visualize_episode_with_car.py:175-192 | preferred asset first at 1.0 when named; every other fallback present; nothing else; no duplicates; Cube at 2.0 exactly when Cube is not preferred |
| VisualizeEpisodeWithCar.AssetsToTry | visualization/scripts/visualize_episode_with_car.py:175-192 | the appended list is the asset order |
| VisualizeEpisodeWithCar.Attempts | visualization/scripts/visualize_episode_with_car.py:195-204 | never more attempts than assets |
| VisualizeEpisodeWithCar.AttemptsStopAtFirstSuccess | visualization/scripts/visualize_episode_with_car.py:195-204 | attempts stop at the first asset that spawns; some asset spawns exactly when the last attempt succeeded; all are tried when none does |
| VisualizeEpisodeWithCar.AttemptsSkip | visualization/scripts/visualize_episode_with_car.py:195-199 | failed leading attempts are skipped one by one |
| VisualizeEpisodeWithCar.SpawnFirstOf | visualization/scripts/visualize_episode_with_car.py:195-204 | the trace holds the attempts up to the first success; a car exists exactly when some asset spawns, named BaseCar |
| VisualizeEpisodeWithCar.TrySpawnCarWithFallback | visualization/scripts/visualize_episode_with_car.py:156-204 | the spawn loop over the asset order, with the same result |
| VisualizeEpisodeWithCar.BuildAbsolutePaths | visualization/scripts/visualize_episode_with_car.py:317-328 | each path is its positions transformed, all three as long as the window |
| VisualizeEpisodeWithCar.Approach | visualization/scripts/visualize_episode_with_car.py:345-356 | both drones are sent to their first path points at 5.0, then both moves are joined, no join before a move |
| VisualizeEpisodeWithCar.Trail | visualization/scripts/visualize_episode_with_car.py:451-452 | one recorded point per tick |
| VisualizeEpisodeWithCar.TrailStep | visualization/scripts/visualize_episode_with_car.py:451-452 | each tick appends its polled pose |
| VisualizeEpisodeWithCar.CarPosesAppend | visualization/scripts/visualize_episode_with_car.py:455-456 | car poses of a concatenation concatenate |
| VisualizeEpisodeWithCar.TickCarPoses | visualization/scripts/visualize_episode_with_car.py:455-456 | one tick moves the car at most once, to the ground pose of base_path[tick] |
| VisualizeEpisodeWithCar.CarPosesNone | visualization/scripts/visualize_episode_with_car.py:455-456 | a trace without a car pose moves the car nowhere |
| VisualizeEpisodeWithCar.GroundPrefixStep | visualization/scripts/visualize_episode_with_car.py:455-456 | the ground poses of m + 1 base points extend those of m |
| VisualizeEpisodeWithCar.CarFollowsBase | visualization/scripts/visualize_episode_with_car.py:455-456 | over k ticks the car is set to the ground pose of base_path[j] at each tick j < len(base_path) when the base moves and a car exists, and never otherwise |
| VisualizeEpisodeWithCar.MonitorFlightWithCar | visualization/scripts/visualize_episode_with_car.py:427-542 | ends as the monitoring specification says; the trajectories are the polled poses; the commands are the per-tick car updates, trails and markers |
| VisualizeEpisodeWithCar.PlayEpisodeWithCar | visualization/scripts/visualize_episode_with_car.py:246-590 | a base scan error ends before the simulator is touched; otherwise the car exists exactly when some asset spawns; the trace is startup, spawn attempts, approach, both paths at one velocity, the ticks, the joins after a normal exit, car removal and landing |
| VisualizeEpisodeWithCar.FlyEpisodeWithCar | visualization/scripts/visualize_episode_with_car.py:331-590 | the same trace and outcome once the window is playable |
| VisualizeEpisodeWithCar.RemoveCar | visualization/scripts/visualize_episode_with_car.py:567-573 | one destroy command for the spawned car exactly when there is one, nothing otherwise |
| MultiAgentRunnerModule.BaseMarker | visualization/scripts/multi_agent_runner.py:218-245 | one persistent point at the base's x and y, 0.3 m above the ground |
| MultiAgentRunnerModule.TrailCommands | visualization/scripts/multi_agent_runner.py:264-289 | nothing when trails are off; each trail drawn exactly when it has more than one point |
| MultiAgentRunnerModule.MarkerCommands | visualization/scripts/multi_agent_runner.py:169-193 | nothing when markers are off; otherwise one transient point per drone at its target plus the offset on z |
| MultiAgentRunnerModule.MoveCommands | visualization/scripts/multi_agent_runner.py:129-146 | both timed moves at 5.0 with a 30 s timeout, joined exactly when waiting |
| MultiAgentRunnerModule.MultiAgentRunner.constructor | visualization/scripts/multi_agent_runner.py:23-42 | empty trajectories, no base, frame count 0, no start time; a default config when none is given |
| MultiAgentRunnerModule.MultiAgentRunner.SetupAndTakeoff | visualization/scripts/multi_agent_runner.py:71-97 | appends control, arming and both takeoffs; nothing else changes |
| MultiAgentRunnerModule.MultiAgentRunner.MoveToFrame | visualization/scripts/multi_agent_runner.py:100-159 | a frame missing a key changes nothing; otherwise the base is recorded and drawn on the first call, both transformed targets are sent and appended, trails every 10th target, markers, count + 1; the trajectory lengths stay equal to the count |
| MultiAgentRunnerModule.MultiAgentRunner.LandAndDisarm | visualization/scripts/multi_agent_runner.py:314-331 | appends the landing sequence; nothing else changes |
| MultiAgentRunnerModule.MultiAgentRunner.Reset | visualization/scripts/multi_agent_runner.py:335-342 | resets the simulator and clears trajectories, base and count |
| MultiAgentRunnerModule.MultiAgentRunner.PrintStatistics | visualization/scripts/multi_agent_runner.py:345-351 | nothing without a start time; otherwise frames processed, total frames and elapsed time |
| MultiAgentRunnerModule.StatisticsNeverReported | visualization/scripts/multi_agent_runner.py:42 | a runner driven only by its own methods never reports statistics |
| MultiAgentRunnerModule.ReplayFrames | visualization/scripts/multi_agent_runner.py:100-159 | after replaying frames, both trajectory lengths equal the number of complete frames, the base is set exactly when one was moved to, and it is the transformed base of the first complete frame |
| MultiAgentRunnerModule.FirstCompleteBaseIsFirst | visualization/scripts/multi_agent_runner.py:118-120 | the recorded base exists exactly when some frame is complete, and it is the transformed base of the first complete frame |
| MultiAgentRunnerModule.FirstCompleteBaseAppend | visualization/scripts/multi_agent_runner.py:118-120 | one more frame sets the base only when none was recorded and the frame is complete |
| MultiAgentRunnerModule.CountCompleteAppend | visualization/scripts/multi_agent_runner.py:109-111 | one more frame adds one exactly when it is complete |
| MultiAgentRunnerModule.CountComplete | visualization/scripts/multi_agent_runner.py:109-111 | at most the number of frames, and equal to it exactly when every frame has all three agents |
| RunTrajectoryAuto.Walk | PythonClient/airsim_single_agent/run_trajectory_auto.py:69-113 | the loop visits a prefix of the waypoints with positions; an interrupt names a waypoint with a position that was not logged |
| RunTrajectoryAuto.MoveTrace | PythonClient/airsim_single_agent/run_trajectory_auto.py:82-86 | a move and its join per visited waypoint |
| RunTrajectoryAuto.EntriesFor | PythonClient/airsim_single_agent/run_trajectory_auto.py:88-104 | one log entry per visited waypoint |
| RunTrajectoryAuto.EntriesCarryWaypoints | PythonClient/airsim_single_agent/run_trajectory_auto.py:88-104 | entry j carries waypoint j's id, its target in metres, the pose read there and the elapsed time |
| RunTrajectoryAuto.WalkStopsAtFirstCollision | PythonClient/airsim_single_agent/run_trajectory_auto.py:69-113 | no interrupt before the end; no collision before the last logged waypoint; an early normal end means the last one collided; a failure is the KeyError of a missing position |
| RunTrajectoryAuto.WalkVisitsAll | PythonClient/airsim_single_agent/run_trajectory_auto.py:69-118 | with every position present and no collision or interrupt, all waypoints are visited |
| RunTrajectoryAuto.WalkStep | PythonClient/airsim_single_agent/run_trajectory_auto.py:69-113 | one pass extends the trace and the log by that waypoint's part |
| RunTrajectoryAuto.Errors | PythonClient/airsim_single_agent/run_trajectory_auto.py:130 | the errors of the log, in order |
| RunTrajectoryAuto.MaxOf | PythonClient/airsim_single_agent/run_trajectory_auto.py:133 | an upper bound that is an element |
| RunTrajectoryAuto.MinOf | PythonClient/airsim_single_agent/run_trajectory_auto.py:134 | a lower bound that is an element |
| RunTrajectoryAuto.SumBetween | PythonClient/airsim_single_agent/run_trajectory_auto.py:132 | elements within bounds give a sum within n times the bounds |
| RunTrajectoryAuto.QuotientBetween | PythonClient/airsim_single_agent/run_trajectory_auto.py:132 | dividing by a positive count keeps the bounds |
| RunTrajectoryAuto.StatisticsOrdered | PythonClient/airsim_single_agent/run_trajectory_auto.py:129-135 | min <= mean <= max |
| RunTrajectoryAuto.LogFileName | PythonClient/airsim_single_agent/run_trajectory_auto.py:145-147 | the name with spaces as underscores, lower-cased, then _, the timestamp and .json |
| RunTrajectoryAuto.LogFileNameKeepsPlainNames | PythonClient/airsim_single_agent/run_trajectory_auto.py:146-147 | a lower-case name without spaces is kept as the stem |
| RunTrajectoryAuto.LandAttempt | PythonClient/airsim_single_agent/run_trajectory_auto.py:167-172 | the landing steps up to the one that raises, always starting with land |
| RunTrajectoryAuto.WaypointLoop | PythonClient/airsim_single_agent/run_trajectory_auto.py:69-118 | the loop ends as the walk says; its log and commands are the specified ones |
| RunTrajectoryAuto.TrajectoryRunner.constructor | PythonClient/airsim_single_agent/run_trajectory_auto.py:16-25 | no trajectory, no start time, empty log |
| RunTrajectoryAuto.TrajectoryRunner.LoadTrajectory | PythonClient/airsim_single_agent/run_trajectory_auto.py:27-35 | succeeds exactly for a readable file, which becomes the trajectory |
| RunTrajectoryAuto.TrajectoryRunner.SetupDrone | PythonClient/airsim_single_agent/run_trajectory_auto.py:42-57 | reset, control and arm always; no trajectory, no waypoint or no position raises after them; otherwise takeoff and a climb to the first waypoint's z in metres |
| RunTrajectoryAuto.TrajectoryRunner.FlyWaypoints | PythonClient/airsim_single_agent/run_trajectory_auto.py:69-118 | appends the walk's log entries and commands |
| RunTrajectoryAuto.TrajectoryRunner.RunTrajectory | PythonClient/airsim_single_agent/run_trajectory_auto.py:59-138 | sets the start time; appends the log and the commands; statistics exactly after a normal end with a non-empty log; the log is saved exactly then; the saved log has mean <= max |
| RunTrajectoryAuto.TrajectoryRunner.SaveLog | PythonClient/airsim_single_agent/run_trajectory_auto.py:140-165 | the file name, the entries, completed/total counts and mean <= max |
| RunTrajectoryAuto.TrajectoryRunner.LandAndDisarm | PythonClient/airsim_single_agent/run_trajectory_auto.py:167-172 | appends the attempted landing steps; succeeds exactly when none raised |
| RunTrajectoryAuto.ScriptEndsWithLanding | PythonClient/airsim_single_agent/run_trajectory_auto.py:184-204 | every run with an argument ends with a landing sequence started by land, and when a stage raised it is the handler's |
| RunTrajectoryAuto.ScriptStartsWithSetup | PythonClient/airsim_single_agent/run_trajectory_auto.py:184-187 | a loaded run starts with reset, control and arm |
| RunTrajectoryAuto.SetupTraceShape | PythonClient/airsim_single_agent/run_trajectory_auto.py:42-57 | setup starts with reset, control and arm; it goes on exactly when the first waypoint has a position, with the takeoff and then the climb to z/100 at 2 |
| RunTrajectoryAuto.ScriptTraceFailedStages | PythonClient/airsim_single_agent/run_trajectory_auto.py:176-204 | no argument sends nothing; a load failure sends only the handler's landing; a setup failure sends the setup steps issued, then that landing |
| RunTrajectoryAuto.LandingsShape | PythonClient/airsim_single_agent/run_trajectory_auto.py:188-204 | the landings start with land; after a finished run the normal attempt comes first; the handler's comes last when the run or that landing raised; a clean landing is the four steps alone |
| RunTrajectoryAuto.LoadedScriptTrace | PythonClient/airsim_single_agent/run_trajectory_auto.py:184-204 | after a successful setup the trace is setup, run and the landing attempts |
| RunTrajectoryAuto.RunTrajectoryScript | PythonClient/airsim_single_agent/run_trajectory_auto.py:176-204 | exit 1 exactly without an argument; the stage reached; the whole trace; a log saved exactly after a normal run end with a non-empty log |
| RunTrajectoryAuto.RunLoaded | PythonClient/airsim_single_agent/run_trajectory_auto.py:187-204 | after loading: a failed setup leads to the handler's landing; otherwise run and landings |
| RunTrajectoryAuto.FlyAndLand | PythonClient/airsim_single_agent/run_trajectory_auto.py:188-204 | run, land, and the handler's retry when the run or landing raised |
| RunTrajectoryAuto.LandAfterRun | PythonClient/airsim_single_agent/run_trajectory_auto.py:189-204 | the landing attempts and stage after a run that ended normally, stopped or raised; the log and trajectory are untouched |
| SetSimSpeed.DefaultSettings | visualization/scripts/set_sim_speed.py:25-29 | SettingsVersion 1.2, SimMode Multirotor, empty Vehicles, nothing else |
| SetSimSpeed.ClockSpeedSettings | visualization/scripts/set_sim_speed.py:19-32 | nothing is written for an unreadable or non-object file; otherwise ClockSpeed is set and every other key is kept; a missing file gives the defaults plus ClockSpeed |
| SetSimSpeed.ClockSpeedIdempotent | visualization/scripts/set_sim_speed.py:32 | running again with the same speed on the written file rewrites the same dictionary |
| SetSimSpeed.ClockSpeedLastWins | visualization/scripts/set_sim_speed.py:32 | a second run with another speed gives what that speed alone gives |
| SetSimSpeed.SetClockSpeed | visualization/scripts/set_sim_speed.py:14-43 | writes the specified dictionary; warns exactly when written with a speed above 10 |
| SetSimSpeed.ParseFloat | visualization/scripts/set_sim_speed.py:55 | a minus sign never gives a positive value; other text outside digits and dots is rejected |
| SetSimSpeed.AcceptedSpeed | visualization/scripts/set_sim_speed.py:46-62 | a speed is accepted exactly when the argument exists, parses and is positive |
| SetSimSpeed.WholeSpeedAccepted | visualization/scripts/set_sim_speed.py:54-62 | a whole number is accepted exactly when it is not zero |
| SetSimSpeed.NegativeSpeedRejected | visualization/scripts/set_sim_speed.py:54-62 | a signed negative speed is rejected |
| SetSimSpeed.SetSimSpeedScript | visualization/scripts/set_sim_speed.py:45-65 | a missing, unparsable or non-positive argument exits with status 1 and writes nothing; otherwise writes the clock-speed settings; exit 0 exactly when written |

## Left out

- **Simulator.** The simulator itself is left out: connection, vehicle checks, the physics, and what the scripts print. Commands are a trace and reads are parameters, so the model says what is sent, in which order, and what is done with each reading.
- **Waits.** Futures and `join` are sequencing only: a `Join` command marks where the script waits. `time.sleep` and the wait times are not modelled.
- **Square roots.** Euclidean distance with `**0.5` is left out. Arrival tests compare squared distances with 1.0, which is equivalent for non-negative distances. The trajectory runner's `np.linalg.norm` of the position error is the parameter `norm`; its value is not modelled.
- **Floating point.** Floats are exact reals: rounding, NaN and infinities are not modelled.
- **Unused helpers.** `transform_orientation` (`np.degrees`), `calculate_velocity_magnitude` and `print_config_summary` take no part in the modelled behaviour.
- **Text labels.** `simPlotStrings` calls are not in the traces, and the source swallows their failures. Coloured point markers and line strips are in the traces; their colours, sizes and durations are not.
- **Path-following options.** A `MoveOnPath` command records the vehicle, the points and the velocity. The `lookahead`, `adaptive_lookahead`, `drivetrain` and `yaw_mode` arguments are not recorded, although the two playback scripts pass different values.
- **Vehicle names.** `multi_agent_runner.py` addresses its drones through the configuration's `DEFENDER_NAME` and `ATTACKER_NAME`. The model fixes them to `Defender` and `Attacker`, the configuration's defaults, and `VisualizationConfig` has no name fields.
- **Startup commands.** Startup marker flushing is a single `FlushPersistentMarkers` command. The source swallows its failure.
- **Files and command lines.** JSON file syntax, paths, `mkdir`, writing failures, `argparse` and the `main` functions of the playback scripts are not modelled. A file is the value it was parsed into, or a marker that it is missing or unreadable.
- **Interrupts.** `KeyboardInterrupt` is modelled only where the scripts wait on the simulator: at a monitoring tick, at the post-approach read of the car variant (which includes its confirmation prompt), and during a waypoint move of the trajectory runner. An interrupt at any other instant is not modelled.
- **Other simulator failures.** Every simulator call other than those named under "Failures" is assumed to succeed. In both playback scripts, any failure before the `try` ends the script with no landing cleanup. `multi_agent_runner.py` has no handler of its own, so a failure of any of its calls is the caller's concern and is not modelled.
- **Missing `pos`.** An agent present in a frame but without `pos` is the same as the agent missing.
- **Missing `rpy`.** An agent always has `rpy`. In the source, `update_settings_with_frame_0` raises `KeyError` for a frame-0 drone without `rpy`, its handler catches it, and nothing is written. That case is not modelled.
- **Trajectory files.** A trajectory file without `name`, `description`, `waypoints` or `velocity` counts as an unreadable file. This is exact for `main`. `load_trajectory` reads all four right after parsing, so the `KeyError` comes from loading, and the handler then lands. The source has already stored the parsed file as `trajectory_data` by then, while `TrajectoryRunner.LoadTrajectory` keeps the previous trajectory; `main`'s handler never reads it.
- **Trajectory waypoints.** A waypoint always has an `id` and a `description`, which `run_trajectory` reads before each move. A waypoint that lacks one is not modelled.
- **Partial positions.** A waypoint position is whole or absent. In the source, a position that has `z` but lacks `x` or `y` still lets `setup_drone` take off and climb, since that reads only `z`; the `KeyError` comes in `run_trajectory`. In the model such a first waypoint fails at setup, before the takeoff.
- **Runner construction errors.** In `run_trajectory_auto.py`, the case where `TrajectoryRunner()` itself raises is not modelled. The handler would then find no runner.
- `VisualizeEpisode.BuildRelativePaths`: requires every frame of the window to have both drones. `PlayEpisode` sends a window that lacks them to the error path before this loop runs, which matches the `KeyError` the source raises there.
- `RunTrajectoryAuto.TrajectoryRunner.SaveLog`: requires a loaded trajectory and a non-empty log, because `run_trajectory` calls it only then. `np.max` of an empty list would raise.
- `SetSimSpeed.ParseFloat`: accepts only an optional sign followed by digits and dots. `float()` also accepts exponents, surrounding whitespace, underscores between digits, `inf` and `nan`; the model rejects these as not a number.
- `Text.Lower`: affects only ASCII letters. `Text.Upper` is the same. Python's full Unicode case mapping is not modelled.
- `Text.ParseDecimal`: gives the exact decimal value, with none of the binary rounding of `float()`.
- `Text.IsDigit`: accepts only the ASCII digits 0 to 9. Python's `\d`, `int()` and `float()` also accept other Unicode decimal digits, such as Arabic-Indic ones. `Text.RunLength`, `Text.ParseNat`, `Text.ParseDecimal`, `SetSimSpeed.ParseFloat`, `ConvertWaypoints.EpisodeNumber`, `ConvertWaypoints.ExtractTime` and `SetSimSpeed.AcceptedSpeed` therefore reject such digits where the source accepts them.
