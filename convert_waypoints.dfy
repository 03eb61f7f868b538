/** Waypoint file to episode conversion (visualization/scripts/convert_waypoints_to_episode.py). */
module ConvertWaypoints {
  import opened Wrappers
  import opened Geometry
  import opened Text
  import opened EpisodeData

  /** A greedy run (`[\d.]+` or `\d+`) ending at the first character outside its class has that length. */
  lemma {:induction false} RunLengthExact(s: string, from: nat, k: nat, cls: CharClass)
    requires from + k <= |s|
    requires AllInClass(s[from..from + k], cls)
    requires from + k == |s| || !InClass(s[from + k], cls)
    ensures RunLength(s, from, cls) == k
    decreases k
  {
    if k > 0 {
      var run := s[from..from + k];
      assert InClass(run[0], cls);
      assert s[from + 1..from + k] == run[1..];
      assert AllInClass(run[1..], cls) by {
        forall i | 0 <= i < |run[1..]| ensures InClass(run[1..][i], cls) {
          assert run[1..][i] == run[i + 1];
        }
      }
      RunLengthExact(s, from + 1, k - 1, cls);
    }
  }

  // ---- extract_time_from_description: re.search(r't=([\d.]+)s', description)

  /** The pattern `t=([\d.]+)s` matches at i; the greedy group is followed directly by `s`. */
  predicate TimeMatchAt(s: string, i: nat) {
    OccursAt(s, "t=", i) &&
    var run := RunLength(s, i + 2, DigitsAndDots);
    run >= 1 && i + 2 + run < |s| && s[i + 2 + run] == 's'
  }

  /** The leftmost match at or after `from`. */
  function FirstTimeMatch(s: string, from: nat): (r: Option<nat>)
    requires from <= |s|
    ensures r.Some? ==> from <= r.value < |s| && TimeMatchAt(s, r.value)
    ensures forall j :: from <= j < (if r.Some? then r.value else |s|) ==> !TimeMatchAt(s, j)
    decreases |s| - from
  {
    if from == |s| then None
    else if TimeMatchAt(s, from) then Some(from)
    else FirstTimeMatch(s, from + 1)
  }

  /** The captured group of the leftmost match. */
  function TimeGroup(s: string, i: nat): (g: string)
    requires i < |s| && TimeMatchAt(s, i)
    ensures |g| >= 1 && AllInClass(g, DigitsAndDots)
  {
    s[i + 2..i + 2 + RunLength(s, i + 2, DigitsAndDots)]
  }

  /**
   * extract_time_from_description: float() of the leftmost group, 0.0 without a match; a group
   * float() rejects (two dots, no digit) is a ValueError.
   */
  function ExtractTime(description: string): (r: Result<real>)
    ensures FirstTimeMatch(description, 0).None? ==> r == Ok(0.0)
    ensures FirstTimeMatch(description, 0).Some? ==>
      r == ParseDecimal(TimeGroup(description, FirstTimeMatch(description, 0).value))
    ensures r.Ok? ==> r.value >= 0.0
  {
    match FirstTimeMatch(description, 0)
    case None => Ok(0.0)
    case Some(i) => ParseDecimal(TimeGroup(description, i))
  }

  lemma DigitsAreDigitsAndDots(d: string)
    requires AllInClass(d, Digits)
    ensures AllInClass(d, DigitsAndDots)
  {
    forall k | 0 <= k < |d| ensures InClass(d[k], DigitsAndDots) { assert InClass(d[k], Digits); }
  }

  /** `t=<digits and dots>s` right after `prefix` is a match there whose group is those characters. */
  lemma TimeTagMatches(prefix: string, d: string, suffix: string)
    requires |d| >= 1 && AllInClass(d, DigitsAndDots)
    ensures var s := prefix + "t=" + d + "s" + suffix;
      TimeMatchAt(s, |prefix|) && TimeGroup(s, |prefix|) == d
  {
    var s := prefix + "t=" + d + "s" + suffix;
    var i := |prefix|;
    assert s[i..i + 2] == "t=";
    assert s[i + 2..i + 2 + |d|] == d;
    assert s[i + 2 + |d|] == 's';
    RunLengthExact(s, i + 2, |d|, DigitsAndDots);
  }

  /** A prefix without `t=` holds no match, even one reaching into what follows it, when that starts with `t`. */
  lemma NoTimeMatchInPrefix(prefix: string, rest: string)
    requires !Contains(prefix, "t=")
    requires |rest| >= 1 && rest[0] == 't'
    ensures forall j :: 0 <= j < |prefix| ==> !TimeMatchAt(prefix + rest, j)
  {
    var s := prefix + rest;
    forall j | 0 <= j < |prefix|
      ensures !OccursAt(s, "t=", j)
    {
      if j + 2 <= |prefix| {
        assert s[j..j + 2] == prefix[j..j + 2];
        assert !OccursAt(prefix, "t=", j);
      } else {
        assert s[j + 1] == 't';
      }
    }
  }

  /** A match with none before it is the leftmost one. */
  lemma {:induction false} FirstTimeMatchIs(s: string, from: nat, i: nat)
    requires from <= i < |s| && TimeMatchAt(s, i)
    requires forall j :: from <= j < i ==> !TimeMatchAt(s, j)
    ensures FirstTimeMatch(s, from) == Some(i)
    decreases i - from
  {
    if from < i {
      FirstTimeMatchIs(s, from + 1, i);
    }
  }

  /** The leftmost tag `t=<d>s`, with no `t=` before it, is what extract_time_from_description reads. */
  lemma ExtractTimeOfTag(prefix: string, d: string, suffix: string)
    requires !Contains(prefix, "t=")
    requires |d| >= 1 && AllInClass(d, DigitsAndDots)
    ensures ExtractTime(prefix + "t=" + d + "s" + suffix) == ParseDecimal(d)
  {
    var s := prefix + "t=" + d + "s" + suffix;
    TimeTagMatches(prefix, d, suffix);
    var rest := "t=" + d + "s" + suffix;
    assert s == prefix + rest;
    NoTimeMatchInPrefix(prefix, rest);
    FirstTimeMatchIs(s, 0, |prefix|);
  }

  /** The description the converter's time tag round-trips: `t=<n>s` yields n. */
  lemma ExtractTimeRoundTrip(prefix: string, n: nat, suffix: string)
    requires !Contains(prefix, "t=")
    ensures ExtractTime(prefix + "t=" + NatDigits(n) + "s" + suffix) == Ok(n as real)
  {
    var d := NatDigits(n);
    DigitsAreDigitsAndDots(d);
    ExtractTimeOfTag(prefix, d, suffix);
    ParseNatDigits(n);
  }

  /** A tag with a fractional part, `t=<a>.<f>s`, yields a + f / 10^|f|: `t=1.5s` reads 1.5. */
  lemma ExtractFractionalTimeRoundTrip(prefix: string, a: nat, f: string, suffix: string)
    requires !Contains(prefix, "t=")
    requires AllInClass(f, Digits)
    ensures var d := NatDigits(a) + "." + f; var r := ExtractTime(prefix + "t=" + d + "s" + suffix);
      r.Ok? && r.value == a as real + FractionValue(f)
  {
    var w := NatDigits(a);
    ParseDecimalFraction(w, f);
    ExtractTimeOfTag(prefix, w + "." + f, suffix);
    ParseNatDigits(a);
  }

  // ---- episode number: re.search(r'episode_(\d+)', input_file)

  predicate EpisodeMatchAt(s: string, i: nat) {
    OccursAt(s, "episode_", i) && RunLength(s, i + 8, Digits) >= 1
  }

  function FirstEpisodeMatch(s: string, from: nat): (r: Option<nat>)
    requires from <= |s|
    ensures r.Some? ==> from <= r.value < |s| && EpisodeMatchAt(s, r.value)
    ensures forall j :: from <= j < (if r.Some? then r.value else |s|) ==> !EpisodeMatchAt(s, j)
    decreases |s| - from
  {
    if from == |s| then None
    else if EpisodeMatchAt(s, from) then Some(from)
    else FirstEpisodeMatch(s, from + 1)
  }

  /** int() of the digits after the leftmost `episode_`, or 0 without a match. */
  function EpisodeNumber(path: string): (r: nat)
    ensures FirstEpisodeMatch(path, 0).None? ==> r == 0
  {
    match FirstEpisodeMatch(path, 0)
    case None => 0
    case Some(i) => ParseNat(path[i + 8..i + 8 + RunLength(path, i + 8, Digits)])
  }

  /**
   * When `episode_` occurs at n and not within s[..n], no match starts before n: one reaching
   * past n would need the `_` that ends it inside the first seven letters of the one at n.
   */
  lemma NoEpisodeMatchBefore(s: string, n: nat)
    requires n <= |s| && !Contains(s[..n], "episode_")
    requires OccursAt(s, "episode_", n)
    ensures forall j :: 0 <= j < n ==> !EpisodeMatchAt(s, j)
  {
    forall j | 0 <= j < n
      ensures !OccursAt(s, "episode_", j)
    {
      if j + 8 <= n {
        assert s[j..j + 8] == s[..n][j..j + 8];
        assert !OccursAt(s[..n], "episode_", j);
      } else {
        assert s[j + 7] == s[n..n + 8][j + 7 - n] != '_';
      }
    }
  }

  /** A match with none before it is the leftmost one. */
  lemma {:induction false} FirstEpisodeMatchIs(s: string, from: nat, i: nat)
    requires from <= i < |s| && EpisodeMatchAt(s, i)
    requires forall j :: from <= j < i ==> !EpisodeMatchAt(s, j)
    ensures FirstEpisodeMatch(s, from) == Some(i)
    decreases i - from
  {
    if from < i {
      FirstEpisodeMatchIs(s, from + 1, i);
    }
  }

  /** `episode_<digits>` followed by a non-digit right after `prefix` is a match whose group is the digits. */
  lemma EpisodeTagMatches(prefix: string, d: string, rest: string)
    requires |d| >= 1 && AllInClass(d, Digits)
    requires |rest| == 0 || !IsDigit(rest[0])
    ensures var s := prefix + "episode_" + d + rest; var i := |prefix|;
      EpisodeMatchAt(s, i) && s[i + 8..i + 8 + RunLength(s, i + 8, Digits)] == d
  {
    var s := prefix + "episode_" + d + rest;
    var i := |prefix|;
    assert s[i..i + 8] == "episode_";
    assert s[i + 8..i + 8 + |d|] == d;
    if |rest| > 0 {
      assert s[i + 8 + |d|] == rest[0];
    }
    RunLengthExact(s, i + 8, |d|, Digits);
  }

  /**
   * A path whose first `episode_` is followed by the digits d and then a non-digit names
   * episode int(d), leading zeros and all.
   */
  lemma EpisodeNumberRoundTrip(prefix: string, d: string, rest: string)
    requires !Contains(prefix, "episode_")
    requires |d| >= 1 && AllInClass(d, Digits)
    requires |rest| == 0 || !IsDigit(rest[0])
    ensures EpisodeNumber(prefix + "episode_" + d + rest) == ParseNat(d)
  {
    var s := prefix + "episode_" + d + rest;
    EpisodeTagMatches(prefix, d, rest);
    assert s[..|prefix|] == prefix;
    NoEpisodeMatchBefore(s, |prefix|);
    FirstEpisodeMatchIs(s, 0, |prefix|);
  }

  /** The converter's documented input, ../data/airsim_waypoints/episode_0010_airsim.json, is episode 10. */
  lemma DocumentedEpisodeNumber()
    ensures EpisodeNumber("../data/airsim_waypoints/" + "episode_" + "0010" + "_airsim.json") == 10
  {
    var prefix := "../data/airsim_waypoints/";
    assert forall k :: 0 <= k < |prefix| ==> prefix[k] != 'e';
    forall i: nat | i <= |prefix| ensures !OccursAt(prefix, "episode_", i) {
      if i + 8 <= |prefix| {
        assert prefix[i..i + 8][0] == prefix[i];
      }
    }
    var d := "0010";
    assert AllInClass(d, Digits);
    EpisodeNumberRoundTrip(prefix, d, "_airsim.json");
    assert d[..3] == "001" && d[..3][..2] == "00" && d[..3][..2][..1] == "0";
    assert ParseNat("0") == 0 && ParseNat("00") == 0;
    assert ParseNat("001") == 1;
    assert ParseNat(d) == 10;
  }

  // ---- outcome and units

  /** The outcome keyword of a lowercased description, by priority capture > escape > timeout. */
  function ClassifyOutcome(description: string): (r: string)
    ensures r == "capture" <==> Contains(description, "capture")
    ensures r == "escape" <==> !Contains(description, "capture") && Contains(description, "escape")
    ensures r == "timeout" <==>
      !Contains(description, "capture") && !Contains(description, "escape") && Contains(description, "timeout")
    ensures r == "unknown" <==>
      !Contains(description, "capture") && !Contains(description, "escape") && !Contains(description, "timeout")
  {
    if Contains(description, "capture") then "capture"
    else if Contains(description, "escape") then "escape"
    else if Contains(description, "timeout") then "timeout"
    else "unknown"
  }

  const DefaultUnits: string := "centimeters"
  const DefaultCoordinateSystem: string := "NED"

  /** convert_position: centimetres become metres; any other unit label leaves values as they are. */
  function ConvertPosition(p: Vec3, units: string): (r: Vec3)
    ensures units == DefaultUnits ==> Scale(100.0, r) == p
    ensures units != DefaultUnits ==> r == p
  {
    if units == DefaultUnits then CentimetersToMeters(p) else p
  }

  // ---- waypoint records as the input JSON holds them (a missing key is None)

  datatype AgentWaypoint = AgentWaypoint(position: Option<Vec3>, yaw: Option<real>)

  datatype Waypoint = Waypoint(
    t: Option<real>,
    description: Option<string>,
    position: Option<Vec3>,
    yaw: Option<real>,
    defender: Option<AgentWaypoint>,
    attacker: Option<AgentWaypoint>,
    base: Option<Vec3>)

  datatype WaypointFile = WaypointFile(
    waypoints: Option<seq<Waypoint>>,
    description: Option<string>,
    coordinateSystem: Option<string>,
    units: Option<string>)

  const Zero: Vec3 := Vec3(0.0, 0.0, 0.0)
  const OldFormatAttacker: Vec3 := Vec3(-5.0, 5.0, 3.0)

  /** A pose with unknown (zero) velocity, facing `yaw`. */
  function StillPose(pos: Vec3, yaw: real): AgentPose {
    AgentPose(pos, Zero, Vec3(0.0, 0.0, yaw))
  }

  /**
   * One frame per waypoint: the multi-agent format when both drones are given, otherwise the
   * single-agent format with the time from the description and a fixed attacker and base.
   */
  function ConvertWaypoint(w: Waypoint, units: string): (r: Result<Frame>)
    ensures r.Ok? ==> r.value.defender.Some? && r.value.attacker.Some? && r.value.base.Some?
    ensures r.Ok? ==>
      r.value.defender.value.vel == Zero && r.value.attacker.value.vel == Zero &&
      r.value.defender.value.rpy.x == 0.0 && r.value.defender.value.rpy.y == 0.0 &&
      r.value.attacker.value.rpy.x == 0.0 && r.value.attacker.value.rpy.y == 0.0
    ensures w.defender.Some? && w.attacker.Some? ==>
      (r.Ok? <==> w.defender.value.position.Some? && w.attacker.value.position.Some? && w.base.Some?) &&
      (r.Ok? ==>
        r.value.t == w.t.GetOr(0.0) &&
        r.value.defender.value == StillPose(ConvertPosition(w.defender.value.position.value, units), w.defender.value.yaw.GetOr(0.0)) &&
        r.value.attacker.value == StillPose(ConvertPosition(w.attacker.value.position.value, units), w.attacker.value.yaw.GetOr(0.0)) &&
        r.value.base.value == ConvertPosition(w.base.value, units))
    ensures !(w.defender.Some? && w.attacker.Some?) ==>
      (r.Ok? <==> ExtractTime(w.description.GetOr("")).Ok? && w.position.Some?) &&
      (r.Ok? ==>
        r.value.t == ExtractTime(w.description.GetOr("")).value &&
        r.value.defender.value == StillPose(ConvertPosition(w.position.value, units), w.yaw.GetOr(0.0)) &&
        r.value.attacker.value == StillPose(OldFormatAttacker, 0.0) &&
        r.value.base.value == Zero)
  {
    if w.defender.Some? && w.attacker.Some? then
      var d, a := w.defender.value, w.attacker.value;
      if d.position.None? || a.position.None? || w.base.None? then Err(KeyMissing)
      else
        Ok(Frame(w.t.GetOr(0.0),
                 Some(StillPose(ConvertPosition(d.position.value, units), d.yaw.GetOr(0.0))),
                 Some(StillPose(ConvertPosition(a.position.value, units), a.yaw.GetOr(0.0))),
                 Some(ConvertPosition(w.base.value, units))))
    else
      var t := ExtractTime(w.description.GetOr(""));
      if t.Err? then Err(t.error)
      else if w.position.None? then Err(KeyMissing)
      else
        Ok(Frame(t.value,
                 Some(StillPose(ConvertPosition(w.position.value, units), w.yaw.GetOr(0.0))),
                 Some(StillPose(OldFormatAttacker, 0.0)),
                 Some(Zero)))
  }

  /** The reward the converter gives: one per frame for a capture, none otherwise. */
  function RewardPerFrame(outcome: string): real {
    if outcome == "capture" then 1.0 else 0.0
  }

  /**
   * The loop of convert_waypoints_to_episode: one frame per waypoint in order, stopping at the
   * first waypoint that cannot be read, and a reward per frame for a capture.
   */
  method ConvertFrames(waypoints: seq<Waypoint>, units: string, outcome: string)
    returns (r: Result<seq<Frame>>, totalReward: real)
    ensures r.Ok? <==> forall i :: 0 <= i < |waypoints| ==> ConvertWaypoint(waypoints[i], units).Ok?
    ensures r.Err? ==>
      exists i :: 0 <= i < |waypoints| && ConvertWaypoint(waypoints[i], units) == Err(r.error) &&
        forall j :: 0 <= j < i ==> ConvertWaypoint(waypoints[j], units).Ok?
    ensures r.Ok? ==>
      |r.value| == |waypoints| &&
      (forall i :: 0 <= i < |waypoints| ==> r.value[i] == ConvertWaypoint(waypoints[i], units).value) &&
      totalReward == |waypoints| as real * RewardPerFrame(outcome)
  {
    var frames: seq<Frame> := [];
    totalReward := 0.0;
    for i := 0 to |waypoints|
      invariant |frames| == i
      invariant forall j :: 0 <= j < i ==>
        ConvertWaypoint(waypoints[j], units).Ok? && frames[j] == ConvertWaypoint(waypoints[j], units).value
      invariant totalReward == i as real * RewardPerFrame(outcome)
    {
      var frame := ConvertWaypoint(waypoints[i], units);
      if frame.Err? {
        assert forall j :: 0 <= j < i ==> ConvertWaypoint(waypoints[j], units).Ok?;
        r := Err(frame.error);
        assert !ConvertWaypoint(waypoints[i], units).Ok?;
        return;
      }
      frames := frames + [frame.value];
      if outcome == "capture" {
        totalReward := totalReward + 1.0;
      }
    }
    r := Ok(frames);
  }

  /**
   * convert_waypoints_to_episode: no waypoints is an error raised before anything is written;
   * otherwise the first waypoint that cannot be read is the error, and a complete conversion
   * is one frame per waypoint in order with its metadata.
   */
  method ConvertWaypointsToEpisode(input: WaypointFile, inputPath: string) returns (r: Result<Episode>)
    ensures var ws := input.waypoints.GetOr([]);
      |ws| == 0 ==> r == Err(NoWaypoints)
    ensures var ws := input.waypoints.GetOr([]);
      var units := input.units.GetOr(DefaultUnits);
      r.Ok? <==> |ws| > 0 && forall i :: 0 <= i < |ws| ==> ConvertWaypoint(ws[i], units).Ok?
    ensures var ws := input.waypoints.GetOr([]);
      var units := input.units.GetOr(DefaultUnits);
      r.Err? && |ws| > 0 ==>
        exists i :: 0 <= i < |ws| && ConvertWaypoint(ws[i], units) == Err(r.error) &&
          forall j :: 0 <= j < i ==> ConvertWaypoint(ws[j], units).Ok?
    ensures var ws := input.waypoints.GetOr([]);
      var units := input.units.GetOr(DefaultUnits);
      r.Ok? ==>
        var outcome := ClassifyOutcome(Lower(input.description.GetOr("")));
        |r.value.frames| == |ws| &&
        (forall i :: 0 <= i < |ws| ==> r.value.frames[i] == ConvertWaypoint(ws[i], units).value) &&
        r.value.metadata == Metadata(EpisodeNumber(inputPath), |ws| as real * RewardPerFrame(outcome), |ws|,
                                     outcome, Some(input.coordinateSystem.GetOr(DefaultCoordinateSystem)),
                                     Some(units), Some("meters"))
  {
    var waypoints := input.waypoints.GetOr([]);
    if |waypoints| == 0 {
      return Err(NoWaypoints);
    }
    var episodeNum := EpisodeNumber(inputPath);
    var outcome := ClassifyOutcome(Lower(input.description.GetOr("")));
    var coordinateSystem := input.coordinateSystem.GetOr(DefaultCoordinateSystem);
    var units := input.units.GetOr(DefaultUnits);
    var converted, totalReward := ConvertFrames(waypoints, units, outcome);
    if converted.Err? {
      return Err(converted.error);
    }
    var frames := converted.value;
    var metadata := Metadata(episodeNum, totalReward, |frames|, outcome, Some(coordinateSystem), Some(units), Some("meters"));
    return Ok(Episode(metadata, frames));
  }

  /** A converted episode has both drones and a base in every frame, so every playback can read it. */
  lemma ConvertedFramesComplete(ws: seq<Waypoint>, units: string, frames: seq<Frame>)
    requires |frames| == |ws|
    requires forall i :: 0 <= i < |ws| ==> ConvertWaypoint(ws[i], units).Ok? && frames[i] == ConvertWaypoint(ws[i], units).value
    ensures HasDrones(frames) && HasBase(frames)
  {
  }
}
