/** The multi-agent episode format the playback scripts read and the converter writes. */
module EpisodeData {
  import opened Wrappers
  import opened Geometry

  /** One drone's record in a frame: position, velocity and roll/pitch/yaw. */
  datatype AgentPose = AgentPose(pos: Vec3, vel: Vec3, rpy: Vec3)

  /**
   * One timestamped frame. A `None` agent stands for a frame without that key (or without its
   * 'pos'); the base record holds only a position.
   */
  datatype Frame = Frame(t: real, defender: Option<AgentPose>, attacker: Option<AgentPose>, base: Option<Vec3>)

  datatype Metadata = Metadata(
    episode: int,
    totalReward: real,
    steps: nat,
    outcome: string,
    coordinateSystem: Option<string>,
    sourceUnits: Option<string>,
    convertedUnits: Option<string>)

  datatype Episode = Episode(metadata: Metadata, frames: seq<Frame>)

  /** Every frame can be indexed as frame['defender']['pos'] and frame['attacker']['pos']. */
  predicate HasDrones(frames: seq<Frame>) {
    forall i :: 0 <= i < |frames| ==> frames[i].defender.Some? && frames[i].attacker.Some?
  }

  /** Every frame can be indexed as frame['base']['pos']. */
  predicate HasBase(frames: seq<Frame>) {
    forall i :: 0 <= i < |frames| ==> frames[i].base.Some?
  }

  function DefenderPositions(frames: seq<Frame>): (r: seq<Vec3>)
    requires HasDrones(frames)
    ensures |r| == |frames|
    ensures forall i :: 0 <= i < |frames| ==> r[i] == frames[i].defender.value.pos
  {
    seq(|frames|, i requires 0 <= i < |frames| => frames[i].defender.value.pos)
  }

  function AttackerPositions(frames: seq<Frame>): (r: seq<Vec3>)
    requires HasDrones(frames)
    ensures |r| == |frames|
    ensures forall i :: 0 <= i < |frames| ==> r[i] == frames[i].attacker.value.pos
  {
    seq(|frames|, i requires 0 <= i < |frames| => frames[i].attacker.value.pos)
  }

  function BasePositions(frames: seq<Frame>): (r: seq<Vec3>)
    requires HasBase(frames)
    ensures |r| == |frames|
    ensures forall i :: 0 <= i < |frames| ==> r[i] == frames[i].base.value
  {
    seq(|frames|, i requires 0 <= i < |frames| => frames[i].base.value)
  }

  /** Python's normalisation of a slice bound against a list of length n. */
  function SliceBound(i: int, n: nat): (r: nat)
    ensures r <= n
    ensures 0 <= i <= n ==> r == i
  {
    if i < 0 then (if n + i < 0 then 0 else n + i) else if i > n then n else i
  }

  /** frames[start:end] with Python's slice semantics (negative bounds count from the end). */
  function Slice<T>(s: seq<T>, start: int, end: int): (r: seq<T>)
    ensures 0 <= start <= end <= |s| ==> r == s[start..end]
    ensures |r| <= |s|
  {
    var a, b := SliceBound(start, |s|), SliceBound(end, |s|);
    if a < b then s[a..b] else []
  }
}
