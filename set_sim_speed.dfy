/** The clock-speed tool (visualization/scripts/set_sim_speed.py): rewrite ClockSpeed in settings.json. */
module SetSimSpeed {
  import opened Wrappers
  import opened Text
  import opened Json

  /** The dictionary set_clock_speed starts from when no settings file exists. */
  function DefaultSettings(): (r: map<string, Json>)
    ensures r.Keys == {"SettingsVersion", "SimMode", "Vehicles"}
    ensures r["SettingsVersion"] == JNum(1.2) && r["SimMode"] == JStr("Multirotor")
    ensures r["Vehicles"] == JObject(map[])
  {
    map["SettingsVersion" := JNum(1.2), "SimMode" := JStr("Multirotor"), "Vehicles" := JObject(map[])]
  }

  /** A warning is printed for clock speeds above this value. */
  const UnstableAbove: real := 10.0

  /**
   * The dictionary set_clock_speed writes, or None when it raises first (a file json.load rejects,
   * or a top-level value that is not a dictionary, where the item assignment fails).
   */
  function ClockSpeedSettings(file: SettingsFile, speed: real): (r: Option<map<string, Json>>)
    ensures r.None? <==> file.Unreadable? || (file.Parsed? && !file.value.JObject?)
    ensures r.Some? ==>
      var start := StartingSettings(file, DefaultSettings()).value;
      r.value.Keys == start.Keys + {"ClockSpeed"} &&
      r.value["ClockSpeed"] == JNum(speed) &&
      (forall k :: k in start && k != "ClockSpeed" ==> r.value[k] == start[k])
    ensures file.Missing? ==>
      r.Some? && r.value.Keys == {"SettingsVersion", "SimMode", "Vehicles", "ClockSpeed"}
  {
    match StartingSettings(file, DefaultSettings())
    case None => None
    case Some(settings) => Some(settings["ClockSpeed" := JNum(speed)])
  }

  /** Running the tool again with the same speed on the file it wrote rewrites the same dictionary. */
  lemma ClockSpeedIdempotent(file: SettingsFile, speed: real)
    requires ClockSpeedSettings(file, speed).Some?
    ensures var once := ClockSpeedSettings(file, speed).value;
      ClockSpeedSettings(Parsed(JObject(once)), speed) == Some(once)
  {
    var once := ClockSpeedSettings(file, speed).value;
    assert "ClockSpeed" in once && once["ClockSpeed"] == JNum(speed);
    assert StartingSettings(Parsed(JObject(once)), DefaultSettings()) == Some(once);
    assert once["ClockSpeed" := JNum(speed)] == once;
  }

  /** Two runs with different speeds leave what the second wrote: the later speed wins, nothing else moves. */
  lemma ClockSpeedLastWins(file: SettingsFile, first: real, second: real)
    requires ClockSpeedSettings(file, first).Some?
    ensures var once := ClockSpeedSettings(file, first).value;
      ClockSpeedSettings(Parsed(JObject(once)), second) == ClockSpeedSettings(file, second)
  {
    var once := ClockSpeedSettings(file, first).value;
    var start := StartingSettings(file, DefaultSettings()).value;
    assert once == start["ClockSpeed" := JNum(first)];
    assert StartingSettings(Parsed(JObject(once)), DefaultSettings()) == Some(once);
    assert once["ClockSpeed" := JNum(second)] == start["ClockSpeed" := JNum(second)];
  }

  /**
   * set_clock_speed: load or default the settings, assign ClockSpeed, write the file back, and
   * warn when the speed is above 10. `written` is None when the function raises before writing.
   */
  method SetClockSpeed(file: SettingsFile, speed: real) returns (written: Option<map<string, Json>>, warned: bool)
    ensures written == ClockSpeedSettings(file, speed)
    ensures warned <==> written.Some? && speed > UnstableAbove
  {
    var loaded := StartingSettings(file, DefaultSettings());
    if loaded.None? {
      return None, false;
    }
    var settings := loaded.value;
    settings := settings["ClockSpeed" := JNum(speed)];
    written := Some(settings);
    warned := speed > UnstableAbove;
  }

  // ---- parsing the argument

  /** float() of an optionally signed string of digits and dots; anything else raises ValueError. */
  function ParseFloat(s: string): (r: Result<real>)
    ensures |s| > 0 && s[0] == '-' && r.Ok? ==> r.value <= 0.0
    ensures |s| > 0 && s[0] != '-' && s[0] != '+' && !AllInClass(s, DigitsAndDots) ==> r.Err?
  {
    if |s| > 0 && (s[0] == '-' || s[0] == '+') then
      var rest := s[1..];
      if !AllInClass(rest, DigitsAndDots) then Err(BadNumber)
      else
        match ParseDecimal(rest)
        case Err(e) => Err(e)
        case Ok(v) => Ok(if s[0] == '-' then -v else v)
    else if !AllInClass(s, DigitsAndDots) then Err(BadNumber)
    else ParseDecimal(s)
  }

  /** The clock speed main goes on with, or None when it prints an error and exits with status 1. */
  function AcceptedSpeed(args: seq<string>): (r: Option<real>)
    ensures r.Some? <==> |args| > 0 && ParseFloat(args[0]).Ok? && ParseFloat(args[0]).value > 0.0
    ensures r.Some? ==> r.value > 0.0 && r.value == ParseFloat(args[0]).value
  {
    if |args| == 0 then None
    else match ParseFloat(args[0])
      case Err(_) => None
      case Ok(v) => if v <= 0.0 then None else Some(v)
  }

  /** A whole number written in decimal digits is accepted exactly when it is not zero. */
  lemma WholeSpeedAccepted(n: nat)
    ensures AcceptedSpeed([NatDigits(n)]) == (if n > 0 then Some(n as real) else None)
  {
    var d := NatDigits(n);
    ParseNatDigits(n);
    assert d[0] != '-' && d[0] != '+' by { assert InClass(d[0], Digits); }
    assert AllInClass(d, DigitsAndDots) by {
      forall i | 0 <= i < |d| ensures InClass(d[i], DigitsAndDots) {
        assert InClass(d[i], Digits);
      }
    }
    assert ParseFloat(d) == Ok(n as real);
  }

  /** A speed written with a minus sign is never accepted, whatever follows the sign. */
  lemma NegativeSpeedRejected(s: string)
    ensures AcceptedSpeed(["-" + s]) == None
  {
    var a := "-" + s;
    assert a[0] == '-';
  }

  /**
   * main: sys.argv[1:] is `args`. Exit status 1 without touching the file when the argument is
   * missing, is not a number or is not positive; otherwise set_clock_speed at the fixed path,
   * whose exception, if any, ends the script with status 1 as well.
   */
  method SetSimSpeedScript(args: seq<string>, file: SettingsFile) returns (exitCode: nat, written: Option<map<string, Json>>, warned: bool)
    ensures AcceptedSpeed(args).None? ==> exitCode == 1 && written.None? && !warned
    ensures AcceptedSpeed(args).Some? ==>
      var speed := AcceptedSpeed(args).value;
      written == ClockSpeedSettings(file, speed) &&
      (warned <==> written.Some? && speed > UnstableAbove)
    ensures exitCode == 0 <==> written.Some?
  {
    if |args| < 1 {
      return 1, None, false;
    }
    var parsed := ParseFloat(args[0]);
    if parsed.Err? {
      return 1, None, false;
    }
    var speed := parsed.value;
    if speed <= 0.0 {
      return 1, None, false;
    }
    written, warned := SetClockSpeed(file, speed);
    exitCode := if written.Some? then 0 else 1;
  }
}
