/** `AutoModeManager` (managers/auto_manager.py): the AUTO tab's setpoints
    (target temperature, CO2 and PM2.5 thresholds with their hysteresis, the
    SEMI AUTO run time), the AUTOMODE on/off switch, the SAVE sequence that
    sends the four setpoint commands one timer tick apart, the parser for the
    device's GETSET replies, and the legacy `[AIRCON]` sensor line that is
    forwarded to the PT02 manager. */
module AutoMode {
  import opened Common
  import SerialLink
  import Pt02Sensors

  const CmdPrefix := "$CMD"
  const Terminator := "\r"

  // ---------------------------------------------------------------------------
  // Setpoints
  // ---------------------------------------------------------------------------

  /** `temp_value`, `temp_hyst` (degrees), `co2_value`, `co2_hyst` (ppm),
      `pm25_value`, `pm25_hyst` (ug/m3) and `semi_time` (seconds). */
  datatype Setpoints = Setpoints(tempValue: real, tempHyst: real, co2Value: int, co2Hyst: int,
                                 pm25Value: int, pm25Hyst: int, semiTime: int)

  /** The values `__init__` starts from. */
  const Defaults := Setpoints(25.0, 2.0, 1000, 100, 35, 5, 300)

  /** `setting_type` of `_adjust_value`. */
  datatype Kind = Temp | Co2 | Pm25

  /** `value_type` of `_adjust_value`: the setpoint itself or its hysteresis. */
  datatype Part = Value | Hyst

  /** One of the six adjustable setpoints, as a number. */
  function Setting(s: Setpoints, kind: Kind, part: Part): real
  {
    match (kind, part)
    case (Temp, Value) => s.tempValue
    case (Temp, Hyst) => s.tempHyst
    case (Co2, Value) => s.co2Value as real
    case (Co2, Hyst) => s.co2Hyst as real
    case (Pm25, Value) => s.pm25Value as real
    case (Pm25, Hyst) => s.pm25Hyst as real
  }

  /** A real with no fractional part. */
  predicate Whole(x: real) { x.Floor as real == x }

  /** A temperature on the 0.1-degree grid the device works in. */
  predicate OnTenths(t: real) { Whole(t * 10.0) }

  /** `_adjust_value(kind, part, delta, lo, hi)`: `max(lo, min(hi, v + delta))`,
      passed through `int()` for the CO2 and PM2.5 settings. */
  function Adjusted(s: Setpoints, kind: Kind, part: Part, delta: real, lo: real, hi: real): Setpoints
  {
    match (kind, part)
    case (Temp, Value) => s.(tempValue := ClampReal(s.tempValue + delta, lo, hi))
    case (Temp, Hyst) => s.(tempHyst := ClampReal(s.tempHyst + delta, lo, hi))
    case (Co2, Value) => s.(co2Value := Trunc(ClampReal(s.co2Value as real + delta, lo, hi)))
    case (Co2, Hyst) => s.(co2Hyst := Trunc(ClampReal(s.co2Hyst as real + delta, lo, hi)))
    case (Pm25, Value) => s.(pm25Value := Trunc(ClampReal(s.pm25Value as real + delta, lo, hi)))
    case (Pm25, Hyst) => s.(pm25Hyst := Trunc(ClampReal(s.pm25Hyst as real + delta, lo, hi)))
  }

  /** `_adjust_time(delta, lo, hi)`: `int(max(lo, min(hi, semi_time + delta)))`. */
  function AdjustedTime(s: Setpoints, delta: int, lo: int, hi: int): Setpoints
  {
    s.(semiTime := Clamp(s.semiTime + delta, lo, hi))
  }

  /** `int()` of a real between two whole bounds stays between them. */
  lemma TruncBetween(x: real, lo: real, hi: real)
    requires Whole(lo) && Whole(hi) && lo <= x <= hi
    ensures lo <= Trunc(x) as real <= hi
  {
    var r := Trunc(x);
    if x >= 0.0 {
      assert lo.Floor as real < r as real + 1.0;
      assert lo.Floor <= r;
    } else {
      assert r as real - 1.0 < hi.Floor as real;
      assert r <= hi.Floor;
    }
  }

  /** `int()` of a whole real is that real. */
  lemma TruncWhole(x: real)
    requires Whole(x)
    ensures Trunc(x) as real == x
  {
    if x < 0.0 {
      assert (-x).Floor == -(x.Floor);
    }
  }

  /** The CO2 and PM2.5 settings are whole numbers. */
  lemma CountWhole(s: Setpoints, kind: Kind, part: Part)
    requires kind != Temp
    ensures Whole(Setting(s, kind, part))
  {
    var n := match (kind, part)
             case (Co2, Value) => s.co2Value
             case (Co2, Hyst) => s.co2Hyst
             case (Pm25, Value) => s.pm25Value
             case (_, _) => s.pm25Hyst;
    assert Setting(s, kind, part) == n as real;
    assert (n as real).Floor == n;
  }

  /** A whole number plus a whole real is whole. */
  lemma WholeSum(n: int, d: real)
    requires Whole(d)
    ensures Whole(n as real + d)
  {
    assert n as real + d == (n + d.Floor) as real;
  }

  /** An adjustment moves the chosen setpoint by `delta` when that stays in
      range, and otherwise leaves it in range; nothing else changes. For the
      whole-number settings the bounds must be whole, as the callers pass them. */
  lemma AdjustedInRange(s: Setpoints, kind: Kind, part: Part, delta: real, lo: real, hi: real)
    requires lo <= hi
    requires kind != Temp ==> Whole(lo) && Whole(hi)
    ensures var r := Adjusted(s, kind, part, delta, lo, hi);
            && lo <= Setting(r, kind, part) <= hi
            && ((lo <= Setting(s, kind, part) + delta <= hi && (kind != Temp ==> Whole(delta)))
                  ==> Setting(r, kind, part) == Setting(s, kind, part) + delta)
            && (forall k: Kind, p: Part :: (k, p) != (kind, part) ==> Setting(r, k, p) == Setting(s, k, p))
            && r.semiTime == s.semiTime
  {
    AdjustedFrame(s, kind, part, delta, lo, hi);
    var v := Setting(s, kind, part);
    var c := ClampReal(v + delta, lo, hi);
    if kind != Temp {
      TruncBetween(c, lo, hi);
      if lo <= v + delta <= hi && Whole(delta) {
        CountWhole(s, kind, part);
        TruncWhole(v);
        WholeSum(Trunc(v), delta);
        TruncWhole(v + delta);
      }
    }
  }

  /** An adjustment changes only the setting it is for. */
  lemma AdjustedFrame(s: Setpoints, kind: Kind, part: Part, delta: real, lo: real, hi: real)
    ensures var r := Adjusted(s, kind, part, delta, lo, hi);
            && (forall k: Kind, p: Part :: (k, p) != (kind, part) ==> Setting(r, k, p) == Setting(s, k, p))
            && r.semiTime == s.semiTime
  {
  }

  // ---------------------------------------------------------------------------
  // The buttons of the AUTO tab
  // ---------------------------------------------------------------------------

  /** The step and the range `connect_auto_controls` wires each pair of
      -/+ buttons with. */
  datatype Knob = Knob(step: real, lo: real, hi: real)

  function KnobOf(kind: Kind, part: Part): Knob
  {
    match (kind, part)
    case (Temp, Value) => Knob(0.5, 18.0, 35.0)
    case (Temp, Hyst) => Knob(0.5, 0.5, 5.0)
    case (Co2, Value) => Knob(50.0, 400.0, 2000.0)
    case (Co2, Hyst) => Knob(10.0, 10.0, 500.0)
    case (Pm25, Value) => Knob(5.0, 10.0, 100.0)
    case (Pm25, Hyst) => Knob(1.0, 1.0, 50.0)
  }

  /** One press (or one 150 ms repeat) of a -/+ setting button. */
  function Press(s: Setpoints, kind: Kind, part: Part, up: bool): Setpoints
  {
    var k := KnobOf(kind, part);
    Adjusted(s, kind, part, if up then k.step else -k.step, k.lo, k.hi)
  }

  /** The SEMI AUTO time buttons: steps of 10 s between 10 and 9999. */
  const TimeStep := 10
  const TimeMin := 10
  const TimeMax := 9999

  function PressTime(s: Setpoints, up: bool): Setpoints
  {
    AdjustedTime(s, if up then TimeStep else -TimeStep, TimeMin, TimeMax)
  }

  /** Every setpoint inside the range its buttons allow, the temperatures on
      the 0.1-degree grid. */
  predicate InRanges(s: Setpoints)
  {
    && 18.0 <= s.tempValue <= 35.0 && 0.5 <= s.tempHyst <= 5.0
    && OnTenths(s.tempValue) && OnTenths(s.tempHyst)
    && 400 <= s.co2Value <= 2000 && 10 <= s.co2Hyst <= 500
    && 10 <= s.pm25Value <= 100 && 1 <= s.pm25Hyst <= 50
    && TimeMin <= s.semiTime <= TimeMax
  }

  lemma DefaultsInRanges()
    ensures InRanges(Defaults)
  {
    assert Whole(250.0) && Whole(20.0);
  }

  /** Moving a tenth-grid temperature by half a degree, or clamping it to a
      whole bound, keeps it on the grid. */
  lemma ClampOnTenths(t: real, d: real, lo: real, hi: real)
    requires OnTenths(t) && (d == 0.5 || d == -0.5) && Whole(lo * 10.0) && Whole(hi * 10.0)
    ensures OnTenths(ClampReal(t + d, lo, hi))
  {
    var n := (t * 10.0).Floor;
    assert (t + d) * 10.0 == n as real + d * 10.0;
    assert ((t + d) * 10.0).Floor == n + (if d > 0.0 then 5 else -5);
  }

  /** The buttons never take a setpoint out of its range. */
  lemma PressKeepsRanges(s: Setpoints, kind: Kind, part: Part, up: bool)
    requires InRanges(s)
    ensures InRanges(Press(s, kind, part, up))
  {
    KnobsHold(s);
    KnobsKept(s, kind, part, up);
    assert OnTenths(Setting(s, Temp, Value)) && OnTenths(Setting(s, Temp, Hyst));
    PressOnTenths(s, kind, part, up, Value);
    PressOnTenths(s, kind, part, up, Hyst);
    RangesFromKnobs(Press(s, kind, part, up));
  }

  /** Each setting of `s` within the range of its buttons. */
  predicate KnobsAllow(s: Setpoints)
  {
    forall kind: Kind, part: Part :: KnobOf(kind, part).lo <= Setting(s, kind, part) <= KnobOf(kind, part).hi
  }

  lemma KnobsHold(s: Setpoints)
    requires InRanges(s)
    ensures KnobsAllow(s)
  {
  }

  lemma RangesFromKnobs(s: Setpoints)
    requires KnobsAllow(s) && OnTenths(s.tempValue) && OnTenths(s.tempHyst)
    requires TimeMin <= s.semiTime <= TimeMax
    ensures InRanges(s)
  {
    assert Setting(s, Temp, Value) == s.tempValue && Setting(s, Temp, Hyst) == s.tempHyst;
    assert Setting(s, Co2, Value) == s.co2Value as real && Setting(s, Co2, Hyst) == s.co2Hyst as real;
    assert Setting(s, Pm25, Value) == s.pm25Value as real && Setting(s, Pm25, Hyst) == s.pm25Hyst as real;
  }

  /** A press keeps every setting within its buttons' range, and the time. */
  lemma KnobsKept(s: Setpoints, kind: Kind, part: Part, up: bool)
    requires KnobsAllow(s)
    ensures KnobsAllow(Press(s, kind, part, up))
    ensures Press(s, kind, part, up).semiTime == s.semiTime
  {
    var r := Press(s, kind, part, up);
    forall k: Kind, p: Part
      ensures KnobOf(k, p).lo <= Setting(r, k, p) <= KnobOf(k, p).hi
    {
      if (k, p) == (kind, part) {
        PressInKnob(s, kind, part, up);
      } else {
        PressLeaves(s, kind, part, up, k, p);
      }
    }
    PressInKnob(s, kind, part, up);
  }

  /** The pressed setting lands within its buttons' range. */
  lemma PressInKnob(s: Setpoints, kind: Kind, part: Part, up: bool)
    ensures KnobOf(kind, part).lo <= Setting(Press(s, kind, part, up), kind, part) <= KnobOf(kind, part).hi
    ensures Press(s, kind, part, up).semiTime == s.semiTime
  {
    var knob := KnobOf(kind, part);
    AdjustedInRange(s, kind, part, if up then knob.step else -knob.step, knob.lo, knob.hi);
  }

  /** A press keeps both temperatures on the 0.1-degree grid. */
  lemma PressOnTenths(s: Setpoints, kind: Kind, part: Part, up: bool, p: Part)
    requires OnTenths(Setting(s, Temp, p))
    ensures OnTenths(Setting(Press(s, kind, part, up), Temp, p))
  {
    if (kind, part) == (Temp, p) {
      PressTempTenths(s, p, up);
    } else {
      PressLeaves(s, kind, part, up, Temp, p);
    }
  }

  lemma PressTempTenths(s: Setpoints, p: Part, up: bool)
    requires OnTenths(Setting(s, Temp, p))
    ensures OnTenths(Setting(Press(s, Temp, p, up), Temp, p))
  {
    var k := KnobOf(Temp, p);
    ClampOnTenths(Setting(s, Temp, p), if up then k.step else -k.step, k.lo, k.hi);
  }

  /** A press changes no setting but its own. */
  lemma PressLeaves(s: Setpoints, kind: Kind, part: Part, up: bool, k: Kind, p: Part)
    requires (k, p) != (kind, part)
    ensures Setting(Press(s, kind, part, up), k, p) == Setting(s, k, p)
  {
    var knob := KnobOf(kind, part);
    AdjustedInRange(s, kind, part, if up then knob.step else -knob.step, knob.lo, knob.hi);
  }

  lemma PressTimeKeepsRanges(s: Setpoints, up: bool)
    requires InRanges(s)
    ensures InRanges(PressTime(s, up))
  {
  }

  /** Below the ceiling, the time moves in whole steps of 10 s ... */
  lemma PressTimeTens(s: Setpoints, up: bool)
    requires s.semiTime % 10 == 0 && TimeMin <= s.semiTime <= TimeMax
    requires up ==> s.semiTime + TimeStep <= TimeMax
    ensures PressTime(s, up).semiTime % 10 == 0
    ensures PressTime(s, up).semiTime == if up then s.semiTime + 10 else if s.semiTime == 10 then 10 else s.semiTime - 10
  {
  }

  /** ... but the ceiling 9999 is not a multiple of 10: one press up from 9990
      lands on 9999, and one press down from there leaves the 10 s grid. */
  lemma PressTimeCeiling(s: Setpoints)
    requires s.semiTime == 9990
    ensures PressTime(s, true).semiTime == 9999
    ensures PressTime(PressTime(s, true), false).semiTime == 9989
  {
  }

  // ---------------------------------------------------------------------------
  // Commands
  // ---------------------------------------------------------------------------

  /** `f"{CMD_PREFIX},{AIR_SYSTEM},<fields>"`. */
  function Command(air: string, fields: seq<string>): string
  {
    Join([CmdPrefix, air] + fields, ',')
  }

  /** `_toggle_auto_mode`: `AUTOMODE,ON` or `AUTOMODE,OFF`. */
  function AutoCommand(air: string, on: bool): string
  {
    Command(air, ["AUTOMODE", if on then "ON" else "OFF"])
  }

  /** `handle_refresh`: ask the device for its setpoints. */
  function RefreshCommand(air: string): string
  {
    Command(air, ["GETSET"])
  }

  /** The tag and the numbers of each SAVE command, in the order
      `handle_save` queues them; temperatures go out in tenths via `int(x * 10)`. */
  function SaveFields(s: Setpoints): seq<seq<string>>
  {
    [ ["TEMPSET", IntToString(Trunc(s.tempValue * 10.0)), IntToString(Trunc(s.tempHyst * 10.0))],
      ["CO2SET", IntToString(s.co2Value), IntToString(s.co2Hyst)],
      ["PM25SET", IntToString(s.pm25Value), IntToString(s.pm25Hyst)],
      ["SEMITIME", IntToString(s.semiTime)] ]
  }

  /** `_save_command_queue` as `handle_save` builds it. */
  function SaveCommands(air: string, s: Setpoints): seq<string>
  {
    var f := SaveFields(s);
    [Command(air, f[0]), Command(air, f[1]), Command(air, f[2]), Command(air, f[3])]
  }

  /** What `send_command` puts on the wire: the command and the terminator,
      or nothing when the port is closed. */
  function Wire(cmds: seq<string>, connected: bool): (r: seq<string>)
    ensures |r| == if connected then |cmds| else 0
    ensures connected ==> forall i :: 0 <= i < |cmds| ==> r[i] == cmds[i] + Terminator
  {
    if !connected || cmds == [] then [] else [cmds[0] + Terminator] + Wire(cmds[1..], connected)
  }

  /** Sending the commands of two consecutive stretches of a queue is sending
      the whole stretch. */
  lemma WireConcat(q: seq<string>, a: nat, b: nat, c: nat, connected: bool)
    requires a <= b <= c <= |q|
    ensures Wire(q[a..b], connected) + Wire(q[b..c], connected) == Wire(q[a..c], connected)
  {
    if connected {
      var l := Wire(q[a..b], connected) + Wire(q[b..c], connected);
      forall i | 0 <= i < c - a
        ensures l[i] == q[a..c][i] + Terminator
      {
        if i < b - a {
          assert l[i] == q[a..b][i] + Terminator;
        } else {
          assert l[i] == q[b..c][i - (b - a)] + Terminator;
        }
      }
    }
  }

  /** Text made of digits and minus signs. */
  predicate Numeral(t: string)
  {
    forall k :: 0 <= k < |t| ==> t[k] == '-' || IsDigit(t[k])
  }

  /** The characters of `str(i)`: digits and a minus sign. */
  lemma NumeralChars(i: int)
    ensures Numeral(IntToString(i))
  {
    var d := NatToString(if i < 0 then -i else i);
    assert IntToString(i) == (if i < 0 then "-" + d else d);
  }

  /** Fields a device reads by splitting a command on commas. */
  predicate CommaFree(fields: seq<string>)
  {
    forall k :: 0 <= k < |fields| ==> ',' !in fields[k]
  }

  /** Splitting a command on commas gives back its prefix, the system name and
      its fields. */
  lemma CommandFields(air: string, fields: seq<string>)
    requires ',' !in air && CommaFree(fields)
    ensures Split(Command(air, fields), ',') == [CmdPrefix, air] + fields
  {
    var all := [CmdPrefix, air] + fields;
    assert CommaFree(all) by {
      assert forall k :: 2 <= k < |all| ==> all[k] == fields[k - 2];
    }
    JoinSplit(all, ',');
  }

  lemma SaveFieldsCommaFree(s: Setpoints)
    ensures forall i :: 0 <= i < 4 ==> CommaFree(SaveFields(s)[i])
  {
  }

  /** The SAVE queue holds four commands, TEMPSET, CO2SET, PM25SET and
      SEMITIME in that order; split on commas, each gives back the system name,
      its tag and the numbers it carries. */
  lemma SaveCommandsRead(air: string, s: Setpoints)
    requires ',' !in air
    ensures |SaveCommands(air, s)| == 4
    ensures forall i :: 0 <= i < 4 ==>
              SaveFields(s)[i][0] == Tags[i] && Split(SaveCommands(air, s)[i], ',') == [CmdPrefix, air] + SaveFields(s)[i]
  {
    var f := SaveFields(s);
    SaveFieldsCommaFree(s);
    forall i | 0 <= i < 4
      ensures Split(SaveCommands(air, s)[i], ',') == [CmdPrefix, air] + f[i]
    {
      CommandFields(air, f[i]);
    }
  }

  // ---------------------------------------------------------------------------
  // GETSET replies
  // ---------------------------------------------------------------------------

  /** The device's reply lines: `AIRCON,<tag>,<v>[,<h>]`. */
  function Reply(fields: seq<string>): string
    requires |fields| >= 1
  {
    Join(["AIRCON"] + fields, ',')
  }

  /** The text `parse_getset_response` looks for. */
  function Marker(tag: string): string
  {
    "AIRCON," + tag + ","
  }

  const Tags: seq<string> := ["TEMPSET", "CO2SET", "PM25SET", "SEMITIME"]

  /** `parse_getset_response(data)`: the new setpoints and whether the line was
      taken. The first tag found decides the branch; a branch with too few
      fields falls out with `False`. A value that `int()` / `float()` refuses
      raises, and the exception is caught, but by then the first number of the
      pair has already been stored. */
  function Getset(s: Setpoints, data: string): (r: (Setpoints, bool))
  {
    var parts := Split(data, ',');
    if Contains(data, Marker("TEMPSET")) then ReadTemps(s, parts)
    else if Contains(data, Marker("CO2SET")) then ReadCounts(s, parts, Co2)
    else if Contains(data, Marker("PM25SET")) then ReadCounts(s, parts, Pm25)
    else if Contains(data, Marker("SEMITIME")) then ReadTime(s, parts)
    else (s, false)
  }

  /** The TEMPSET branch: two temperatures in tenths, value then hysteresis. */
  function ReadTemps(s: Setpoints, parts: seq<string>): (Setpoints, bool)
  {
    if |parts| < 4 then (s, false)
    else
      match PyFloat(parts[2])
      case None => (s, false)
      case Some(v) =>
        var s1 := s.(tempValue := Pt02Sensors.Tenths(v));
        match PyFloat(parts[3])
        case None => (s1, false)
        case Some(h) => (s1.(tempHyst := Pt02Sensors.Tenths(h)), true)
  }

  /** The SEMITIME branch: one whole number of seconds. */
  function ReadTime(s: Setpoints, parts: seq<string>): (Setpoints, bool)
  {
    if |parts| < 3 then (s, false)
    else
      match PyInt(parts[2])
      case None => (s, false)
      case Some(t) => (s.(semiTime := t), true)
  }

  /** The CO2SET / PM25SET branch: two whole numbers, value then hysteresis. */
  function ReadCounts(s: Setpoints, parts: seq<string>, kind: Kind): (Setpoints, bool)
  {
    if |parts| < 4 then (s, false)
    else
      match PyInt(parts[2])
      case None => (s, false)
      case Some(v) =>
        var s1 := WithCount(s, kind, Value, v);
        match PyInt(parts[3])
        case None => (s1, false)
        case Some(h) => (WithCount(s1, kind, Hyst, h), true)
  }

  function WithCount(s: Setpoints, kind: Kind, part: Part, n: int): Setpoints
  {
    match (kind, part)
    case (Co2, Value) => s.(co2Value := n)
    case (Co2, Hyst) => s.(co2Hyst := n)
    case (Pm25, Value) => s.(pm25Value := n)
    case (Pm25, Hyst) => s.(pm25Hyst := n)
    case (Temp, _) => s
  }

  /** A reply changes only the setpoints of the first tag it carries; a line
      with no tag, or with too few fields for its tag, is refused and changes
      nothing; a taken line carries one of the four tags. */
  lemma GetsetTouchesOnlyItsTag(s: Setpoints, data: string)
    ensures var r := Getset(s, data);
            var parts := Split(data, ',');
            && (Contains(data, Marker("TEMPSET")) ==>
                  r.0 == s.(tempValue := r.0.tempValue, tempHyst := r.0.tempHyst)
                  && (|parts| < 4 ==> r == (s, false)))
            && (!Contains(data, Marker("TEMPSET")) && Contains(data, Marker("CO2SET")) ==>
                  r.0 == s.(co2Value := r.0.co2Value, co2Hyst := r.0.co2Hyst)
                  && (|parts| < 4 ==> r == (s, false)))
            && (!Contains(data, Marker("TEMPSET")) && !Contains(data, Marker("CO2SET"))
                && Contains(data, Marker("PM25SET")) ==>
                  r.0 == s.(pm25Value := r.0.pm25Value, pm25Hyst := r.0.pm25Hyst)
                  && (|parts| < 4 ==> r == (s, false)))
            && (!Contains(data, Marker("TEMPSET")) && !Contains(data, Marker("CO2SET"))
                && !Contains(data, Marker("PM25SET")) && Contains(data, Marker("SEMITIME")) ==>
                  r.0 == s.(semiTime := r.0.semiTime)
                  && (|parts| < 3 ==> r == (s, false)))
            && (r.1 ==> exists i :: 0 <= i < |Tags| && Contains(data, Marker(Tags[i])))
            && (r.0 != s ==> exists i :: 0 <= i < |Tags| && Contains(data, Marker(Tags[i])))
  {
    var r := Getset(s, data);
    var hit := Contains(data, Marker("TEMPSET")) || Contains(data, Marker("CO2SET"))
               || Contains(data, Marker("PM25SET")) || Contains(data, Marker("SEMITIME"));
    if hit {
      var i := if Contains(data, Marker("TEMPSET")) then 0
               else if Contains(data, Marker("CO2SET")) then 1
               else if Contains(data, Marker("PM25SET")) then 2 else 3;
      assert Contains(data, Marker(Tags[i]));
    }
  }

  /** The CO2SET branch on a line whose two numbers `int()` accepts. */
  lemma GetsetCo2(s: Setpoints, data: string, v: int, h: int)
    requires !Contains(data, Marker("TEMPSET")) && Contains(data, Marker("CO2SET"))
    requires |Split(data, ',')| >= 4
    requires PyInt(Split(data, ',')[2]) == Some(v) && PyInt(Split(data, ',')[3]) == Some(h)
    ensures Getset(s, data) == (s.(co2Value := v, co2Hyst := h), true)
  {
  }

  /** The PM25SET branch on a line whose two numbers `int()` accepts. */
  lemma GetsetPm25(s: Setpoints, data: string, v: int, h: int)
    requires !Contains(data, Marker("TEMPSET")) && !Contains(data, Marker("CO2SET"))
    requires Contains(data, Marker("PM25SET"))
    requires |Split(data, ',')| >= 4
    requires PyInt(Split(data, ',')[2]) == Some(v) && PyInt(Split(data, ',')[3]) == Some(h)
    ensures Getset(s, data) == (s.(pm25Value := v, pm25Hyst := h), true)
  {
  }

  /** The TEMPSET branch on a line whose two numbers `float()` accepts. */
  lemma GetsetTemps(s: Setpoints, data: string, v: real, h: real)
    requires Contains(data, Marker("TEMPSET"))
    requires |Split(data, ',')| >= 4
    requires PyFloat(Split(data, ',')[2]) == Some(v) && PyFloat(Split(data, ',')[3]) == Some(h)
    ensures Getset(s, data) == (s.(tempValue := Pt02Sensors.Tenths(v), tempHyst := Pt02Sensors.Tenths(h)), true)
  {
  }

  /** The SEMITIME branch on a line whose number `int()` accepts. */
  lemma GetsetTime(s: Setpoints, data: string, t: int)
    requires !Contains(data, Marker("TEMPSET")) && !Contains(data, Marker("CO2SET"))
    requires !Contains(data, Marker("PM25SET")) && Contains(data, Marker("SEMITIME"))
    requires |Split(data, ',')| >= 3 && PyInt(Split(data, ',')[2]) == Some(t)
    ensures Getset(s, data) == (s.(semiTime := t), true)
  {
  }

  /** The TEMPSET branch when `float()` takes the first number but refuses
      the second. */
  lemma GetsetTempHalf(s: Setpoints, data: string, v: real)
    requires Contains(data, Marker("TEMPSET"))
    requires |Split(data, ',')| >= 4
    requires PyFloat(Split(data, ',')[2]) == Some(v) && PyFloat(Split(data, ',')[3]).None?
    ensures Getset(s, data) == (s.(tempValue := Pt02Sensors.Tenths(v)), false)
  {
  }

  /** A reply line splits into `AIRCON` and its fields. */
  lemma ReplyParts(fields: seq<string>)
    requires |fields| >= 1 && CommaFree(fields)
    ensures Split(Reply(fields), ',') == ["AIRCON"] + fields
  {
    var all := ["AIRCON"] + fields;
    assert CommaFree(all) by {
      assert forall k :: 1 <= k < |all| ==> all[k] == fields[k - 1];
    }
    JoinSplit(all, ',');
  }

  /** A reply whose fields have no `A` and start with one of the four tags
      carries the marker of that tag and of no other. */
  lemma ReplyMarker(fields: seq<string>, t: string)
    requires |fields| >= 2 && fields[0] in Tags && t in Tags
    requires forall k :: 0 <= k < |fields| ==> 'A' !in fields[k]
    ensures Contains(Reply(fields), Marker(t)) <==> fields[0] == t
  {
    var m := Marker(fields[0]);
    var rest := Join(fields[1..], ',');
    ReplyHead(fields);
    var line := m + rest;
    assert OccursAt(line, m, 0) by {
      assert line[..|m|] == m;
    }
    ContainsAt(line, m, 0);
    assert forall k :: 0 <= k < |fields[1..]| ==> 'A' !in fields[1..][k];
    Pt02Sensors.JoinAvoids(fields[1..], ',', 'A');
    NoAAfterMarker(fields[0], rest);
    OnlyAtStart(line, Marker(t));
    assert line[7] == fields[0][0];
    assert fields[0][0] == t[0] ==> fields[0] == t;
    assert fields[0] != t ==> !OccursAt(line, Marker(t), 0) by {
      assert OccursAt(line, Marker(t), 0) ==> line[7] == Marker(t)[7];
    }
  }

  /** A reply is the marker of its first field, then the other fields. */
  lemma ReplyHead(fields: seq<string>)
    requires |fields| >= 2
    ensures Reply(fields) == Marker(fields[0]) + Join(fields[1..], ',')
  {
    assert (["AIRCON"] + fields)[1..] == fields;
    assert Join(fields, ',') == fields[0] + [','] + Join(fields[1..], ',');
  }

  /** Past its first character, a marker of an `A`-free tag followed by
      `A`-free text has no `A`. */
  lemma NoAAfterMarker(tag: string, rest: string)
    requires 'A' !in tag && 'A' !in rest
    ensures var line := Marker(tag) + rest;
            forall j :: 1 <= j < |line| ==> line[j] != 'A'
  {
    var m := Marker(tag);
    var line := m + rest;
    forall j | 1 <= j < |line| ensures line[j] != 'A' {
      if j < |m| {
        assert line[j] == m[j];
        if 7 <= j < 7 + |tag| { assert m[j] == tag[j - 7]; }
      } else {
        assert line[j] == rest[j - |m|];
      }
    }
  }

  /** A text starting with `A` occurs only at the start of a line that has no
      other `A`. */
  lemma OnlyAtStart(line: string, sub: string)
    requires sub != [] && sub[0] == 'A'
    requires forall j :: 1 <= j < |line| ==> line[j] != 'A'
    ensures forall j :: 1 <= j ==> !OccursAt(line, sub, j)
  {
    forall j | 1 <= j ensures !OccursAt(line, sub, j) {
      if j + |sub| <= |line| {
        assert line[j..j + |sub|][0] == line[j];
      }
    }
  }

  /** The fields of a reply carrying `str()` of whole numbers after a tag. */
  lemma NumeralReply(fields: seq<string>)
    requires |fields| >= 2 && fields[0] in Tags
    requires forall k :: 1 <= k < |fields| ==> Numeral(fields[k])
    ensures CommaFree(fields)
    ensures forall k :: 0 <= k < |fields| ==> 'A' !in fields[k]
  {
  }

  /** `AIRCON,TEMPSET,<a>,<b>` sets the temperatures to a/10 and b/10. */
  lemma ReadTempReply(s: Setpoints, a: int, b: int, fields: seq<string>)
    requires fields == ["TEMPSET", IntToString(a), IntToString(b)]
    ensures Getset(s, Reply(fields))
            == (s.(tempValue := Pt02Sensors.Tenths(a as real), tempHyst := Pt02Sensors.Tenths(b as real)), true)
  {
    NumeralChars(a);
    NumeralChars(b);
    NumeralReply(fields);
    ReplyParts(fields);
    ReplyMarker(fields, "TEMPSET");
    FloatOfIntString(a);
    FloatOfIntString(b);
    var parts := Split(Reply(fields), ',');
    assert parts[2] == IntToString(a) && parts[3] == IntToString(b);
    GetsetTemps(s, Reply(fields), a as real, b as real);
  }

  /** `AIRCON,CO2SET,<v>,<h>` sets the CO2 pair. */
  lemma ReadCo2Reply(s: Setpoints, v: int, h: int)
    ensures Getset(s, Reply(["CO2SET", IntToString(v), IntToString(h)])) == (s.(co2Value := v, co2Hyst := h), true)
  {
    var fields := ["CO2SET", IntToString(v), IntToString(h)];
    NumeralChars(v);
    NumeralChars(h);
    NumeralReply(fields);
    ReplyParts(fields);
    ReplyMarker(fields, "TEMPSET");
    ReplyMarker(fields, "CO2SET");
    IntRoundTrip(v);
    IntRoundTrip(h);
    GetsetCo2(s, Reply(fields), v, h);
  }

  /** `AIRCON,PM25SET,<v>,<h>` sets the PM2.5 pair. */
  lemma ReadPm25Reply(s: Setpoints, v: int, h: int)
    ensures Getset(s, Reply(["PM25SET", IntToString(v), IntToString(h)])) == (s.(pm25Value := v, pm25Hyst := h), true)
  {
    var fields := ["PM25SET", IntToString(v), IntToString(h)];
    NumeralChars(v);
    NumeralChars(h);
    NumeralReply(fields);
    ReplyParts(fields);
    ReplyMarker(fields, "TEMPSET");
    ReplyMarker(fields, "CO2SET");
    ReplyMarker(fields, "PM25SET");
    IntRoundTrip(v);
    IntRoundTrip(h);
    GetsetPm25(s, Reply(fields), v, h);
  }

  /** `AIRCON,SEMITIME,<t>` sets the time. */
  lemma ReadTimeReply(s: Setpoints, t: int)
    ensures Getset(s, Reply(["SEMITIME", IntToString(t)])) == (s.(semiTime := t), true)
  {
    var fields := ["SEMITIME", IntToString(t)];
    NumeralChars(t);
    NumeralReply(fields);
    ReplyParts(fields);
    ReplyMarker(fields, "TEMPSET");
    ReplyMarker(fields, "CO2SET");
    ReplyMarker(fields, "PM25SET");
    ReplyMarker(fields, "SEMITIME");
    IntRoundTrip(t);
    assert Split(Reply(fields), ',')[2] == IntToString(t);
    GetsetTime(s, Reply(fields), t);
  }

  /** `int(t * 10) / 10 == t` for a temperature on the tenth grid. */
  lemma TenthsRoundTrip(t: real)
    requires OnTenths(t)
    ensures Pt02Sensors.Tenths(Trunc(t * 10.0) as real) == t
  {
    TruncWhole(t * 10.0);
  }

  /** Round trip: when the device echoes the four SAVE payloads as GETSET
      replies, reading them back in order restores every setpoint that was
      saved, from whatever the manager held before, and each reply is taken. */
  lemma SaveThenGetset(before: Setpoints, s: Setpoints)
    requires OnTenths(s.tempValue) && OnTenths(s.tempHyst)
    ensures var f := SaveFields(s);
            var r1 := Getset(before, Reply(f[0]));
            var r2 := Getset(r1.0, Reply(f[1]));
            var r3 := Getset(r2.0, Reply(f[2]));
            var r4 := Getset(r3.0, Reply(f[3]));
            r1.1 && r2.1 && r3.1 && r4.1 && r4.0 == s
  {
    var s1 := before.(tempValue := s.tempValue, tempHyst := s.tempHyst);
    var s2 := s1.(co2Value := s.co2Value, co2Hyst := s.co2Hyst);
    var s3 := s2.(pm25Value := s.pm25Value, pm25Hyst := s.pm25Hyst);
    SavedTemps(before, s);
    SavedCounts(s1, s);
    SavedTime(s3, s);
    assert s3.(semiTime := s.semiTime) == s;
  }

  /** The first SAVE payload, echoed, restores both temperatures. */
  lemma SavedTemps(x: Setpoints, s: Setpoints)
    requires OnTenths(s.tempValue) && OnTenths(s.tempHyst)
    ensures Getset(x, Reply(SaveFields(s)[0])) == (x.(tempValue := s.tempValue, tempHyst := s.tempHyst), true)
  {
    var a, b := Trunc(s.tempValue * 10.0), Trunc(s.tempHyst * 10.0);
    TenthsRoundTrip(s.tempValue);
    TenthsRoundTrip(s.tempHyst);
    TempPayload(s);
    TempsRestored(x, a, b, s.tempValue, s.tempHyst, SaveFields(s)[0]);
  }

  /** A TEMPSET reply whose tenths stand for `v` and `h` sets those two. */
  lemma TempsRestored(x: Setpoints, a: int, b: int, v: real, h: real, fields: seq<string>)
    requires fields == ["TEMPSET", IntToString(a), IntToString(b)]
    requires Pt02Sensors.Tenths(a as real) == v && Pt02Sensors.Tenths(b as real) == h
    ensures Getset(x, Reply(fields)) == (x.(tempValue := v, tempHyst := h), true)
  {
    ReadTempReply(x, a, b, fields);
  }

  /** The first SAVE payload carries the two temperatures in tenths. */
  lemma TempPayload(s: Setpoints)
    ensures SaveFields(s)[0]
            == ["TEMPSET", IntToString(Trunc(s.tempValue * 10.0)), IntToString(Trunc(s.tempHyst * 10.0))]
  {
  }

  /** The second and third SAVE payloads, echoed, restore the CO2 and PM2.5 pairs. */
  lemma SavedCounts(x: Setpoints, s: Setpoints)
    ensures var x2 := x.(co2Value := s.co2Value, co2Hyst := s.co2Hyst);
            Getset(x, Reply(SaveFields(s)[1])) == (x2, true)
            && Getset(x2, Reply(SaveFields(s)[2])) == (x2.(pm25Value := s.pm25Value, pm25Hyst := s.pm25Hyst), true)
  {
    var x2 := x.(co2Value := s.co2Value, co2Hyst := s.co2Hyst);
    ReadCo2Reply(x, s.co2Value, s.co2Hyst);
    ReadPm25Reply(x2, s.pm25Value, s.pm25Hyst);
  }

  /** The last SAVE payload, echoed, restores the SEMI time. */
  lemma SavedTime(x: Setpoints, s: Setpoints)
    ensures Getset(x, Reply(SaveFields(s)[3])) == (x.(semiTime := s.semiTime), true)
  {
    ReadTimeReply(x, s.semiTime);
  }

  /** A refused hysteresis does not undo the value before it: the truncated
      reply `AIRCON,TEMPSET,<a>,` is refused, yet the target temperature has
      already become a/10. */
  lemma TempValueStoredBeforeRefusal(s: Setpoints, a: int, fields: seq<string>)
    requires fields == ["TEMPSET", IntToString(a), ""]
    ensures Getset(s, Reply(fields)) == (s.(tempValue := Pt02Sensors.Tenths(a as real)), false)
  {
    NumeralChars(a);
    assert CommaFree(fields) && forall k :: 0 <= k < |fields| ==> 'A' !in fields[k] by {
      assert Numeral(fields[1]);
    }
    ReplyParts(fields);
    ReplyMarker(fields, "TEMPSET");
    FloatOfIntString(a);
    EmptyNotFloat();
    var parts := Split(Reply(fields), ',');
    assert parts[2] == IntToString(a) && parts[3] == "";
    GetsetTempHalf(s, Reply(fields), a as real);
  }

  /** `float('')` raises. */
  lemma EmptyNotFloat()
    ensures PyFloat("").None?
  {
  }

  // ---------------------------------------------------------------------------
  // Legacy sensor lines
  // ---------------------------------------------------------------------------

  /** `parse_pt02_response`: a line containing `[AIRCON]` with three fields
      `co2,pm25,temp` (the temperature in tenths); `None` otherwise. */
  function AirconReading(data: string): (r: Option<Pt02Sensors.Sample>)
    ensures r.Some? ==> Contains(data, "[AIRCON]") && r.value.humidity.None?
  {
    if Contains(data, "[AIRCON]") then Pt02Sensors.ParseAirconFormat(data) else None
  }

  /** The manager reads a legacy line exactly as the PT02 manager does:
      the values its three fields spell, the temperature divided by ten. */
  lemma AirconReadingAgrees(ctext: string, ptext: string, ttext: string, co2: int, pm25: int, tv: real)
    requires Pt02Sensors.FieldText(ctext) && Pt02Sensors.FieldText(ptext) && Pt02Sensors.FieldText(ttext)
    requires Pt02Sensors.Spelled(ctext, ptext, ttext, co2, pm25, tv)
    ensures var line := Pt02Sensors.AirconLine([ctext, ptext, ttext]);
            && AirconReading(line) == Pt02Sensors.ParseResponse(line)
            && AirconReading(line) == Some(Pt02Sensors.Sample(Pt02Sensors.Tenths(tv), co2, pm25, None))
  {
    Pt02Sensors.ThreeFields(ctext, ptext, ttext);
    Pt02Sensors.AirconLineFields([ctext, ptext, ttext]);
    Pt02Sensors.ReadPt02Spelled(ctext, ptext, ttext, co2, pm25, tv);
  }

  // ---------------------------------------------------------------------------
  // The manager
  // ---------------------------------------------------------------------------

  class AutoModeManager {
    /** `AIR_SYSTEM`, the system name every command carries. */
    const airSystem: string
    /** `serial_manager` */
    const link: SerialLink.Link
    /** `auto_mode_active` */
    var autoModeActive: bool
    var tempValue: real
    var tempHyst: real
    var co2Value: int
    var co2Hyst: int
    var pm25Value: int
    var pm25Hyst: int
    var semiTime: int
    /** `pt02_temp`, `pt02_co2`, `pt02_pm25`: the last legacy reading shown. */
    var pt02Temp: Option<real>
    var pt02Co2: Option<int>
    var pt02Pm25: Option<int>
    /** Whether `connect_auto_controls` has given the manager its widget. */
    var hasWidget: bool
    /** `pt02_sensor_manager` */
    var pt02: Pt02Sensors.PT02SensorManager?
    /** `_save_command_queue` and `_save_command_index`. */
    var saveQueue: seq<string>
    var saveIndex: nat

    function Current(): Setpoints
      reads this
    {
      Setpoints(tempValue, tempHyst, co2Value, co2Hyst, pm25Value, pm25Hyst, semiTime)
    }

    /** The SAVE index never passes the end of its queue. */
    predicate Valid()
      reads this
    {
      saveIndex <= |saveQueue|
    }

    constructor (link: SerialLink.Link, airSystem: string)
      ensures Valid() && Current() == Defaults && !autoModeActive
      ensures this.link == link && this.airSystem == airSystem
      ensures pt02Temp.None? && pt02Co2.None? && pt02Pm25.None?
      ensures !hasWidget && pt02 == null && saveQueue == [] && saveIndex == 0
    {
      this.link := link;
      this.airSystem := airSystem;
      autoModeActive := false;
      tempValue, tempHyst := 25.0, 2.0;
      co2Value, co2Hyst := 1000, 100;
      pm25Value, pm25Hyst := 35, 5;
      semiTime := 300;
      pt02Temp, pt02Co2, pt02Pm25 := None, None, None;
      hasWidget := false;
      pt02 := null;
      saveQueue, saveIndex := [], 0;
    }

    /** `send_command(command)`: on an open port write the command and the
        terminator and answer true; otherwise write nothing and answer false. */
    method SendCommand(command: string) returns (ok: bool)
      modifies link`written
      ensures ok == link.connected
      ensures link.written == old(link.written) + Wire([command], ok)
    {
      if link.connected {
        link.Write(command + Terminator);
        ok := true;
      } else {
        ok := false;
      }
    }

    /** `_toggle_auto_mode`: the flag flips whether or not the command gets out. */
    method ToggleAutoMode()
      modifies this`autoModeActive, link`written
      ensures autoModeActive == !old(autoModeActive)
      ensures link.written == old(link.written) + Wire([AutoCommand(airSystem, autoModeActive)], link.connected)
    {
      autoModeActive := !autoModeActive;
      var _ := SendCommand(AutoCommand(airSystem, autoModeActive));
    }

    /** `connect_auto_controls`: only the widget reference matters here. */
    method ConnectAutoControls()
      modifies this`hasWidget
      ensures hasWidget
    {
      hasWidget := true;
    }

    /** `set_pt02_sensor_manager` */
    method SetPt02SensorManager(m: Pt02Sensors.PT02SensorManager?)
      modifies this`pt02
      ensures pt02 == m
    {
      pt02 := m;
    }

    /** `_adjust_value(kind, part, delta, lo, hi)`. */
    method AdjustValue(kind: Kind, part: Part, delta: real, lo: real, hi: real)
      modifies this`tempValue, this`tempHyst, this`co2Value, this`co2Hyst, this`pm25Value, this`pm25Hyst
      ensures Current() == Adjusted(old(Current()), kind, part, delta, lo, hi)
    {
      match (kind, part)
      case (Temp, Value) => tempValue := ClampReal(tempValue + delta, lo, hi);
      case (Temp, Hyst) => tempHyst := ClampReal(tempHyst + delta, lo, hi);
      case (Co2, Value) => co2Value := Trunc(ClampReal(co2Value as real + delta, lo, hi));
      case (Co2, Hyst) => co2Hyst := Trunc(ClampReal(co2Hyst as real + delta, lo, hi));
      case (Pm25, Value) => pm25Value := Trunc(ClampReal(pm25Value as real + delta, lo, hi));
      case (Pm25, Hyst) => pm25Hyst := Trunc(ClampReal(pm25Hyst as real + delta, lo, hi));
    }

    /** `_adjust_time(delta, lo, hi)`. */
    method AdjustTime(delta: int, lo: int, hi: int)
      modifies this`semiTime
      ensures Current() == AdjustedTime(old(Current()), delta, lo, hi)
    {
      semiTime := Clamp(semiTime + delta, lo, hi);
    }

    /** A -/+ setting button as `_connect_setting_buttons` wires it. */
    method PressSetting(kind: Kind, part: Part, up: bool)
      modifies this`tempValue, this`tempHyst, this`co2Value, this`co2Hyst, this`pm25Value, this`pm25Hyst
      ensures Current() == Press(old(Current()), kind, part, up)
    {
      var k := KnobOf(kind, part);
      AdjustValue(kind, part, if up then k.step else -k.step, k.lo, k.hi);
    }

    /** A -/+ time button as `_connect_time_buttons` wires it. */
    method PressTimeButton(up: bool)
      modifies this`semiTime
      ensures Current() == PressTime(old(Current()), up)
    {
      AdjustTime(if up then TimeStep else -TimeStep, TimeMin, TimeMax);
    }

    /** `handle_refresh`: ask for the device's setpoints. */
    method HandleRefresh()
      modifies link`written
      ensures link.written == old(link.written) + Wire([RefreshCommand(airSystem)], link.connected)
    {
      var _ := SendCommand(RefreshCommand(airSystem));
    }

    /** `_send_next_save_command`: one timer tick of the SAVE sequence. While
        commands remain, the next one is sent and the index moves past it;
        at the end nothing happens. */
    method SendNextSaveCommand()
      requires Valid()
      modifies this`saveIndex, link`written
      ensures Valid()
      ensures saveIndex == if old(saveIndex) < |saveQueue| then old(saveIndex) + 1 else old(saveIndex)
      ensures link.written == old(link.written) + Wire(saveQueue[old(saveIndex)..saveIndex], link.connected)
    {
      if saveIndex < |saveQueue| {
        var cmd := saveQueue[saveIndex];
        var _ := SendCommand(cmd);
        saveIndex := saveIndex + 1;
        assert saveQueue[old(saveIndex)..saveIndex] == [cmd];
      }
    }

    /** `handle_save`: queue the four setpoint commands and send the first;
        the timer sends the rest, one per tick. */
    method HandleSave()
      modifies this`saveQueue, this`saveIndex, link`written
      ensures Valid()
      ensures saveQueue == SaveCommands(airSystem, Current()) && saveIndex == 1
      ensures link.written == old(link.written) + Wire(saveQueue[..1], link.connected)
    {
      var f := SaveFields(Current());
      saveQueue := [];
      saveQueue := saveQueue + [Command(airSystem, f[0])];
      saveQueue := saveQueue + [Command(airSystem, f[1])];
      saveQueue := saveQueue + [Command(airSystem, f[2])];
      saveQueue := saveQueue + [Command(airSystem, f[3])];
      saveIndex := 0;
      SendNextSaveCommand();
    }

    /** `parse_getset_response(data)`. */
    method ParseGetsetResponse(data: string) returns (ok: bool)
      modifies this`tempValue, this`tempHyst, this`co2Value, this`co2Hyst, this`pm25Value, this`pm25Hyst,
               this`semiTime
      ensures (Current(), ok) == Getset(old(Current()), data)
    {
      var parts := Split(data, ',');
      if Contains(data, Marker("TEMPSET")) {
        ok := TakeTemps(parts);
      } else if Contains(data, Marker("CO2SET")) {
        ok := TakeCo2(parts);
      } else if Contains(data, Marker("PM25SET")) {
        ok := TakePm25(parts);
      } else if Contains(data, Marker("SEMITIME")) {
        ok := TakeTime(parts);
      } else {
        ok := false;
      }
    }

    /** The TEMPSET branch of `parse_getset_response`. */
    method TakeTemps(parts: seq<string>) returns (ok: bool)
      modifies this`tempValue, this`tempHyst
      ensures (Current(), ok) == ReadTemps(old(Current()), parts)
    {
      ok := false;
      if |parts| >= 4 {
        var v := PyFloat(parts[2]);
        if v.None? { return; }
        tempValue := Pt02Sensors.Tenths(v.value);
        var h := PyFloat(parts[3]);
        if h.None? { return; }
        tempHyst := Pt02Sensors.Tenths(h.value);
        ok := true;
      }
    }

    /** The CO2SET branch of `parse_getset_response`. */
    method TakeCo2(parts: seq<string>) returns (ok: bool)
      modifies this`co2Value, this`co2Hyst
      ensures (Current(), ok) == ReadCounts(old(Current()), parts, Co2)
    {
      ok := false;
      if |parts| >= 4 {
        var v := PyInt(parts[2]);
        if v.None? { return; }
        co2Value := v.value;
        var h := PyInt(parts[3]);
        if h.None? { return; }
        co2Hyst := h.value;
        ok := true;
      }
    }

    /** The PM25SET branch of `parse_getset_response`. */
    method TakePm25(parts: seq<string>) returns (ok: bool)
      modifies this`pm25Value, this`pm25Hyst
      ensures (Current(), ok) == ReadCounts(old(Current()), parts, Pm25)
    {
      ok := false;
      if |parts| >= 4 {
        var v := PyInt(parts[2]);
        if v.None? { return; }
        pm25Value := v.value;
        var h := PyInt(parts[3]);
        if h.None? { return; }
        pm25Hyst := h.value;
        ok := true;
      }
    }

    /** The SEMITIME branch of `parse_getset_response`. */
    method TakeTime(parts: seq<string>) returns (ok: bool)
      modifies this`semiTime
      ensures (Current(), ok) == ReadTime(old(Current()), parts)
    {
      ok := false;
      if |parts| >= 3 {
        var t := PyInt(parts[2]);
        if t.None? { return; }
        semiTime := t.value;
        ok := true;
      }
    }

    /** `update_pt02_sensor_display(temp, co2, pm25)`: without the widget
        nothing is kept; otherwise each given value replaces the shown one. */
    method UpdatePt02SensorDisplay(temp: Option<real>, co2: Option<int>, pm25: Option<int>)
      modifies this`pt02Temp, this`pt02Co2, this`pt02Pm25
      ensures pt02Temp == if hasWidget && temp.Some? then temp else old(pt02Temp)
      ensures pt02Co2 == if hasWidget && co2.Some? then co2 else old(pt02Co2)
      ensures pt02Pm25 == if hasWidget && pm25.Some? then pm25 else old(pt02Pm25)
    {
      if !hasWidget {
        return;
      }
      if temp.Some? {
        pt02Temp := temp;
      }
      if co2.Some? {
        pt02Co2 := co2;
      }
      if pm25.Some? {
        pt02Pm25 := pm25;
      }
    }

    /** `parse_pt02_response(data)` at clock `now` on the date `today`, the
        CSV row being `row` bytes long. A legacy line is shown (when the tab
        has its widget) and handed to the PT02 manager (when there is one). */
    method ParsePt02Response(data: string, now: real, today: string, row: nat) returns (ok: bool)
      requires pt02 != null ==> pt02.dir.Valid()
      modifies this`pt02Temp, this`pt02Co2, this`pt02Pm25, pt02, if pt02 != null then {pt02.dir} else {}
      ensures pt02 == old(pt02) && hasWidget == old(hasWidget)
      ensures ok == AirconReading(data).Some?
      ensures var x := AirconReading(data);
              if x.Some? && hasWidget then
                pt02Temp == Some(x.value.temp) && pt02Co2 == Some(x.value.co2) && pt02Pm25 == Some(x.value.pm25)
              else
                pt02Temp == old(pt02Temp) && pt02Co2 == old(pt02Co2) && pt02Pm25 == old(pt02Pm25)
      ensures pt02 != null ==> pt02.dir == old(pt02.dir) && pt02.dir.Valid()
      ensures pt02 != null ==>
                var x := AirconReading(data);
                pt02.View() == if x.Some? then Pt02Sensors.Save(old(pt02.View()), x.value, now, today, row,
                                                               pt02.csvEnabled, pt02.dir.present, pt02.dir.locked)
                               else old(pt02.View())
    {
      var x := AirconReading(data);
      ok := x.Some?;
      if ok {
        UpdatePt02SensorDisplay(Some(x.value.temp), Some(x.value.co2), Some(x.value.pm25));
        if pt02 != null {
          pt02.SaveSensorData(x.value, now, today, row);
        }
      }
    }
  }
}
