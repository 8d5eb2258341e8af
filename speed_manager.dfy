/** `SpeedButtonManager` (managers/speed_manager.py): the two `<  value  >`
    speed controls of the manual tab, one for the main fan (`FSPD`) and one for
    the condenser fan (`CON_SPD`). Each holds a speed 0..10; a change is sent
    at once, with the word `None` standing for 0. */
module SpeedButtons {
  import opened Common
  import opened ButtonState
  import SerialLink

  /** Which control: `current_fan_speed` or `current_con_fan_speed`. */
  datatype Fan = Main | Con

  /** The three buttons of a control. */
  datatype Op = Increase | Decrease | Reset

  const MaxSpeed := 10

  /** The command prefix each control is wired with. */
  function Prefix(fan: Fan): string
  {
    match fan
    case Main => "$CMD,FSPD,"
    case Con => "$CMD,CON_SPD,"
  }

  /** The group whose state gates the control. */
  function GateGroup(fan: Fan): string
  {
    match fan
    case Main => FanGroup
    case Con => ConFanGroup
  }

  /** The command for a new speed: the number, or `None` for 0, then `\r`. */
  function SpeedCommand(fan: Fan, v: int): string
  {
    Prefix(fan) + (if v == 0 then "None" else IntToString(v)) + "\r"
  }

  /** How a device reads a speed command back: the prefix, then `None` or an
      integer, then `\r`. */
  function ReadSpeed(fan: Fan, cmd: string): (r: Option<int>)
  {
    var p := Prefix(fan);
    if !StartsWith(cmd, p) || !EndsWith(cmd, "\r") || |cmd| < |p| + 1 then None
    else
      var body := cmd[|p|..|cmd| - 1];
      if body == "None" then Some(0) else PyInt(body)
  }

  /** The text between the prefix and the terminator is what is read. */
  lemma ReadBody(fan: Fan, body: string)
    ensures ReadSpeed(fan, Prefix(fan) + body + "\r")
            == if body == "None" then Some(0) else PyInt(body)
  {
    var p := Prefix(fan);
    var cmd := p + body + "\r";
    assert cmd[..|p|] == p;
    assert cmd[|cmd| - 1..] == "\r";
    assert cmd[|p|..|cmd| - 1] == body;
  }

  /** A number never prints as the word `None`. */
  lemma NumberIsNotNone(v: int)
    ensures IntToString(v) != "None"
  {
    var d := NatToString(if v < 0 then -v else v);
    assert IsDigit(d[0]);
    assert IntToString(v)[0] == (if v < 0 then '-' else d[0]);
  }

  /** A speed command reads back as the speed it was made from. */
  lemma SpeedCommandRoundTrip(fan: Fan, v: int)
    ensures ReadSpeed(fan, SpeedCommand(fan, v)) == Some(v)
  {
    var body := if v == 0 then "None" else IntToString(v);
    ReadBody(fan, body);
    if v != 0 {
      NumberIsNotNone(v);
      IntRoundTrip(v);
    }
  }

  /** The parts of the manager the handlers change: both speeds, the
      `is_updating` flag and the speeds handed to the AUTO manager's
      `update_from_manual`. */
  datatype Speeds = Speeds(fan: int, con: int, isUpdating: bool, forwarded: seq<int>)

  function Get(st: Speeds, fan: Fan): int
  {
    match fan
    case Main => st.fan
    case Con => st.con
  }

  function Put(st: Speeds, fan: Fan, v: int): Speeds
  {
    match fan
    case Main => st.(fan := v)
    case Con => st.(con := v)
  }

  /** `_can_operate_*`: the port is open and the matching group, when the
      main window has one, is on. `gate` is that group's `active` entry, or
      `None` when there is no main window, no button manager or no group. */
  predicate CanOperate(connected: bool, gate: Option<Active>)
  {
    connected && (gate.None? || IsOn(gate.value))
  }

  /** `sync_to_auto_tab(v)`: hand the speed to the AUTO manager, unless a
      sync is already running or there is no AUTO manager. */
  function Synced(st: Speeds, v: int, autoLinked: bool): Speeds
  {
    if st.isUpdating || !autoLinked then st else st.(forwarded := st.forwarded + [v])
  }

  /** `handle_increase_button` / `handle_decrease_button` /
      `handle_reset_button` on `fan`, when `ok` says the control may operate. */
  function AfterPress(st: Speeds, fan: Fan, op: Op, ok: bool, autoLinked: bool): Speeds
  {
    var v := Get(st, fan);
    if !ok then st
    else
      match op
      case Increase =>
        if v < MaxSpeed then
          var st1 := Put(st, fan, v + 1);
          if fan == Main && !st.isUpdating then Synced(st1, v + 1, autoLinked) else st1
        else st
      case Decrease =>
        if v > 0 then
          var st1 := Put(st, fan, v - 1);
          if fan == Main then Synced(st1, v - 1, autoLinked) else st1
        else st
      case Reset =>
        var st1 := Put(st, fan, 0);
        if fan == Main then Synced(st1, 0, autoLinked) else st1
  }

  /** The commands such a press sends. */
  function PressSent(st: Speeds, fan: Fan, op: Op, ok: bool): seq<string>
  {
    var v := Get(st, fan);
    if !ok then []
    else
      match op
      case Increase => if v < MaxSpeed then [SpeedCommand(fan, v + 1)] else []
      case Decrease => if v > 0 then [SpeedCommand(fan, v - 1)] else []
      case Reset => [SpeedCommand(fan, 0)]
  }

  predicate InRange(st: Speeds)
  {
    0 <= st.fan <= MaxSpeed && 0 <= st.con <= MaxSpeed
  }

  /** The buttons move a speed by exactly one within 0..10, send the new
      speed, and touch nothing else; at the bound, or when the control may not
      operate, nothing changes and nothing is sent. */
  lemma PressStep(st: Speeds, fan: Fan, op: Op, ok: bool, autoLinked: bool)
    requires op != Reset
    ensures var r := AfterPress(st, fan, op, ok, autoLinked);
            var v := Get(st, fan);
            var moves := ok && (if op == Increase then v < MaxSpeed else v > 0);
            var w := if op == Increase then v + 1 else v - 1;
            && (moves ==> Get(r, fan) == w && PressSent(st, fan, op, ok) == [SpeedCommand(fan, w)])
            && (!moves ==> r == st && PressSent(st, fan, op, ok) == [])
            && (forall g :: g != fan ==> Get(r, g) == Get(st, g))
            && r.isUpdating == st.isUpdating
  {
  }

  /** The three buttons keep both speeds within 0..10. */
  lemma PressKeepsRange(st: Speeds, fan: Fan, op: Op, ok: bool, autoLinked: bool)
    requires InRange(st)
    ensures InRange(AfterPress(st, fan, op, ok, autoLinked))
  {
  }

  /** `<` undoes `>`: below the top, one press up and one press down restore
      the speed, having sent the raised speed and then the old one. */
  lemma DecreaseUndoesIncrease(st: Speeds, fan: Fan, autoLinked: bool)
    requires 0 <= Get(st, fan) < MaxSpeed
    ensures var up := AfterPress(st, fan, Increase, true, autoLinked);
            var down := AfterPress(up, fan, Decrease, true, autoLinked);
            && Get(down, fan) == Get(st, fan)
            && PressSent(st, fan, Increase, true) + PressSent(up, fan, Decrease, true)
               == [SpeedCommand(fan, Get(st, fan) + 1), SpeedCommand(fan, Get(st, fan))]
  {
    PressStep(st, fan, Increase, true, autoLinked);
    var up := AfterPress(st, fan, Increase, true, autoLinked);
    PressStep(up, fan, Decrease, true, autoLinked);
  }

  /** A reset sends `None` whatever the speed was. */
  lemma ResetSendsNone(st: Speeds, fan: Fan, autoLinked: bool)
    ensures Get(AfterPress(st, fan, Reset, true, autoLinked), fan) == 0
    ensures PressSent(st, fan, Reset, true) == [Prefix(fan) + "None\r"]
    ensures ReadSpeed(fan, Prefix(fan) + "None\r") == Some(0)
  {
    SpeedCommandRoundTrip(fan, 0);
    assert SpeedCommand(fan, 0) == Prefix(fan) + "None\r";
  }

  /** What `reset_fan_speed_buttons` / `reset_con_fan_speed_buttons` leave:
      speed 0, and for the main fan a sync of 0. */
  function Cleared(st: Speeds, fan: Fan, autoLinked: bool): Speeds
  {
    var st1 := Put(st, fan, 0);
    if fan == Main then Synced(st1, 0, autoLinked) else st1
  }

  class SpeedButtonManager {
    /** `serial_manager` */
    const link: SerialLink.Link
    var fanSpeed: int
    var conFanSpeed: int
    /** `is_updating` */
    var isUpdating: bool
    /** Whether `auto_speed_manager` is set (it has `update_from_manual`). */
    var autoLinked: bool
    /** The speeds handed to `auto_speed_manager.update_from_manual`, oldest
        first (that method does nothing in managers/auto_manager.py). */
    var forwarded: seq<int>

    function View(): Speeds
      reads this
    {
      Speeds(fanSpeed, conFanSpeed, isUpdating, forwarded)
    }

    constructor (link: SerialLink.Link)
      ensures View() == Speeds(0, 0, false, []) && !autoLinked && this.link == link
    {
      this.link := link;
      fanSpeed, conFanSpeed := 0, 0;
      isUpdating := false;
      autoLinked := false;
      forwarded := [];
    }

    /** `set_auto_manager` */
    method SetAutoManager()
      modifies this`autoLinked
      ensures autoLinked
    {
      autoLinked := true;
    }

    /** `send_command(command)`: written as given when the port is open. */
    method SendCommand(command: string)
      modifies link`written
      ensures link.written == old(link.written) + (if link.connected then [command] else [])
    {
      if link.connected {
        link.Write(command);
      }
    }

    /** `sync_to_auto_tab(v)`: `is_updating` is set around the call and
        cleared after it. */
    method SyncToAutoTab(v: int)
      modifies this`isUpdating, this`forwarded
      ensures View() == Synced(old(View()), v, autoLinked)
    {
      if isUpdating {
        return;
      }
      if autoLinked {
        isUpdating := true;
        forwarded := forwarded + [v];
        isUpdating := false;
      }
    }

    /** `update_from_auto(v)`: the AUTO tab's speed, taken unchecked, unless
        a sync is running. */
    method UpdateFromAuto(v: int)
      modifies this`isUpdating, this`fanSpeed
      ensures isUpdating == old(isUpdating)
      ensures fanSpeed == if old(isUpdating) then old(fanSpeed) else v
    {
      if isUpdating {
        return;
      }
      isUpdating := true;
      fanSpeed := v;
      isUpdating := false;
    }

    function Speed(fan: Fan): int
      reads this
    {
      match fan
      case Main => fanSpeed
      case Con => conFanSpeed
    }

    method SetSpeed(fan: Fan, v: int)
      modifies this`fanSpeed, this`conFanSpeed
      ensures View() == Put(old(View()), fan, v)
    {
      match fan
      case Main => fanSpeed := v;
      case Con => conFanSpeed := v;
    }

    /** `handle_increase_button`, `handle_decrease_button` and
        `handle_reset_button` for `fan`; `gate` is the matching group's
        `active` entry as seen through the main window. */
    method HandleButton(fan: Fan, op: Op, gate: Option<Active>)
      modifies this`fanSpeed, this`conFanSpeed, this`isUpdating, this`forwarded, link`written
      ensures View() == AfterPress(old(View()), fan, op, CanOperate(link.connected, gate), autoLinked)
      ensures link.written == old(link.written) + PressSent(old(View()), fan, op, CanOperate(link.connected, gate))
    {
      if !CanOperate(link.connected, gate) {
        return;
      }
      var v := Speed(fan);
      match op
      case Increase =>
        if v < MaxSpeed {
          SetSpeed(fan, v + 1);
          SendCommand(SpeedCommand(fan, v + 1));
          if fan == Main && !isUpdating {
            SyncToAutoTab(v + 1);
          }
        }
      case Decrease =>
        if v > 0 {
          SetSpeed(fan, v - 1);
          SendCommand(SpeedCommand(fan, v - 1));
          if fan == Main {
            SyncToAutoTab(v - 1);
          }
        }
      case Reset =>
        SetSpeed(fan, 0);
        SendCommand(SpeedCommand(fan, 0));
        if fan == Main {
          SyncToAutoTab(0);
        }
    }

    /** `reset_fan_speed_buttons` (`Main`) and `reset_con_fan_speed_buttons`
        (`Con`): speed 0, `None` sent when the port is open. */
    method ResetSpeedButtons(fan: Fan)
      modifies this`fanSpeed, this`conFanSpeed, this`isUpdating, this`forwarded, link`written
      ensures View() == Cleared(old(View()), fan, autoLinked)
      ensures link.written == old(link.written) + (if link.connected then [SpeedCommand(fan, 0)] else [])
    {
      SetSpeed(fan, 0);
      SendCommand(SpeedCommand(fan, 0));
      if fan == Main {
        SyncToAutoTab(0);
      }
    }
  }
}
