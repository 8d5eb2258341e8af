/** `ButtonManager` (managers/button_manager.py): the manual tab's on/off
    buttons, kept in named groups. A group of one button toggles between on
    and off; in a group of several buttons at most one is on, and pressing it
    again switches it off. Switching the fan or condenser-fan group off also
    resets the matching speed control. */
module Buttons {
  import opened Common
  import opened ButtonState
  import SerialLink
  import SpeedButtons

  /** A button's `{'on': ..., 'off': ...}` entry; either may be missing. */
  datatype Commands = Commands(on: Option<string>, off: Option<string>)

  /** `button_groups[name]`: the group's buttons (by object name) with their
      commands, and which is active. */
  datatype Group = Group(buttons: map<string, Commands>, active: Active)

  /** Python's f-string of an optional command: a missing one is the text `None`. */
  function Text(c: Option<string>): string
  {
    match c
    case Some(s) => s
    case None => "None"
  }

  /** ASCII `str.upper`. */
  function Upper(s: string): (r: string)
    ensures |r| == |s|
    ensures forall i :: 0 <= i < |s| && !('a' <= s[i] <= 'z') ==> r[i] == s[i]
  {
    if s == [] then []
    else
      var c := s[0];
      [if 'a' <= c <= 'z' then (c as int - 32) as char else c] + Upper(s[1..])
  }

  /** The texts a single button shows: `OPEN`/`CLOSE` when its on-command
      mentions OPEN in any case, `ON`/`OFF` otherwise. */
  function Labels(cmds: Commands): (string, string)
  {
    var on := match cmds.on case Some(s) => s case None => "";
    if Contains(Upper(on), "OPEN") then ("OPEN", "CLOSE") else ("ON", "OFF")
  }

  /** What one press does to its group: the new group, the command sent
      (without its `\r`), whether the group was switched off, and the text a
      single button now shows. */
  datatype Outcome = Outcome(group: Group, sent: string, off: bool, shown: Option<string>)

  /** `_toggle_button` on an existing group, with the port open. */
  function Toggled(g: Group, button: string, cmds: Commands): Outcome
  {
    var (onText, offText) := Labels(cmds);
    if |g.buttons| == 1 then
      if !IsOn(g.active) then Outcome(g.(active := Flag(true)), Text(cmds.on), false, Some(onText))
      else Outcome(g.(active := Flag(false)), Text(cmds.off), true, Some(offText))
    else if g.active == Pressed(button) then
      Outcome(g.(active := Unset), Text(cmds.off), true, None)
    else
      Outcome(g.(active := Pressed(button)), Text(cmds.on), false, None)
  }

  /** A single button alternates: it goes on unless it was on, sending the
      matching command and showing the matching text, and only switching it
      off counts as off. The buttons themselves are kept. */
  lemma SingleToggle(g: Group, button: string, cmds: Commands)
    requires |g.buttons| == 1
    ensures var r := Toggled(g, button, cmds);
            && r.group.buttons == g.buttons
            && r.group.active == Flag(!IsOn(g.active))
            && r.off == IsOn(g.active)
            && r.sent == Text(if IsOn(g.active) then cmds.off else cmds.on)
            && r.shown == Some(if IsOn(g.active) then Labels(cmds).1 else Labels(cmds).0)
  {
  }

  /** Two presses of a single button return it to on or off as it was (an
      untouched button counts as off), having sent both commands. */
  lemma SingleTwice(g: Group, button: string, cmds: Commands)
    requires |g.buttons| == 1
    ensures var r1 := Toggled(g, button, cmds);
            var r2 := Toggled(r1.group, button, cmds);
            && r2.group == g.(active := Flag(IsOn(g.active)))
            && [r1.sent, r2.sent]
               == if IsOn(g.active) then [Text(cmds.off), Text(cmds.on)]
                  else [Text(cmds.on), Text(cmds.off)]
  {
    SingleToggle(g, button, cmds);
    SingleToggle(Toggled(g, button, cmds).group, button, cmds);
  }

  /** In a group of several, the pressed button becomes the only active one,
      unless it already was: then the group goes off. */
  lemma MultiToggle(g: Group, button: string, cmds: Commands)
    requires |g.buttons| != 1
    ensures var r := Toggled(g, button, cmds);
            && r.group.buttons == g.buttons
            && r.shown.None?
            && (g.active == Pressed(button) ==>
                  r.group.active == Unset && r.off && r.sent == Text(cmds.off))
            && (g.active != Pressed(button) ==>
                  r.group.active == Pressed(button) && !r.off && r.sent == Text(cmds.on))
  {
  }

  /** The fan groups a switch-off resets a speed control for. */
  function FanOf(name: string): (r: Option<SpeedButtons.Fan>)
    ensures r.Some? ==> SpeedButtons.GateGroup(r.value) == name
  {
    if name == FanGroup then Some(SpeedButtons.Main)
    else if name == ConFanGroup then Some(SpeedButtons.Con)
    else None
  }

  /** The gate the speed control of `fan` sees through the main window. */
  function Gate(groups: map<string, Group>, fan: SpeedButtons.Fan): Option<Active>
  {
    var name := SpeedButtons.GateGroup(fan);
    if name in groups then Some(groups[name].active) else None
  }

  /** Switching a fan group off blocks its speed control; switching a single
      fan button on opens it again whenever the port is open. */
  lemma FanSwitchGatesSpeed(groups: map<string, Group>, name: string, button: string,
                            cmds: Commands, connected: bool)
    requires name in groups && FanOf(name).Some?
    ensures var r := Toggled(groups[name], button, cmds);
            var after := groups[name := r.group];
            && (r.off ==> !SpeedButtons.CanOperate(connected, Gate(after, FanOf(name).value)))
            && (|groups[name].buttons| == 1 && !r.off ==>
                  SpeedButtons.CanOperate(connected, Gate(after, FanOf(name).value)) == connected)
  {
  }

  /** Text without lower-case letters is its own upper case. */
  lemma UpperOfCapitals(s: string)
    requires forall i :: 0 <= i < |s| ==> !('a' <= s[i] <= 'z')
    ensures Upper(s) == s
  {
  }

  /** Text without a `P` cannot contain OPEN. */
  lemma NoOpenWithoutP(s: string)
    requires 'P' !in s
    ensures !Contains(s, "OPEN")
  {
    forall j | 0 <= j
      ensures !OccursAt(s, "OPEN", j)
    {
      if j + 4 <= |s| {
        assert s[j..j + 4][1] == s[j + 1] != 'P';
      }
    }
  }

  /** The four letters O, P, E, N in a row are an occurrence of OPEN. */
  lemma SpelledOpen(s: string, j: nat)
    requires j + 4 <= |s| && s[j] == 'O' && s[j + 1] == 'P' && s[j + 2] == 'E' && s[j + 3] == 'N'
    ensures Contains(s, "OPEN")
  {
    assert s[j..j + 4] == "OPEN";
    ContainsAt(s, "OPEN", j);
  }

  /** An on-command in capitals that spells OPEN gives OPEN/CLOSE. */
  lemma OpenLabels(on: string, off: Option<string>, j: nat)
    requires forall i :: 0 <= i < |on| ==> !('a' <= on[i] <= 'z')
    requires j + 4 <= |on| && on[j] == 'O' && on[j + 1] == 'P' && on[j + 2] == 'E' && on[j + 3] == 'N'
    ensures Labels(Commands(Some(on), off)) == ("OPEN", "CLOSE")
  {
    UpperOfCapitals(on);
    SpelledOpen(on, j);
  }

  /** An on-command in capitals without a P gives ON/OFF. */
  lemma OnOffLabels(on: string, off: Option<string>)
    requires forall i :: 0 <= i < |on| ==> !('a' <= on[i] <= 'z') && on[i] != 'P'
    ensures Labels(Commands(Some(on), off)) == ("ON", "OFF")
  {
    UpperOfCapitals(on);
    NoOpenWithoutP(on);
  }

  /** The damper buttons show OPEN/CLOSE. */
  lemma DamperLabels()
    ensures Labels(Commands(Some("$CMD,ALTDMP,OPEN\n"), Some("$CMD,ALTDMP,CLOSE\n"))) == ("OPEN", "CLOSE")
  {
    var d := "$CMD,ALTDMP,OPEN\n";
    assert forall i :: 0 <= i < |d| ==> !('a' <= d[i] <= 'z');
    assert d[12] == 'O' && d[13] == 'P' && d[14] == 'E' && d[15] == 'N';
    OpenLabels(d, Some("$CMD,ALTDMP,CLOSE\n"), 12);
  }

  /** The fan button shows ON/OFF. */
  lemma FanLabels()
    ensures Labels(Commands(Some("$CMD,FAN,ON\n"), Some("$CMD,FAN,OFF\n"))) == ("ON", "OFF")
  {
    var f := "$CMD,FAN,ON\n";
    assert forall i :: 0 <= i < |f| ==> !('a' <= f[i] <= 'z') && f[i] != 'P';
    OnOffLabels(f, Some("$CMD,FAN,OFF\n"));
  }

  class ButtonManager {
    /** `serial_manager` */
    const link: SerialLink.Link
    /** `button_groups` */
    var groups: map<string, Group>
    /** The text each single button shows, once it has been pressed. */
    var labels: map<string, string>
    /** `speed_button_manager` */
    var speed: SpeedButtons.SpeedButtonManager?

    /** Both managers write to the one serial port. */
    predicate Valid()
      reads this
    {
      speed != null ==> speed.link == link
    }

    constructor (link: SerialLink.Link)
      ensures Valid() && this.link == link && groups == map[] && labels == map[] && speed == null
    {
      this.link := link;
      groups := map[];
      labels := map[];
      speed := null;
    }

    /** `set_speed_button_manager` */
    method SetSpeedButtonManager(s: SpeedButtons.SpeedButtonManager)
      requires s.link == link
      modifies this`speed
      ensures speed == s && Valid()
    {
      speed := s;
    }

    /** `add_group`: a new or replaced group, with nothing active. */
    method AddGroup(name: string, buttons: map<string, Commands>)
      modifies this`groups
      ensures groups == old(groups)[name := Group(buttons, Unset)]
    {
      groups := groups[name := Group(buttons, Unset)];
    }

    /** `send_command`: the command and `\r`, when the port is open. */
    method SendCommand(command: string)
      modifies link`written
      ensures link.written == old(link.written) + (if link.connected then [command + "\r"] else [])
    {
      if link.connected {
        link.Write(command + "\r");
      }
    }

    /** `_handle_fan_off_callback`: a fan group's speed control goes to 0. */
    method HandleFanOff(name: string)
      requires Valid()
      modifies if speed != null then {speed} else {}, link`written
      ensures Valid()
      ensures speed != null && FanOf(name).Some? ==>
                && speed.View() == SpeedButtons.Cleared(old(speed.View()), FanOf(name).value, speed.autoLinked)
                && speed.autoLinked == old(speed.autoLinked)
                && link.written == old(link.written) +
                     (if link.connected then [SpeedButtons.SpeedCommand(FanOf(name).value, 0)] else [])
      ensures !(speed != null && FanOf(name).Some?) ==> link.written == old(link.written)
      ensures speed != null && FanOf(name).None? ==> unchanged(speed)
    {
      if speed == null {
        return;
      }
      match FanOf(name)
      case Some(fan) => speed.ResetSpeedButtons(fan);
      case None =>
    }

    /** `_toggle_button(name, button, cmds)`: nothing happens while the port
        is closed or when there is no such group. */
    method ToggleButton(name: string, button: string, cmds: Commands)
      requires Valid()
      modifies this`groups, this`labels, link`written, if speed != null then {speed} else {}
      ensures Valid()
      ensures !link.connected || name !in old(groups) ==>
                && groups == old(groups) && labels == old(labels)
                && link.written == old(link.written)
                && (speed != null ==> unchanged(speed))
      ensures link.connected && name in old(groups) ==>
                var r := Toggled(old(groups)[name], button, cmds);
                var resets := r.off && speed != null && FanOf(name).Some?;
                && groups == old(groups)[name := r.group]
                && labels == (if r.shown.Some? then old(labels)[button := r.shown.value] else old(labels))
                && link.written == old(link.written) + [r.sent + "\r"]
                     + (if resets then [SpeedButtons.SpeedCommand(FanOf(name).value, 0)] else [])
                && (resets ==> speed.View() == SpeedButtons.Cleared(old(speed.View()), FanOf(name).value, speed.autoLinked))
                && (speed != null && !resets ==> unchanged(speed))
    {
      if !link.connected || name !in groups {
        return;
      }
      var r := Toggled(groups[name], button, cmds);
      if r.shown.Some? {
        labels := labels[button := r.shown.value];
      }
      SendCommand(r.sent);
      groups := groups[name := r.group];
      if r.off {
        HandleFanOff(name);
      }
    }
  }
}
