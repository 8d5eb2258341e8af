/** The state of a button group as managers/button_manager.py keeps it in
    `button_groups[name]['active']`. The speed manager reads it too, so it
    lives apart from either manager. */
module ButtonState {

  /** `None` before any press; `True` / `False` in a group of one button;
      the pressed button (by its object name) in a group of several. */
  datatype Active = Unset | Flag(on: bool) | Pressed(button: string)

  /** Python's `active is True`. */
  predicate IsOn(a: Active)
  {
    a == Flag(true)
  }

  /** The groups whose switching off resets a speed control. */
  const FanGroup := "aircon_fan"
  const ConFanGroup := "aircon_con_fan"
}
