/** The on-screen joystick: a stick dragged vertically within a range around
    the base's centre, read as idle, up or down. */
module JoystickControl {

  datatype JoystickState = Idle | Up | Down

  /** `Phaser.Math.Clamp(v, lo, hi)`, that is `Math.max(lo, Math.min(hi, v))`. */
  function Clamp(v: real, lo: real, hi: real): (r: real)
    ensures lo <= hi ==> lo <= r <= hi
    ensures lo <= v <= hi ==> r == v
    ensures v < lo ==> r == lo
    ensures lo <= hi && hi < v ==> r == hi
  {
    var m := if hi <= v then hi else v;
    if lo >= m then lo else m
  }

  /** The state a drag offset reads as: a dead zone of 10 pixels either way. */
  function Classify(deltaY: real): (s: JoystickState)
    ensures s == Up <==> deltaY < -10.0
    ensures s == Down <==> deltaY > 10.0
    ensures s == Idle <==> -10.0 <= deltaY <= 10.0
  {
    if deltaY < -10.0 then Up
    else if deltaY > 10.0 then Down
    else Idle
  }

  /** When the drag range is no wider than the dead zone the stick can never
      leave the idle state, wherever it is dragged. */
  lemma NarrowRangeStaysIdle(dragY: real, centerY: real, dragRange: real)
    requires 0.0 <= dragRange <= 10.0
    ensures Classify(Clamp(dragY, centerY - dragRange, centerY + dragRange) - centerY) == Idle
  {
  }

  class Joystick {
    /** `20 + base.displayWidth / 2`: the stick's only x position. */
    const homeX: real
    const centerY: real
    const dragRange: real
    var stickX: real
    var stickY: real
    var currentState: JoystickState

    /** Lays the joystick out in the bottom-left corner: `base` is the
        base image's display size. */
    constructor(baseDisplayWidth: real, baseDisplayHeight: real, screenWidth: real)
      ensures homeX == 20.0 + baseDisplayWidth / 2.0
      ensures centerY == screenWidth - 20.0 - baseDisplayHeight / 2.0
      ensures dragRange == baseDisplayHeight / 6.0
      ensures currentState == Idle && stickX == homeX && stickY == centerY
    {
      homeX := 20.0 + baseDisplayWidth / 2.0;
      centerY := screenWidth - 20.0 - baseDisplayHeight / 2.0;
      dragRange := baseDisplayHeight / 6.0;
      stickX := 20.0 + baseDisplayWidth / 2.0;
      stickY := screenWidth - 20.0 - baseDisplayHeight / 2.0;
      currentState := Idle;
    }

    /** The `drag` handler. */
    method Drag(dragY: real)
      modifies this
      ensures stickX == homeX
      ensures stickY == Clamp(dragY, centerY - dragRange, centerY + dragRange)
      ensures dragRange >= 0.0 ==> centerY - dragRange <= stickY <= centerY + dragRange
      ensures currentState == Classify(stickY - centerY)
    {
      var clampedY := Clamp(dragY, centerY - dragRange, centerY + dragRange);
      stickX, stickY := homeX, clampedY;
      var deltaY := clampedY - centerY;
      var newState := Idle;
      if deltaY < -10.0 {
        newState := Up;
      } else if deltaY > 10.0 {
        newState := Down;
      }
      if newState != currentState {
        currentState := newState;
      }
    }

    /** The `dragend` handler. */
    method DragEnd()
      modifies this
      ensures stickX == homeX && stickY == centerY && currentState == Idle
    {
      stickX, stickY := homeX, centerY;
      if currentState != Idle {
        currentState := Idle;
      }
    }
  }
}
