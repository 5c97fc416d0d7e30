/**
 * The input the demos poll once per frame. A frame sees the SET of keys held
 * down at that instant (OpenTK `Keyboard.GetState()`), so a held key acts again
 * on every frame; nothing is queued or edge-triggered.
 */
module Input {

  /** The keys any of the three demos reacts to. */
  datatype Key = W | A | S | D | Q | E | B | G | R | V | T | C

  /** The mouse buttons `OnMouseDown` distinguishes; every other button is `Other`. */
  datatype MouseButton = Left | Right | Other
}
