/** Keyboard input as the terminal backend reports it, reduced to what the
    controller distinguishes. */
module Keys {

  /** The keys the controller reacts to; every other key is `Other`. */
  datatype KeyCode = Backspace | Enter | Tab | Char(c: char) | Other

  /** Whether the event is a key going down, auto-repeating, or coming up. */
  datatype KeyEventKind = Press | Repeat | Release

  datatype KeyEvent = KeyEvent(code: KeyCode, kind: KeyEventKind)
}
