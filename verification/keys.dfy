/** The keyboard keys the game distinguishes (the framework's key codes). */
module Keys {

  /** Every key the handlers test by name; any other key is `Other`. */
  datatype Key =
    | Escape | F9 | F10 | F11 | F12
    | Space | Backslash | Up | Down
    | A | B | C | D | M
    | Left | Right | LShift | LCtrl
    | Other(code: int)
}
