/** Keycodes, output events and the interpreter's state records.

    The interpreter reads logical keycodes from the keymap (its own
    `VIM_*` codes, or any other code, which it passes through) and writes
    an ordered stream of press/release calls on host keycodes. */
module VimTypes {

  /** The C type `uint16_t`: the width of every keycode and of `repeat`. */
  newtype u16 = x: int | 0 <= x < 0x1_0000

  /** The `custom_keycodes` enumeration, in declaration order. */
  datatype VimKey =
    | Placeholder
    | Vim0 | Vim1 | Vim2 | Vim3 | Vim4 | Vim5 | Vim6 | Vim7 | Vim8 | Vim9
    | VimA | VimB | VimC | VimD | VimE | VimH | VimI | VimJ | VimK | VimL
    | VimO | VimP | VimS | VimU | VimV | VimW | VimX | VimY
    | VimDot | VimComm | VimShift

  /** A keycode handed to the interpreter: one of its own codes, or any
      other 16-bit code (a plain key of the keymap, or a code outside the
      `switch`). */
  datatype Keycode = Custom(key: VimKey) | Basic(code: u16)

  /** The host keycodes the interpreter emits. `Ctrl(k)` is `LCTL(k)`, the
      left-Control flag or-ed into a base code. `KC_DEL` and `KC_DELETE`
      are one code, `Delete`, as in the keycode table of the firmware. */
  datatype Key =
    | Left | Right | Up | Down | Home | End | Delete | Space | Enter
    | LShift | LCtrl | X | C | V | Z
    | Ctrl(base: Key)

  /** One call into the host, in the order it is made: `register_code16`,
      `unregister_code16`, or `layer_move`. */
  datatype Event = Press(key: Key) | Release(key: Key) | LayerMove(layer: int)

  /** A `uint16_t` command field that holds a custom keycode or 0 (none). */
  datatype Slot = Unset | Set(key: VimKey)

  /** The `Command` struct: a pending or completed editing command. */
  datatype Command = Command(action: Slot, shifted: bool, repeat: u16, motion: Slot)

  /** `DefaultCommand`, the zero-initialised struct. */
  const DefaultCommand := Command(Unset, false, 0, Unset)

  /** The process-wide globals of the interpreter. */
  datatype Machine = Machine(
    current: Command,
    previous: Command,
    visualMode: bool,
    pasteLineEndFix: bool,
    shifted: bool)

  /** The globals as the firmware starts: everything zero. */
  const Initial := Machine(DefaultCommand, DefaultCommand, false, false, false)

  /** The globals after an operation together with what it emitted. */
  datatype Outcome = Outcome(m: Machine, out: seq<Event>)

  /** What one call of the entry point does: new globals, emitted events,
      and whether the key event is also handed to the host unchanged. */
  datatype Reaction = Reaction(m: Machine, out: seq<Event>, passThrough: bool)

  /** `INDENT_SIZE` and `INSERT_MODE_LAYER`, at their default values. */
  const IndentSize: nat := 2
  const InsertModeLayer: int := 0

  /** `case VIM_0 ... VIM_9`. */
  predicate IsDigit(k: VimKey) {
    || k == Vim0 || k == Vim1 || k == Vim2 || k == Vim3 || k == Vim4
    || k == Vim5 || k == Vim6 || k == Vim7 || k == Vim8 || k == Vim9
  }

  /** The digit key at position `d` of the enumeration, counted from `VIM_0`. */
  function DigitKey(d: nat): VimKey
    requires d <= 9
  {
    if d == 0 then Vim0 else if d == 1 then Vim1 else if d == 2 then Vim2
    else if d == 3 then Vim3 else if d == 4 then Vim4 else if d == 5 then Vim5
    else if d == 6 then Vim6 else if d == 7 then Vim7 else if d == 8 then Vim8
    else Vim9
  }

  /** `keycode - VIM_0` for a digit key. */
  function DigitValue(k: VimKey): (d: nat)
    requires IsDigit(k)
    ensures d <= 9
    ensures d == 0 <==> k == Vim0
    ensures DigitKey(d) == k
  {
    if k == Vim0 then 0 else if k == Vim1 then 1 else if k == Vim2 then 2
    else if k == Vim3 then 3 else if k == Vim4 then 4 else if k == Vim5 then 5
    else if k == Vim6 then 6 else if k == Vim7 then 7 else if k == Vim8 then 8
    else 9
  }

  /** The motion keys of the navigation block. */
  predicate IsMotion(k: VimKey) {
    k == VimH || k == VimJ || k == VimK || k == VimL || k == VimW || k == VimB
  }
}
