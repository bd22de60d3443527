/** The interpreter as pure functions over the globals: each function gives
    the globals after the corresponding C function and the events it emits,
    in order. The methods of `VimMachine.Vim` are proved against these, and
    `VimProperties` proves what the feature list at the head of `vim.h`
    promises about them. */
module VimSpec {
  import opened VimTypes

  /** `TAP(k)`: press then release. */
  function Tap(k: Key): seq<Event> {
    [Press(k), Release(k)]
  }

  /** Concatenation is associative; stated once to spare the solver. */
  lemma AppendAssoc(a: seq<Event>, b: seq<Event>, c: seq<Event>)
    ensures a + b + c == a + (b + c)
  {
  }

  /** `n` copies of `block`, one after another. */
  function Repeat(block: seq<Event>, n: nat): seq<Event> {
    if n == 0 then [] else Repeat(block, n - 1) + block
  }

  /** `MAX(1, repeat)`: the number of rounds of `WITH_REPEATER`. */
  function Times(repeat: u16): (n: nat)
    ensures n >= 1 && n >= repeat as nat
    ensures repeat != 0 ==> n == repeat as nat
    ensures repeat == 0 ==> n == 1
  {
    if 1 > repeat as nat then 1 else repeat as nat
  }

  /** `TAP_N_TIMES(k)` with `current.repeat == repeat`. */
  function TapNTimes(k: Key, repeat: u16): seq<Event> {
    Repeat(Tap(k), Times(repeat))
  }

  /** `current.repeat * 10 + d`, truncated to `uint16_t`. */
  function AddDigit(repeat: u16, d: nat): u16
    requires d <= 9
  {
    ((repeat as int * 10 + d) % 0x1_0000) as u16
  }

  /** `current.repeat *= k`, truncated to `uint16_t`. */
  function Mul16(a: u16, b: u16): u16 {
    ((a as int * b as int) % 0x1_0000) as u16
  }

  /** The events of `insert_mode`. */
  function InsertModeOut(): seq<Event> {
    [Release(LShift), Release(LCtrl), LayerMove(InsertModeLayer)]
  }

  /** `insert_mode`. */
  function InsertMode(m: Machine): Outcome {
    Outcome(m.(visualMode := false, shifted := false, current := DefaultCommand), InsertModeOut())
  }

  /** `go_to_line_start`. */
  function GoToLineStart(): seq<Event> {
    Tap(End) + Tap(Home) + Tap(Home)
  }

  /** How many times the loop of `select_n_lines` runs: `n - 1`, or none
      when `n <= 1`. */
  function ExtraLines(n: int): nat {
    if n > 1 then n - 1 else 0
  }

  /** `select_n_lines(n, down)`. */
  function SelectNLines(n: int, down: bool): seq<Event> {
    [Release(LShift)]
    + (if down then GoToLineStart() else Tap(End))
    + [Press(LShift)]
    + Repeat(Tap(if down then Down else Up), ExtraLines(n))
    + Tap(if down then End else Home)
    + [Release(LShift)]
  }

  /** `trigger_motion` on command `c`. */
  function TriggerMotion(c: Command): seq<Event> {
    var k := c.motion;
    if k == Set(VimW) then [Press(LCtrl)] + TapNTimes(Right, c.repeat) + [Release(LCtrl)]
    else if k == Set(VimB) then [Press(LCtrl)] + TapNTimes(Left, c.repeat) + [Release(LCtrl)]
    else if k == Set(VimH) then TapNTimes(Left, c.repeat)
    else if k == Set(VimJ) then TapNTimes(Down, c.repeat)
    else if k == Set(VimK) then TapNTimes(Up, c.repeat)
    else if k == Set(VimL) then TapNTimes(Right, c.repeat)
    else []
  }

  /** `should_delete` of `execute_current`. */
  predicate ShouldDelete(c: Command) {
    c.action == Set(VimC) || c.action == Set(VimD)
  }

  /** `should_copy` of `execute_current`. */
  predicate ShouldCopy(c: Command) {
    ShouldDelete(c) || c.action == Set(VimY)
  }

  /** Whether a line-wise selection is made: the motion is `j` or `k`. */
  predicate LineWise(c: Command) {
    c.motion == Set(VimJ) || c.motion == Set(VimK)
  }

  /** Lines 152-164 of `execute_current`: how the text to copy or cut is
      selected outside visual mode. */
  function Selection(c: Command): seq<Event> {
    if c.shifted && ShouldDelete(c) then [Press(LShift), Press(End), Release(LShift)]
    else if LineWise(c) then SelectNLines(c.repeat as int, c.motion == Set(VimJ))
    else [Press(LShift)] + TriggerMotion(c) + [Release(LShift)]
  }

  /** `paste_line_end_fix` after lines 152-164. */
  function FixAfterSelection(m: Machine): bool {
    var c := m.current;
    if c.shifted && ShouldDelete(c) then m.pasteLineEndFix else LineWise(c)
  }

  /** Lines 165-169: copy or cut, then drop the left-over newline of a cut
      line or move to the left of a copied selection. */
  function CopyTail(del: bool, fix: bool): seq<Event> {
    Tap(Ctrl(if del then X else C))
    + (if del && fix then Tap(Delete) else [])
    + (if !del then Tap(Left) else [])
  }

  /** Lines 171-174: copy or cut the visual selection. */
  function VisualCopy(del: bool): seq<Event> {
    [Release(LShift)] + Tap(Ctrl(if del then X else C)) + (if !del then Tap(Left) else [])
  }

  /** Lines 149-176 of `execute_current`: select, then copy or cut. */
  function CopySelection(m: Machine): Outcome {
    var c := m.current;
    if ShouldCopy(c) && !m.visualMode then
      var fix := FixAfterSelection(m);
      Outcome(m.(pasteLineEndFix := fix), Selection(c) + CopyTail(ShouldDelete(c), fix))
    else if ShouldCopy(c) then
      Outcome(m.(pasteLineEndFix := false), VisualCopy(ShouldDelete(c)))
    else
      Outcome(m, [])
  }

  /** The join branch of `execute_current` (`J` while shift-latched). */
  function JoinLines(c: Command): seq<Event> {
    Repeat(Tap(End) + Tap(Delete) + Tap(Space), Times(c.repeat))
  }

  /** One round of the paste loop: a new line first when pasting lines. */
  function PasteRound(fix: bool): seq<Event> {
    (if fix then Tap(Enter) else []) + Tap(Ctrl(V))
  }

  /** The paste branch of `execute_current`. */
  function Paste(m: Machine): seq<Event> {
    var fix := m.pasteLineEndFix;
    (if m.shifted then Tap(Left) else [])
    + (if fix then Tap(End) else [])
    + Repeat(PasteRound(fix), Times(m.current.repeat))
    + (if fix then Tap(Home) else [])
  }

  /** The undo branch of `execute_current`. */
  function Undo(c: Command): seq<Event> {
    TapNTimes(Ctrl(Z), c.repeat)
  }

  /** The key an indent step taps: space to indent, delete to unindent. */
  function IndentKey(c: Command): Key {
    if c.action == Set(VimDot) then Space else Delete
  }

  /** One round of the first indent loop: move a line, re-indent it. */
  function IndentStep(c: Command): seq<Event> {
    Tap(if c.motion == Set(VimJ) then Down else Up)
    + (if c.action == Set(VimDot) then Tap(Home) else [])
    + Repeat(Tap(IndentKey(c)), IndentSize)
  }

  /** One round of the second indent loop: move back a line, to its start. */
  function IndentReturn(c: Command): seq<Event> {
    Tap(if c.motion == Set(VimJ) then Up else Down) + Tap(Home)
  }

  /** The indent branch of `execute_current` (`VIM_DOT`/`VIM_COMM` actions). */
  function Indent(c: Command): seq<Event> {
    GoToLineStart() + Repeat(Tap(IndentKey(c)), IndentSize)
    + if c.repeat > 0 && (c.motion == Set(VimJ) || c.motion == Set(VimK)) then
        Repeat(IndentStep(c), c.repeat as nat) + Repeat(IndentReturn(c), c.repeat as nat)
      else []
  }

  /** The branches of `execute_current` after the copy step, for actions
      other than change. */
  function ActionEffect(m: Machine): seq<Event> {
    var a := m.current.action;
    if a == Set(VimJ) then JoinLines(m.current)
    else if a == Set(VimP) then Paste(m)
    else if a == Set(VimU) then Undo(m.current)
    else if a == Set(VimDot) || a == Set(VimComm) then Indent(m.current)
    else []
  }

  /** The events of the branches of `execute_current` after the copy step. */
  function ActionOutput(m: Machine): seq<Event> {
    if m.current.action == Set(VimC) then InsertModeOut() else ActionEffect(m)
  }

  /** `execute_current`: perform the command, archive it, reset it. */
  function ExecuteCurrent(m: Machine): Outcome {
    var copied := CopySelection(m);
    var acted := if m.current.action == Set(VimC) then InsertMode(copied.m).m else copied.m;
    Outcome(acted.(previous := acted.current, current := DefaultCommand),
            copied.out + ActionOutput(copied.m))
  }

  /** `VI_VISUAL`. */
  function ToggleVisual(m: Machine): Outcome {
    Outcome(m.(visualMode := !m.visualMode),
            [if !m.visualMode then Press(LShift) else Release(LShift)])
  }

  /** `maybe_action(k, shifted)`. */
  function MaybeAction(m: Machine, k: VimKey, shifted: bool): Outcome {
    if m.visualMode || shifted then
      ExecuteCurrent(m.(current := m.current.(action := Set(k), shifted := shifted, motion := Set(VimJ))))
    else if m.current.action == Set(k) then
      ExecuteCurrent(m.(current := m.current.(motion := Set(VimJ))))
    else
      Outcome(m.(current := m.current.(action := Set(k))), [])
  }

  /** `maybe_motion(k)`. */
  function MaybeMotion(m: Machine, k: VimKey): Outcome {
    var c := m.current.(motion := Set(k));
    if m.visualMode || m.current.action == Unset then
      Outcome(m.(current := c.(repeat := 0)), TriggerMotion(c))
    else
      ExecuteCurrent(m.(current := c))
  }

  /** `VIM_APPEND(shifted)`. */
  function Append(m: Machine, shifted: bool): Outcome {
    var o := InsertMode(m);
    Outcome(o.m, (if shifted then Tap(End) else Tap(Right)) + o.out)
  }

  /** `VIM_NEWLINE(shifted)`. */
  function NewLine(m: Machine, shifted: bool): Outcome {
    var o := InsertMode(m);
    Outcome(o.m, (if shifted then Tap(Home) + Tap(Enter) + Tap(Up) else Tap(End) + Tap(Enter)) + o.out)
  }

  /** `VIM_INSERT(shifted)`. */
  function Insert(m: Machine, shifted: bool): Outcome {
    var o := InsertMode(m);
    Outcome(o.m, (if shifted then Tap(Home) else []) + o.out)
  }

  /** `VIM_SUB`. */
  function Substitute(m: Machine): Outcome {
    var o := InsertMode(m);
    Outcome(o.m, TapNTimes(Delete, m.current.repeat) + o.out)
  }

  /** `repeat_last_action`. */
  function RepeatLastAction(m: Machine): Outcome {
    var k := m.current.repeat;
    var c := m.previous;
    ExecuteCurrent(m.(current := if k > 0 then c.(repeat := Mul16(c.repeat, k)) else c))
  }

  /** No change, no output, the event consumed. */
  function Consumed(m: Machine): Reaction {
    Reaction(m, [], false)
  }

  /** The outcome of a handled event, consumed. */
  function Handled(o: Outcome): Reaction {
    Reaction(o.m, o.out, false)
  }

  /** `process_record_user(keycode, record)`, following the `switch` and its
      fall-through from case to case. */
  function ProcessRecord(m: Machine, keycode: Keycode, pressed: bool): Reaction {
    match keycode
    case Basic(_) => Reaction(m, [], true)
    case Custom(k) =>
      if k == VimShift then
        Consumed(m.(shifted := pressed))
      else if IsDigit(k) then
        if pressed then Consumed(m.(current := m.current.(repeat := AddDigit(m.current.repeat, DigitValue(k)))))
        else Consumed(m)
      else if k == VimJ && pressed && m.shifted then
        Handled(ExecuteCurrent(m.(current := m.current.(action := Set(VimJ)))))
      else if IsMotion(k) then
        if pressed then Handled(MaybeMotion(m, k)) else Consumed(m)
      else if k == VimV then
        if pressed then Handled(ToggleVisual(m)) else Consumed(m)
      else if k == VimDot && pressed && !m.shifted then
        Handled(RepeatLastAction(m))
      else if (k == VimDot || k == VimComm) && pressed && m.shifted then
        Handled(MaybeAction(m, k, false))
      else if k == VimDot || k == VimComm || k == VimC || k == VimY || k == VimD then
        if pressed then Handled(MaybeAction(m, k, m.shifted)) else Consumed(m)
      else if k == VimU || k == VimP then
        if pressed then Handled(ExecuteCurrent(m.(current := m.current.(action := Set(k), shifted := m.shifted))))
        else Consumed(m)
      else if k == VimO then
        if pressed then Handled(NewLine(m, m.shifted)) else Consumed(m)
      else if k == VimI then
        if pressed then Handled(Insert(m, m.shifted)) else Consumed(m)
      else if k == VimA then
        if pressed then Handled(Append(m, m.shifted)) else Consumed(m)
      else if k == VimS then
        if pressed then Handled(Substitute(m)) else Consumed(m)
      else
        Reaction(m, [], true)
  }

  /** A stream of key events fed to the entry point one at a time; the
      events emitted are concatenated in order. */
  function Run(m: Machine, events: seq<(Keycode, bool)>): (r: Reaction)
    ensures events == [] ==> r.m == m && r.out == []
    decreases |events|
  {
    if events == [] then Reaction(m, [], false)
    else
      var first := ProcessRecord(m, events[0].0, events[0].1);
      var rest := Run(first.m, events[1..]);
      Reaction(rest.m, first.out + rest.out, rest.passThrough)
  }
}
