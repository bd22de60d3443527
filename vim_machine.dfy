/** The interpreter as the firmware runs it: the globals of `vim.h` are the
    fields of one `Vim` object, every host call is appended to `log`, and each
    C function is a method that updates the fields in the order the C code
    does. Every method is proved to leave the fields and the log as the
    functions of `VimSpec` say. */
module VimMachine {
  import opened VimTypes
  import Spec = VimSpec

  class Vim {
    var current: Command
    var previous: Command
    var visualMode: bool
    var pasteLineEndFix: bool
    var shifted: bool
    /** Every call made into the host so far, oldest first. */
    var log: seq<Event>

    /** The globals as one value. */
    function State(): Machine
      reads this
    {
      Machine(current, previous, visualMode, pasteLineEndFix, shifted)
    }

    /** The globals at start-up: all zero; nothing emitted yet. */
    constructor ()
      ensures State() == Initial && log == []
    {
      current, previous := DefaultCommand, DefaultCommand;
      visualMode, pasteLineEndFix, shifted := false, false, false;
      log := [];
    }

    /** `PRESS(k)`, that is `register_code16(k)`. */
    method PressKey(k: Key)
      modifies this`log
      ensures log == old(log) + [Press(k)]
    {
      log := log + [Press(k)];
    }

    /** `RELEASE(k)`, that is `unregister_code16(k)`. */
    method ReleaseKey(k: Key)
      modifies this`log
      ensures log == old(log) + [Release(k)]
    {
      log := log + [Release(k)];
    }

    /** `layer_move(layer)`. */
    method MoveLayer(layer: int)
      modifies this`log
      ensures log == old(log) + [LayerMove(layer)]
    {
      log := log + [LayerMove(layer)];
    }

    /** `TAP(k)`. */
    method TapKey(k: Key)
      modifies this`log
      ensures log == old(log) + Spec.Tap(k)
    {
      PressKey(k);
      ReleaseKey(k);
    }

    /** `TAP_N_TIMES(k)`: `WITH_REPEATER(TAP(k))`. */
    method TapNTimes(k: Key)
      modifies this`log
      ensures log == old(log) + Spec.TapNTimes(k, current.repeat)
    {
      var i: int := if 1 > current.repeat as int then 1 else current.repeat as int;
      ghost var n := i;
      while i > 0
        invariant 0 <= i <= n
        invariant log == old(log) + Spec.Repeat(Spec.Tap(k), n - i)
      {
        TapKey(k);
        Spec.AppendAssoc(old(log), Spec.Repeat(Spec.Tap(k), n - i), Spec.Tap(k));
        i := i - 1;
      }
    }

    /** `insert_mode`. */
    method InsertMode()
      modifies this
      ensures State() == Spec.InsertMode(old(State())).m
      ensures log == old(log) + Spec.InsertModeOut()
    {
      visualMode := false;
      shifted := false;
      current := DefaultCommand;
      ReleaseKey(LShift);
      ReleaseKey(LCtrl);
      MoveLayer(InsertModeLayer);
    }

    /** `go_to_line_start`. */
    method GoToLineStart()
      modifies this`log
      ensures log == old(log) + Spec.GoToLineStart()
    {
      TapKey(End);
      TapKey(Home);
      Spec.AppendAssoc(old(log), Spec.Tap(End), Spec.Tap(Home));
      TapKey(Home);
      Spec.AppendAssoc(old(log), Spec.Tap(End) + Spec.Tap(Home), Spec.Tap(Home));
    }

    /** The loop of `select_n_lines`: `n` counts down to 1, one tap of
        `k` per step. */
    method TapLines(n: int, k: Key)
      modifies this`log
      ensures log == old(log) + Spec.Repeat(Spec.Tap(k), Spec.ExtraLines(n))
    {
      var i := n;
      while i > 1
        invariant n > 1 ==> 1 <= i <= n
        invariant n <= 1 ==> i == n
        invariant log == old(log) + Spec.Repeat(Spec.Tap(k), Spec.ExtraLines(n) - Spec.ExtraLines(i))
      {
        TapKey(k);
        Spec.AppendAssoc(old(log), Spec.Repeat(Spec.Tap(k), Spec.ExtraLines(n) - Spec.ExtraLines(i)), Spec.Tap(k));
        i := i - 1;
      }
    }

    /** `select_n_lines(n, down)`. */
    method SelectNLines(n: int, down: bool)
      modifies this`log
      ensures log == old(log) + Spec.SelectNLines(n, down)
    {
      ghost var go := if down then Spec.GoToLineStart() else Spec.Tap(End);
      ghost var taps := Spec.Repeat(Spec.Tap(if down then Down else Up), Spec.ExtraLines(n));
      ghost var fin := Spec.Tap(if down then End else Home);
      ReleaseKey(LShift);
      if down { GoToLineStart(); } else { TapKey(End); }
      Spec.AppendAssoc(old(log), [Release(LShift)], go);
      PressKey(LShift);
      Spec.AppendAssoc(old(log), [Release(LShift)] + go, [Press(LShift)]);
      TapLines(n, if down then Down else Up);
      Spec.AppendAssoc(old(log), [Release(LShift)] + go + [Press(LShift)], taps);
      TapKey(if down then End else Home);
      Spec.AppendAssoc(old(log), [Release(LShift)] + go + [Press(LShift)] + taps, fin);
      ReleaseKey(LShift);
      Spec.AppendAssoc(old(log), [Release(LShift)] + go + [Press(LShift)] + taps + fin, [Release(LShift)]);
    }

    /** `trigger_motion`. */
    method TriggerMotion()
      modifies this`log
      ensures log == old(log) + Spec.TriggerMotion(current)
    {
      var motion := current.motion;
      if motion == Set(VimW) || motion == Set(VimB) {
        var arrow := if motion == Set(VimW) then Right else Left;
        PressKey(LCtrl);
        TapNTimes(arrow);
        Spec.AppendAssoc(old(log), [Press(LCtrl)], Spec.TapNTimes(arrow, current.repeat));
        ReleaseKey(LCtrl);
        Spec.AppendAssoc(old(log), [Press(LCtrl)] + Spec.TapNTimes(arrow, current.repeat), [Release(LCtrl)]);
      } else if motion == Set(VimH) {
        TapNTimes(Left);
      } else if motion == Set(VimJ) {
        TapNTimes(Down);
      } else if motion == Set(VimK) {
        TapNTimes(Up);
      } else if motion == Set(VimL) {
        TapNTimes(Right);
      }
    }

    /** The join branch of `execute_current`. */
    method JoinLines()
      modifies this`log
      ensures log == old(log) + Spec.JoinLines(current)
    {
      var i: int := if 1 > current.repeat as int then 1 else current.repeat as int;
      ghost var n := i;
      while i > 0
        invariant 0 <= i <= n
        invariant log == old(log) + Spec.Repeat(Spec.Tap(End) + Spec.Tap(Delete) + Spec.Tap(Space), n - i)
      {
        ghost var before := log;
        TapKey(End);
        TapKey(Delete);
        Spec.AppendAssoc(before, Spec.Tap(End), Spec.Tap(Delete));
        TapKey(Space);
        Spec.AppendAssoc(before, Spec.Tap(End) + Spec.Tap(Delete), Spec.Tap(Space));
        Spec.AppendAssoc(old(log), Spec.Repeat(Spec.Tap(End) + Spec.Tap(Delete) + Spec.Tap(Space), n - i),
                         Spec.Tap(End) + Spec.Tap(Delete) + Spec.Tap(Space));
        i := i - 1;
      }
    }

    /** The `WITH_REPEATER` loop of the paste branch. */
    method PasteRounds()
      modifies this`log
      ensures log == old(log) + Spec.Repeat(Spec.PasteRound(pasteLineEndFix), Spec.Times(current.repeat))
    {
      var i: int := if 1 > current.repeat as int then 1 else current.repeat as int;
      ghost var n := i;
      while i > 0
        invariant 0 <= i <= n
        invariant log == old(log) + Spec.Repeat(Spec.PasteRound(pasteLineEndFix), n - i)
      {
        ghost var before := log;
        if pasteLineEndFix {
          TapKey(Enter);
        }
        TapKey(Ctrl(V));
        assert log == before + Spec.PasteRound(pasteLineEndFix);
        Spec.AppendAssoc(old(log), Spec.Repeat(Spec.PasteRound(pasteLineEndFix), n - i), Spec.PasteRound(pasteLineEndFix));
        i := i - 1;
      }
    }

    /** The paste branch of `execute_current`. */
    method Paste()
      modifies this`log
      ensures log == old(log) + Spec.Paste(State())
    {
      ghost var left := if shifted then Spec.Tap(Left) else [];
      ghost var end := if pasteLineEndFix then Spec.Tap(End) else [];
      ghost var rounds := Spec.Repeat(Spec.PasteRound(pasteLineEndFix), Spec.Times(current.repeat));
      if shifted {
        TapKey(Left);
      }
      assert log == old(log) + left;
      if pasteLineEndFix {
        TapKey(End);
      }
      Spec.AppendAssoc(old(log), left, end);
      PasteRounds();
      Spec.AppendAssoc(old(log), left + end, rounds);
      ghost var pasted := log;
      if pasteLineEndFix {
        TapKey(Home);
      }
      assert log == pasted + (if pasteLineEndFix then Spec.Tap(Home) else []);
      Spec.AppendAssoc(old(log), left + end + rounds, if pasteLineEndFix then Spec.Tap(Home) else []);
    }

    /** `for (int i = 0; i < INDENT_SIZE; ++i) TAP(k);` */
    method TapIndent(k: Key)
      modifies this`log
      ensures log == old(log) + Spec.Repeat(Spec.Tap(k), IndentSize)
    {
      var i := 0;
      while i < IndentSize
        invariant 0 <= i <= IndentSize
        invariant log == old(log) + Spec.Repeat(Spec.Tap(k), i)
      {
        TapKey(k);
        Spec.AppendAssoc(old(log), Spec.Repeat(Spec.Tap(k), i), Spec.Tap(k));
        i := i + 1;
      }
    }

    /** The body of the first loop of the indent branch: move a line,
        go to its start when indenting, and tap `k` `INDENT_SIZE` times. */
    method IndentStep(k: Key)
      requires k == Spec.IndentKey(current)
      modifies this`log
      ensures log == old(log) + Spec.IndentStep(current)
    {
      ghost var move := Spec.Tap(if current.motion == Set(VimJ) then Down else Up);
      ghost var home := if current.action == Set(VimDot) then Spec.Tap(Home) else [];
      TapKey(if current.motion == Set(VimJ) then Down else Up);
      ghost var moved := log;
      if current.action == Set(VimDot) {
        TapKey(Home);
      }
      assert log == moved + home;
      Spec.AppendAssoc(old(log), move, home);
      TapIndent(k);
      Spec.AppendAssoc(old(log), move + home, Spec.Repeat(Spec.Tap(k), IndentSize));
    }

    /** The first loop over `repeat` lines of the indent branch. */
    method IndentLines(k: Key)
      requires k == Spec.IndentKey(current)
      modifies this`log
      ensures log == old(log) + Spec.Repeat(Spec.IndentStep(current), current.repeat as nat)
    {
      var i := 0;
      while i < current.repeat as int
        invariant 0 <= i <= current.repeat as int
        invariant log == old(log) + Spec.Repeat(Spec.IndentStep(current), i)
      {
        IndentStep(k);
        Spec.AppendAssoc(old(log), Spec.Repeat(Spec.IndentStep(current), i), Spec.IndentStep(current));
        i := i + 1;
      }
    }

    /** The second loop over `repeat` lines of the indent branch. */
    method IndentGoBack()
      modifies this`log
      ensures log == old(log) + Spec.Repeat(Spec.IndentReturn(current), current.repeat as nat)
    {
      var i := 0;
      while i < current.repeat as int
        invariant 0 <= i <= current.repeat as int
        invariant log == old(log) + Spec.Repeat(Spec.IndentReturn(current), i)
      {
        ghost var before := log;
        TapKey(if current.motion == Set(VimJ) then Up else Down);
        TapKey(Home);
        Spec.AppendAssoc(before, Spec.Tap(if current.motion == Set(VimJ) then Up else Down), Spec.Tap(Home));
        Spec.AppendAssoc(old(log), Spec.Repeat(Spec.IndentReturn(current), i), Spec.IndentReturn(current));
        i := i + 1;
      }
    }

    /** The indent branch of `execute_current`. */
    method Indent()
      modifies this`log
      ensures log == old(log) + Spec.Indent(current)
    {
      var k := if current.action == Set(VimDot) then Space else Delete;
      ghost var keys := Spec.Repeat(Spec.Tap(k), IndentSize);
      GoToLineStart();
      TapIndent(k);
      Spec.AppendAssoc(old(log), Spec.GoToLineStart(), keys);
      ghost var indented := log;
      if current.repeat > 0 && (current.motion == Set(VimJ) || current.motion == Set(VimK)) {
        ghost var steps := Spec.Repeat(Spec.IndentStep(current), current.repeat as nat);
        IndentLines(k);
        IndentGoBack();
        Spec.AppendAssoc(indented, steps, Spec.Repeat(Spec.IndentReturn(current), current.repeat as nat));
      }
      Spec.AppendAssoc(old(log), Spec.GoToLineStart() + keys, log[|indented|..]);
      assert log == indented + log[|indented|..];
    }

    /** Lines 152-164 of `execute_current`: select the text to copy or cut. */
    method SelectForCopy()
      modifies this
      ensures State() == old(State()).(pasteLineEndFix := Spec.FixAfterSelection(old(State())))
      ensures log == old(log) + Spec.Selection(current)
    {
      var shouldDelete := current.action == Set(VimC) || current.action == Set(VimD);
      if current.shifted && shouldDelete {
        PressKey(LShift);
        PressKey(End);
        ReleaseKey(LShift);
      } else if current.motion == Set(VimJ) || current.motion == Set(VimK) {
        SelectNLines(current.repeat as int, current.motion == Set(VimJ));
        pasteLineEndFix := true;
      } else {
        PressKey(LShift);
        TriggerMotion();
        ReleaseKey(LShift);
        pasteLineEndFix := false;
      }
    }

    /** Lines 151-169 of `execute_current`: outside visual mode, select
        by the motion, then copy or cut. */
    method CopyByMotion()
      requires Spec.ShouldCopy(current)
      modifies this
      ensures State() == old(State()).(pasteLineEndFix := Spec.FixAfterSelection(old(State())))
      ensures log == old(log) + Spec.Selection(current)
                     + Spec.CopyTail(Spec.ShouldDelete(current), Spec.FixAfterSelection(old(State())))
    {
      var shouldDelete := current.action == Set(VimC) || current.action == Set(VimD);
      SelectForCopy();
      ghost var selected := log;
      TapKey(Ctrl(if shouldDelete then X else C));
      if shouldDelete && pasteLineEndFix {
        TapKey(Delete);
      }
      if !shouldDelete {
        TapKey(Left);
      }
      assert log == selected + Spec.CopyTail(shouldDelete, pasteLineEndFix);
    }

    /** Lines 170-176 of `execute_current`: copy or cut the visual
        selection. */
    method CopyVisual()
      requires Spec.ShouldCopy(current)
      modifies this
      ensures State() == old(State()).(pasteLineEndFix := false)
      ensures log == old(log) + Spec.VisualCopy(Spec.ShouldDelete(current))
    {
      var shouldDelete := current.action == Set(VimC) || current.action == Set(VimD);
      ReleaseKey(LShift);
      TapKey(Ctrl(if shouldDelete then X else C));
      if !shouldDelete {
        TapKey(Left);
      }
      pasteLineEndFix := false;
    }

    /** Lines 149-176 of `execute_current`: select by the motion (or take
        the visual selection), then copy or cut it. */
    method CopySelection()
      modifies this
      ensures State() == Spec.CopySelection(old(State())).m
      ensures log == old(log) + Spec.CopySelection(old(State())).out
    {
      var shouldDelete := current.action == Set(VimC) || current.action == Set(VimD);
      var shouldCopy := shouldDelete || current.action == Set(VimY);
      if shouldCopy && !visualMode {
        ghost var c := current;
        CopyByMotion();
        Spec.AppendAssoc(old(log), Spec.Selection(c),
                         Spec.CopyTail(Spec.ShouldDelete(c), Spec.FixAfterSelection(old(State()))));
      } else if shouldCopy && visualMode {
        CopyVisual();
      }
    }

    /** Lines 180-212 of `execute_current`: the join, paste, undo and
        indent branches, at most one of which applies. */
    method PerformEffect()
      modifies this`log
      ensures log == old(log) + Spec.ActionEffect(State())
    {
      var action := current.action;
      if action == Set(VimJ) {
        JoinLines();
      }
      if action == Set(VimP) {
        Paste();
      }
      if action == Set(VimU) {
        TapNTimes(Ctrl(Z));
      }
      if action == Set(VimDot) || action == Set(VimComm) {
        Indent();
      }
    }

    /** Lines 177-212 of `execute_current`: the effect of the action
        itself once any copy or cut is done. A change enters insert mode,
        which resets the command, so no later branch applies to it. */
    method PerformAction()
      modifies this
      ensures State() == if old(current.action) == Set(VimC) then Spec.InsertMode(old(State())).m else old(State())
      ensures log == old(log) + Spec.ActionOutput(old(State()))
    {
      if current.action == Set(VimC) {
        InsertMode();
        assert Spec.ActionEffect(State()) == [];
      }
      ghost var acted := log;
      PerformEffect();
      assert log == acted + Spec.ActionEffect(State());
    }

    /** `execute_current`. */
    method ExecuteCurrent()
      modifies this
      ensures State() == Spec.ExecuteCurrent(old(State())).m
      ensures log == old(log) + Spec.ExecuteCurrent(old(State())).out
    {
      ghost var m0 := State();
      CopySelection();
      ghost var m1 := State();
      PerformAction();
      Spec.AppendAssoc(old(log), Spec.CopySelection(m0).out, Spec.ActionOutput(m1));
      previous := current;
      current := DefaultCommand;
    }

    /** `VI_VISUAL`. */
    method ToggleVisual()
      modifies this
      ensures State() == Spec.ToggleVisual(old(State())).m
      ensures log == old(log) + Spec.ToggleVisual(old(State())).out
    {
      if !visualMode {
        PressKey(LShift);
      } else {
        ReleaseKey(LShift);
      }
      visualMode := !visualMode;
    }

    /** `maybe_action(k, shifted)`; the parameter `sh` is the C parameter
        `shifted`, which hides the global of that name. */
    method MaybeAction(k: VimKey, sh: bool)
      modifies this
      ensures State() == Spec.MaybeAction(old(State()), k, sh).m
      ensures log == old(log) + Spec.MaybeAction(old(State()), k, sh).out
    {
      if visualMode || sh {
        current := current.(action := Set(k), shifted := sh, motion := Set(VimJ));
        ExecuteCurrent();
        return;
      }
      if current.action == Set(k) {
        current := current.(motion := Set(VimJ));
        ExecuteCurrent();
      } else {
        current := current.(action := Set(k));
      }
    }

    /** `maybe_motion(k)`. */
    method MaybeMotion(k: VimKey)
      modifies this
      ensures State() == Spec.MaybeMotion(old(State()), k).m
      ensures log == old(log) + Spec.MaybeMotion(old(State()), k).out
    {
      if visualMode || current.action == Unset {
        current := current.(motion := Set(k));
        TriggerMotion();
        current := current.(repeat := 0);
      } else {
        current := current.(motion := Set(k));
        ExecuteCurrent();
      }
    }

    /** `VIM_APPEND(sh)`. */
    method Append(sh: bool)
      modifies this
      ensures State() == Spec.Append(old(State()), sh).m
      ensures log == old(log) + Spec.Append(old(State()), sh).out
    {
      if sh {
        TapKey(End);
      } else {
        TapKey(Right);
      }
      InsertMode();
    }

    /** `VIM_NEWLINE(sh)`. */
    method NewLine(sh: bool)
      modifies this
      ensures State() == Spec.NewLine(old(State()), sh).m
      ensures log == old(log) + Spec.NewLine(old(State()), sh).out
    {
      if sh {
        TapKey(Home);
        TapKey(Enter);
        TapKey(Up);
      } else {
        TapKey(End);
        TapKey(Enter);
      }
      InsertMode();
    }

    /** `VIM_INSERT(sh)`. */
    method Insert(sh: bool)
      modifies this
      ensures State() == Spec.Insert(old(State()), sh).m
      ensures log == old(log) + Spec.Insert(old(State()), sh).out
    {
      if sh {
        TapKey(Home);
      }
      InsertMode();
    }

    /** `VIM_SUB`. */
    method Substitute()
      modifies this
      ensures State() == Spec.Substitute(old(State())).m
      ensures log == old(log) + Spec.Substitute(old(State())).out
    {
      TapNTimes(Delete);
      InsertMode();
    }

    /** `repeat_last_action`. */
    method RepeatLastAction()
      modifies this
      ensures State() == Spec.RepeatLastAction(old(State())).m
      ensures log == old(log) + Spec.RepeatLastAction(old(State())).out
    {
      var repeat := current.repeat;
      current := previous;
      if repeat > 0 {
        current := current.(repeat := ((current.repeat as int * repeat as int) % 0x1_0000) as u16);
      }
      ExecuteCurrent();
    }

    /** `current.repeat = current.repeat * 10 + keycode - VIM_0`. */
    method TypeDigit(k: VimKey)
      requires IsDigit(k)
      modifies this
      ensures State() == old(State()).(current := old(current).(repeat := Spec.AddDigit(old(current.repeat), DigitValue(k))))
      ensures log == old(log)
    {
      current := current.(repeat := ((current.repeat as int * 10 + DigitValue(k)) % 0x1_0000) as u16);
    }

    /** `process_record_user(keycode, record)`, with `pressed` for
        `record->event.pressed`; each `if` below is one `case` group of the
        `switch`, and a group that does not return falls through to the next. */
    method ProcessRecordUser(keycode: Keycode, pressed: bool) returns (passThrough: bool)
      modifies this
      ensures State() == Spec.ProcessRecord(old(State()), keycode, pressed).m
      ensures log == old(log) + Spec.ProcessRecord(old(State()), keycode, pressed).out
      ensures passThrough == Spec.ProcessRecord(old(State()), keycode, pressed).passThrough
    {
      if keycode.Basic? {
        return true;
      }
      var k := keycode.key;
      if k == VimShift {
        shifted := pressed;
        return false;
      }
      if IsDigit(k) {
        if pressed {
          TypeDigit(k);
        }
        return false;
      }
      if k == VimJ && pressed && shifted {
        current := current.(action := Set(VimJ));
        ExecuteCurrent();
        return false;
      }
      if IsMotion(k) {
        if pressed {
          MaybeMotion(k);
        }
        return false;
      }
      if k == VimV {
        if pressed {
          ToggleVisual();
        }
        return false;
      }
      passThrough := ProcessCommandKey(k, pressed);
    }

    /** The `case` groups of `process_record_user` after `VI_VISUAL`:
        replay, the operators, undo and paste, and the keys that jump to
        insert mode. Any other key passes through. */
    method ProcessCommandKey(k: VimKey, pressed: bool) returns (passThrough: bool)
      requires k != VimShift && !IsDigit(k) && !IsMotion(k) && k != VimV
      modifies this
      ensures State() == Spec.ProcessRecord(old(State()), Custom(k), pressed).m
      ensures log == old(log) + Spec.ProcessRecord(old(State()), Custom(k), pressed).out
      ensures passThrough == Spec.ProcessRecord(old(State()), Custom(k), pressed).passThrough
    {
      if k == VimDot && pressed && !shifted {
        RepeatLastAction();
        return false;
      }
      if (k == VimDot || k == VimComm) && pressed && shifted {
        MaybeAction(k, false);
        return false;
      }
      if k == VimDot || k == VimComm || k == VimC || k == VimY || k == VimD {
        if pressed {
          MaybeAction(k, shifted);
        }
        return false;
      }
      if k == VimU || k == VimP {
        if pressed {
          current := current.(action := Set(k), shifted := shifted);
          ExecuteCurrent();
        }
        return false;
      }
      if k == VimO {
        if pressed {
          NewLine(shifted);
        }
        return false;
      }
      if k == VimI {
        if pressed {
          Insert(shifted);
        }
        return false;
      }
      if k == VimA {
        if pressed {
          Append(shifted);
        }
        return false;
      }
      if k == VimS {
        if pressed {
          Substitute();
        }
        return false;
      }
      return true;
    }
  }
}
