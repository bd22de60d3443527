/** What the interpreter promises, proved of the functions in `VimSpec`
    (and so, through the contracts of `VimMachine.Vim`, of the firmware's
    methods): how counts, actions and motions compose, what each mode
    change emits, and which events reach the host unchanged. */
module VimProperties {
  import opened VimTypes
  import opened VimSpec

  /** `s` is exactly `n` adjacent press/release pairs of `k`. */
  predicate IsTaps(s: seq<Event>, k: Key, n: nat) {
    |s| == 2 * n && forall i :: 0 <= i < |s| ==> s[i] == (if i % 2 == 0 then Press(k) else Release(k))
  }

  /** How often `e` occurs in `s`. */
  function Count(s: seq<Event>, e: Event): nat {
    if s == [] then 0 else (if s[0] == e then 1 else 0) + Count(s[1..], e)
  }

  /** `MAX(1, repeat)`, written out independently of `Times`. */
  function AtLeastOnce(repeat: u16): nat {
    if repeat == 0 then 1 else repeat as nat
  }

  /** The arrow each motion key moves by: h, b left; l, w right; j down; k up. */
  function Arrow(k: VimKey): Key
    requires IsMotion(k)
  {
    if k == VimH || k == VimB then Left
    else if k == VimJ then Down
    else if k == VimK then Up
    else Right
  }

  /** Every key of `ds` is a digit key. */
  predicate Digits(ds: seq<VimKey>) {
    ds == [] || (IsDigit(ds[0]) && Digits(ds[1..]))
  }

  /** Presses of the digit keys `ds`, each followed by its release. */
  function TypeDigits(ds: seq<VimKey>): seq<(Keycode, bool)> {
    if ds == [] then [] else [(Custom(ds[0]), true), (Custom(ds[0]), false)] + TypeDigits(ds[1..])
  }

  /** Ten to the power `n`. */
  function Pow10(n: nat): (p: nat)
    ensures p >= 1
  {
    if n == 0 then 1 else 10 * Pow10(n - 1)
  }

  /** The number the digit keys `ds` spell in decimal, most significant first. */
  function Decimal(ds: seq<VimKey>): nat
    requires Digits(ds)
  {
    if ds == [] then 0
    else
      var d: nat := DigitValue(ds[0]);
      var p: nat := Pow10(|ds| - 1);
      d * p + Decimal(ds[1..])
  }

  // ---------------------------------------------------------------------
  // Repetition

  /** `WITH_REPEATER(TAP(k))` over `n` rounds emits exactly `n` adjacent
      press/release pairs of `k`. */
  lemma {:induction false} RepeatTapIsTaps(k: Key, n: nat)
    ensures IsTaps(Repeat(Tap(k), n), k, n)
  {
    if n > 0 {
      RepeatTapIsTaps(k, n - 1);
      var p := Repeat(Tap(k), n - 1);
      var s := Repeat(Tap(k), n);
      assert s == p + [Press(k), Release(k)];
      forall i | 0 <= i < |s|
        ensures s[i] == (if i % 2 == 0 then Press(k) else Release(k))
      {
        if i < |p| {
          assert s[i] == p[i];
        } else if i == |p| {
          assert i == 2 * (n - 1);
        } else {
          assert i == 2 * (n - 1) + 1;
        }
      }
    }
  }

  /** Counting distributes over concatenation. */
  lemma {:induction false} CountAppend(a: seq<Event>, b: seq<Event>, e: Event)
    ensures Count(a + b, e) == Count(a, e) + Count(b, e)
  {
    if a == [] {
      assert a + b == b;
    } else {
      assert (a + b)[0] == a[0];
      assert (a + b)[1..] == a[1..] + b;
      CountAppend(a[1..], b, e);
    }
  }

  lemma MulStep(n: nat, x: nat)
    requires n > 0
    ensures (n - 1) * x + x == n * x
  {
  }

  /** `n` rounds of `block` hold `n` times as many of each event as one. */
  lemma {:induction false} RepeatCount(block: seq<Event>, n: nat, e: Event)
    ensures Count(Repeat(block, n), e) == n * Count(block, e)
  {
    if n > 0 {
      RepeatCount(block, n - 1, e);
      CountAppend(Repeat(block, n - 1), block, e);
      MulStep(n, Count(block, e));
    }
  }

  // ---------------------------------------------------------------------
  // Motions and counts

  /** A motion key runs `maybe_motion`, except `j` while shift-latched. */
  lemma MotionKeyDispatch(m: Machine, k: VimKey)
    requires IsMotion(k)
    requires k == VimJ ==> !m.shifted
    ensures ProcessRecord(m, Custom(k), true) == Handled(MaybeMotion(m, k))
  {
  }

  /** `trigger_motion` taps the motion's arrow `MAX(1, repeat)` times, and
      holds Control around the taps for the word motions `w` and `b`. */
  lemma TriggerMotionTaps(c: Command, k: VimKey)
    requires IsMotion(k) && c.motion == Set(k)
    ensures var out := TriggerMotion(c);
      if k == VimW || k == VimB then
        && |out| >= 2
        && out[0] == Press(LCtrl) && out[|out| - 1] == Release(LCtrl)
        && IsTaps(out[1..|out| - 1], Arrow(k), AtLeastOnce(c.repeat))
      else
        IsTaps(out, Arrow(k), AtLeastOnce(c.repeat))
  {
    RepeatTapIsTaps(Arrow(k), AtLeastOnce(c.repeat));
    var out := TriggerMotion(c);
    if k == VimW || k == VimB {
      var taps := TapNTimes(Arrow(k), c.repeat);
      assert out == [Press(LCtrl)] + taps + [Release(LCtrl)];
      assert out[1..|out| - 1] == taps;
    }
  }

  /** A motion with no pending action (or any motion in visual mode) moves
      the cursor at once: exactly `MAX(1, repeat)` taps of its arrow, held
      Control around them for `w` and `b`; the count is then cleared and the
      pending action left as it was. */
  lemma BareMotion(m: Machine, k: VimKey)
    requires IsMotion(k)
    requires m.visualMode || m.current.action == Unset
    requires k == VimJ ==> !m.shifted
    ensures var r := ProcessRecord(m, Custom(k), true);
      && !r.passThrough
      && r.m == m.(current := m.current.(motion := Set(k), repeat := 0))
      && r.m.current.action == m.current.action
      && if k == VimW || k == VimB then
           && |r.out| >= 2
           && r.out[0] == Press(LCtrl) && r.out[|r.out| - 1] == Release(LCtrl)
           && IsTaps(r.out[1..|r.out| - 1], Arrow(k), AtLeastOnce(m.current.repeat))
         else
           IsTaps(r.out, Arrow(k), AtLeastOnce(m.current.repeat))
  {
    MotionKeyDispatch(m, k);
    TriggerMotionTaps(m.current.(motion := Set(k)), k);
  }

  /** A motion key with an action pending (outside visual mode) commits the
      command: the motion is recorded, the whole command runs, and a fresh
      command starts; the command archived for `.` is the committed one, or
      the default command for a change. */
  lemma ActionMotionCommit(m: Machine, k: VimKey)
    requires IsMotion(k)
    requires k == VimJ ==> !m.shifted
    requires !m.visualMode && m.current.action != Unset
    ensures var r := ProcessRecord(m, Custom(k), true);
      var c := m.current.(motion := Set(k));
      && r == Handled(ExecuteCurrent(m.(current := c)))
      && r.m.current == DefaultCommand
      && r.m.previous == (if m.current.action == Set(VimC) then DefaultCommand else c)
  {
    MotionKeyDispatch(m, k);
    ExecuteArchivesAndResets(m.(current := m.current.(motion := Set(k))));
  }

  /** A digit press appends the digit to the count, in `uint16_t`, and
      emits nothing; the event is consumed. */
  lemma DigitPress(m: Machine, k: VimKey)
    requires IsDigit(k)
    ensures var r := ProcessRecord(m, Custom(k), true);
      && r == Reaction(r.m, [], false)
      && r.m == m.(current := r.m.current)
      && r.m.current == m.current.(repeat := r.m.current.repeat)
      && r.m.current.repeat as int == (m.current.repeat as int * 10 + DigitValue(k)) % 0x1_0000
  {
  }

  /** Pressing and releasing one digit key, then going on. */
  lemma RunDigit(m: Machine, k: VimKey, rest: seq<(Keycode, bool)>)
    requires IsDigit(k)
    ensures Run(m, [(Custom(k), true), (Custom(k), false)] + rest)
         == Run(m.(current := m.current.(repeat := AddDigit(m.current.repeat, DigitValue(k)))), rest)
  {
    var evs := [(Custom(k), true), (Custom(k), false)] + rest;
    var m1 := m.(current := m.current.(repeat := AddDigit(m.current.repeat, DigitValue(k))));
    DigitPress(m, k);
    ReleaseIgnored(m1, k);
    assert evs[0] == (Custom(k), true);
    assert evs[1..][0] == (Custom(k), false);
    assert evs[1..][1..] == rest;
  }

  /** The count after the digits `ds` are pressed one by one from `r`. */
  function Accumulate(r: u16, ds: seq<VimKey>): u16
    requires Digits(ds)
    decreases |ds|
  {
    if ds == [] then r else Accumulate(AddDigit(r, DigitValue(ds[0])), ds[1..])
  }

  /** Typing digits one by one only accumulates the count. */
  lemma {:induction false} TypeDigitsRun(m: Machine, ds: seq<VimKey>)
    requires Digits(ds)
    ensures Run(m, TypeDigits(ds)) == Reaction(m.(current := m.current.(repeat := Accumulate(m.current.repeat, ds))), [], false)
    decreases |ds|
  {
    if ds != [] {
      var m1 := m.(current := m.current.(repeat := AddDigit(m.current.repeat, DigitValue(ds[0]))));
      var rest := TypeDigits(ds[1..]);
      assert TypeDigits(ds) == [(Custom(ds[0]), true), (Custom(ds[0]), false)] + rest;
      RunDigit(m, ds[0], rest);
      TypeDigitsRun(m1, ds[1..]);
    }
  }

  /** The count the digits `ds` give from `a` without wrap-around. */
  function Unbounded(a: int, ds: seq<VimKey>): int
    requires Digits(ds)
    decreases |ds|
  {
    if ds == [] then a else Unbounded(a * 10 + DigitValue(ds[0]), ds[1..])
  }

  /** One digit more keeps a count congruent modulo 2^16 to its
      unbounded counterpart. */
  lemma WrapStep(r: int, a: int, d: int)
    requires 0 <= r < 0x1_0000 && a % 0x1_0000 == r
    ensures (a * 10 + d) % 0x1_0000 == (r * 10 + d) % 0x1_0000
  {
    var q := a / 0x1_0000;
    assert a == q * 0x1_0000 + r;
    assert a * 10 + d == (r * 10 + d) + (q * 10) * 0x1_0000;
  }

  /** The 16-bit count is the unbounded count modulo 2^16. */
  lemma {:induction false} AccumulateWraps(r: u16, a: int, ds: seq<VimKey>)
    requires Digits(ds)
    requires a % 0x1_0000 == r as int
    ensures Accumulate(r, ds) as int == Unbounded(a, ds) % 0x1_0000
    decreases |ds|
  {
    if ds != [] {
      var d := DigitValue(ds[0]);
      WrapStep(r as int, a, d);
      AccumulateWraps(AddDigit(r, d), a * 10 + d, ds[1..]);
    }
  }

  /** Without wrap-around, the digits `ds` shift `a` left by `|ds|` decimal
      places and add the number they spell. */
  lemma {:induction false} UnboundedValue(a: int, ds: seq<VimKey>)
    requires Digits(ds)
    ensures Unbounded(a, ds) == a * Pow10(|ds|) + Decimal(ds)
    decreases |ds|
  {
    if ds != [] {
      var d := DigitValue(ds[0]);
      var rest := ds[1..];
      UnboundedValue(a * 10 + d, rest);
      assert |rest| == |ds| - 1;
      assert Unbounded(a, ds) == Unbounded(a * 10 + d, rest);
      ShiftStep(a, d, Pow10(|rest|), Pow10(|ds|), Decimal(rest), Decimal(ds), Unbounded(a, ds));
    }
  }

  /** The arithmetic of one more leading digit `d` in front of digits
      worth `tail` over `p` places. */
  lemma ShiftStep(a: int, d: int, p: int, pw: int, tail: int, dec: int, u: int)
    requires u == (a * 10 + d) * p + tail
    requires pw == 10 * p && dec == d * p + tail
    ensures u == a * pw + dec
  {
    calc {
      (a * 10 + d) * p;
      a * 10 * p + d * p;
      a * (10 * p) + d * p;
    }
  }

  /** The accumulated count is the old count shifted left by `|ds|` decimal
      places plus the number `ds` spells, modulo 2^16. */
  lemma AccumulateValue(r: u16, ds: seq<VimKey>)
    requires Digits(ds)
    ensures Accumulate(r, ds) as int == (r as int * Pow10(|ds|) + Decimal(ds)) % 0x1_0000
  {
    AccumulateWraps(r, r as int, ds);
    UnboundedValue(r as int, ds);
  }

  /** Typing a number digit by digit (each key pressed and released) sets
      the count to the old count shifted left by that many decimal places
      plus the number typed, modulo 2^16, and emits nothing. */
  lemma {:induction false} TypedCount(m: Machine, ds: seq<VimKey>)
    requires Digits(ds)
    ensures var r := Run(m, TypeDigits(ds));
      && r.out == [] && !r.passThrough
      && r.m == m.(current := m.current.(repeat := r.m.current.repeat))
      && r.m.current.repeat as int == (m.current.repeat as int * Pow10(|ds|) + Decimal(ds)) % 0x1_0000
  {
    var a := Accumulate(m.current.repeat, ds);
    TypeDigitsRun(m, ds);
    AccumulateValue(m.current.repeat, ds);
    assert Run(m, TypeDigits(ds)) == Reaction(m.(current := m.current.(repeat := a)), [], false);
  }

  // ---------------------------------------------------------------------
  // Actions

  /** The operator keys run `maybe_action`; the comma key always passes
      `false` for its shift argument, whatever the latch. */
  lemma OperatorKeyDispatch(m: Machine, k: VimKey)
    requires k in {VimC, VimY, VimD, VimComm}
    ensures ProcessRecord(m, Custom(k), true)
         == Handled(MaybeAction(m, k, if k == VimComm then false else m.shifted))
  {
  }

  /** The dot key replays the last command, or is the indent operator
      while shift-latched. */
  lemma DotKeyDispatch(m: Machine)
    ensures ProcessRecord(m, Custom(VimDot), true)
         == if m.shifted then Handled(MaybeAction(m, VimDot, false)) else Handled(RepeatLastAction(m))
  {
  }

  /** Outside visual mode and without the shift latch, the first press of
      an operator key only records it: nothing is emitted. */
  lemma OperatorWaitsForMotion(m: Machine, k: VimKey)
    requires k in {VimC, VimY, VimD, VimComm}
    requires !m.visualMode && !m.shifted
    requires m.current.action != Set(k)
    ensures ProcessRecord(m, Custom(k), true) == Reaction(m.(current := m.current.(action := Set(k))), [], false)
  {
    OperatorKeyDispatch(m, k);
  }

  /** A doubled operator ("dd", "yy", "cc", ",,"): after the first press
      records the action, the second press does exactly what `j` would. */
  lemma DoubledOperatorIsLineMotion(m: Machine, k: VimKey)
    requires k in {VimC, VimY, VimD, VimComm}
    requires !m.visualMode && !m.shifted
    requires m.current.action != Set(k)
    ensures var m1 := ProcessRecord(m, Custom(k), true).m;
      && m1 == m.(current := m.current.(action := Set(k)))
      && ProcessRecord(m1, Custom(k), true) == ProcessRecord(m1, Custom(VimJ), true)
  {
    OperatorWaitsForMotion(m, k);
    var m1 := m.(current := m.current.(action := Set(k)));
    OperatorKeyDispatch(m1, k);
    MotionKeyDispatch(m1, VimJ);
  }

  /** In visual mode, or with the shift latch held, change, yank and delete
      commit at once on the current line: the whole command runs with motion
      `j` and the shift flag it was typed with, and a fresh command starts.
      Yank and delete are archived as run; a change archives the default
      command. The comma passes `false` for its shift flag, so it commits at
      once only in visual mode. */
  lemma ImmediateOperator(m: Machine, k: VimKey)
    requires k in {VimC, VimY, VimD, VimComm}
    requires m.visualMode || (m.shifted && k != VimComm)
    ensures var r := ProcessRecord(m, Custom(k), true);
      var s := if k == VimComm then false else m.shifted;
      var c := m.current.(action := Set(k), shifted := s, motion := Set(VimJ));
      && r == Handled(ExecuteCurrent(m.(current := c)))
      && r.m.current == DefaultCommand
      && r.m.previous == (if k == VimC then DefaultCommand else Command(Set(k), s, m.current.repeat, Set(VimJ)))
  {
    var s := if k == VimComm then false else m.shifted;
    OperatorKeyDispatch(m, k);
    ExecuteArchivesAndResets(m.(current := m.current.(action := Set(k), shifted := s, motion := Set(VimJ))));
  }

  /** `select_n_lines(n, down)`: release Shift, go to one end of the
      line, press Shift, tap the vertical arrow `MAX(n, 1) - 1` times, go to
      the other end of the line, release Shift. */
  lemma {:induction false} SelectNLinesShape(n: int, down: bool)
    ensures var out := SelectNLines(n, down);
      var lines := if n > 1 then n - 1 else 0;
      var start := if down then 8 else 4;
      && |out| == start + 2 * lines + 3
      && out[0] == Release(LShift)
      && out[1..start - 1] == (if down then GoToLineStart() else Tap(End))
      && out[start - 1] == Press(LShift)
      && IsTaps(out[start..start + 2 * lines], if down then Down else Up, lines)
      && out[start + 2 * lines..] == Tap(if down then End else Home) + [Release(LShift)]
  {
    var lines := ExtraLines(n);
    var start := if down then 8 else 4;
    RepeatTapIsTaps(if down then Down else Up, lines);
    var go := if down then GoToLineStart() else Tap(End);
    var head := [Release(LShift)] + go + [Press(LShift)];
    var taps := Repeat(Tap(if down then Down else Up), lines);
    var tail := Tap(if down then End else Home) + [Release(LShift)];
    var out := SelectNLines(n, down);
    assert out == head + taps + tail;
    assert |head| == start;
    assert head[1..start - 1] == go;
    assert out[..start] == head;
    assert out[start..start + 2 * lines] == taps;
    assert out[start + 2 * lines..] == tail;
  }

  /** A line-wise yank, delete or change outside visual mode selects the
      lines, copies or cuts them with the newline fix set, and a change
      then enters insert mode. */
  lemma {:induction false} ExecuteLineWise(m: Machine)
    requires m.current.action in {Set(VimY), Set(VimD), Set(VimC)}
    requires LineWise(m.current)
    requires !m.visualMode
    requires !(m.current.shifted && ShouldDelete(m.current))
    ensures var r := ExecuteCurrent(m);
      var c := m.current;
      && r.m.pasteLineEndFix
      && r.out == SelectNLines(c.repeat as int, c.motion == Set(VimJ))
                  + (CopyTail(ShouldDelete(c), true)
                     + (if c.action == Set(VimC) then InsertModeOut() else []))
  {
    var c := m.current;
    var o := CopySelection(m);
    assert o.out == SelectNLines(c.repeat as int, c.motion == Set(VimJ)) + CopyTail(ShouldDelete(c), true);
    assert o.m.current == c;
    assert ActionOutput(o.m) == if c.action == Set(VimC) then InsertModeOut() else [];
    AppendAssoc(SelectNLines(c.repeat as int, c.motion == Set(VimJ)), CopyTail(ShouldDelete(c), true), ActionOutput(o.m));
  }

  /** The shape of a line selection, as `SelectNLinesShape` states it:
      `head` (Shift released, the line end reached, Shift pressed), `lines`
      taps of `arrow`, then `rest`. */
  predicate LineSelection(out: seq<Event>, go: seq<Event>, arrow: Key, lines: nat, rest: seq<Event>) {
    var start := |go| + 2;
    && |out| == start + 2 * lines + |rest|
    && out[0] == Release(LShift)
    && out[1..start - 1] == go
    && out[start - 1] == Press(LShift)
    && IsTaps(out[start..start + 2 * lines], arrow, lines)
    && out[start + 2 * lines..] == rest
  }

  /** Whatever follows a line selection is part of its tail. */
  lemma LineSelectionExtends(out: seq<Event>, go: seq<Event>, arrow: Key, lines: nat, rest: seq<Event>, more: seq<Event>)
    requires LineSelection(out, go, arrow, lines, rest)
    ensures LineSelection(out + more, go, arrow, lines, rest + more)
  {
    var start := |go| + 2;
    var s := out + more;
    assert s[1..start - 1] == out[1..start - 1];
    assert s[start..start + 2 * lines] == out[start..start + 2 * lines];
    assert s[start + 2 * lines..] == out[start + 2 * lines..] + more;
  }

  /** After a line selection, `copy_selection` copies (then moves left)
      or cuts (then deletes the left-over newline). */
  lemma LineCopyTail(del: bool)
    ensures CopyTail(del, true) == Tap(Ctrl(if del then X else C)) + (if del then Tap(Delete) else Tap(Left))
  {
    if del {
      assert CopyTail(true, true) == Tap(Ctrl(X)) + Tap(Delete) + [];
    } else {
      assert CopyTail(false, true) == Tap(Ctrl(C)) + [] + Tap(Left);
    }
  }

  /** Line-wise yank, delete and change (motion `j` or `k`, outside visual
      mode, not a shifted delete): the selection is anchored at a line end,
      extended by exactly `MAX(repeat, 1) - 1` vertical taps inside the Shift
      hold, and completed to the other line end; the newline fix is set;
      then come the copy or cut (`LineCopyTail`) and, for a change, the
      events of insert mode. */
  lemma {:induction false} LineWiseCopy(m: Machine)
    requires m.current.action in {Set(VimY), Set(VimD), Set(VimC)}
    requires LineWise(m.current)
    requires !m.visualMode
    requires !(m.current.shifted && ShouldDelete(m.current))
    ensures var r := ExecuteCurrent(m);
      var c := m.current;
      var down := c.motion == Set(VimJ);
      var go := if down then GoToLineStart() else Tap(End);
      var fin := Tap(if down then End else Home) + [Release(LShift)];
      var rest := CopyTail(ShouldDelete(c), true) + (if c.action == Set(VimC) then InsertModeOut() else []);
      && r.m.pasteLineEndFix
      && LineSelection(r.out, go, if down then Down else Up, AtLeastOnce(c.repeat) - 1, fin + rest)
  {
    var c := m.current;
    var rest := CopyTail(ShouldDelete(c), true) + (if c.action == Set(VimC) then InsertModeOut() else []);
    ExecuteLineWise(m);
    SelectionThen(ExecuteCurrent(m).out, c.repeat, c.motion == Set(VimJ), rest);
  }

  /** A line selection of `MAX(repeat, 1)` lines followed by `rest`. */
  lemma SelectionThen(out: seq<Event>, repeat: u16, down: bool, rest: seq<Event>)
    requires out == SelectNLines(repeat as int, down) + rest
    ensures LineSelection(out,
                          if down then GoToLineStart() else Tap(End), if down then Down else Up,
                          AtLeastOnce(repeat) - 1, Tap(if down then End else Home) + [Release(LShift)] + rest)
  {
    var go := if down then GoToLineStart() else Tap(End);
    var sel := SelectNLines(repeat as int, down);
    var fin := Tap(if down then End else Home) + [Release(LShift)];
    SelectNLinesShape(repeat as int, down);
    assert LineSelection(sel, go, if down then Down else Up, AtLeastOnce(repeat) - 1, fin);
    LineSelectionExtends(sel, go, if down then Down else Up, AtLeastOnce(repeat) - 1, fin, rest);
  }

  /** Yank and delete emit only their copy step. */
  lemma ExecuteYankDelete(m: Machine)
    requires m.current.action in {Set(VimY), Set(VimD)}
    ensures var r := ExecuteCurrent(m);
      var o := CopySelection(m);
      && r.out == o.out
      && r.m == o.m.(previous := m.current, current := DefaultCommand)
  {
    var o := CopySelection(m);
    assert o.m.current == m.current;
    assert ActionOutput(o.m) == [];
    assert o.out + [] == o.out;
  }

  /** Outside visual mode, a yank or delete with a motion other than `j` or
      `k` (and not the shifted delete) selects character-wise: the motion's
      own taps inside a Shift hold, then a copy followed by a step left, or
      a cut with no forward delete. The newline fix is cleared. */
  lemma CharWiseCopy(m: Machine)
    requires m.current.action in {Set(VimY), Set(VimD)}
    requires !m.visualMode && !LineWise(m.current)
    requires !(m.current.shifted && m.current.action == Set(VimD))
    ensures var r := ExecuteCurrent(m);
      var del := m.current.action == Set(VimD);
      && !r.m.pasteLineEndFix
      && r.out == [Press(LShift)] + TriggerMotion(m.current) + [Release(LShift)]
                  + Tap(Ctrl(if del then X else C)) + (if del then [] else Tap(Left))
      && r.m.previous == m.current
  {
    ExecuteYankDelete(m);
    var del := m.current.action == Set(VimD);
    assert CopyTail(del, false) == Tap(Ctrl(if del then X else C)) + (if del then [] else Tap(Left));
  }

  /** A shifted delete cuts to the end of the line and leaves the newline
      fix as it was; the forward delete after the cut depends on that old
      value. The End key is pressed and not released. */
  lemma ShiftedDelete(m: Machine)
    requires m.current.action == Set(VimD) && m.current.shifted && !m.visualMode
    ensures var r := ExecuteCurrent(m);
      && r.m.pasteLineEndFix == m.pasteLineEndFix
      && r.out == [Press(LShift), Press(End), Release(LShift)] + Tap(Ctrl(X))
                  + (if m.pasteLineEndFix then Tap(Delete) else [])
      && Press(End) in r.out && Release(End) !in r.out
  {
    ExecuteYankDelete(m);
    var tail := if m.pasteLineEndFix then Tap(Delete) else [];
    assert CopyTail(true, m.pasteLineEndFix) == Tap(Ctrl(X)) + tail;
    var out := [Press(LShift), Press(End), Release(LShift)] + Tap(Ctrl(X)) + tail;
    assert out[1] == Press(End);
    assert forall i :: 0 <= i < |out| ==> out[i] != Release(End);
  }

  /** A change behaves as a delete of the same selection, then enters
      insert mode: the same events, then those of `insert_mode`, and the same
      globals except that the modes are left and the default command is
      archived. This holds in every branch of the selection: line-wise,
      character-wise, shift-latched and visual. */
  lemma ChangeIsDeleteThenInsert(m: Machine)
    requires m.current.action == Set(VimC)
    ensures var rc := ExecuteCurrent(m);
      var rd := ExecuteCurrent(m.(current := m.current.(action := Set(VimD))));
      && rc.out == rd.out + InsertModeOut()
      && rc.m == rd.m.(visualMode := false, shifted := false, previous := DefaultCommand)
  {
  }

  /** A shift-latched change cuts to the end of the line as the shifted
      delete does, then enters insert mode. */
  lemma ShiftedChange(m: Machine)
    requires m.current.action == Set(VimC) && m.current.shifted && !m.visualMode
    ensures var r := ExecuteCurrent(m);
      && r.m.pasteLineEndFix == m.pasteLineEndFix
      && r.out == [Press(LShift), Press(End), Release(LShift)] + Tap(Ctrl(X))
                  + (if m.pasteLineEndFix then Tap(Delete) else []) + InsertModeOut()
  {
    ChangeIsDeleteThenInsert(m);
    ShiftedDelete(m.(current := m.current.(action := Set(VimD))));
  }

  /** In visual mode yank and delete never build a selection of their own:
      Shift is released first, then the selection is copied or cut. Visual
      mode itself stays on. */
  lemma VisualCopy(m: Machine)
    requires m.current.action in {Set(VimY), Set(VimD)}
    requires m.visualMode
    ensures var r := ExecuteCurrent(m);
      var yank := m.current.action == Set(VimY);
      && r.out == [Release(LShift)] + Tap(Ctrl(if yank then C else X)) + (if yank then Tap(Left) else [])
      && Press(LShift) !in r.out
      && r.m.visualMode && !r.m.pasteLineEndFix
  {
    ExecuteYankDelete(m);
    var yank := m.current.action == Set(VimY);
    var out := [Release(LShift)] + Tap(Ctrl(if yank then C else X)) + (if yank then Tap(Left) else []);
    assert forall i :: 0 <= i < |out| ==> out[i] != Press(LShift);
  }

  /** `s` holds only key presses and releases: no layer move. */
  predicate KeysOnly(s: seq<Event>) {
    forall i :: 0 <= i < |s| ==> !s[i].LayerMove?
  }

  lemma KeysOnlyAppend(a: seq<Event>, b: seq<Event>)
    requires KeysOnly(a) && KeysOnly(b)
    ensures KeysOnly(a + b)
  {
    var s := a + b;
    forall i | 0 <= i < |s|
      ensures !s[i].LayerMove?
    {
      if i >= |a| {
        assert s[i] == b[i - |a|];
      }
    }
  }

  lemma {:induction false} RepeatKeysOnly(block: seq<Event>, n: nat)
    requires KeysOnly(block)
    ensures KeysOnly(Repeat(block, n))
  {
    if n > 0 {
      RepeatKeysOnly(block, n - 1);
      KeysOnlyAppend(Repeat(block, n - 1), block);
    }
  }

  /** A sequence without layer moves holds none of any layer. */
  lemma {:induction false} KeysOnlyCount(s: seq<Event>, l: int)
    requires KeysOnly(s)
    ensures Count(s, LayerMove(l)) == 0
  {
    if s != [] {
      assert !s[0].LayerMove?;
      assert forall i :: 0 <= i < |s[1..]| ==> s[1..][i] == s[i + 1];
      KeysOnlyCount(s[1..], l);
    }
  }

  /** The copy step moves no layer. */
  lemma CopyKeysOnly(m: Machine)
    ensures KeysOnly(CopySelection(m).out)
  {
    var c := m.current;
    RepeatKeysOnly(Tap(Left), Times(c.repeat));
    RepeatKeysOnly(Tap(Right), Times(c.repeat));
    RepeatKeysOnly(Tap(Up), Times(c.repeat));
    RepeatKeysOnly(Tap(Down), Times(c.repeat));
    var taps := TriggerMotion(c);
    assert KeysOnly(taps);
    KeysOnlyAppend([Press(LShift)], taps);
    KeysOnlyAppend([Press(LShift)] + taps, [Release(LShift)]);
    var n := ExtraLines(c.repeat as int);
    var down := c.motion == Set(VimJ);
    RepeatKeysOnly(Tap(if down then Down else Up), n);
    var go := if down then GoToLineStart() else Tap(End);
    KeysOnlyAppend([Release(LShift)] + go + [Press(LShift)], Repeat(Tap(if down then Down else Up), n));
    KeysOnlyAppend([Release(LShift)] + go + [Press(LShift)] + Repeat(Tap(if down then Down else Up), n),
                   Tap(if down then End else Home) + [Release(LShift)]);
    assert KeysOnly(Selection(c));
    KeysOnlyAppend(Selection(c), CopyTail(ShouldDelete(c), FixAfterSelection(m)));
  }

  /** The indent branch moves no layer. */
  lemma IndentKeysOnly(c: Command)
    ensures KeysOnly(Indent(c))
  {
    RepeatKeysOnly(Tap(IndentKey(c)), IndentSize);
    KeysOnlyAppend(GoToLineStart(), Repeat(Tap(IndentKey(c)), IndentSize));
    var step := IndentStep(c);
    KeysOnlyAppend(Tap(if c.motion == Set(VimJ) then Down else Up) + (if c.action == Set(VimDot) then Tap(Home) else []),
                   Repeat(Tap(IndentKey(c)), IndentSize));
    RepeatKeysOnly(step, c.repeat as nat);
    RepeatKeysOnly(IndentReturn(c), c.repeat as nat);
    KeysOnlyAppend(Repeat(step, c.repeat as nat), Repeat(IndentReturn(c), c.repeat as nat));
    KeysOnlyAppend(GoToLineStart() + Repeat(Tap(IndentKey(c)), IndentSize),
                   if c.repeat > 0 && (c.motion == Set(VimJ) || c.motion == Set(VimK)) then
                     Repeat(step, c.repeat as nat) + Repeat(IndentReturn(c), c.repeat as nat)
                   else []);
  }

  /** The branches of `execute_current` other than change move no layer. */
  lemma EffectKeysOnly(m: Machine)
    ensures KeysOnly(ActionEffect(m))
  {
    var c := m.current;
    var a := c.action;
    if a == Set(VimJ) {
      RepeatKeysOnly(Tap(End) + Tap(Delete) + Tap(Space), Times(c.repeat));
    } else if a == Set(VimP) {
      var fix := m.pasteLineEndFix;
      RepeatKeysOnly(PasteRound(fix), Times(c.repeat));
      var pre := (if m.shifted then Tap(Left) else []) + (if fix then Tap(End) else []);
      KeysOnlyAppend(pre, Repeat(PasteRound(fix), Times(c.repeat)));
      KeysOnlyAppend(pre + Repeat(PasteRound(fix), Times(c.repeat)), if fix then Tap(Home) else []);
    } else if a == Set(VimU) {
      RepeatKeysOnly(Tap(Ctrl(Z)), Times(c.repeat));
    } else if a == Set(VimDot) || a == Set(VimComm) {
      IndentKeysOnly(c);
    }
  }

  /** Running a command enters insert mode (moves to the insert layer)
      exactly once, as its last event, if it is a change, and never
      otherwise. */
  lemma ChangeEntersInsertOnce(m: Machine)
    ensures var out := ExecuteCurrent(m).out;
      if m.current.action == Set(VimC) then
        && |out| >= 1 && out[|out| - 1] == LayerMove(InsertModeLayer)
        && KeysOnly(out[..|out| - 1])
        && Count(out, LayerMove(InsertModeLayer)) == 1
      else
        KeysOnly(out) && Count(out, LayerMove(InsertModeLayer)) == 0
  {
    var o := CopySelection(m);
    CopyKeysOnly(m);
    if m.current.action == Set(VimC) {
      var pre := o.out + [Release(LShift), Release(LCtrl)];
      KeysOnlyAppend(o.out, [Release(LShift), Release(LCtrl)]);
      assert ExecuteCurrent(m).out == pre + [LayerMove(InsertModeLayer)];
      KeysOnlyCount(pre, InsertModeLayer);
      CountAppend(pre, [LayerMove(InsertModeLayer)], LayerMove(InsertModeLayer));
    } else {
      EffectKeysOnly(o.m);
      KeysOnlyAppend(o.out, ActionEffect(o.m));
      KeysOnlyCount(ExecuteCurrent(m).out, InsertModeLayer);
    }
  }

  /** Running a command always ends with a fresh command and archives the
      one run, except that a change has already been reset by entering
      insert mode and so archives the default command: its join, paste,
      undo and indent branches never fire. */
  lemma ExecuteArchivesAndResets(m: Machine)
    ensures var r := ExecuteCurrent(m);
      && r.m.current == DefaultCommand
      && r.m.previous == (if m.current.action == Set(VimC) then DefaultCommand else m.current)
      && (m.current.action == Set(VimC) ==>
            && !r.m.visualMode && !r.m.shifted
            && r.out == CopySelection(m).out + InsertModeOut())
      && (m.current.action != Set(VimC) ==>
            r.m.visualMode == m.visualMode && r.m.shifted == m.shifted)
  {
  }

  /** Undo taps Control+Z `MAX(1, repeat)` times and archives itself. */
  lemma UndoTaps(m: Machine)
    ensures var r := ProcessRecord(m, Custom(VimU), true);
      && IsTaps(r.out, Ctrl(Z), AtLeastOnce(m.current.repeat))
      && r.m.previous == m.current.(action := Set(VimU), shifted := m.shifted)
  {
    var mu := m.(current := m.current.(action := Set(VimU), shifted := m.shifted));
    UndoPasteDispatch(m, VimU);
    ExecuteWithoutCopy(mu);
    assert ActionEffect(mu) == TapNTimes(Ctrl(Z), m.current.repeat);
    RepeatTapIsTaps(Ctrl(Z), AtLeastOnce(m.current.repeat));
  }

  /** Actions other than yank, delete and change copy nothing: running one
      emits only its own branch, archives it and resets the command. */
  lemma ExecuteWithoutCopy(m: Machine)
    requires !ShouldCopy(m.current)
    ensures ExecuteCurrent(m) == Outcome(m.(previous := m.current, current := DefaultCommand), ActionEffect(m))
  {
    assert CopySelection(m) == Outcome(m, []);
    assert [] + ActionEffect(m) == ActionEffect(m);
  }

  /** A tap holds one press and one release of its key. */
  lemma CountTap(k: Key, e: Event)
    ensures Count(Tap(k), e) == (if e == Press(k) || e == Release(k) then 1 else 0)
  {
    var t := Tap(k);
    assert t[1..] == [Release(k)] && t[1..][1..] == [];
    assert Count(t[1..][1..], e) == 0;
    assert Count(t[1..], e) == (if e == Release(k) then 1 else 0);
  }

  /** `u` and `p` run `execute_current` with that action and the latch. */
  lemma UndoPasteDispatch(m: Machine, k: VimKey)
    requires k == VimU || k == VimP
    ensures ProcessRecord(m, Custom(k), true)
         == Handled(ExecuteCurrent(m.(current := m.current.(action := Set(k), shifted := m.shifted))))
  {
  }

  /** A paste command emits only the paste branch. */
  lemma ExecutePaste(m: Machine)
    requires m.current.action == Set(VimP)
    ensures ExecuteCurrent(m).out == Paste(m)
  {
    ExecuteWithoutCopy(m);
  }

  /** A block present only under a condition. */
  lemma CountWhen(b: bool, s: seq<Event>, e: Event)
    ensures Count(if b then s else [], e) == if b then Count(s, e) else 0
  {
  }

  /** The events of the paste branch, counted. */
  lemma {:induction false} PasteCounts(m: Machine, e: Event)
    requires e in {Press(Ctrl(V)), Press(Enter), Press(Left)}
    ensures var n := AtLeastOnce(m.current.repeat);
      Count(Paste(m), e)
      == if e == Press(Ctrl(V)) then n
         else if e == Press(Enter) then (if m.pasteLineEndFix then n else 0)
         else (if m.shifted then 1 else 0)
  {
    var fix := m.pasteLineEndFix;
    var n := Times(m.current.repeat);
    var left := if m.shifted then Tap(Left) else [];
    var end := if fix then Tap(End) else [];
    var rounds := Repeat(PasteRound(fix), n);
    var home := if fix then Tap(Home) else [];
    assert Paste(m) == left + end + rounds + home;
    CountAppend(left + end + rounds, home, e);
    CountAppend(left + end, rounds, e);
    CountAppend(left, end, e);
    CountWhen(m.shifted, Tap(Left), e);
    CountWhen(fix, Tap(End), e);
    CountWhen(fix, Tap(Home), e);
    CountWhen(fix, Tap(Enter), e);
    CountTap(Left, e);
    CountTap(End, e);
    CountTap(Home, e);
    CountTap(Enter, e);
    CountTap(Ctrl(V), e);
    CountAppend(if fix then Tap(Enter) else [], Tap(Ctrl(V)), e);
    var per := Count(PasteRound(fix), e);
    assert per == (if e == Press(Ctrl(V)) then 1 else if e == Press(Enter) && fix then 1 else 0);
    RepeatCount(PasteRound(fix), n, e);
    assert Count(rounds, e) == n * per;
    assert per == 1 ==> n * per == n;
    assert per == 0 ==> n * per == 0;
    assert Count(left, e) + Count(end, e) + Count(home, e)
        == if e == Press(Left) && m.shifted then 1 else 0;
  }

  /** Paste pastes `MAX(1, repeat)` times, each time on a new line when the
      last copy was line-wise, and moves one left first when shift-latched. */
  lemma {:induction false} PasteCount(m: Machine)
    ensures var r := ProcessRecord(m, Custom(VimP), true);
      var n := AtLeastOnce(m.current.repeat);
      && Count(r.out, Press(Ctrl(V))) == n
      && Count(r.out, Press(Enter)) == (if m.pasteLineEndFix then n else 0)
      && Count(r.out, Press(Left)) == (if m.shifted then 1 else 0)
  {
    var mp := m.(current := m.current.(action := Set(VimP), shifted := m.shifted));
    UndoPasteDispatch(m, VimP);
    ExecutePaste(mp);
    PasteCounts(mp, Press(Ctrl(V)));
    PasteCounts(mp, Press(Enter));
    PasteCounts(mp, Press(Left));
  }

  /** Every Control+V press in `s` comes straight after a tap of Enter. */
  predicate EnterBeforeEachPaste(s: seq<Event>) {
    forall i :: 0 <= i < |s| && s[i] == Press(Ctrl(V)) ==> 2 <= i && s[i - 2] == Press(Enter) && s[i - 1] == Release(Enter)
  }

  lemma EnterBeforeAppend(a: seq<Event>, b: seq<Event>)
    requires EnterBeforeEachPaste(a) && EnterBeforeEachPaste(b)
    ensures EnterBeforeEachPaste(a + b)
  {
    var s := a + b;
    forall i | 0 <= i < |s| && s[i] == Press(Ctrl(V))
      ensures 2 <= i && s[i - 2] == Press(Enter) && s[i - 1] == Release(Enter)
    {
      if i < |a| {
        assert s[i] == a[i];
      } else {
        assert s[i] == b[i - |a|];
      }
    }
  }

  /** Line-wise paste rounds: Enter is tapped before each Control+V. */
  lemma {:induction false} RoundsEnterFirst(n: nat)
    ensures EnterBeforeEachPaste(Repeat(PasteRound(true), n))
  {
    if n > 0 {
      RoundsEnterFirst(n - 1);
      var b := PasteRound(true);
      assert b == [Press(Enter), Release(Enter), Press(Ctrl(V)), Release(Ctrl(V))];
      EnterBeforeAppend(Repeat(PasteRound(true), n - 1), b);
    }
  }

  /** The order of the paste branch: after the optional step left, a
      line-wise paste goes to the line end, opens a new line before each
      Control+V and returns to the line start; otherwise it is exactly
      `MAX(1, repeat)` taps of Control+V. */
  lemma PasteOrder(m: Machine)
    ensures var p := Paste(m);
      var l := if m.shifted then 2 else 0;
      var n := AtLeastOnce(m.current.repeat);
      && |p| >= l
      && (m.shifted ==> p[..2] == Tap(Left))
      && (m.pasteLineEndFix ==>
            && |p| >= l + 4
            && p[l..l + 2] == Tap(End)
            && p[|p| - 2..] == Tap(Home)
            && EnterBeforeEachPaste(p))
      && (!m.pasteLineEndFix ==> IsTaps(p[l..], Ctrl(V), n))
  {
    var fix := m.pasteLineEndFix;
    var n := Times(m.current.repeat);
    var left := if m.shifted then Tap(Left) else [];
    if fix {
      assert Paste(m) == left + Tap(End) + Repeat(PasteRound(true), n) + Tap(Home);
      LineWisePasteOrder(left, n);
    } else {
      assert Paste(m) == left + Repeat(PasteRound(false), n) + [];
      PlainPasteOrder(left, n);
    }
  }

  /** A line-wise paste: End, the rounds, Home, after `left`. */
  lemma LineWisePasteOrder(left: seq<Event>, n: nat)
    requires left == [] || left == Tap(Left)
    ensures var p := left + Tap(End) + Repeat(PasteRound(true), n) + Tap(Home);
      && |p| >= |left| + 4
      && p[|left|..|left| + 2] == Tap(End)
      && p[|p| - 2..] == Tap(Home)
      && EnterBeforeEachPaste(p)
  {
    var rounds := Repeat(PasteRound(true), n);
    assert EnterBeforeEachPaste(left);
    assert EnterBeforeEachPaste(Tap(End));
    assert EnterBeforeEachPaste(Tap(Home));
    RoundsEnterFirst(n);
    EnterBeforeAppend(left, Tap(End));
    EnterBeforeAppend(left + Tap(End), rounds);
    EnterBeforeAppend(left + Tap(End) + rounds, Tap(Home));
  }

  /** A paste that is not line-wise: only the Control+V taps, after `left`. */
  lemma PlainPasteOrder(left: seq<Event>, n: nat)
    ensures var p := left + Repeat(PasteRound(false), n) + [];
      IsTaps(p[|left|..], Ctrl(V), n)
  {
    assert PasteRound(false) == Tap(Ctrl(V));
    var p := left + Repeat(PasteRound(false), n) + [];
    assert p[|left|..] == Repeat(Tap(Ctrl(V)), n);
    RepeatTapIsTaps(Ctrl(V), n);
  }

  /** The events of one indent round, counted. */
  lemma IndentRoundCounts(c: Command, e: Event)
    requires e in {Press(IndentKey(c)), Press(Down), Press(Up)}
    ensures var down := c.motion == Set(VimJ);
      && Count(Repeat(Tap(IndentKey(c)), IndentSize), e) == (if e == Press(IndentKey(c)) then IndentSize else 0)
      && Count(IndentStep(c), e)
         == (if e == Press(IndentKey(c)) then IndentSize else 0)
            + (if e == Press(if down then Down else Up) then 1 else 0)
      && Count(IndentReturn(c), e) == (if e == Press(if down then Up else Down) then 1 else 0)
  {
    var k := IndentKey(c);
    var down := c.motion == Set(VimJ);
    var keys := Repeat(Tap(k), IndentSize);
    var home := if c.action == Set(VimDot) then Tap(Home) else [];
    RepeatCount(Tap(k), IndentSize, e);
    CountTap(k, e);
    CountTap(if down then Down else Up, e);
    CountTap(if down then Up else Down, e);
    CountTap(Home, e);
    CountAppend(Tap(if down then Down else Up) + home, keys, e);
    CountAppend(Tap(if down then Down else Up), home, e);
    CountAppend(Tap(if down then Up else Down), Tap(Home), e);
  }

  lemma MulSucc(n: nat, x: nat)
    ensures n * x + x == x * (n + 1)
  {
  }

  /** The indent branch counted block by block, for an event that is not
      part of going to the line start. */
  lemma IndentCountParts(c: Command, e: Event)
    requires LineWise(c)
    requires e in {Press(IndentKey(c)), Press(Down), Press(Up)}
    ensures var n := c.repeat as nat;
      Count(Indent(c), e)
      == Count(Repeat(Tap(IndentKey(c)), IndentSize), e)
         + n * Count(IndentStep(c), e) + n * Count(IndentReturn(c), e)
  {
    var n := c.repeat as nat;
    var keys := Repeat(Tap(IndentKey(c)), IndentSize);
    var loops := if n > 0 then Repeat(IndentStep(c), n) + Repeat(IndentReturn(c), n) else [];
    assert Indent(c) == GoToLineStart() + keys + loops;
    CountAppend(GoToLineStart() + keys, loops, e);
    CountAppend(GoToLineStart(), keys, e);
    LineStartCount(e);
    LoopsCount(c, n, e);
  }

  /** Going to the line start taps only End and Home. */
  lemma LineStartCount(e: Event)
    requires e.Press? && e.key != End && e.key != Home
    ensures Count(GoToLineStart(), e) == 0
  {
    CountAppend(Tap(End) + Tap(Home), Tap(Home), e);
    CountAppend(Tap(End), Tap(Home), e);
    CountTap(End, e);
    CountTap(Home, e);
  }

  /** The two loops of the indent branch, counted. */
  lemma LoopsCount(c: Command, n: nat, e: Event)
    ensures var loops := if n > 0 then Repeat(IndentStep(c), n) + Repeat(IndentReturn(c), n) else [];
      Count(loops, e) == n * Count(IndentStep(c), e) + n * Count(IndentReturn(c), e)
  {
    if n > 0 {
      CountAppend(Repeat(IndentStep(c), n), Repeat(IndentReturn(c), n), e);
      RepeatCount(IndentStep(c), n, e);
      RepeatCount(IndentReturn(c), n, e);
    }
  }

  /** The indent branch taps its key `INDENT_SIZE` times on each of
      `repeat + 1` lines. */
  lemma {:induction false} IndentKeyCount(c: Command)
    requires LineWise(c)
    ensures Count(Indent(c), Press(IndentKey(c))) == IndentSize * (c.repeat as nat + 1)
  {
    var e := Press(IndentKey(c));
    var n := c.repeat as nat;
    IndentCountParts(c, e);
    IndentRoundCounts(c, e);
    var perStep := Count(IndentStep(c), e);
    assert perStep == IndentSize;
    assert Count(IndentReturn(c), e) == 0;
    assert n * 0 == 0;
    assert n * perStep == n * IndentSize;
    MulSucc(n, IndentSize);
  }

  /** The indent branch moves `repeat` lines one way and as many back. */
  lemma IndentVerticalCount(c: Command, e: Event)
    requires LineWise(c)
    requires e in {Press(Down), Press(Up)}
    ensures Count(Indent(c), e) == c.repeat as nat
  {
    var n := c.repeat as nat;
    IndentCountParts(c, e);
    IndentRoundCounts(c, e);
    var a := Count(IndentStep(c), e);
    var b := Count(IndentReturn(c), e);
    assert Count(Repeat(Tap(IndentKey(c)), IndentSize), e) == 0;
    assert a + b == 1 by {
      if c.motion == Set(VimJ) {
        assert e == Press(Down) ==> a == 1 && b == 0;
        assert e == Press(Up) ==> a == 0 && b == 1;
      } else {
        assert e == Press(Down) ==> a == 0 && b == 1;
        assert e == Press(Up) ==> a == 1 && b == 0;
      }
    }
    SumOfParts(Count(Indent(c), e), Count(Repeat(Tap(IndentKey(c)), IndentSize), e), n, a, b);
  }

  /** `n` rounds of a part holding one event or the other, and nothing else. */
  lemma SumOfParts(total: int, k: int, n: nat, a: nat, b: nat)
    requires total == k + n * a + n * b
    requires k == 0 && a + b == 1
    ensures total == n
  {
    if a == 1 {
      assert b == 0;
    } else {
      assert a == 0 && b == 1;
    }
  }

  /** Without a count or without a `j`/`k` motion, indenting touches only
      the current line: go to its start, then tap the key `INDENT_SIZE`
      times, with no vertical move. */
  lemma IndentSingleLine(c: Command)
    requires c.repeat == 0 || !LineWise(c)
    ensures var out := Indent(c);
      && |out| == 6 + 2 * IndentSize
      && out[..6] == GoToLineStart()
      && IsTaps(out[6..], IndentKey(c), IndentSize)
      && Press(Down) !in out && Press(Up) !in out
  {
    var out := Indent(c);
    var taps := Repeat(Tap(IndentKey(c)), IndentSize);
    assert out == GoToLineStart() + taps + [];
    RepeatTapIsTaps(IndentKey(c), IndentSize);
    assert out[6..] == taps;
    forall i | 0 <= i < |out|
      ensures out[i] != Press(Down) && out[i] != Press(Up)
    {
      if i >= 6 {
        assert out[i] == taps[i - 6];
      }
    }
  }

  /** Indenting (`>` and `<`, that is the dot and comma operators) over
      `repeat` lines below or above touches `repeat + 1` lines,
      `INDENT_SIZE` keys each, and returns to the line it started on:
      as many taps down as up. */
  lemma IndentLines(c: Command)
    requires c.action in {Set(VimDot), Set(VimComm)}
    requires LineWise(c)
    ensures var out := Indent(c);
      var k := IndentKey(c);
      && Count(out, Press(k)) == IndentSize * (c.repeat as nat + 1)
      && Count(out, Press(Down)) == Count(out, Press(Up)) == c.repeat as nat
  {
    IndentKeyCount(c);
    IndentVerticalCount(c, Press(Down));
    IndentVerticalCount(c, Press(Up));
  }

  /** Each round of the join loop ends the line, deletes and types a space. */
  lemma {:induction false} JoinRoundsCount(n: nat, e: Event)
    requires e in {Press(End), Press(Delete), Press(Space)}
    ensures Count(Repeat(Tap(End) + Tap(Delete) + Tap(Space), n), e) == n
  {
    var round := Tap(End) + Tap(Delete) + Tap(Space);
    CountAppend(Tap(End) + Tap(Delete), Tap(Space), e);
    CountAppend(Tap(End), Tap(Delete), e);
    CountTap(End, e);
    CountTap(Delete, e);
    CountTap(Space, e);
    RepeatCount(round, n, e);
    assert Count(round, e) == 1;
  }

  /** Shift-latched `j` joins lines: each of `MAX(1, repeat)` rounds goes to
      the line end, deletes the newline and types a space. The join is
      archived for replay and a fresh command starts. */
  lemma JoinWhenShifted(m: Machine)
    requires m.shifted
    ensures var r := ProcessRecord(m, Custom(VimJ), true);
      var n := AtLeastOnce(m.current.repeat);
      && !r.passThrough
      && Count(r.out, Press(End)) == n
      && Count(r.out, Press(Delete)) == n
      && Count(r.out, Press(Space)) == n
      && r.out == Repeat(Tap(End) + Tap(Delete) + Tap(Space), n)
      && r.m.previous == m.current.(action := Set(VimJ))
      && r.m.current == DefaultCommand
  {
    var c := m.current.(action := Set(VimJ));
    var n := Times(c.repeat);
    JoinKeyDispatch(m);
    ExecuteWithoutCopy(m.(current := c));
    assert ActionEffect(m.(current := c)) == Repeat(Tap(End) + Tap(Delete) + Tap(Space), n);
    JoinRoundsCount(n, Press(End));
    JoinRoundsCount(n, Press(Delete));
    JoinRoundsCount(n, Press(Space));
  }

  /** `j` while shift-latched runs `execute_current` with action join. */
  lemma JoinKeyDispatch(m: Machine)
    requires m.shifted
    ensures ProcessRecord(m, Custom(VimJ), true)
         == Handled(ExecuteCurrent(m.(current := m.current.(action := Set(VimJ)))))
  {
  }

  /** The indent operators (the dot key while shift-latched, and the comma
      key) wait for a second press of the same key outside visual mode; the
      second press indents the current line, motion `j`, and is archived. */
  lemma DoubledIndent(m: Machine, k: VimKey)
    requires k == VimComm || (k == VimDot && m.shifted)
    requires !m.visualMode && m.current.action != Set(k)
    ensures var r1 := ProcessRecord(m, Custom(k), true);
      var r2 := ProcessRecord(r1.m, Custom(k), true);
      var c := m.current.(action := Set(k), motion := Set(VimJ));
      && r1 == Reaction(m.(current := m.current.(action := Set(k))), [], false)
      && r2.out == Indent(c)
      && r2.m.previous == c
      && r2.m.current == DefaultCommand
  {
    IndentFirstPress(m, k);
    IndentSecondPress(m.(current := m.current.(action := Set(k))), k);
  }

  /** The first press of an indent operator only records it. */
  lemma IndentFirstPress(m: Machine, k: VimKey)
    requires k == VimComm || (k == VimDot && m.shifted)
    requires !m.visualMode && m.current.action != Set(k)
    ensures ProcessRecord(m, Custom(k), true) == Reaction(m.(current := m.current.(action := Set(k))), [], false)
  {
    if k == VimComm {
      OperatorKeyDispatch(m, k);
    } else {
      DotKeyDispatch(m);
    }
  }

  /** A press of the pending indent operator indents with motion `j`. */
  lemma IndentSecondPress(m: Machine, k: VimKey)
    requires k == VimComm || (k == VimDot && m.shifted)
    requires !m.visualMode && m.current.action == Set(k)
    ensures var c := m.current.(motion := Set(VimJ));
      ProcessRecord(m, Custom(k), true) == Reaction(m.(previous := c, current := DefaultCommand), Indent(c), false)
  {
    var c := m.current.(motion := Set(VimJ));
    if k == VimComm {
      OperatorKeyDispatch(m, k);
    } else {
      DotKeyDispatch(m);
    }
    assert MaybeAction(m, k, false) == ExecuteCurrent(m.(current := c));
    ExecuteWithoutCopy(m.(current := c));
  }

  // ---------------------------------------------------------------------
  // Repeat last action

  /** `.` with no count replays the archived command unchanged. */
  lemma ReplayWithoutCount(m: Machine)
    requires m.current.repeat == 0 && !m.shifted
    ensures ProcessRecord(m, Custom(VimDot), true) == Handled(ExecuteCurrent(m.(current := m.previous)))
  {
  }

  /** `.` with a count `k` replays the archived command, shift flag
      included, with its count multiplied by `k` (modulo 2^16); the replay
      is archived in turn unless it is a change. */
  lemma ReplayMultipliesCount(m: Machine)
    requires m.current.repeat > 0 && !m.shifted
    ensures var r := ProcessRecord(m, Custom(VimDot), true);
      var c := m.previous.(repeat := Mul16(m.previous.repeat, m.current.repeat));
      && r == Handled(ExecuteCurrent(m.(current := c)))
      && c.repeat as int == (m.previous.repeat as int * m.current.repeat as int) % 0x1_0000
      && (m.previous.action != Set(VimC) ==> r.m.previous == c)
  {
    var c := m.previous.(repeat := Mul16(m.previous.repeat, m.current.repeat));
    ExecuteArchivesAndResets(m.(current := c));
  }

  // ---------------------------------------------------------------------
  // Modes

  /** `v` toggles visual mode, pressing Shift on the way in and releasing
      it on the way out; toggling twice restores every global. */
  lemma VisualToggle(m: Machine)
    ensures var r := ProcessRecord(m, Custom(VimV), true);
      && r == Reaction(m.(visualMode := !m.visualMode),
                       [if m.visualMode then Release(LShift) else Press(LShift)], false)
    ensures var r1 := ProcessRecord(m, Custom(VimV), true);
      var r2 := ProcessRecord(r1.m, Custom(VimV), true);
      && r2.m == m
      && r1.out + r2.out == (if m.visualMode then [Release(LShift), Press(LShift)] else [Press(LShift), Release(LShift)])
  {
  }

  /** Entering insert mode clears visual mode, the shift latch and the
      command, releases Shift and Control, and moves to the insert layer;
      doing it twice is the same as once. */
  lemma InsertModeIdempotent(m: Machine)
    ensures var o := InsertMode(m);
      && !o.m.visualMode && !o.m.shifted && o.m.current == DefaultCommand
      && o.m.previous == m.previous && o.m.pasteLineEndFix == m.pasteLineEndFix
      && o.out == [Release(LShift), Release(LCtrl), LayerMove(InsertModeLayer)]
      && InsertMode(o.m) == o
  {
  }

  /** `o`, `i`, `a` and `s` end in insert mode and are not archived for
      replay; their own keys precede insert mode's releases. */
  lemma JumpersEnterInsert(m: Machine, k: VimKey)
    requires k in {VimO, VimI, VimA, VimS}
    ensures var r := ProcessRecord(m, Custom(k), true);
      && !r.passThrough
      && r.m == InsertMode(m).m
      && |r.out| >= 3 && r.out[|r.out| - 3..] == InsertModeOut()
  {
  }

  /** `s` deletes `MAX(1, repeat)` characters forward before entering
      insert mode. */
  lemma SubstituteDeletes(m: Machine)
    ensures var r := ProcessRecord(m, Custom(VimS), true);
      && IsTaps(r.out[..|r.out| - 3], Delete, AtLeastOnce(m.current.repeat))
  {
    RepeatTapIsTaps(Delete, AtLeastOnce(m.current.repeat));
    var r := ProcessRecord(m, Custom(VimS), true);
    assert r.out == TapNTimes(Delete, m.current.repeat) + InsertModeOut();
    assert r.out[..|r.out| - 3] == TapNTimes(Delete, m.current.repeat);
  }

  // ---------------------------------------------------------------------
  // The dispatcher

  /** An event passes through to the host exactly when its keycode is not
      one the `switch` handles; such an event changes nothing. */
  lemma PassThroughExactly(m: Machine, keycode: Keycode, pressed: bool)
    ensures var r := ProcessRecord(m, keycode, pressed);
      && (r.passThrough <==> keycode.Basic? || keycode.key in {Placeholder, VimE, VimX})
      && (r.passThrough ==> r.m == m && r.out == [])
  {
  }

  /** Releasing any key but the shift latch does nothing. */
  lemma ReleaseIgnored(m: Machine, k: VimKey)
    requires k != VimShift
    ensures var r := ProcessRecord(m, Custom(k), false);
      r.m == m && r.out == []
  {
  }

  /** The shift-latch key sets the latch while held and clears it on
      release, and does nothing else. */
  lemma ShiftLatch(m: Machine, pressed: bool)
    ensures ProcessRecord(m, Custom(VimShift), pressed) == Reaction(m.(shifted := pressed), [], false)
  {
  }

  // ---------------------------------------------------------------------
  // Scenarios

  /** "d2w": once `d` and `2` are pending, `w` cuts from the cursor to two
      words ahead, a Control-held word selection inside a Shift hold. */
  lemma {:induction false} DeleteTwoWords(m: Machine)
    requires m.current == Command(Set(VimD), false, 2, Unset)
    requires !m.visualMode
    ensures var r := ProcessRecord(m, Custom(VimW), true);
      && r.out == [Press(LShift), Press(LCtrl)] + Tap(Right) + Tap(Right) + [Release(LCtrl), Release(LShift)] + Tap(Ctrl(X))
      && r.m.previous == Command(Set(VimD), false, 2, Set(VimW))
      && r.m.current == DefaultCommand
  {
    var c := m.current.(motion := Set(VimW));
    MotionKeyDispatch(m, VimW);
    ExecuteYankDelete(m.(current := c));
    assert TapNTimes(Right, 2) == Tap(Right) + Tap(Right);
    assert Selection(c) == [Press(LShift)] + ([Press(LCtrl)] + TapNTimes(Right, 2) + [Release(LCtrl)]) + [Release(LShift)];
    assert CopyTail(true, false) == Tap(Ctrl(X));
  }

  /** Shift-latched "y" with no count: select the current line from its
      start to its end, copy it, and step left of the selection. */
  lemma {:induction false} YankLine(m: Machine)
    requires m.shifted && !m.visualMode && m.current.repeat == 0
    ensures var r := ProcessRecord(m, Custom(VimY), true);
      && r.out == [Release(LShift)] + GoToLineStart() + [Press(LShift)] + Tap(End)
                  + [Release(LShift)] + Tap(Ctrl(C)) + Tap(Left)
      && r.m.previous == Command(Set(VimY), true, 0, Set(VimJ))
      && r.m.pasteLineEndFix
  {
    var c := Command(Set(VimY), true, 0, Set(VimJ));
    OperatorKeyDispatch(m, VimY);
    ExecuteYankDelete(m.(current := c));
    assert SelectNLines(0, true) == [Release(LShift)] + GoToLineStart() + [Press(LShift)] + [] + Tap(End) + [Release(LShift)];
    assert CopyTail(false, true) == Tap(Ctrl(C)) + [] + Tap(Left);
  }
}
