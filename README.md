# Modal Vim-style key interpreter (wafle keymap, `vim.h`)

This project models the Vim emulation layer of the wafle keymap for the
Dactyl Manuform 5x6 keyboard, and proves properties of the model. The layer is a
single-threaded state machine that runs on the keyboard controller. Its entry
point, `process_record_user`, takes one logical keycode with its press or
release flag. It may call into the host, and it answers whether the event also
goes to the host unchanged. Its state is five globals:

- `current`, the pending `Command` (action, shifted, repeat, motion);
- `previous`, the last command it ran, kept for `.`;
- the `visual_mode`, `paste_line_end_fix` and `shifted` flags.

The project has four files, one module each:

- `vim_types.dfy` (`VimTypes`) holds the data types:
  - the `custom_keycodes` enumeration (`VimKey`), and the keycodes handed to the interpreter (`Keycode`: a `VIM_*` code or any other 16-bit code);
  - the host keys it emits (`Key`, where `Ctrl(k)` is `LCTL(k)`);
  - the host calls (`Event`: `Press`, `Release`, `LayerMove`);
  - the `Command` struct (`repeat` is a `uint16_t`, as the newtype `u16`);
  - the globals as one value (`Machine`).
- `vim_spec.dfy` (`VimSpec`) gives each C function as a pure function. It returns the new globals and the ordered list of host calls. The functions compose the way the C functions call each other, including the fall-through between the `case` groups of `process_record_user`.
- `vim_machine.dfy` (`VimMachine`) is the firmware as it runs. It is a class `Vim` whose fields are the globals, plus a `log` of every host call. Each C function is a method that updates the fields in the C code's order. The `for` loops of `WITH_REPEATER`, `select_n_lines` and the indent branch are `while` loops with invariants. Every method's `ensures` gives the new fields and the new log in terms of the functions of `VimSpec`.
- `vim_properties.dfy` (`VimProperties`) proves what the interpreter promises about those functions:
  - motion taps and counts;
  - digit accumulation modulo 2^16;
  - the three ways `maybe_action` behaves;
  - line-wise against character-wise selection and the newline fix;
  - replay of the last command;
  - mode changes;
  - pass-through exactly for keycodes outside the `switch`;
  - two worked input sequences ("d2w" and shift-latched "y").

The output stream is one ordered list, as the host sees it. A press is
`Press(k)` and a release is `Release(k)`. `layer_move(INSERT_MODE_LAYER)` is
recorded in the same list as `LayerMove(0)`, so the order of mode switches
relative to key events is kept.

Policies and readings of the code:

- `KC_DEL` and `KC_DELETE` are one key, `Delete`. In the firmware's keycode table they are aliases. The newline fix (line 167), `VIM_SUB` (line 282) and unindent (line 197) all emit `Delete`, and so does the join (line 181).
- `repeat` is `uint16_t`. Digit accumulation (line 302) and the replay product (line 290) are reduced modulo 2^16.
- Where the feature list in the header comment of `vim.h` (lines 1-17), or the way other Vim layers behave, suggests something other than what the code does, the model follows the code:
  - A yank or delete in visual mode releases Shift and copies or cuts, but does not clear `visual_mode`. `VimProperties.VisualCopy` states that visual mode stays on.
  - `VIM_E`, `VIM_X` and `PLACEHOLDER` are declared, but no `case` handles them. They pass through to the host (`VimProperties.PassThroughExactly`).
  - There is no deferred indent buffer. An indent operator (`.` while shift-latched, or `,`) waits for a second press of the same key, as any other operator does (`VimProperties.DoubledIndent`).
  - There is no separate "enter normal mode" operation in this variant.
- The shifted-delete branch (lines 153-155) presses End and never releases it. It also leaves `paste_line_end_fix` as it was, so its trailing forward delete depends on the previous command (`VimProperties.ShiftedDelete`).
- A change (`VIM_C`) enters insert mode inside `execute_current`, which resets `current`. So the command archived for `.` is the default command (`VimProperties.ExecuteArchivesAndResets`).

## Model

| member | source | states |
|---|---|---|
| VimMachine.Vim.constructor | keyboards/handwired/dactyl_manuform/5x6/keymaps/wafle/vim.h:83-89 | the globals start zeroed (default command, all flags false) and nothing has been emitted |
| VimMachine.Vim.PressKey | keyboards/handwired/dactyl_manuform/5x6/keymaps/wafle/vim.h:68 | `PRESS` appends exactly one press of the key to the output and changes nothing else |
| VimMachine.Vim.ReleaseKey | keyboards/handwired/dactyl_manuform/5x6/keymaps/wafle/vim.h:69 | `RELEASE` appends exactly one release of the key to the output |
| VimMachine.Vim.MoveLayer | keyboards/handwired/dactyl_manuform/5x6/keymaps/wafle/vim.h:104 | the layer switch is recorded in order in the same output stream |
| VimMachine.Vim.TapKey | keyboards/handwired/dactyl_manuform/5x6/keymaps/wafle/vim.h:70-73 | `TAP` appends a press then a release of the same key |
| VimMachine.Vim.TapNTimes | keyboards/handwired/dactyl_manuform/5x6/keymaps/wafle/vim.h:91-96 | the count-down loop appends `MAX(1, repeat)` taps of the key; proved by loop invariant |
| VimMachine.Vim.InsertMode | keyboards/handwired/dactyl_manuform/5x6/keymaps/wafle/vim.h:98-105 | clears visual mode, the shift latch and the command, then emits release Shift, release Control, move to the insert layer |
| VimMachine.Vim.GoToLineStart | keyboards/handwired/dactyl_manuform/5x6/keymaps/wafle/vim.h:107-112 | emits End, Home, Home taps |
| VimMachine.Vim.TapLines | keyboards/handwired/dactyl_manuform/5x6/keymaps/wafle/vim.h:118-120 | the loop counting `n` down to 1 taps the arrow `n - 1` times, or never when `n <= 1` |
| VimMachine.Vim.SelectNLines | keyboards/handwired/dactyl_manuform/5x6/keymaps/wafle/vim.h:114-123 | a line selection: release Shift, go to one end of the line, press Shift, the extra vertical taps, go to the other end, release Shift |
| VimMachine.Vim.TriggerMotion | keyboards/handwired/dactyl_manuform/5x6/keymaps/wafle/vim.h:125-146 | emits the motion's taps, with Control held around the taps for `w` and `b`, and nothing for any other motion value |
| VimMachine.Vim.SelectForCopy | keyboards/handwired/dactyl_manuform/5x6/keymaps/wafle/vim.h:152-164 | chooses among the shifted-delete, line-wise and character-wise selections, and sets `paste_line_end_fix` as each branch does |
| VimMachine.Vim.CopyByMotion | keyboards/handwired/dactyl_manuform/5x6/keymaps/wafle/vim.h:151-169 | after the selection: cut or copy, then a forward delete (cut with the newline fix) or a Left tap (copy) |
| VimMachine.Vim.CopyVisual | keyboards/handwired/dactyl_manuform/5x6/keymaps/wafle/vim.h:170-176 | in visual mode: release Shift, cut or copy, Left tap after a copy, and clear the newline fix |
| VimMachine.Vim.CopySelection | keyboards/handwired/dactyl_manuform/5x6/keymaps/wafle/vim.h:149-176 | yank, delete and change copy by motion outside visual mode, or copy the visual selection; other actions emit nothing here |
| VimMachine.Vim.JoinLines | keyboards/handwired/dactyl_manuform/5x6/keymaps/wafle/vim.h:180-182 | `MAX(1, repeat)` rounds of End, Delete and Space taps |
| VimMachine.Vim.PasteRounds | keyboards/handwired/dactyl_manuform/5x6/keymaps/wafle/vim.h:190 | `MAX(1, repeat)` paste rounds, each preceded by Enter when the newline fix is set |
| VimMachine.Vim.Paste | keyboards/handwired/dactyl_manuform/5x6/keymaps/wafle/vim.h:183-192 | optional Left tap (shift latch), End before the rounds and Home after them when pasting lines |
| VimMachine.Vim.TapIndent | keyboards/handwired/dactyl_manuform/5x6/keymaps/wafle/vim.h:199 | `INDENT_SIZE` taps of the indent key |
| VimMachine.Vim.IndentStep | keyboards/handwired/dactyl_manuform/5x6/keymaps/wafle/vim.h:202-204 | one line move, a Home tap when indenting, and `INDENT_SIZE` indent taps |
| VimMachine.Vim.IndentLines | keyboards/handwired/dactyl_manuform/5x6/keymaps/wafle/vim.h:201-205 | `repeat` indent steps |
| VimMachine.Vim.IndentGoBack | keyboards/handwired/dactyl_manuform/5x6/keymaps/wafle/vim.h:207-210 | `repeat` moves back with a Home tap each |
| VimMachine.Vim.Indent | keyboards/handwired/dactyl_manuform/5x6/keymaps/wafle/vim.h:196-212 | indents the current line, then the `repeat` lines below or above when the motion is vertical and `repeat > 0`, then returns |
| VimMachine.Vim.PerformEffect | keyboards/handwired/dactyl_manuform/5x6/keymaps/wafle/vim.h:180-212 | at most one of the join, paste, undo and indent branches runs, chosen by the action |
| VimMachine.Vim.PerformAction | keyboards/handwired/dactyl_manuform/5x6/keymaps/wafle/vim.h:177-212 | a change enters insert mode and then no later branch fires; any other action runs its branch and leaves the globals alone |
| VimMachine.Vim.ExecuteCurrent | keyboards/handwired/dactyl_manuform/5x6/keymaps/wafle/vim.h:148-215 | runs the copy step and the action, archives `current` as it stands at line 213 into `previous`, and resets `current` |
| VimMachine.Vim.ToggleVisual | keyboards/handwired/dactyl_manuform/5x6/keymaps/wafle/vim.h:217-224 | flips visual mode; presses Shift on entry, releases it on exit |
| VimMachine.Vim.MaybeAction | keyboards/handwired/dactyl_manuform/5x6/keymaps/wafle/vim.h:226-240 | commits at once on the current line in visual mode or when shifted, commits on a repeated action, and otherwise only records the action |
| VimMachine.Vim.MaybeMotion | keyboards/handwired/dactyl_manuform/5x6/keymaps/wafle/vim.h:242-251 | moves at once and clears the count when no action is pending or in visual mode; otherwise commits the action with this motion |
| VimMachine.Vim.Append | keyboards/handwired/dactyl_manuform/5x6/keymaps/wafle/vim.h:253-260 | Right tap (or End when shift-latched), then insert mode |
| VimMachine.Vim.NewLine | keyboards/handwired/dactyl_manuform/5x6/keymaps/wafle/vim.h:262-272 | opens a line below (End, Enter) or above (Home, Enter, Up), then insert mode |
| VimMachine.Vim.Insert | keyboards/handwired/dactyl_manuform/5x6/keymaps/wafle/vim.h:274-279 | Home tap when shift-latched, then insert mode |
| VimMachine.Vim.Substitute | keyboards/handwired/dactyl_manuform/5x6/keymaps/wafle/vim.h:281-284 | `MAX(1, repeat)` forward deletes, then insert mode |
| VimMachine.Vim.RepeatLastAction | keyboards/handwired/dactyl_manuform/5x6/keymaps/wafle/vim.h:286-293 | takes `previous` as the command, multiplies its count by a non-zero pending count modulo 2^16, and runs it |
| VimMachine.Vim.ProcessRecordUser | keyboards/handwired/dactyl_manuform/5x6/keymaps/wafle/vim.h:295-328 | the event dispatcher, case group by case group with fall-through; keycodes outside the `switch`, the shift latch, digits, shifted `J`, the motions and `v` are handled here and the rest handed on; new globals, output and pass-through flag as the specification function gives them |
| VimMachine.Vim.ProcessCommandKey | keyboards/handwired/dactyl_manuform/5x6/keymaps/wafle/vim.h:329-379 | the `case` groups from `.` on, with their fall-through, and `return true` for any other key; new globals, output and pass-through flag as the specification function gives them |
| VimMachine.Vim.TypeDigit | keyboards/handwired/dactyl_manuform/5x6/keymaps/wafle/vim.h:300-303 | a digit press sets the count to `repeat * 10 + digit` in `uint16_t` and changes nothing else |
| VimTypes.DigitValue | keyboards/handwired/dactyl_manuform/5x6/keymaps/wafle/vim.h:300-302 | `keycode - VIM_0`: a digit key's value is its position among `VIM_0` … `VIM_9` (so at most 9, and 0 exactly for `VIM_0`) |
| VimSpec.Times | keyboards/handwired/dactyl_manuform/5x6/keymaps/wafle/vim.h:74 | `MAX(1, repeat)` is at least 1 and at least `repeat`, equals `repeat` when that is non-zero, and is 1 for a zero count, so 0 and 1 behave alike |
| VimProperties.RepeatTapIsTaps | keyboards/handwired/dactyl_manuform/5x6/keymaps/wafle/vim.h:91-96 | `n` rounds of a tap are exactly `n` adjacent press/release pairs of the key |
| VimProperties.RepeatCount | keyboards/handwired/dactyl_manuform/5x6/keymaps/wafle/vim.h:91-94 | `n` rounds of a block hold `n` times each event of the block |
| VimProperties.MotionKeyDispatch | keyboards/handwired/dactyl_manuform/5x6/keymaps/wafle/vim.h:306-320 | `h j k l w b` presses go to `maybe_motion`, except `j` while shift-latched |
| VimProperties.TriggerMotionTaps | keyboards/handwired/dactyl_manuform/5x6/keymaps/wafle/vim.h:125-146 | a motion taps its arrow (h left, j down, k up, l right, w right, b left) exactly `MAX(1, repeat)` times; for `w` and `b` one Control press comes first and one Control release last |
| VimProperties.ActionMotionCommit | keyboards/handwired/dactyl_manuform/5x6/keymaps/wafle/vim.h:242-251 | a motion with an action pending outside visual mode records the motion, runs the whole command and starts a fresh one; the committed command is archived (the default command after a change) |
| VimProperties.BareMotion | keyboards/handwired/dactyl_manuform/5x6/keymaps/wafle/vim.h:242-247 | a motion with no pending action, or any motion in visual mode, emits exactly those taps, clears the count, keeps the pending action, and is consumed |
| VimProperties.DigitPress | keyboards/handwired/dactyl_manuform/5x6/keymaps/wafle/vim.h:300-304 | a digit press sets `repeat := repeat * 10 + d` modulo 2^16, changes nothing else, emits nothing and is consumed |
| VimProperties.AccumulateValue | keyboards/handwired/dactyl_manuform/5x6/keymaps/wafle/vim.h:302 | digits pressed in turn give the old count shifted left by that many decimal places plus the number typed, modulo 2^16 |
| VimProperties.AccumulateWraps | keyboards/handwired/dactyl_manuform/5x6/keymaps/wafle/vim.h:302 | the 16-bit count after a run of digits is the count without wrap-around reduced modulo 2^16 |
| VimProperties.UnboundedValue | keyboards/handwired/dactyl_manuform/5x6/keymaps/wafle/vim.h:302 | without wrap-around, digits shift the count left one decimal place each and add the number they spell |
| VimProperties.TypedCount | keyboards/handwired/dactyl_manuform/5x6/keymaps/wafle/vim.h:300-304 | typing a number (each digit pressed and released) only sets the count to that value and emits nothing |
| VimProperties.OperatorKeyDispatch | keyboards/handwired/dactyl_manuform/5x6/keymaps/wafle/vim.h:334-345 | `c y d ,` presses go to `maybe_action`; the comma key passes `false` for its shift argument |
| VimProperties.DotKeyDispatch | keyboards/handwired/dactyl_manuform/5x6/keymaps/wafle/vim.h:329-338 | `.` replays the last command, or is the indent operator while shift-latched |
| VimProperties.OperatorWaitsForMotion | keyboards/handwired/dactyl_manuform/5x6/keymaps/wafle/vim.h:237-239 | outside visual mode and unshifted, a new operator is recorded and nothing is emitted |
| VimProperties.DoubledOperatorIsLineMotion | keyboards/handwired/dactyl_manuform/5x6/keymaps/wafle/vim.h:234-236 | a second press of the same operator ("dd", "yy", "cc") does exactly what a `j` motion would |
| VimProperties.ImmediateOperator | keyboards/handwired/dactyl_manuform/5x6/keymaps/wafle/vim.h:227-232 | in visual mode or shift-latched, change, yank and delete (and the comma in visual mode, with shift flag `false`) run the whole command at once with motion `j`; yank and delete are archived as run, a change archives the default command |
| VimProperties.SelectNLinesShape | keyboards/handwired/dactyl_manuform/5x6/keymaps/wafle/vim.h:114-123 | a line selection has exactly `MAX(n, 1) - 1` vertical taps between the Shift press and the final line-end tap |
| VimProperties.SelectionThen | keyboards/handwired/dactyl_manuform/5x6/keymaps/wafle/vim.h:114-122 | a selection of `MAX(repeat, 1)` lines keeps its shape whatever follows it |
| VimProperties.ExecuteLineWise | keyboards/handwired/dactyl_manuform/5x6/keymaps/wafle/vim.h:151-169 | line-wise yank, delete or change outside visual mode sets the newline fix; its output is the line selection, the copy tail and, for a change, insert mode |
| VimProperties.LineCopyTail | keyboards/handwired/dactyl_manuform/5x6/keymaps/wafle/vim.h:165-169 | after a line selection a cut is followed by one forward delete and a copy by one Left tap |
| VimProperties.LineWiseCopy | keyboards/handwired/dactyl_manuform/5x6/keymaps/wafle/vim.h:151-169 | a line-wise command emits `MAX(repeat, 1) - 1` vertical taps inside the Shift hold and sets the newline fix |
| VimProperties.CharWiseCopy | keyboards/handwired/dactyl_manuform/5x6/keymaps/wafle/vim.h:152-169 | outside visual mode a yank or delete whose motion is not `j`/`k` (and not the shifted delete) selects with the motion's own taps inside a Shift hold, then copies and steps left or cuts with no forward delete, clearing the newline fix, and is archived unchanged |
| VimProperties.ExecuteYankDelete | keyboards/handwired/dactyl_manuform/5x6/keymaps/wafle/vim.h:148-215 | yank and delete emit only their copy step and are archived unchanged |
| VimProperties.ExecuteWithoutCopy | keyboards/handwired/dactyl_manuform/5x6/keymaps/wafle/vim.h:148-215 | an action other than yank, delete or change emits only its own branch, is archived unchanged, and leaves a fresh command |
| VimProperties.ShiftedDelete | keyboards/handwired/dactyl_manuform/5x6/keymaps/wafle/vim.h:152-155 | a shifted delete cuts to the line end and keeps the old newline fix; the forward delete after the cut follows that old value; End is pressed and never released |
| VimProperties.ChangeIsDeleteThenInsert | keyboards/handwired/dactyl_manuform/5x6/keymaps/wafle/vim.h:148-179 | in every selection branch (line-wise, character-wise, shift-latched, visual) a change emits exactly what a delete of the same command emits, then the events of `insert_mode`; the globals are the delete's, with both modes left and the default command archived |
| VimProperties.ShiftedChange | keyboards/handwired/dactyl_manuform/5x6/keymaps/wafle/vim.h:152-155 | a shift-latched change cuts to the line end exactly as the shifted delete does, keeps the newline fix, then enters insert mode |
| VimProperties.VisualCopy | keyboards/handwired/dactyl_manuform/5x6/keymaps/wafle/vim.h:170-176 | in visual mode yank and delete never build their own selection (no Shift press); Shift is released before the copy or cut |
| VimProperties.ChangeEntersInsertOnce | keyboards/handwired/dactyl_manuform/5x6/keymaps/wafle/vim.h:177-179 | a change moves to the insert layer exactly once, as its last event; no other command moves layers |
| VimProperties.ExecuteArchivesAndResets | keyboards/handwired/dactyl_manuform/5x6/keymaps/wafle/vim.h:177-214 | every command ends with the default command pending; a change archives the default command, any other command archives itself |
| VimProperties.UndoTaps | keyboards/handwired/dactyl_manuform/5x6/keymaps/wafle/vim.h:193-195 | `u` taps Control+Z exactly `MAX(1, repeat)` times |
| VimProperties.UndoPasteDispatch | keyboards/handwired/dactyl_manuform/5x6/keymaps/wafle/vim.h:348-355 | `u` and `p` run `execute_current` with that action and the current shift latch |
| VimProperties.ExecutePaste | keyboards/handwired/dactyl_manuform/5x6/keymaps/wafle/vim.h:183-192 | a paste emits only the paste branch |
| VimProperties.PasteCounts | keyboards/handwired/dactyl_manuform/5x6/keymaps/wafle/vim.h:183-192 | the paste branch holds `MAX(1, repeat)` pastes, as many Enters when pasting lines, and one Left exactly when shift-latched |
| VimProperties.RoundsEnterFirst | keyboards/handwired/dactyl_manuform/5x6/keymaps/wafle/vim.h:190 | in line-wise paste rounds every Control+V press comes straight after an Enter tap |
| VimProperties.PasteOrder | keyboards/handwired/dactyl_manuform/5x6/keymaps/wafle/vim.h:183-192 | the paste branch's order: Left first when shift-latched; a line-wise paste taps End, opens a new line before each Control+V and ends with a Home tap; otherwise it is exactly `MAX(1, repeat)` Control+V taps |
| VimProperties.LineWisePasteOrder | keyboards/handwired/dactyl_manuform/5x6/keymaps/wafle/vim.h:187-191 | a line-wise paste taps End, then rounds with an Enter tap before each Control+V, then Home |
| VimProperties.PlainPasteOrder | keyboards/handwired/dactyl_manuform/5x6/keymaps/wafle/vim.h:190 | a paste that is not line-wise is exactly `n` Control+V taps |
| VimProperties.PasteCount | keyboards/handwired/dactyl_manuform/5x6/keymaps/wafle/vim.h:349-354 | pressing `p` pastes `MAX(1, repeat)` times, line-wise after a line copy, stepping left first when shift-latched |
| VimProperties.IndentKeyCount | keyboards/handwired/dactyl_manuform/5x6/keymaps/wafle/vim.h:196-205 | for a `j`/`k` motion, the indent branch taps its key `INDENT_SIZE` times on each of `repeat + 1` lines |
| VimProperties.IndentVerticalCount | keyboards/handwired/dactyl_manuform/5x6/keymaps/wafle/vim.h:200-211 | for a `j`/`k` motion, the indent branch moves `repeat` lines in each direction |
| VimProperties.IndentLines | keyboards/handwired/dactyl_manuform/5x6/keymaps/wafle/vim.h:196-212 | for a `j`/`k` motion, indenting touches `repeat + 1` lines and returns to its starting line (as many Down taps as Up taps) |
| VimProperties.IndentSingleLine | keyboards/handwired/dactyl_manuform/5x6/keymaps/wafle/vim.h:196-200 | with no count or a motion other than `j`/`k`, indenting goes to the line start and taps its key `INDENT_SIZE` times, with no vertical move |
| VimProperties.JoinRoundsCount | keyboards/handwired/dactyl_manuform/5x6/keymaps/wafle/vim.h:181 | `n` join rounds hold `n` End, Delete and Space presses each |
| VimProperties.JoinKeyDispatch | keyboards/handwired/dactyl_manuform/5x6/keymaps/wafle/vim.h:306-311 | `j` while shift-latched runs `execute_current` with action join instead of moving |
| VimProperties.JoinWhenShifted | keyboards/handwired/dactyl_manuform/5x6/keymaps/wafle/vim.h:306-311 | shift-latched `j` emits exactly `MAX(1, repeat)` rounds of End, Delete and Space taps, so each of the three is pressed that many times, and is archived with action join |
| VimProperties.DoubledIndent | keyboards/handwired/dactyl_manuform/5x6/keymaps/wafle/vim.h:329-338 | the indent operators wait for a second press of the same key, which indents with motion `j` and is archived |
| VimProperties.IndentFirstPress | keyboards/handwired/dactyl_manuform/5x6/keymaps/wafle/vim.h:226-239 | the first press of an indent operator outside visual mode only records the action |
| VimProperties.IndentSecondPress | keyboards/handwired/dactyl_manuform/5x6/keymaps/wafle/vim.h:226-239 | a press of the pending indent operator indents with motion `j`, archives the command and starts a fresh one |
| VimProperties.ReplayWithoutCount | keyboards/handwired/dactyl_manuform/5x6/keymaps/wafle/vim.h:286-293 | `.` with no count replays the archived command unchanged |
| VimProperties.ReplayMultipliesCount | keyboards/handwired/dactyl_manuform/5x6/keymaps/wafle/vim.h:286-293 | `.` with a count `k` runs exactly the archived command, shift flag included, with its count times `k` modulo 2^16; unless it is a change, that command is archived in turn |
| VimProperties.VisualToggle | keyboards/handwired/dactyl_manuform/5x6/keymaps/wafle/vim.h:217-224 | `v` presses Shift on entering visual mode and releases it on leaving; toggling twice restores every global |
| VimProperties.InsertModeIdempotent | keyboards/handwired/dactyl_manuform/5x6/keymaps/wafle/vim.h:98-105 | insert mode clears visual mode, the latch and the command, keeps the rest, emits two releases and a layer move; applied twice it gives the same state |
| VimProperties.JumpersEnterInsert | keyboards/handwired/dactyl_manuform/5x6/keymaps/wafle/vim.h:253-284 | `o i a s` end in insert mode with its three events last and are not archived |
| VimProperties.SubstituteDeletes | keyboards/handwired/dactyl_manuform/5x6/keymaps/wafle/vim.h:281-284 | `s` taps forward delete exactly `MAX(1, repeat)` times before entering insert mode |
| VimProperties.PassThroughExactly | keyboards/handwired/dactyl_manuform/5x6/keymaps/wafle/vim.h:295-380 | an event passes through exactly when its keycode has no `case`, and then changes nothing and emits nothing |
| VimProperties.ReleaseIgnored | keyboards/handwired/dactyl_manuform/5x6/keymaps/wafle/vim.h:295-380 | releasing any key but the shift latch changes nothing and emits nothing |
| VimProperties.ShiftLatch | keyboards/handwired/dactyl_manuform/5x6/keymaps/wafle/vim.h:297-299 | the shift-latch key sets the latch to the press flag and does nothing else |
| VimProperties.DeleteTwoWords | keyboards/handwired/dactyl_manuform/5x6/keymaps/wafle/vim.h:242-251 | "d2w": Shift press, Control press, two Right taps, Control release, Shift release, Control+X tap; archived as delete, count 2, motion `w` |
| VimProperties.YankLine | keyboards/handwired/dactyl_manuform/5x6/keymaps/wafle/vim.h:226-233 | shift-latched `y`: line start, Shift press, End tap, Shift release, Control+C tap, Left tap; the newline fix is set |

## Left out

- The keymap tables and layout (`keymap.c`) hold no logic, and they are not part of this model.
- The test mock of the host (`tests/quantum.h`) is not modelled. Only its behaviour of recording presses and releases in one ordered list is kept. Its distinct numbers for `KC_DEL` and `KC_DELETE` are not kept: both are `Delete` here.
- The unit tests (`tests/vim_test.cpp`) exercise a different version of the interpreter (`normal_mode`, `in_normal_mode`), and they are not part of this model.
- `layer_move` is a call into the firmware's layer manager. It is recorded as a `LayerMove` event and has no further effect in the model.
- `config.h` and `print.h` are not modelled. `INDENT_SIZE` and `INSERT_MODE_LAYER` take their defaults in `vim.h` (2 and 0).
- The numbers of the keycodes (`SAFE_RANGE`, the `KC_*` values, the bit `LCTL` sets) are not modelled. The `VIM_*` codes form an enumeration, every other code is opaque, and `LCTL(k)` is the constructor `Ctrl(k)`.
- The model assumes a 32-bit `int`, as on the host build of the layer. On a controller with a 16-bit `int` it does not hold in two places:
  - `select_n_lines(int n, …)` (lines 114 and 157) would see counts of 32768 or more as negative and select a single line, where the model taps `repeat - 1` times.
  - The replay product (line 290) would be computed as `unsigned` and wrap, which the model's reduction modulo 2^16 matches.
- With a 32-bit `int`, the replay product `current.repeat *= repeat` is computed in `int` and overflows for products above 2^31 - 1. The model takes the product modulo 2^16, which is what the store into `uint16_t` gives whenever the `int` product does not overflow.
- Holding a motion key does not repeat it: the code taps on press and ignores the release, and the model does the same.
- What the host text editor does with the emitted keys is not modelled. Only the key stream is.
