# Minsky's Turing locator, modelled in Dafny

`minsky_locator.py` implements the locator stage of Minsky's Turing-machine copier. It uses
the state pattern. A `Locator` holds a tape of characters, built from a string of the form
`Y<target>X<location><content>X...Y`. It also holds a cursor, which starts on the first `X`,
and a current-state slot.

The six states are Left1, Left2, Right1, Right2, Right3 and Right4. Each has a fixed table
mapping a read symbol to a (write, next) pair. A state's `read` moves the cursor one cell at
a time, clamped at both ends of the tape, until the cell holds a symbol the table accepts.
`process` then does three things:

- it writes the rule's value under the cursor, unless that value is `None` or a verdict
  (`"Copy"`/`"Halt"`);
- it installs the next state, or keeps the same state when the table says `None`;
- it returns the write value.

`Locator.start` enters Left1 and steps until a step returns `"Copy"` or `"Halt"`. It then
returns the final tape and that verdict.

The model has six modules:

- `Tape`: the clamped cursor move (`State.shift`), written with the source's own
  truthiness-based expressions.
- `Transitions`: the six states and their tables, and lemmas about what the tables write and
  where they go.
- `Engine`: the machine as pure functions over a configuration (tape, cursor, current state).
  `FindAccepted` is `State.read` and `Step` is `State.process`. `Run` is the `Locator.process`
  loop, bounded by a fuel count, and it tells a run that finishes apart from one stuck in a
  read loop that can never return.
- `Validation`: `_validate_string` together with models of `str.split`, `str.strip` and
  `list.index` for one-character arguments.
- `Runner`: the `Locator` class over an `array<char>`, whose methods update the cursor, the
  current-state slot and the tape in place. `Shift` is proved against `Tape.ShiftPos`;
  `Read`, `ProcessState`, `Process` and `Start` are proved against the `Engine` functions. The constructor `Load` and the factory
  `New` are proved against `Validation.Validate` and `Validation.FirstIndex`.
- `Scenarios`: concrete runs and concrete validator verdicts, including the example in the
  class documentation.

Two behaviours of the code differ from its documentation, and the model follows the code:

- The class documentation calls `"Y101X101111"` a valid input. The validator rejects it
  because its last character is not `Y` (`Scenarios.DocstringRejects`). Started on its first
  `X` anyway, the machine does produce the documented `("Y101XBAB111", "Copy")`
  (`Scenarios.DocstringRun`).
- Validation does not guarantee termination. `"Y11X1YY"` passes validation: its target `"11"`
  is shorter than `"1YY"`. On it, Right3 searches rightwards for a digit, reaches the last `Y`
  and re-reads it forever (`Scenarios.ValidInputHangs`, `Scenarios.ValidInputNeverFinishes`).

## Model

| member | source | states |
|---|---|---|
| `Tape.ShiftPos` | minsky_locator.py:64-74 | The new cursor stays on the tape. It stays put exactly on the end cell it would run past (0 moving left, the last cell moving right); otherwise it moves by exactly one cell in the state's direction. |
| `Runner.Locator.Shift` | minsky_locator.py:64-74 | The method updates the locator's cursor in place, to the position `ShiftPos` gives for the state's direction. |
| `Engine.FindAccepted` | minsky_locator.py:76-83 | When the read loop stops, it stops on a cell of the tape holding a symbol the state accepts. |
| `Engine.FindAcceptedNearest` | minsky_locator.py:76-83 | The read loop stops on the nearest accepted cell ahead of the cursor, with no accepted cell strictly between. It never stops exactly when no cell ahead is accepted, the clamped end cell included. |
| `Runner.Locator.Read` | minsky_locator.py:76-83 | The loop leaves the cursor on the cell `FindAccepted` names and returns that cell's symbol, which the state accepts. |
| `Transitions.Rewrites` | minsky_locator.py:112-142 | A rule writes a tape symbol exactly in two cases: Left1, Right2 or Right3 reading a digit, which it marks (`0`→`A`, `1`→`B`); or Right1 reading a marked digit, which it unmarks (`A`→`0`, `B`→`1`). |
| `Transitions.WriteKeepsBit` | minsky_locator.py:112-142 | Every written symbol differs from the read one but stands for the same bit, and no rule writes over an `X` or a `Y`. |
| `Transitions.StayOnlyInLeft1` | minsky_locator.py:112-142 | The `None` next state (stay in the same state) occurs exactly for Left1 reading `0` or `1`. |
| `Transitions.TerminalRules` | minsky_locator.py:124-142 | A write is a verdict exactly when the next state is that same verdict. Copy comes only from Right1 reading `X`, and Halt only from Right4 reading `Y`. |
| `Engine.Step` | minsky_locator.py:85-98 | A step that returns leaves the cursor on the tape. A step that returns no verdict leaves the machine in a state. |
| `Engine.StepFrame` | minsky_locator.py:85-98 | A step returns exactly when its read does. It leaves the cursor where the read stopped and changes at most that cell, writing the rule's symbol and never a verdict. It returns the rule's write and moves to the rule's next state, staying in the same state on `None`. It stops the machine exactly when it returns a verdict: Copy on an `X` read by Right1, Halt on a `Y` read by Right4. |
| `Engine.StepKeepsBits` | minsky_locator.py:89-93 | A corollary of `StepFrame`, in the form the run lemmas use: a step keeps the bits and delimiters of the tape, and a verdict leaves the cursor on the `X` or `Y` it was read from. |
| `Runner.Locator.ProcessState` | minsky_locator.py:85-98 | The in-place read, write and state change produce exactly the configuration, and return exactly the write value, that `Step` gives for the old tape and cursor. |
| `Engine.RunFinishedReads` | minsky_locator.py:47-49 | A run that finishes takes at least one step, and its first read returns. |
| `Engine.RunPreserves` | minsky_locator.py:41-50 | A finished run returns a tape of the input's length that stands for the same bits and delimiters, with the cursor on the `X` (Copy) or `Y` (Halt) that ended it. |
| `Engine.RunKeepsDelimiters` | minsky_locator.py:41-50 | Every `X` and `Y` of the tape stays where it was, and none is created. |
| `Engine.RunMonotone` | minsky_locator.py:47-49 | Adding fuel does not change a run that did not run out of fuel. |
| `Engine.RunAgrees` | minsky_locator.py:47-49 | Any two fuel bounds under which a run does not run out give the same outcome, so the verdict and final tape do not depend on the bound. |
| `Engine.HangsNeverFinish` | minsky_locator.py:47-49 | A run that gets stuck in a read loop under some fuel does not finish under any fuel. |
| `Runner.Locator.Process` | minsky_locator.py:41-50 | The loop steps the locator in place until a step returns a verdict. It returns the final tape and that verdict, which are the outcome `Run` gives from the state on entry. |
| `Runner.Locator.Start` | minsky_locator.py:52-58 | The method starts the run in Left1 and returns `Run`'s outcome from there. The returned tape is the locator's tape, as long as the input and standing for the same bits, with the cursor on the `X` of a Copy or the `Y` of a Halt. |
| `Validation.Split` | minsky_locator.py:34 | `str.split` gives at least one segment, and no segment contains the separator. |
| `Validation.SplitJoin` | minsky_locator.py:34 | Joining the segments of a split with the separator gives back the input. |
| `Validation.SplitFirst` | minsky_locator.py:34-37 | The first segment is the text before the first separator. There are two or more segments exactly when the separator occurs, and then the rest are the split of the text after the first separator. |
| `Validation.FirstIndex` | minsky_locator.py:30 | `index("X")` is a position holding `X` with no `X` before it. |
| `Validation.StripLeft` | minsky_locator.py:35 | The result is a suffix of the input that does not start with the stripped character, and only that character was dropped. |
| `Validation.StripRight` | minsky_locator.py:35 | The result is a prefix of the input that does not end with the stripped character, and only that character was dropped. |
| `Validation.Strip` | minsky_locator.py:35 | `strip("Y")` is empty exactly when the input is all `Y`; otherwise it neither starts nor ends with `Y`. |
| `Validation.StripSlice` | minsky_locator.py:35 | `strip("Y")` returns the slice of the input that remains after dropping a leading run of `Y` and a trailing run of `Y`. |
| `Validation.Validate` | minsky_locator.py:32-39 | On success the validator returns the input's characters unchanged, and the input contains an `X`. |
| `Validation.FirstTwoUnits` | minsky_locator.py:34-37 | When the input contains an `X`, `units[0]` is the text before the first `X`, and `units[1]` exists and is the text from there up to the next `X` (or the end). |
| `Validation.ValidateLength` | minsky_locator.py:37 | For a `Y`-delimited string containing an `X`, the validator accepts exactly when the stripped target is non-empty and shorter than `units[1]`. It fails the length check exactly when the target is non-empty but not shorter. |
| `Validation.ValidateIff` | minsky_locator.py:32-39 | The validator accepts exactly when the string is non-empty, starts and ends with `Y` and contains an `X`, and the `Y`-stripped text before the first `X` is non-empty and shorter than the text up to the next `X` (or the end). |
| `Validation.ValidateDelimiters` | minsky_locator.py:33 | The empty string fails as an empty input, and a non-empty string fails on its delimiters exactly when it does not start and end with `Y`. |
| `Validation.ValidateNoTarget` | minsky_locator.py:34-36 | A `Y`-delimited string fails the target check exactly when it has no `X`, or only `Y`s before its first `X`. |
| `Runner.Locator.Load` | minsky_locator.py:29-30 | The tape holds the input's characters, the cursor is on the first `X`, and no state is installed yet. |
| `Runner.Locator.New` | minsky_locator.py:23-30 | Construction fails exactly when validation does, with the same error. On success the locator holds the input with the cursor on its first `X`. |
| `Scenarios.DocstringStart` | minsky_locator.py:30 | The cursor of the documented example starts at index 4. |
| `Scenarios.DocstringMarkTarget` | minsky_locator.py:17-20 | In the documented example, Left1 marks the target `101` as `BAB` and turns at the opening `Y`. |
| `Scenarios.DocstringFirstDigit` | minsky_locator.py:17-20 | Then the first target digit is unmarked and the first candidate digit is marked. |
| `Scenarios.DocstringSecondDigit` | minsky_locator.py:17-20 | Then the second target digit is unmarked and the second candidate digit is marked. |
| `Scenarios.DocstringThirdDigit` | minsky_locator.py:17-20 | Then the third digit is matched, and Right1 reaches the `X` and returns Copy on `Y101XBAB111`. |
| `Scenarios.DocstringRun` | minsky_locator.py:17-20 | Started on the first `X` of `Y101X101111`, the run returns `("Y101XBAB111", Copy)` with the cursor on that `X`. |
| `Scenarios.DocstringRejects` | minsky_locator.py:17-18 | `Y`, `YY`, `Y11X1`, `Y11X11`, `YX11` and `YX11Y` are refused, each with its specific error, and so is the example `Y101X101111`. |
| `Scenarios.MismatchIsValid` | minsky_locator.py:32-39 | `Y11X00Y` passes validation and starts at index 3. |
| `Scenarios.MismatchMarkTarget` | minsky_locator.py:112 | Left1 marks the target `11` as `BB` and turns at the opening `Y`. |
| `Scenarios.MismatchFirstDigit` | minsky_locator.py:124-142 | The target digit `1` meets the candidate `0`. Right3 goes to Right4, which returns Halt on the closing `Y`. |
| `Scenarios.MismatchHalts` | minsky_locator.py:41-50 | `Y11X00Y` is valid, and its run returns `("Y1BXA0Y", Halt)`. |
| `Scenarios.HangIsValid` | minsky_locator.py:32-39 | `Y11X1YY` passes validation and starts at index 3. |
| `Scenarios.HangMarkTarget` | minsky_locator.py:112 | Left1 marks the target `11` as `BB` and turns at the opening `Y`. |
| `Scenarios.HangFirstDigit` | minsky_locator.py:124-136 | The first target digit is matched against the only candidate digit. |
| `Scenarios.HangSecondDigit` | minsky_locator.py:76-83 | Right3 then looks right for a digit, reaches the last `Y`, and its read never returns. |
| `Scenarios.ValidInputHangs` | minsky_locator.py:32-50 | The valid input `Y11X1YY` leads to a read loop that never returns. |
| `Scenarios.ValidInputNeverFinishes` | minsky_locator.py:47-50 | No fuel makes the run on `Y11X1YY` finish, so `start` never returns on this validated input. |

## Left out

- The `print` of the error message in `__init__` is not modelled. The re-raise of the assertion error becomes a `Failure` value, which carries one `ValidationError` per assertion message.
- `parse_string[0]` on an empty string raises an index error in the source, not an assertion error. It is modelled as the separate error `EmptyInput`.
- The source chooses a state's scan direction by reflection on its class name (`startswith("L")`). The model uses the fixed function `Transitions.Dir`, which agrees with it for all six states.
- The `read_write_next` lambdas rebuild a dictionary on each call. The model uses the fixed function `Transitions.Table`.
- The return annotation of `Locator.process` names `Tuple`, which the file never imports. Annotations play no part in the model.
- `Locator.start` is annotated as returning a list, but it returns the pair that `process` returns. The model returns the pair.
- The validator does not check the alphabet, and neither does the model: any character other than `X`, `Y`, `0`, `1`, `A` and `B` is simply never accepted by any state.
- Runner.Locator.Read: requires that the read loop stops (`FindAccepted` is `Some`). Where it does not, the source loops forever, and `Engine.FindAccepted` and `Engine.Run` (`Hangs`) model that case.
- Runner.Locator.ProcessState: requires that its read stops, for the same reason.
- Runner.Locator.Process: takes a ghost fuel and requires that `Run` finishes within it, because the source's loop need not end (`Scenarios.ValidInputNeverFinishes`). It also requires a state to be installed. The source raises an attribute error in both cases this excludes: calling `process` before `start`, and calling it again after a finished run, when `curr_state` holds the string `"Copy"` or `"Halt"` (line 97) and line 49 calls `process` on it.
- Runner.Locator.Start: takes a ghost fuel and requires that the run from Left1 finishes within it, as for `Process`.
- Runner.Locator.Start: its contract does not say what the verdict means. The class documentation's general claim (Copy exactly when some location matches the target) is not proved for all inputs; on the valid input `Y11X1YY` the run does not even end. The model proves what every run preserves, plus concrete runs that end with Copy, end with Halt, and hang.
- Proof helpers have no row above:
  - `Engine.RunStep` unrolls `Run` once, with the remaining fuel named, for `RunPreserves` and the loop of `Runner.Locator.Process`.
  - `Engine.SameBitsTrans` chains `SameBits`.
  - The per-step lemmas of `Scenarios` (`DocStep0`…, `MismatchStep0`…, `HangStep0`…) each evaluate one concrete `Step` and serve only the phase lemmas above them.
  - `Scenarios.ElevenTarget`, `Scenarios.MismatchParts` and `Scenarios.HangParts` evaluate `Strip`, `FirstIndex` and `UpTo` on the concrete inputs.
- The singletons `L1` … `R4` are state values: a state here is the datatype `Transitions.StateId` rather than an object.
