# Vibration stimuli test: trial sequencing model

The program runs a perception test. Each trial plays a short beep, pauses,
plays a tactile stimulus at some volume and frequency, and then records
whether the subject pressed the "Stimuli sensed" button (1) or not (0). The
response goes into the history of the stimulus record that was presented.
The next record is chosen by one of two strategies, set by `test_mode`:

- **random**: the records are the volume × frequency grid built by
  `Config.__init__`. Trials draw records at random that still need
  responses. The session ends once every record has reached `rounds_max`
  responses or `rounds_min` sensed responses.
- **staircase**: records are created one at a time. The first sits at the top
  frequency. Each new frequency moves one step from the last: down after a
  miss, up after a hit, while descending, and the other way round while
  ascending. A hit also cuts the step by a tenth. Once the step falls
  below the minimum step while descending, the staircase restarts
  from the bottom frequency with the largest step, now ascending. The
  session ends when the step falls below the minimum again while ascending.

The project has three modules:

- `Configuration` (config.dfy) models `Config.__init__`'s derived state:
  - how the comma-separated lists are split;
  - truncation to `int`;
  - the flattened meshgrid;
  - the initial staircase state;
  - the length of a trial.
- `Sequencing` (sequencing.dfy) models class `Test`, `get_next_test` and
  `is_trial_done`.
  - Both are methods over a `Config` object and a sequence of `Test` objects.
  - The staircase rule is also stated as a pure function, `Advance`, on
    controller values. The properties of the rule are proved about `Advance`.
- `TrialLoop` (trial_loop.dfy) models `main`.
  - The per-iteration state machine NO_TEST → OUTPUT_BEEP → OUTPUT_STIMULI is
    written as pure functions of the clock reading.
  - Class `Session` holds `main`'s local variables.
  - One loop iteration is `Session.Tick`, and a finite sequence of iterations
    is `Session.Run`.
  - The invariant `Session.Valid` is kept by every step. In words:
    - the record that is presented is one the strategy may present;
    - histories hold only 0/1;
    - random records keep their grid position and never exceed `rounds_max`;
    - staircase records each hold exactly one response, except the last one;
    - the count of recorded responses equals `test_count` while the session
      runs, and is one more once it has exited, because `exit()`
      (start_test.py:189) comes before `test_count += 1` (start_test.py:193);
    - the session exits (the `exited` flag) only when `is_trial_done` said so.
      Closing the window also ends the loop (start_test.py:197-198), but
      through `running`, not through `exited`.

Design decisions and points where the code decides:

- The staircase rule appends the previous frequency plus or minus the step
  *in force*, and only then cuts the step (start_test.py:39-40, :47-48).
  - With top 100, bottom 0 and steps from 50 down to 5, the sequence goes
    100, then 50 after a miss, then back to 100 after a hit, with step 45 from
    then on.
  - A description that shrinks the step first would give 95.
  - The model follows the code, and `Sequencing.StaircaseExample` states this
    sequence.
- `get_next_test` selects a record with one test (start_test.py:20-21) and
  `is_trial_done` finishes with another (start_test.py:57-58). The selection
  test has an extra `len(...) < rounds_min` disjunct.
  - For 0/1 histories the two agree (`Sequencing.EligibleIffUnfinished`).
  - So the rejection loop at start_test.py:18-22 always has a record to find
    whenever `is_trial_done` said "not done" (`Sequencing.NotDoneIffSomeEligible`).
- The first call of `get_next_test` (start_test.py:142) sees an empty list in
  staircase mode and appends the top record. It does not reset the mode or
  the step; those come from `Config.__init__`.
- For a `test_mode` other than the two known values, `get_next_test` returns
  `None` (modelled as `null`) and `is_trial_done` returns `None`, which is
  falsy (modelled as `false`).
- The "sensed" response is read as "last history entry is not 0", exactly as
  `sensed_history[-1] == 0` is tested.

## Model

| member | source | states |
|---|---|---|
| Configuration.RemoveSpaces | config.py:27 | the result has no space, every other character occurs as often as in the input, and a string without spaces comes back unchanged |
| Configuration.RemoveSpacesAppend | config.py:27 | removing spaces from a concatenation gives the concatenation of the results, so the kept characters stay in their order; with the single-character cases of `RemoveSpaces` this fixes the result |
| Configuration.Split | config.py:27 | `str.split` always gives at least one piece (its full contract is `SplitSpec` and `SplitJoin`) |
| Configuration.SplitSpec | config.py:27 | `split` gives one more piece than there are separators, no piece holds a separator or a foreign character, and joining the pieces with the separator gives the input back |
| Configuration.SplitJoin | config.py:27 | splitting a joined non-empty list of separator-free pieces gives the list back |
| Configuration.Pieces | config.py:27-29 | a list entry gives one piece per comma plus one, pieces hold no comma or space, and joined with commas they give the entry without spaces |
| Configuration.ParseVolumes | config.py:27 | `stimuli_volumes` has one entry per piece of the entry, in order, each the piece converted by `float` |
| Configuration.ParseFrequencies | config.py:29 | `stimuli_frequencies` has one entry per piece of the entry, in order, each the piece converted by `float` and then truncated by `int` |
| Configuration.Truncate | config.py:29 | `int()` of a float truncates toward zero: the result is within one of its argument, on the side of zero |
| Configuration.Meshgrid | config.py:54 | both arrays have one row per frequency and one column per volume; with `indexing='xy'`, row `i`, column `j` holds volume `j` in the first and frequency `i` in the second |
| Configuration.Flatten | config.py:55-56 | every entry of every row occurs in the flattened array, and nothing else does |
| Configuration.FlattenLength | config.py:55-56 | flattening rows of equal width gives rows × width entries |
| Configuration.FlattenAt | config.py:55-56 | flattening rows of width `m` puts row `i`, column `j` at position `i * m + j` |
| Configuration.GridVolumes | config.py:54-55 | the flattened volume grid has one entry per volume-frequency pair |
| Configuration.GridFrequencies | config.py:54-56 | the flattened frequency grid has one entry per volume-frequency pair |
| Configuration.GridPairAt | config.py:54-56 | volume `j` paired with frequency `i` sits at position `i * m + j` of both flattened grids |
| Configuration.GridAt | config.py:54-56 | position `k` of the grids holds volume `k mod m` and frequency `k div m` |
| Configuration.GridPairOnce | config.py:54-56 | with distinct volumes and distinct frequencies, every pair occurs at exactly one position |
| Configuration.Config.constructor | config.py:5-56 | every scalar is stored as given; the lists are `ParseVolumes` and `ParseFrequencies` of their entries; staircase mode starts top-to-bottom at the largest step; the trial length is the sum of the four durations; the random grid is the flattened meshgrid, and it is empty in other modes |
| Sequencing.Test.constructor | start_test.py:76-80 | a record stores its volume and frequency and starts with an empty history |
| Sequencing.SumBounds | start_test.py:21 | a 0/1 history sums to between 0 and its length |
| Sequencing.EligibleIffUnfinished | start_test.py:20-21 | for 0/1 histories, a record passes the selection test exactly when it passes the not-finished test of start_test.py:57-58 |
| Sequencing.NotDoneIffSomeEligible | start_test.py:53-60 | a random session is not done exactly when some record can still be drawn |
| Sequencing.NextRandom | start_test.py:16-23 | the returned record is one of the records and passes the selection test |
| Sequencing.IsRandomDone | start_test.py:54-60 | the result is true exactly when no record is still unfinished |
| Sequencing.Shrink | start_test.py:40 | the step cut by a tenth and truncated is `9 * step / 10` rounded toward zero; a non-zero step strictly shrinks in magnitude without changing sign, and zero stays zero |
| Sequencing.Advance | start_test.py:26-49 | the staircase rule on values: the mode changes only at the flip, and then to ascending; the step is kept, cut by a tenth, or reset to the largest step; with no previous record the new frequency is the top one |
| Sequencing.AdvanceStepBound | start_test.py:26-49 | the step never exceeds the largest step in magnitude |
| Sequencing.AdvanceKeepsAscending | start_test.py:29-49 | once bottom-to-top, the mode stays bottom-to-top |
| Sequencing.AdvanceFlip | start_test.py:29-33 | when the flip is due, the rule restarts at the bottom frequency with the largest step, ascending |
| Sequencing.AdvanceMove | start_test.py:35-49 | away from the flip, the new frequency is the last one plus or minus the current step; the direction depends on the mode and the last response; a hit shrinks the step, a miss keeps it, and the mode is kept |
| Sequencing.AdvanceProgress | start_test.py:26-49 | with a non-zero minimum step, while not done, the measure of remaining progress never grows, and the flip and every hit lower it strictly |
| Sequencing.StaircaseExample | start_test.py:43-49 | top 100, steps 50 to 5: 100, then 50 after a miss, then 100 after a hit with the step cut to 45, then 55 after a miss |
| Sequencing.NextStaircase | start_test.py:25-51 | appends exactly one fresh record with volume 1.0 and an empty history, returns it, and leaves the controller and the record's frequency as the staircase rule gives |
| Sequencing.NextTest | start_test.py:15-51 | random: returns a record that may be drawn, with nothing changed; staircase: as `NextStaircase`; any other mode: returns null and changes nothing |
| Sequencing.Finished | start_test.py:53-67 | the value of `is_trial_done`: only the two known modes ever finish; random is finished exactly when every record has `rounds_max` responses or `rounds_min` sensed ones; a finished staircase is ascending with its step below the minimum |
| Sequencing.IsTrialDone | start_test.py:53-67 | random: no record is unfinished; staircase: the step is below the minimum while ascending; any other mode: false |
| TrialLoop.Clock | start_test.py:147-174 | the clock never moves a trial backwards; the start time changes only when a trial starts from NO_TEST, and then to the clock reading; the stimulus starts only once more than the beep and its pause have passed |
| TrialLoop.TickPhase | start_test.py:147-182 | after the resolution test the start time is the clock's; any state but NO_TEST is the clock's; a trial that was under way returns to NO_TEST only once a whole trial's length has passed since its start |
| TrialLoop.ClockFromNoTest | start_test.py:147-168 | when beep duration plus pause is not negative: from NO_TEST the clock moves to OUTPUT_BEEP with a restarted start time exactly when more than a trial's length has passed, and no resolution follows in the same iteration (with a negative sum the three tests can all fire in one iteration) |
| TrialLoop.ClockFromBeep | start_test.py:170-174 | from OUTPUT_BEEP the clock moves to OUTPUT_STIMULI, keeping the start time, exactly when more than beep plus pause has passed |
| TrialLoop.ClockFromStimuli | start_test.py:176 | in OUTPUT_STIMULI the clock changes nothing, and resolution is due exactly from the start time plus a trial's length on |
| TrialLoop.TimingExample | start_test.py:176 | with the durations 0.1, 0.05, 0.2 and 0.1 s, a trial resolves exactly from 0.45 s after its start |
| TrialLoop.ResponsesUpdate | start_test.py:178-180 | appending a response to one history adds one to the number of recorded responses |
| TrialLoop.GridTests | start_test.py:108-114 | one fresh record per grid position, in position order, each with that position's volume and frequency and an empty history, no record twice |
| TrialLoop.Record | start_test.py:177-180 | the record's history gets the response appended, and the histories of the other records are unchanged |
| TrialLoop.RecordRandom | start_test.py:177-180 | recording a 0/1 response on a record that may be drawn keeps all histories 0/1 and within `rounds_max` |
| TrialLoop.RecordStaircase | start_test.py:177-180 | recording the response on the last staircase record completes it with exactly one response |
| TrialLoop.ExtendStaircase | start_test.py:27-49 | appending a fresh staircase record after a completed one keeps the staircase shape |
| TrialLoop.Session.constructor | start_test.py:108-142 | the session starts in NO_TEST at start time -8, with nothing sensed and count 0; it holds the grid records (random) or the single top record (staircase), each fresh with an empty history; it satisfies the session invariant with an active record |
| TrialLoop.Session.Begin | start_test.py:142 | the first `get_next_test` makes a presentable record active and establishes the session invariant |
| TrialLoop.Session.RecordResponse | start_test.py:176-182 | the active record's history gets 1 if the button was pressed during the trial and 0 otherwise; the state returns to NO_TEST; the record invariant holds with the response counted |
| TrialLoop.Session.Continue | start_test.py:183-193 | the session exits exactly when `is_trial_done` holds, with nothing else changed; otherwise the count goes up by one and a presentable record becomes active: random leaves the records and the configuration alone; staircase appends the fresh record the staircase rule asks for |
| TrialLoop.Session.DrawRandom | start_test.py:191-193 | while the random session is not done, a record that may be drawn becomes active and the count goes up by one |
| TrialLoop.Session.DrawStaircase | start_test.py:191-193 | while the staircase is not done, the record the rule asks for is appended and made active; the controller moves as `Advance` says, and the count goes up by one |
| TrialLoop.Session.AdvanceClock | start_test.py:147-174 | the trial state and start time move as the clock function says, and the sensed flag is cleared exactly when a new trial starts |
| TrialLoop.Session.Events | start_test.py:196-204 | closing the window stops the loop, and pressing the button sets the sensed flag |
| TrialLoop.Session.Resolve | start_test.py:176-193 | the active record gets its response and every other record keeps its history; the state is NO_TEST; the session exits exactly when `is_trial_done` holds on the updated histories, and then the records, the count and the configuration stay as they were; otherwise the count goes up by one; random mode keeps the records and the configuration; staircase mode appends the fresh record that `Advance` gives for the controller and the just-answered record; the invariant is kept |
| TrialLoop.Session.Settle | start_test.py:176-193 | when the trial's time is up it is resolved as in `Resolve`: the bit is appended, the session exits exactly when `is_trial_done` holds, in staircase mode without exit the new record and the controller follow `Advance` from the just-answered record, and random mode leaves the configuration alone; otherwise nothing changes; either way the histories only grow, and only the active one changes; the number of recorded responses goes up by one exactly when the trial was due |
| TrialLoop.Session.Respond | start_test.py:176-204 | `Settle`, including its staircase `Advance` clause, the unchanged configuration in random mode and the count of recorded responses, then, unless the session exited, the button and quit events; an exit leaves `running` as it was |
| TrialLoop.Session.Tick | start_test.py:143-204 | one loop iteration: the trial state follows `TickPhase`; a resolved trial appends the response (the sensed flag as it stood after the clock) to the active record, the session exits exactly when `is_trial_done` holds on the updated histories, and otherwise the count goes up by one and, in staircase mode, the new record and the controller follow `Advance` from the just-answered record; random mode never changes the configuration, and an ascending staircase stays ascending; an unresolved one changes no record, count or configuration; events are processed unless the session exited; the histories only grow and only the active one changes; the number of recorded responses goes up by one exactly when the clock leaves a trial due for resolution; a quit stops the loop unless the session exited, and the loop stops only at a quit; the invariant is kept |
| TrialLoop.QuitsSome | start_test.py:196-198 | `Quits` over the first `n` inputs holds exactly when one of them closes the window |
| TrialLoop.Session.Run | start_test.py:143-204 | running over the inputs keeps the invariant; the trial state is `TickPhase` folded over the clock readings taken; the records list only grows, every history only grows, and the count never falls; random mode leaves the configuration unchanged, and once the staircase is ascending it stays ascending; the number of recorded responses grows by exactly `Resolutions`, the count of iterations taken whose clock leaves a trial due (start_test.py:176); no input before the last one taken closes the window; it stops early only when the session is over or directly after the input that closed the window; it is over only when `is_trial_done` holds on the final histories |

## Left out

- `get_sound`, the pygame mixer, window and button widgets, and sound playback are not modelled. The model only keeps the timing for when each sound would start.
- The real-time clock and the event queue become inputs: a clock reading per iteration (`Input.now`), a "button pressed" flag and a "window closed" flag.
- The `random.randint` draws of the rejection loop become a nondeterministic choice among the records the loop could accept. The loop's termination under a fair random source is not modelled.
- Logging, `dump_csv` and the `exit()` call are not modelled. `exit()` becomes the `exited` flag, which stops the session.
- Reading `config.ini` with configparser is left out. The parsed values are constructor parameters, and `float()` on one list piece is the function parameter `toFloat`.
- Floating-point arithmetic is modelled as exact real arithmetic. This covers the durations, the clock comparisons and `int(step - step/10)`.
- Some settings that the trial logic never reads are not fields of `Config`: `sampling_frequency`, `encoding_bits`, `beep_volume`, `beep_frequency` and `output_folder`. `pause_start` is stored but never used, as in the source.
- The attributes that the source leaves unset outside their mode are represented by placeholder values:
  - `staircase_mode` outside staircase mode is `None`;
  - `volumes` and `frequencies` outside random mode are empty.
- The staircase records list is mutated in place by `tests.append` (start_test.py:27-49). `get_next_test` returns the extended sequence instead, and the session stores it. Aliasing between `main`'s list and the function argument is not modelled.
- TrialLoop.Session.constructor: it requires `rounds_max > 0` and `rounds_min > 0` in random mode. Without them no record can ever be drawn, and the first call of `get_next_test` (start_test.py:142) would loop forever.
- TrialLoop.Session.constructor: it requires a known `test_mode`. With any other mode, `main` would dereference `None` at start_test.py:157.
- TrialLoop.Session.constructor: it requires a current step no larger in magnitude than the largest step. The constructor for `Config` always sets the current step to the largest step.
- Configuration.Config.Valid keeps only the list lengths and the tie between `staircase_mode` being set and staircase mode. The exact grid contents are stated by the constructor and then carried by `TrialLoop.GridTests` into the session invariant.
- Quitting the window ends `main` without writing results. This is modelled by `running` becoming false, and nothing else.
