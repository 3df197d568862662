# Vitrek V7X hipot tester: a Dafny model of the instrument protocol engine

The hipot tester drives a Vitrek V7X withstand/insulation tester through a Silicon Labs
HID-to-UART bridge. Commands are ASCII lines ending in CR and replies are lines ending in LF.
This project models the parts of the program that decide what goes over that line, and what
the program makes of the replies:

- **Current-limit codec** (`parse_current_input`, module `Parsing`). It recognises
  `-?\d*\.?\d+([eE][-+]?\d+)?\s*[mu]?[aA]?` after `strip()`. The exact decimal value is
  scaled to amps and rendered the way Python's `%g` renders it. Blank input gives `""`, and
  a text that does not match, or that has a bare `m`/`u` unit, gives no value.
- **Decoding tables** (module `Constants`): the test types, the 17 status-flag bits, the
  termination states, the timeouts and the bridge's status codes.
- **The bridge** (module `Transport`). The vendor library is a class `Bridge` whose calls
  consume scripts: one write outcome per write, and one read answer per single-byte read
  (a byte, a time-out or an error, with its duration). Time is a millisecond `clock`.
  Every call other than a read is recorded in `calls`. The drivers record what their
  callers see (commands, queries and replies) in a ghost `log`.
- **The library driver** (`V7xDevice`, module `Device`). It covers open and close with
  their roll-back rules, CR framing, and the byte-by-byte reply loop. That loop's deadline
  runs from the start of the read. A pure function `LibScan` specifies the loop.
- **The sequence engine** (`TestSequencer`, module `Sequencer`). It builds the `ADD`
  command per test type and checks the error register after `ADD` and `NOSEQ`. It clears
  the local sequence only on a confirmed `NOSEQ`. It polls `RUN?` until done, with an
  `ABORT` path and a one-hour ceiling. It collects `RSLT?` and one `STEPRSLT?,i` per step,
  and splits each record into named fields.
- **The command-line variant** (module `HipotCmd`). It has its own send, read and query
  functions over a raw handle. Its reply loop restarts the deadline after every byte
  (`CliScan`). The run takes its step count from `STEP?`. The interactive set-up loop is
  driven by a script of operator answers.
- **The main window's decision logic** (module `MainWindow`):
  - a dialog step is appended only after the device accepts it;
  - a loaded sequence is programmed until the first refusal;
  - the status bitmask is decoded into reasons, and termination codes into their texts;
  - the run is mapped to the rows of the results table;
  - a finished run is handled by showing it and then logging it.

Every method that talks to the instrument states its effect on the log as a sequence of
exchanges, and its result in terms of that sequence. Every reply loop is proved against a
pure scan function. Separate lemmas derive the promised behaviours from those functions.

`_parse_step_result` (testing/test_sequencer.py:230-247) returns an empty record, not
"no record", when a reply has fewer than six fields. The model follows the code here.
`Sequencer.ParsedStep.NoFields` is that empty record.

## Model

| member | source | states |
|---|---|---|
| Parsing.ParseCurrentInput | utils/parsing.py:3-42 | `""` exactly for blank input; any other result is the `%g` text of the exact decimal value the pattern and unit check accepted, and never holds a comma |
| Parsing.ParseCurrentAccepts | utils/parsing.py:12-42 | any number with optional unit, surrounded by and separated by whitespace, is accepted exactly when its unit is none, `A`, `mA` or `uA` (any case), and gives the `%g` of its value scaled to amps |
| Parsing.ParseCurrentAccepted | utils/parsing.py:12-42 | conversely, every accepted non-blank input is whitespace, a well-formed number, whitespace, a known unit and whitespace, and the result is that number's value in amps |
| Parsing.ParseCurrentWhitespace | utils/parsing.py:9-19 | whitespace-only input is not blank: it strips to nothing, fails the pattern and gives no value |
| Parsing.ScanNumberComplete | utils/parsing.py:15 | the number recogniser reads back exactly the number written in front of any text that cannot continue it |
| Parsing.MatchCurrentComplete | utils/parsing.py:15 | the whole pattern splits a number, its whitespace and a unit back apart |
| Parsing.UnitPowers | utils/parsing.py:28-38 | units are case-insensitive; none or `a` scales by 1, `ma` by 10^-3, `ua` by 10^-6, and a bare `m` or `u` is rejected |
| Parsing.ParseTenMilliamps | utils/parsing.py:3-8 | `"10mA"` gives `"0.01"` |
| Parsing.ParseFifteen | utils/parsing.py:3-8 | `"15"` gives `"15"` |
| Parsing.ParseBareMilli | utils/parsing.py:30-38 | `"10 m"` gives no value |
| Parsing.ParseTrailingPoint | utils/parsing.py:15-19 | `"5."` gives no value: a point needs a digit after it |
| Parsing.RoundSignificant | utils/parsing.py:42 | rounding keeps at most six significant digits and leaves a coefficient of six digits or fewer unchanged |
| Parsing.TrimZerosRestores | utils/parsing.py:42 | dropping trailing zeros removes zeros only |
| Parsing.FormatGInteger | utils/parsing.py:42 | `%g` prints an integer below a million as its decimal digits |
| Parsing.FormatGExamples | utils/parsing.py:42 | 10 x 10^-3 renders as `0.01` |
| Parsing.FormatG | utils/parsing.py:42 | the `%g` text of a value is never empty and holds only digits, `.`, `-`, `+` and `e`; RoundSignificant, TrimZerosRestores, FormatGInteger and FormatGExamples state its digits |
| Parsing.GTextHasNoComma | utils/parsing.py:42 | `%g` text holds no comma, so a converted limit is always one field of a command |
| Constants.StatusFlagsAreBits | utils/constants.py:84-102 | the flag table has 17 entries and entry i is bit 2^i |
| Constants.StatusFlagDescriptionsDistinct | utils/constants.py:84-102 | no two flags share a description |
| Constants.TestTypeKeys | utils/constants.py:74-80 | the test types are exactly ACW, DCW, IR, CONT and GND |
| Constants.TerminationStateKeys | utils/constants.py:105-113 | the termination codes are `0` to `4` and `?`, and `4` is "Completed Normally" |
| Constants.ReadStatusesDistinct | utils/constants.py:20-29 | a read time-out and success are distinct statuses, and a read error is neither |
| Common.IntOf | hipot_cmd.py:290 | Python's `int()` of a text: a value only for non-blank text; SelectionOfNumber, StepCountOfReply and StepCountIgnoresSpaces state what it reads |
| MainWindow.StatusFlagTable | utils/constants.py:84-102 | the flag table is a table of distinct single bits with distinct descriptions |
| Transport.Reply | device/v7x_device.py:263-277 | a failed read gives no reply; a read past its deadline that kept nothing gives no reply; otherwise the kept text stripped |
| Device.Frame | device/v7x_device.py:197-198 | the frame ends in exactly one added CR: it is the command itself exactly when that already ends in CR |
| Device.LibScan | device/v7x_device.py:234-258 | the reply loop ends by LF, by a read error, or at the deadline counted from the start of the read; it consumes no more than the script |
| Device.V7xDevice.constructor | device/v7x_device.py:25-37 | a new driver is closed with a null handle |
| Device.V7xDevice.FindDevice | device/v7x_device.py:107-115 | the device count, 0 without the library or when enumeration fails |
| Device.V7xDevice.Open | device/v7x_device.py:117-138 | open on an open device succeeds without a call; a failed open leaves it closed with a null handle; UART and time-out set-up only warn; only a failed flush rolls back through close |
| Device.V7xDevice.Close | device/v7x_device.py:140-158 | the device is always left closed; closing a closed device succeeds without a call |
| Device.V7xDevice.ConfigureUart | device/v7x_device.py:160-174 | on an open device one configuration call with the default settings, reported as success whatever its status |
| Device.V7xDevice.SetTimeouts | device/v7x_device.py:176-183 | on an open device one time-out call, reported as success whatever its status |
| Device.V7xDevice.FlushBuffers | device/v7x_device.py:185-192 | succeeds exactly when the device is open and the flush succeeds |
| Device.V7xDevice.SendCommand | device/v7x_device.py:194-221 | nothing is written when closed; otherwise one write of the frame, successful exactly when the write status is success, whatever the byte count |
| Device.V7xDevice.ReadLoop | device/v7x_device.py:234-258 | the loop ends where `LibScan` says, with the clock moved by the time it reports |
| Device.V7xDevice.ReadResponse | device/v7x_device.py:223-277 | no reply and no call when closed; otherwise the reply of `LibScan`, with the 50 ms poll time-out set first and the 100/1000 ms defaults restored on every path |
| Device.V7xDevice.QueryCommand | device/v7x_device.py:279-291 | a send, a 100 ms pause and a read; no read and no reply when the write fails |
| Device.V7xDevice.Enter | device/v7x_device.py:297-303 | raises "no devices" exactly when none is found; succeeds exactly when the device then opens |
| Device.V7xDevice.Exit | device/v7x_device.py:305-307 | the device is closed afterwards |
| Device.LibScanPrefix | device/v7x_device.py:238-253 | benign answers before the deadline are consumed in turn, kept without CR, and their time adds up |
| Device.ReadLine | device/v7x_device.py:238-244 | a reply ended by LF is the bytes before it with every CR dropped, stripped |
| Device.ReadEmptyLine | device/v7x_device.py:241-242 | a line holding only LF reads as `""`, not as no reply |
| Device.ReadError | device/v7x_device.py:254-265 | a read error loses everything collected and gives no reply |
| Device.ReadPartial | device/v7x_device.py:267-274 | without LF the loop stops at the deadline counted from the start; no data gives no reply, partial data gives the stripped text |
| Device.ReadSilence | device/v7x_device.py:250-253 | an instrument that never answers gives no reply |
| Protocol.StepQuery | testing/test_sequencer.py:222 | `STEPRSLT?,i` splits into the query name and the digits of i |
| Protocol.StepQueriesDistinct | testing/test_sequencer.py:221-226 | the queries of different steps differ, so each reply belongs to one step |
| Protocol.BuildAddCommand | testing/test_sequencer.py:133-136 | the loop builds `ADD,<type>` followed by `,<p>` per parameter |
| Protocol.AddCommandSplits | testing/test_sequencer.py:133-136 | with comma-free parameters the command splits back into `ADD`, the type and exactly the parameters, blanks included |
| Sequencer.StepType | testing/test_sequencer.py:71-74 | a step has a type exactly when its `type` field names a known test type |
| Sequencer.StepParameters | testing/test_sequencer.py:76-131 | only an ACW or DCW step can be refused its parameters; ParameterCounts and CurrentLimitsGate state the counts, the order and the gate |
| Sequencer.WithstandParameters | testing/test_sequencer.py:78-101 | no parameters exactly when a current limit did not convert; the converted minimum and maximum are the fourth and fifth parameters |
| Sequencer.StepCommand | testing/test_sequencer.py:70-136 | a command exists only for a known type whose parameters were built; StepCommandSplits states what it carries |
| Sequencer.ParameterCounts | testing/test_sequencer.py:76-122 | ACW and DCW send five parameters plus `GND` last when the ground check is on; IR five; CONT and GND four |
| Sequencer.CurrentLimitsGate | testing/test_sequencer.py:82-98 | an ACW or DCW step is rejected exactly when one of its current limits does not convert |
| Sequencer.UnknownTypeRejected | testing/test_sequencer.py:71-74 | a step without a known type is rejected |
| Sequencer.BareMilliLimitRejected | testing/test_sequencer.py:82-86 | an ACW step with limit `10 m` is rejected before anything is sent |
| Sequencer.StepCommandSplits | testing/test_sequencer.py:78-136 | the instrument reads back from `ADD` the step's type and exactly its parameters, in the fixed order |
| Sequencer.ParseStepResult | testing/test_sequencer.py:230-247 | fewer than six fields give the empty record; otherwise the six named fields are the first six comma fields, and `optional1` is there exactly when a seventh is |
| Sequencer.ParseStepRoundTrip | testing/test_sequencer.py:233-245 | a record joined from six or more comma-free fields parses back into them |
| Sequencer.StepEntry | testing/test_sequencer.py:223-225 | an entry keeps its number and raw reply, and is parsed exactly when the reply is non-empty text |
| Sequencer.TestSequencer.constructor | testing/test_sequencer.py:13-23 | a new sequencer holds no steps and no sequence identity |
| Sequencer.TestSequencer.ClearInstrument | testing/test_sequencer.py:27-51 | `*ERR?`, `*CLS` only after a reported error, `NOSEQ`, and `*ERR?` only when `NOSEQ` was sent; success exactly when that reads "0" |
| Sequencer.TestSequencer.ClearSequenceOnDevice | testing/test_sequencer.py:25-58 | the local sequence and its identity are cleared only on a confirmed clear; any failure leaves them unchanged |
| Sequencer.TestSequencer.AddStepToDevice | testing/test_sequencer.py:60-158 | a rejected step sends nothing; otherwise `ADD`, then `*ERR?` only if it was sent; accepted exactly when that read "0" or gave no reply; the local sequence is not touched |
| Sequencer.TestSequencer.RunSequence | testing/test_sequencer.py:160-228 | nothing is sent when closed or with no local steps; a result is returned only for a completed run, with one entry per local step numbered from 1 holding the reply to its own query; otherwise refused, aborted on an unexpected `RUN?`, or aborted after the full hour |
| Sequencer.TestSequencer.PollUntilDone | testing/test_sequencer.py:187-211 | "0" ends the polling; "1" and no reply go on; any other reply sends `ABORT`; an hour of polling sends `ABORT` |
| Sequencer.TestSequencer.CollectResults | testing/test_sequencer.py:213-226 | `RSLT?` then `STEPRSLT?,1..n`, and the entries built from those replies |
| HipotCmd.SendCommand | hipot_cmd.py:102-128 | one write of the CR-terminated frame, successful exactly when the write status is success, whatever the byte count |
| HipotCmd.CliScan | hipot_cmd.py:145-170 | the command-line reply loop ends by LF, by a read error, or after a silence as long as the deadline |
| HipotCmd.ReadLoop | hipot_cmd.py:145-170 | the loop ends where `CliScan` says; the deadline restarts after every byte |
| HipotCmd.ReadResponse | hipot_cmd.py:130-183 | the reply of `CliScan`; the default time-outs are restored except after a read error |
| HipotCmd.CliRead | hipot_cmd.py:130-183 | the command-line reply for a script; CliScanGapThenByte and SlowReplyReadsDiffer state how its deadline differs from the library's |
| HipotCmd.CliScanGapThenByte | hipot_cmd.py:149-159 | a byte after a silence shorter than the deadline is kept, and the wait starts afresh, however long the reply has taken so far |
| HipotCmd.SlowReplyReadsDiffer | hipot_cmd.py:145-159 | a reply with 2 s before each byte reads as "OK" in the library and as "OK!" on the command line |
| HipotCmd.QueryCommand | hipot_cmd.py:185-199 | a send, a 100 ms pause and a read with the default deadline; no read and no reply when the send fails |
| HipotCmd.StepCount | hipot_cmd.py:432-440 | a step count is taken only from a reply `int()` accepts as a positive number |
| HipotCmd.StepCountOfReply | hipot_cmd.py:432-440 | the count is the number the instrument reports when it is positive; zero is refused |
| HipotCmd.StepCountIgnoresSpaces | hipot_cmd.py:434 | `int()` accepts a count with surrounding spaces |
| HipotCmd.RunTestSequence | hipot_cmd.py:427-549 | only `STEP?` is sent unless it reports a positive count n; the result is true exactly when the run completed with n result queries; otherwise refused, aborted after `*ERR?` on an unexpected `RUN?`, or aborted after the hour |
| HipotCmd.StartAndAwait | hipot_cmd.py:445-512 | from `*CLS` on, the run completes or is refused or aborted, as the log shows |
| HipotCmd.PollUntilDone | hipot_cmd.py:463-493 | "0" ends the polling; "1" and no reply go on; any other reply reads `*ERR?` and sends `ABORT`; an hour of polling sends `ABORT` |
| HipotCmd.CollectResults | hipot_cmd.py:495-512 | `RSLT?` then `STEPRSLT?,1..n` |
| HipotCmd.MenuIsTestTypes | hipot_cmd.py:273-279 | the menu offers exactly the known test types |
| HipotCmd.Selection | hipot_cmd.py:284-295 | a menu answer selects a menu entry or nothing |
| HipotCmd.SelectionOfNumber | hipot_cmd.py:290-295 | typing the number k selects entry k |
| HipotCmd.SelectionRejectsZero | hipot_cmd.py:291-293 | `0` selects nothing |
| HipotCmd.Answer | hipot_cmd.py:303-305 | `input() or default` is the typed answer when it is non-empty, and the default when the answer is empty or was not given |
| HipotCmd.BadLimitSendsNothing | hipot_cmd.py:306-316 | an ACW or DCW entry with a maximum current that does not convert sends nothing and is asked again |
| HipotCmd.PrepareStep | hipot_cmd.py:284-373 | an invalid menu choice sends nothing; otherwise the pass sends exactly the command the library's `add_step_to_device` builds for the step the answers describe |
| HipotCmd.EntryParameters | hipot_cmd.py:300-360 | only an ACW or DCW entry can be refused its parameters; EntryCommandSplits spells out each type's parameters |
| HipotCmd.WithstandAnswers | hipot_cmd.py:302-333 | no parameters exactly when a current limit did not convert; the converted minimum and maximum are the fourth and fifth parameters |
| HipotCmd.EntryCommand | hipot_cmd.py:284-373 | a command exists only for a valid menu choice whose parameters were built |
| HipotCmd.EntryConfig | hipot_cmd.py:300-360 | the step configuration the answers describe names the chosen type |
| HipotCmd.EntryAgreesWithLibrary | hipot_cmd.py:300-373 | for every menu choice and every set of answers, the command-line prompts send the same `ADD` command as `add_step_to_device` (testing/test_sequencer.py) for the step the answers describe: same order, same defaults, same current conversion, same refusal |
| HipotCmd.EntryCommandReadsBack | hipot_cmd.py:370-373 | with comma-free answers the command splits back into `ADD`, the chosen type and exactly the entry's parameters |
| HipotCmd.EntryCommandSplits | hipot_cmd.py:300-373 | with comma-free answers the instrument reads back: for ACW/DCW voltage (1000), ramp (1.0), dwell (2.0), converted minimum, converted maximum (5mA), then `GND` on "Y"; for IR voltage (500), ramp (1.0), dwell (2.0), minimum and maximum as typed; for CONT current (0.1), minimum as typed, maximum (0.1), dwell (1.0); for GND current (10), maximum (0.1), dwell (2.0), frequency (60) |
| HipotCmd.TryEntry | hipot_cmd.py:284-392 | one pass sends the entry's command or nothing; when it sends, the log grows by exactly one attempt |
| HipotCmd.Attempt | hipot_cmd.py:377-392 | an attempt is `ADD`, then `*ERR?` only when it was sent, and counts only when that read "0" |
| HipotCmd.TryStep | hipot_cmd.py:377-392 | the exchanges of one `ADD` attempt and whether it counts |
| HipotCmd.SilentErrorQueryNotCounted | hipot_cmd.py:382-389 | an `*ERR?` without reply does not count a step here, though the library counts it |
| HipotCmd.WalkBound | hipot_cmd.py:263-404 | no more steps are added than passes were made, and each one left two exchanges |
| HipotCmd.AddSteps | hipot_cmd.py:263-411 | the configuration loop adds the steps `Walk` counts for the operator's passes |
| HipotCmd.ClearForSetup | hipot_cmd.py:247-253 | `*ERR?`, `*CLS` whenever that did not read "0", then `NOSEQ` |
| HipotCmd.SetupTestSequence | hipot_cmd.py:242-424 | a failed `NOSEQ` reads `*ERR?` and gives false; otherwise the loop runs, `STEP?` is read, and the result is whether any step was added, or an error when the count is not an integer |
| MainWindow.DecodeFlags | gui/main_window.py:513-515 | the flag loop collects the reasons of a status code |
| MainWindow.FlagReasonsMember | gui/main_window.py:513-515 | a flag's description is among the reasons exactly when its bit is set in the code |
| MainWindow.FlagReasonsFromTable | gui/main_window.py:513-515 | every reason is the description of a set flag |
| MainWindow.FlagReasonsOfBit | gui/main_window.py:513-515 | a single flag bit gives its own description only; bits beyond the table give none |
| MainWindow.TerminationText | gui/main_window.py:533-535 | an unknown code is shown inside "Unknown Code (...)"; TerminationTextKnown states the table case |
| MainWindow.TerminationTextKnown | gui/main_window.py:534-535 | a code shows its table text exactly when it is in the table; an unknown code never shows a table text |
| MainWindow.StepViewOf | gui/main_window.py:523-567 | a step shows its decoded fields exactly when it has a non-empty parsed record, and its raw reply otherwise; it shows the termination text of its code and its status code; it passes exactly when its status is "0"; a failing status lists its set flags or the "could not parse" line; then elapsed time (in s), level, limit, measurement, and `optional1` (in A) exactly when present |
| MainWindow.Display | gui/main_window.py:498-568 | the run passes exactly when the overall code is "0"; a failing integer code lists its set flags; every step is shown in order |
| MainWindow.DisplayFailsOnlyWithoutOverall | gui/main_window.py:509-521 | the display as written stops exactly when the overall query had no reply, and otherwise shows what the corrected display shows |
| MainWindow.DisplayNamesSetFlags | gui/main_window.py:509-519 | a failing overall code names a flag exactly when its bit is set |
| MainWindow.DisplayAsWritten | gui/main_window.py:498-568 | when it does not stop, the run passes exactly on "0" and every step is shown in order; DisplayFailsOnlyWithoutOverall states when it stops |
| MainWindow.FieldText | gui/main_window.py:572-574 | a form field is its stripped text, or nothing when only whitespace was entered |
| MainWindow.StepConfigFor | gui/main_window.py:588-589 | step n maps to the n-th configuration when 1 <= n <= the sequence length, otherwise to an empty one |
| MainWindow.LevelUnit | gui/main_window.py:634-638 | V for ACW, DCW and IR; A for CONT and GND; none for any other type |
| MainWindow.MeasurementUnit | gui/main_window.py:640-645 | A for ACW and DCW; Ohms for GND, IR and CONT; none for any other type |
| MainWindow.StatusCodeOf | gui/main_window.py:621-622 | a missing or `?` status counts as 0; otherwise `int()` of the text |
| MainWindow.StatusDescription | gui/main_window.py:624-630 | "PASS" for 0; the set flags joined with ", "; nothing for a non-zero code with no known bit |
| MainWindow.StatusDescriptionOfBit | gui/main_window.py:624-630 | a single flag bit is described by that flag alone |
| MainWindow.StatusDescriptionOfUnknownBit | gui/main_window.py:624-630 | bit 17 gives no description |
| MainWindow.Reached | gui/main_window.py:612-655 | at most six conversions run, up to the first that raises |
| MainWindow.BaseRecord | gui/main_window.py:581-610 | the overall result is PASS exactly for "0", the test type is the step's configured type or UNKNOWN, and the note starts with the raw reply |
| MainWindow.StepRecord | gui/main_window.py:584-657 | every row carries the sequence id, its step number, the overall verdict and the configured test type |
| MainWindow.Records | gui/main_window.py:570-657 | no rows without a sequence id; otherwise one row per step entry |
| MainWindow.RecordsFollowSequence | gui/main_window.py:584-657 | row i of a run records step i+1 under the i-th configuration's test type |
| MainWindow.UnparsedRecord | gui/main_window.py:591-612 | a step without a parsed record keeps only its raw reply, as the note |
| MainWindow.ConversionFailureNoted | gui/main_window.py:653-655 | the conversions fail exactly when one raises, and the failure is noted after the raw reply |
| MainWindow.StatusColumns | gui/main_window.py:621-630 | the status columns are filled exactly when the conversions before them succeed, with the code and its description |
| MainWindow.Converted | gui/main_window.py:611-655 | the conversions keep the row's identity, step, verdict and type, and fail exactly when one of the six raises |
| MainWindow.CleanRecordUnits | gui/main_window.py:632-651 | a fully converted step carries the units of its test type |
| MainWindow.LogToSupabase | gui/main_window.py:570-657 | no rows without a sequence id; otherwise one row per step entry; the sequencer is not changed |
| MainWindow.BuildRows | gui/main_window.py:584-657 | the loop builds the row of each step entry, in order |
| MainWindow.Handle | gui/main_window.py:474-487 | a failed run is reported; a finished run is shown, and logged when the database is linked and a sequence id is set |
| MainWindow.HandleAgrees | gui/main_window.py:474-487 | the handling as written and the corrected one agree whenever the overall query was answered |
| MainWindow.HandleAsWritten | gui/main_window.py:474-487 | a failed run is reported, and the display stops exactly when a finished run's overall query had no reply |
| MainWindow.UnansweredOverallIsNotLogged | gui/main_window.py:498-521 | a completed run whose `RSLT?` got no reply is not logged as written, though the corrected handling logs its rows |
| MainWindow.OpenTestSetupDialog | gui/main_window.py:379-400 | a dialog step is appended to the local sequence exactly when the device accepted it; otherwise the sequence is unchanged |
| MainWindow.ProgramStep | gui/main_window.py:765-769 | one `add_step_to_device` of the programming loop, and its exchanges |
| MainWindow.ProgramLoadedSteps | gui/main_window.py:761-770 | loaded steps are programmed in order, the first failure stops the loop, and the count is the number of leading successes |

## Left out

- The vendor library is not loaded or bound (device/v7x_device.py:39-105, hipot_cmd.py:35-100). `Transport.Bridge` stands in for it, with statuses fixed per bridge and scripted write and read outcomes. `get_library_version` is not modelled.
- Wall-clock time is the bridge's `clock`. Reads take the time their script entry says and sleeps advance the clock. All other library calls take no time, so the time-out check after the restore in `read_response` sees the loop's own elapsed time.
- Debug and warning output (`print`), and the status-bar and log-pane messages, are not modelled.
- Supabase is not modelled: saving, listing and loading sequences, the insert of the rows, operator names and the client itself. `MainWindow.LogToSupabase` returns the rows it would insert.
- Qt widgets, dialogs, message boxes, `run_test`, `TestWorker` and the thread clean-up are not modelled. The dialog's step and the form's text fields are parameters.
- The `load_sequence` steps before the programming loop (choosing, confirming, clearing and fetching) are not modelled. The loop starts from the sequencer's current steps.
- The interactive console is a script of `HipotCmd.Entry` values. Running out of entries stands for `KeyboardInterrupt`. `execute_command`, `main` and the menu printing are not modelled.
- Parsing.FormatG: renders the exact decimal value. The source formats a binary double, so values that are not exactly representable may round differently in the sixth digit.
- Parsing.ParseCurrentInput: the source's `ValueError` branch around `float()` cannot be reached after the pattern matched, so it is not modelled. The number pattern accepts ASCII digits only, while Python's `\d` and `float()` accept any Unicode decimal digit ("٥mA" converts in the source and is refused here). Values are exact decimals, not doubles: input beyond the double range that the source turns into `inf` ("1e999") or `0` ("1e-400"), and the reduced precision of subnormal doubles, are not modelled.
- `float()` in `log_to_supabase` is a parameter `toFloat` that may fail. The exception text in the note is reduced to a fixed marker.
- `str.encode('ascii')` raising on a non-ASCII command is not modelled. Characters are sent as they are.
- Common.IntOf: accepts ASCII digits only. Python's `int()` also accepts other Unicode decimal digits.
- `breakdown_current_peak` is always empty in the source and is not a column of the model's row.
- The HTML layout of the results pane is not modelled: colours, bold text, line breaks and the padding of the field labels. `MainWindow.Display` returns what it shows as a value, each step's remaining fields as label and value pairs.
- `TestSequencer.debug` and `supabase_client` are not fields of the model's sequencer.

## Findings

| source | as written | input that shows it | evidently intended | confidence | as-written member | corrected member |
|---|---|---|---|---|---|---|
| gui/main_window.py:500-521 | `display_results` calls `int()` on the overall code and catches only `ValueError`. An unanswered `RSLT?` stores `None`, so `int(None)` raises a `TypeError` that escapes `handle_test_results` before `log_to_supabase`. | a completed run whose `RSLT?` query got no reply, with a sequence id set and the database linked | such a run is shown as failed with no listed reasons, and its step rows are logged | high (reasoned from the code, not executed) | MainWindow.DisplayAsWritten, MainWindow.HandleAsWritten, MainWindow.UnansweredOverallIsNotLogged | MainWindow.Display, MainWindow.Handle, MainWindow.HandleAgrees |
