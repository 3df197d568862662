/** The library's sequence engine: it programs steps into the V7X one `ADD` command at a
    time, clears the instrument's sequence, runs it and collects one result per step. */
module Sequencer {
  import opened Common
  import opened Constants
  import opened Transport
  import opened Parsing
  import opened Device
  import opened Protocol

  /** The pause after `ADD` and `NOSEQ` before the error register is read. */
  const SETTLE_MS: nat := 200
  /** The pause after `*CLS`, and before the results are read. */
  const SHORT_PAUSE_MS: nat := 100

  /** A step as the dialog and the database describe it: text fields by name, and the
      ground-check flag (absent reads as false). */
  datatype StepConfig = StepConfig(fields: map<string, string>, groundCheck: bool)

  /** `step_config.get(key, default)`. */
  function Get(c: StepConfig, key: string, default: string): string
  {
    if key in c.fields then c.fields[key] else default
  }

  /** The step's test type, when it has one the instrument knows. */
  function StepType(c: StepConfig): (r: Option<string>)
    ensures r.Some? <==> "type" in c.fields && c.fields["type"] in TEST_TYPES
    ensures r.Some? ==> r.value == c.fields["type"]
  {
    if "type" in c.fields && c.fields["type"] in TEST_TYPES then Some(c.fields["type"]) else None
  }

  /** The parameters of a step of a known type, in the order the instrument expects them,
      with the defaults of the source filled in; for ACW and DCW the current limits are
      converted to amps and a limit that does not parse rejects the step. */
  function StepParameters(testType: string, c: StepConfig): (r: Option<seq<string>>)
    requires testType in TEST_TYPES
    ensures r.None? ==> testType == "ACW" || testType == "DCW"
  {
    if testType == "ACW" || testType == "DCW" then
      WithstandParameters(c, ParseCurrentInput(Some(Get(c, "min_limit", ""))),
                          ParseCurrentInput(Some(Get(c, "max_limit", "5mA"))))
    else if testType == "IR" then
      Some([Get(c, "voltage", "500"), Get(c, "ramp_time", "1.0"), Get(c, "dwell_time", "2.0"),
            Get(c, "min_limit", ""), Get(c, "max_limit", "")])
    else if testType == "CONT" then
      Some([Get(c, "current", "0.1"), Get(c, "min_limit", ""), Get(c, "max_limit", "0.1"),
            Get(c, "dwell_time", "1.0")])
    else
      Some([Get(c, "current", "10"), Get(c, "max_limit", "0.1"), Get(c, "dwell_time", "2.0"),
            Get(c, "freq", "60")])
  }

  /** The ACW and DCW parameters, given the converted current limits: no parameters when
      either limit failed to convert, and `GND` last when the ground check is on. */
  function WithstandParameters(c: StepConfig, minLimit: Option<string>, maxLimit: Option<string>): (r: Option<seq<string>>)
    ensures r.None? <==> minLimit.None? || maxLimit.None?
    ensures r.Some? ==> |r.value| >= 5 && r.value[3] == minLimit.value && r.value[4] == maxLimit.value
  {
    if minLimit.None? || maxLimit.None? then None
    else
      Some([Get(c, "voltage", "1000"), Get(c, "ramp_time", "1.0"), Get(c, "dwell_time", "2.0"),
            minLimit.value, maxLimit.value] + (if c.groundCheck then ["GND"] else []))
  }

  /** The `ADD` command for a step, or `None` when the step is rejected before anything
      is sent. */
  function StepCommand(c: StepConfig): (r: Option<string>)
    ensures r.Some? ==> StepType(c).Some? && StepParameters(StepType(c).value, c).Some?
  {
    match StepType(c)
    case None => None
    case Some(t) =>
      match StepParameters(t, c)
      case None => None
      case Some(ps) => Some(AddCommand(t, ps))
  }

  /** How many parameters each type sends: five for ACW and DCW plus `GND` when the
      ground check is on, five for IR, four for CONT and GND. */
  lemma ParameterCounts(t: string, c: StepConfig)
    requires t in TEST_TYPES && StepParameters(t, c).Some?
    ensures |StepParameters(t, c).value| ==
      if t == "ACW" || t == "DCW" then (if c.groundCheck then 6 else 5)
      else if t == "IR" then 5 else 4
    ensures (t == "ACW" || t == "DCW") && c.groundCheck ==> StepParameters(t, c).value[5] == "GND"
  {
    TestTypeKeys();
  }

  /** An ACW or DCW step is rejected exactly when one of its current limits does not parse. */
  lemma CurrentLimitsGate(t: string, c: StepConfig)
    requires t == "ACW" || t == "DCW"
    ensures StepParameters(t, c).None? <==>
      ParseCurrentInput(Some(Get(c, "min_limit", ""))).None? ||
      ParseCurrentInput(Some(Get(c, "max_limit", "5mA"))).None?
  {
    TestTypeKeys();
  }

  /** A looked-up field holds no comma when neither the step's fields nor the default do. */
  lemma GetHasNoComma(c: StepConfig, key: string, default: string)
    requires forall k :: k in c.fields ==> ',' !in c.fields[k]
    requires ',' !in default
    ensures ',' !in Get(c, key, default)
  {
  }

  /** The withstand parameters: three fields, the two converted limits, maybe `GND`. */
  lemma WithstandParametersHaveNoComma(c: StepConfig, lo: Option<string>, hi: Option<string>)
    requires WithstandParameters(c, lo, hi).Some?
    requires forall k :: k in c.fields ==> ',' !in c.fields[k]
    requires ',' !in lo.value && ',' !in hi.value
    ensures forall i :: 0 <= i < |WithstandParameters(c, lo, hi).value| ==> ',' !in WithstandParameters(c, lo, hi).value[i]
  {
    GetHasNoComma(c, "voltage", "1000");
    GetHasNoComma(c, "ramp_time", "1.0");
    GetHasNoComma(c, "dwell_time", "2.0");
  }

  lemma ParametersHaveNoComma(t: string, c: StepConfig)
    requires t in TEST_TYPES && StepParameters(t, c).Some?
    requires forall k :: k in c.fields ==> ',' !in c.fields[k]
    ensures forall i :: 0 <= i < |StepParameters(t, c).value| ==> ',' !in StepParameters(t, c).value[i]
  {
    if t == "ACW" || t == "DCW" {
      var lo := ParseCurrentInput(Some(Get(c, "min_limit", "")));
      var hi := ParseCurrentInput(Some(Get(c, "max_limit", "5mA")));
      GTextHasNoComma(lo.value);
      GTextHasNoComma(hi.value);
      WithstandParametersHaveNoComma(c, lo, hi);
    } else if t == "IR" {
      GetHasNoComma(c, "voltage", "500");
      GetHasNoComma(c, "ramp_time", "1.0");
      GetHasNoComma(c, "dwell_time", "2.0");
      GetHasNoComma(c, "min_limit", "");
      GetHasNoComma(c, "max_limit", "");
    } else if t == "CONT" {
      GetHasNoComma(c, "current", "0.1");
      GetHasNoComma(c, "min_limit", "");
      GetHasNoComma(c, "max_limit", "0.1");
      GetHasNoComma(c, "dwell_time", "1.0");
    } else {
      GetHasNoComma(c, "current", "10");
      GetHasNoComma(c, "max_limit", "0.1");
      GetHasNoComma(c, "dwell_time", "2.0");
      GetHasNoComma(c, "freq", "60");
    }
  }

  /** When no field holds a comma, the instrument reads back from the `ADD` command the
      step's type and exactly its parameters; the converted current limits never add one. */
  lemma StepCommandSplits(c: StepConfig)
    requires StepCommand(c).Some?
    requires forall k :: k in c.fields ==> ',' !in c.fields[k]
    ensures Split(StepCommand(c).value, ',') ==
      ["ADD", StepType(c).value] + StepParameters(StepType(c).value, c).value
  {
    var t := StepType(c).value;
    assert ',' !in t;
    ParametersHaveNoComma(t, c);
    AddCommandSplits(t, StepParameters(t, c).value);
  }

  /** A bare-milli limit such as "10 m" rejects an ACW step before anything is sent. */
  lemma BareMilliLimitRejected(c: StepConfig)
    requires "type" in c.fields && c.fields["type"] == "ACW"
    requires "max_limit" in c.fields && c.fields["max_limit"] == "10 m"
    ensures StepCommand(c) == None
  {
    TestTypeKeys();
    ParseBareMilli();
  }

  /** A step without a type, or with one the instrument does not know, is rejected. */
  lemma UnknownTypeRejected(c: StepConfig)
    requires "type" !in c.fields || c.fields["type"] !in {"ACW", "DCW", "IR", "CONT", "GND"}
    ensures StepCommand(c) == None
  {
    TestTypeKeys();
  }

  // ---------------------------------------------------------------- step results

  /** `_parse_step_result`: the named fields of a `STEPRSLT?` record. Fewer than six
      comma fields give the empty record; a seventh field is kept as `optional1`. */
  datatype ParsedStep =
    | NoFields
    | Parsed(termState: string, elapsedTime: string, statusCode: string, level: string,
             limit: string, measurement: string, optional1: Option<string>)

  function ParseStepResult(s: string): (r: ParsedStep)
    ensures r.NoFields? <==> |Split(s, ',')| < 6
    ensures r.Parsed? ==> forall k :: 0 <= k < 6 ==> Field(r, k) == Split(s, ',')[k]
    ensures r.Parsed? ==> (r.optional1.Some? <==> |Split(s, ',')| >= 7)
  {
    var f := Split(s, ',');
    if |f| < 6 then NoFields
    else Parsed(f[0], f[1], f[2], f[3], f[4], f[5], if |f| >= 7 then Some(f[6]) else None)
  }

  /** The k-th named field of a parsed record, in record order. */
  function Field(r: ParsedStep, k: nat): string
    requires r.Parsed? && k < 6
  {
    [r.termState, r.elapsedTime, r.statusCode, r.level, r.limit, r.measurement][k]
  }

  /** A record written from six or more comma-free fields parses back into those fields. */
  lemma ParseStepRoundTrip(fields: seq<string>)
    requires |fields| >= 6
    requires forall i :: 0 <= i < |fields| ==> ',' !in fields[i]
    ensures ParseStepResult(Join(fields, ',')) ==
      Parsed(fields[0], fields[1], fields[2], fields[3], fields[4], fields[5],
             if |fields| >= 7 then Some(fields[6]) else None)
  {
    SplitJoin(fields, ',');
  }

  /** One entry of the results: the step number, the raw reply, and the parsed record
      when the reply was non-empty text. */
  datatype StepResult = StepResult(stepNumber: nat, raw: Option<string>, parsed: Option<ParsedStep>)

  datatype RunResults = RunResults(overall: Option<string>, steps: seq<StepResult>)

  function StepEntry(i: nat, raw: Option<string>): (e: StepResult)
    ensures e.stepNumber == i && e.raw == raw
    ensures e.parsed.Some? <==> raw.Some? && raw.value != ""
  {
    StepResult(i, raw, if raw.Some? && raw.value != "" then Some(ParseStepResult(raw.value)) else None)
  }

  /** The result entries of a run, step `i + 1` holding the i-th reply. */
  function Entries(replies: seq<Option<string>>): (es: seq<StepResult>)
    ensures |es| == |replies|
  {
    seq(|replies|, i requires 0 <= i < |replies| => StepEntry(i + 1, replies[i]))
  }

  lemma EntryAt(replies: seq<Option<string>>, i: nat)
    requires i < |replies|
    ensures Entries(replies)[i].stepNumber == i + 1
  {
  }

  lemma EntriesAppend(replies: seq<Option<string>>, raw: Option<string>)
    ensures Entries(replies + [raw]) == Entries(replies) + [StepEntry(|replies| + 1, raw)]
  {
  }

  // ---------------------------------------------------------------- logs

  /** An `*ERR?` reply that reports an error (non-empty and not "0"). */
  predicate ReportsError(reply: Option<string>)
  {
    reply.Some? && reply.value != "" && reply.value != "0"
  }

  /** The exchanges of a clear on an open device: `*ERR?`; `*CLS` only when that reported
      an error; `NOSEQ`; and `*ERR?` again only when `NOSEQ` was sent. */
  predicate ClearLog(t: seq<Exchange>)
  {
    |t| >= 2 && t[0].Query? && t[0].cmd == ERROR_QUERY &&
    var k := if ReportsError(t[0].reply) then 2 else 1;
    (k == 2 ==> t[1].Command? && t[1].cmd == CLEAR_STATUS) &&
    |t| > k && t[k].Command? && t[k].cmd == CLEAR_SEQUENCE &&
    (if t[k].ok then |t| == k + 2 && t[k + 1].Query? && t[k + 1].cmd == ERROR_QUERY
     else |t| == k + 1)
  }

  /** The instrument confirmed the clear: `NOSEQ` went out and `*ERR?` then read "0". */
  predicate ClearConfirmed(t: seq<Exchange>)
  {
    |t| >= 2 && t[|t| - 2] == Command(CLEAR_SEQUENCE, true) && t[|t| - 1] == Query(ERROR_QUERY, Some("0"))
  }

  /** The exchanges of an `ADD`: the command, then `*ERR?` only when it was sent. */
  predicate AddLog(t: seq<Exchange>, command: string)
  {
    |t| >= 1 && t[0].Command? && t[0].cmd == command &&
    (if t[0].ok then |t| == 2 && t[1].Query? && t[1].cmd == ERROR_QUERY else |t| == 1)
  }

  /** The step counts as added: the command went out and `*ERR?` read "0" or gave no
      reply at all. */
  predicate AddAccepted(t: seq<Exchange>)
  {
    |t| == 2 && t[0].Command? && t[0].ok && t[1].Query? && (t[1].reply == None || t[1].reply == Some("0"))
  }

  class TestSequencer {
    const device: V7xDevice
    /** The steps the application holds for the instrument's sequence. */
    var sequence: seq<StepConfig>
    var sequenceId: Option<string>
    var sequenceName: Option<string>
    var sequenceDescription: Option<string>

    constructor (device: V7xDevice)
      ensures this.device == device
      ensures sequence == [] && sequenceId == None && sequenceName == None && sequenceDescription == None
    {
      this.device := device;
      sequence := [];
      sequenceId := None;
      sequenceName := None;
      sequenceDescription := None;
    }

    /** `clear_sequence_on_device`: the local sequence and its identity are cleared only
        when the instrument confirms the clear; every other outcome leaves them as they
        were. `t` is what the exchange added to the log. */
    method ClearSequenceOnDevice() returns (ok: bool, ghost t: seq<Exchange>)
      modifies this`sequence, this`sequenceId, this`sequenceName, this`sequenceDescription, device.bridge
      ensures !device.isOpen ==> !ok && unchanged(device.bridge)
      ensures device.isOpen ==> device.bridge.log == old(device.bridge.log) + t && ClearLog(t)
      ensures device.isOpen ==> (ok <==> ClearConfirmed(t))
      ensures ok ==> sequence == [] && sequenceId == None && sequenceName == None && sequenceDescription == None
      ensures !ok ==> sequence == old(sequence) && sequenceId == old(sequenceId) &&
                      sequenceName == old(sequenceName) && sequenceDescription == old(sequenceDescription)
    {
      ok, t := ClearInstrument();
      if ok {
        sequence := [];
        sequenceId := None;
        sequenceName := None;
        sequenceDescription := None;
      }
    }

    /** The exchanges of `clear_sequence_on_device` with the instrument. */
    method ClearInstrument() returns (ok: bool, ghost t: seq<Exchange>)
      modifies device.bridge
      ensures !device.isOpen ==> !ok && unchanged(device.bridge)
      ensures device.isOpen ==> device.bridge.log == old(device.bridge.log) + t && ClearLog(t)
      ensures device.isOpen ==> (ok <==> ClearConfirmed(t))
    {
      if !device.isOpen {
        return false, [];
      }
      ghost var log0 := device.bridge.log;
      var status := LoggedQuery(device, ERROR_QUERY, RESPONSE_READ_TIMEOUT_MS);
      t := [Query(ERROR_QUERY, status)];
      if status.Some? && status.value != "" && status.value != "0" {
        var cleared := LoggedSend(device, CLEAR_STATUS);
        Grow(log0, t, Command(CLEAR_STATUS, cleared));
        t := t + [Command(CLEAR_STATUS, cleared)];
        device.bridge.Sleep(SHORT_PAUSE_MS);
      }
      var sent := LoggedSend(device, CLEAR_SEQUENCE);
      Grow(log0, t, Command(CLEAR_SEQUENCE, sent));
      t := t + [Command(CLEAR_SEQUENCE, sent)];
      if !sent {
        return false, t;
      }
      device.bridge.Sleep(SETTLE_MS);
      status := LoggedQuery(device, ERROR_QUERY, RESPONSE_READ_TIMEOUT_MS);
      Grow(log0, t, Query(ERROR_QUERY, status));
      t := t + [Query(ERROR_QUERY, status)];
      if status == None {
        return false, t;
      } else if status != Some("0") {
        return false, t;
      }
      ok := true;
    }

    /** `add_step_to_device`: sends the step's `ADD` command and reads the error
        register; the local sequence is not touched (it is outside the frame). */
    method AddStepToDevice(c: StepConfig) returns (ok: bool, ghost t: seq<Exchange>)
      modifies device.bridge
      ensures !device.isOpen || StepCommand(c).None? ==> !ok && unchanged(device.bridge)
      ensures device.isOpen && StepCommand(c).Some? ==>
                device.bridge.log == old(device.bridge.log) + t && AddLog(t, StepCommand(c).value)
      ensures device.isOpen && StepCommand(c).Some? ==> (ok <==> AddAccepted(t))
    {
      if !device.isOpen {
        return false, [];
      }
      var testType := StepType(c);
      if testType.None? {
        return false, [];
      }
      var params := StepParameters(testType.value, c);
      if params.None? {
        return false, [];
      }
      var command := BuildAddCommand(testType.value, params.value);
      var sent := LoggedSend(device, command);
      t := [Command(command, sent)];
      if !sent {
        return false, t;
      }
      device.bridge.Sleep(SETTLE_MS);
      var status := LoggedQuery(device, ERROR_QUERY, RESPONSE_READ_TIMEOUT_MS);
      t := t + [Query(ERROR_QUERY, status)];
      if status == None {
        return true, t;
      } else if status != Some("0") {
        return false, t;
      }
      ok := true;
    }

    /** `run_sequence`: nothing is sent unless the device is open and the local sequence
        has steps. A completed run returns one entry per local step, numbered from 1 and
        each holding the reply to its own `STEPRSLT?` query; otherwise the run was refused,
        aborted on an unexpected `RUN?` reply, or aborted after polling for the full hour. */
    method RunSequence() returns (r: Option<RunResults>, ghost t: seq<Exchange>)
      modifies device.bridge
      ensures !device.isOpen || old(sequence) == [] ==> r == None && unchanged(device.bridge)
      ensures device.isOpen && old(sequence) != [] ==> device.bridge.log == old(device.bridge.log) + t
      ensures device.isOpen && old(sequence) != [] && r.Some? ==>
                var n := |old(sequence)|;
                Completed(t, n) && r.value.overall == t[|t| - n - 1].reply &&
                r.value.steps == Entries(Replies(t[|t| - n..]))
      ensures device.isOpen && old(sequence) != [] && r.None? ==>
                Refused(t) || AbortedOnStatus(t, false) ||
                (AbortedOnTimeout(t) && device.bridge.clock >= old(device.bridge.clock) + MAX_RUN_MS)
    {
      if !device.isOpen {
        return None, [];
      }
      var n := |sequence|;
      if n <= 0 {
        return None, [];
      }
      ghost var log0 := device.bridge.log;
      var cleared := LoggedSend(device, CLEAR_STATUS);
      device.bridge.Sleep(SHORT_PAUSE_MS);
      var started := LoggedSend(device, RUN);
      ghost var opening := [Command(CLEAR_STATUS, cleared), Command(RUN, started)];
      Grow(log0, [Command(CLEAR_STATUS, cleared)], Command(RUN, started));
      if !started {
        var err := LoggedQuery(device, ERROR_QUERY, RESPONSE_READ_TIMEOUT_MS);
        Grow(log0, opening, Query(ERROR_QUERY, err));
        return None, opening + [Query(ERROR_QUERY, err)];
      }
      ghost var p, c, replies;
      r, p, c, replies := AwaitResults(n);
      Regroup(log0, opening, p + c);
      t := opening + (p + c);
      RunOutcome(opening, p, c, if r.Some? then r.value.overall else None, replies, n, r.Some?, false,
                 device.bridge.clock >= old(device.bridge.clock) + MAX_RUN_MS, t);
    }

    /** `run_sequence` from just after `RUN` was sent: the polls `p`, then the result
        queries `c` when the run ended. */
    method AwaitResults(n: nat)
      returns (r: Option<RunResults>, ghost p: seq<Exchange>, ghost c: seq<Exchange>, ghost replies: seq<Option<string>>)
      requires device.isOpen
      modifies device.bridge
      ensures device.bridge.log == old(device.bridge.log) + (p + c)
      ensures r.Some? ==>
                PolledToEnd(p) && |replies| == n &&
                c == [Query(RESULT_QUERY, r.value.overall)] + ResultQueries(replies) &&
                r.value.steps == Entries(replies)
      ensures r.None? ==>
                c == [] &&
                (PolledToSurprise(p, false) || (PolledToDeadline(p) && device.bridge.clock >= old(device.bridge.clock) + MAX_RUN_MS))
    {
      ghost var log0 := device.bridge.log;
      var completed;
      completed, p := PollUntilDone();
      if !completed {
        assert p + [] == p;
        return None, p, [], [];
      }
      var overall, steps;
      overall, steps, c, replies := CollectResults(n);
      Regroup(log0, p, c);
      r := Some(RunResults(overall, steps));
    }

    /** The polling loop of `run_sequence`: `p` is the polls it made, and the `ABORT`
        when it gave up. */
    method PollUntilDone() returns (completed: bool, ghost p: seq<Exchange>)
      requires device.isOpen
      modifies device.bridge
      ensures device.bridge.log == old(device.bridge.log) + p
      ensures completed ==> PolledToEnd(p)
      ensures !completed ==>
                PolledToSurprise(p, false) || (PolledToDeadline(p) && device.bridge.clock >= old(device.bridge.clock) + MAX_RUN_MS)
    {
      ghost var log0 := device.bridge.log;
      p := [];
      var start := device.bridge.clock;
      while device.bridge.clock - start < MAX_RUN_MS
        invariant device.bridge.clock >= start
        invariant device.bridge.log == log0 + p && Polling(p)
        decreases MAX_RUN_MS - (device.bridge.clock - start)
      {
        device.bridge.Sleep(POLL_INTERVAL_MS);
        var status := LoggedQuery(device, RUN_STATUS, RESPONSE_READ_TIMEOUT_MS);
        Grow(log0, p, Query(RUN_STATUS, status));
        ghost var polled := p;
        p := p + [Query(RUN_STATUS, status)];
        if status == Some("0") {
          assert p[..|p| - 1] == polled;
          return true, p;
        } else if status == Some("1") {
          continue;
        } else if status == None {
        } else {
          var aborted := LoggedSend(device, ABORT);
          Grow(log0, p, Command(ABORT, aborted));
          p := p + [Command(ABORT, aborted)];
          assert p[..|p| - 2] == polled;
          return false, p;
        }
      }
      ghost var polled := p;
      var aborted := LoggedSend(device, ABORT);
      Grow(log0, p, Command(ABORT, aborted));
      p := p + [Command(ABORT, aborted)];
      assert p[..|p| - 1] == polled;
      completed := false;
    }

    /** The result collection of `run_sequence`: `RSLT?`, then one query per step. */
    method CollectResults(n: nat)
      returns (overall: Option<string>, steps: seq<StepResult>, ghost c: seq<Exchange>, ghost replies: seq<Option<string>>)
      requires device.isOpen
      modifies device.bridge
      ensures device.bridge.log == old(device.bridge.log) + c
      ensures |replies| == n && c == [Query(RESULT_QUERY, overall)] + ResultQueries(replies)
      ensures steps == Entries(replies)
    {
      ghost var log0 := device.bridge.log;
      device.bridge.Sleep(SHORT_PAUSE_MS);
      overall := LoggedQuery(device, RESULT_QUERY, RESPONSE_READ_TIMEOUT_MS);
      c := [Query(RESULT_QUERY, overall)];
      replies := [];
      steps := [];
      for i := 1 to n + 1
        invariant |replies| == i - 1
        invariant device.bridge.log == log0 + c && c == [Query(RESULT_QUERY, overall)] + ResultQueries(replies)
        invariant steps == Entries(replies)
      {
        var raw := LoggedQuery(device, StepQuery(i), RESPONSE_READ_TIMEOUT_MS);
        var entry := StepResult(i, raw, None);
        if raw.Some? && raw.value != "" {
          entry := entry.(parsed := Some(ParseStepResult(raw.value)));
        }
        Grow(log0, c, Query(StepQuery(i), raw));
        EntriesAppend(replies, raw);
        ResultQueriesAppend(replies, raw);
        steps := steps + [entry];
        c := c + [Query(StepQuery(i), raw)];
        replies := replies + [raw];
      }
    }
  }
}
