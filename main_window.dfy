/** The decision logic of the main window: adding a step after the dialog, programming a
    loaded sequence, decoding a run's results for display, and mapping them to the rows
    written to the results table. Widgets, message boxes and the database client are
    outside the model; what they would show or store is returned as values. */
module MainWindow {
  import opened Common
  import opened Constants
  import opened Transport
  import opened Device
  import opened Protocol
  import opened Sequencer

  // ---------------------------------------------------------------- status flags

  /** Python's `code & bit` is non-zero, for a single-bit mask `bit`: bit log2(bit) of the
      two's-complement code is set. Floor division by a positive divisor gives this for
      negative codes as well. */
  predicate BitSet(code: int, bit: nat)
  {
    bit > 0 && (code / bit) % 2 == 1
  }

  /** The descriptions of the first `n` entries of a flag table whose bit is set in
      `code`, in table order. */
  function Selected(table: seq<(nat, string)>, code: int, n: nat): (r: seq<string>)
    requires n <= |table|
    ensures |r| <= n
  {
    if n == 0 then []
    else Selected(table, code, n - 1) + (if BitSet(code, table[n - 1].0) then [table[n - 1].1] else [])
  }

  /** The failure reasons of a status code: the descriptions of its set flags. */
  function FlagReasons(code: int): seq<string>
  {
    Selected(STATUS_FLAGS, code, |STATUS_FLAGS|)
  }

  /** The flag loop of the display and of the record mapping. */
  method DecodeFlags(code: int) returns (reasons: seq<string>)
    ensures reasons == FlagReasons(code)
  {
    reasons := [];
    for i := 0 to |STATUS_FLAGS|
      invariant reasons == Selected(STATUS_FLAGS, code, i)
    {
      var (bit, description) := STATUS_FLAGS[i];
      SelectedMore(STATUS_FLAGS, code, i);
      if bit > 0 && (code / bit) % 2 == 1 {
        reasons := reasons + [description];
      }
    }
  }

  lemma SelectedMore(table: seq<(nat, string)>, code: int, i: nat)
    requires i < |table|
    ensures Selected(table, code, i + 1) ==
      Selected(table, code, i) + (if BitSet(code, table[i].0) then [table[i].1] else [])
  {
  }

  /** Entry i of the table is bit 2^i. */
  ghost predicate BitTable(table: seq<(nat, string)>)
  {
    forall i :: 0 <= i < |table| ==> table[i].0 == Pow2(i)
  }

  ghost predicate DistinctNames(table: seq<(nat, string)>)
  {
    forall i, j :: 0 <= i < j < |table| ==> table[i].1 != table[j].1
  }

  lemma {:induction false} Pow2Add(a: nat, b: nat)
    ensures Pow2(a + b) == Pow2(a) * Pow2(b)
    decreases b
  {
    if b > 0 {
      Pow2Add(a, b - 1);
      assert Pow2(a + b) == 2 * Pow2(a + b - 1);
    }
  }

  lemma {:induction false} Pow2Below(i: nat, j: nat)
    requires i < j
    ensures Pow2(i) < Pow2(j)
    decreases j
  {
    if i < j - 1 {
      Pow2Below(i, j - 1);
    }
  }

  lemma DivBelow(a: int, b: int)
    requires 0 <= a < b
    ensures a / b == 0
  {
  }

  lemma MulAtLeast(a: int, b: int)
    requires a >= 1 && b > 0
    ensures a * b >= b
  {
  }

  lemma MulAtMost(a: int, b: int)
    requires a <= -1 && b > 0
    ensures a * b <= -b
  {
  }

  lemma DivExact(q: int, b: int)
    requires b > 0
    ensures (q * b) / b == q
  {
    var d := (q * b) / b;
    var m := (q * b) % b;
    assert (q - d) * b == m;
    if q - d >= 1 {
      MulAtLeast(q - d, b);
    } else if q - d <= -1 {
      MulAtMost(q - d, b);
    }
  }

  /** Dividing 2^i by a lower power of two leaves an even quotient. */
  lemma Pow2Quotient(i: nat, j: nat)
    requires j < i
    ensures Pow2(i) / Pow2(j) == 2 * Pow2(i - j - 1)
  {
    var q := Pow2(i - j);
    var b := Pow2(j);
    Pow2Add(j, i - j);
    assert Pow2(i) == b * q;
    assert q == 2 * Pow2(i - j - 1);
    DivExact(q, b);
    assert b * q == q * b;
  }

  /** Bit j of 2^i is set exactly when j == i. */
  lemma Pow2Bit(i: nat, j: nat)
    ensures BitSet(Pow2(i), Pow2(j)) <==> i == j
  {
    if j > i {
      Pow2Below(i, j);
      DivBelow(Pow2(i), Pow2(j));
    } else if j < i {
      Pow2Quotient(i, j);
    }
  }

  /** A single bit selects its own entry and no other. */
  lemma {:induction false} SelectedOfBit(table: seq<(nat, string)>, i: nat, n: nat)
    requires BitTable(table) && n <= |table|
    ensures Selected(table, Pow2(i), n) == if i < n then [table[i].1] else []
  {
    if n > 0 {
      SelectedOfBit(table, i, n - 1);
      assert table[n - 1].0 == Pow2(n - 1);
      Pow2Bit(i, n - 1);
    }
  }

  /** An entry's description is selected exactly when its bit is set. */
  lemma {:induction false} SelectedMember(table: seq<(nat, string)>, code: int, i: nat, n: nat)
    requires BitTable(table) && DistinctNames(table)
    requires i < |table| && n <= |table|
    ensures table[i].1 in Selected(table, code, n) <==> i < n && BitSet(code, Pow2(i))
  {
    if n > 0 {
      SelectedMember(table, code, i, n - 1);
      assert table[n - 1].0 == Pow2(n - 1);
      assert i < n - 1 ==> table[i].1 != table[n - 1].1;
      assert n - 1 < i ==> table[n - 1].1 != table[i].1;
    }
  }

  /** Every selected description belongs to an entry whose bit is set. */
  lemma {:induction false} SelectedFromTable(table: seq<(nat, string)>, code: int, n: nat, d: string)
    requires n <= |table| && d in Selected(table, code, n)
    ensures exists i :: 0 <= i < n && table[i].1 == d && BitSet(code, table[i].0)
  {
    if d !in Selected(table, code, n - 1) {
      assert table[n - 1].1 == d && BitSet(code, table[n - 1].0);
    } else {
      SelectedFromTable(table, code, n - 1, d);
    }
  }

  lemma FlagBit(i: nat)
    requires i < |STATUS_FLAGS|
    ensures STATUS_FLAGS[i].0 == Pow2(i)
  {
    StatusFlagsAreBits();
  }

  lemma StatusFlagTable()
    ensures BitTable(STATUS_FLAGS) && DistinctNames(STATUS_FLAGS)
  {
    StatusFlagsAreBits();
    StatusFlagDescriptionsDistinct();
  }

  /** A flag's description is among the reasons exactly when its bit is set. */
  lemma FlagReasonsMember(code: int, i: nat)
    requires i < |STATUS_FLAGS|
    ensures STATUS_FLAGS[i].1 in FlagReasons(code) <==> BitSet(code, Pow2(i))
  {
    StatusFlagTable();
    SelectedMember(STATUS_FLAGS, code, i, |STATUS_FLAGS|);
  }

  /** Every reason is the description of a flag whose bit is set. */
  lemma FlagReasonsFromTable(code: int, d: string)
    requires d in FlagReasons(code)
    ensures exists i :: 0 <= i < |STATUS_FLAGS| && STATUS_FLAGS[i].1 == d && BitSet(code, STATUS_FLAGS[i].0)
  {
    SelectedFromTable(STATUS_FLAGS, code, |STATUS_FLAGS|, d);
  }

  /** A single flag bit reports its own description only; bits beyond the table none. */
  lemma FlagReasonsOfBit(i: nat)
    ensures FlagReasons(Pow2(i)) == if i < |STATUS_FLAGS| then [STATUS_FLAGS[i].1] else []
  {
    StatusFlagTable();
    SelectedOfBit(STATUS_FLAGS, i, |STATUS_FLAGS|);
  }

  // ---------------------------------------------------------------- termination states

  /** The text shown for a termination code: its table entry, or "Unknown Code (<code>)". */
  function TerminationText(code: string): (t: string)
    ensures code !in TERMINATION_STATES ==> |t| == |code| + 15 && t[14..|t| - 1] == code
  {
    if code in TERMINATION_STATES then TERMINATION_STATES[code] else "Unknown Code (" + code + ")"
  }

  /** A code outside the table never reads as one of the table's texts. */
  lemma TerminationTextKnown(code: string)
    ensures TerminationText(code) in TERMINATION_STATES.Values <==> code in TERMINATION_STATES
    ensures code in TERMINATION_STATES ==> TerminationText(code) == TERMINATION_STATES[code]
  {
    if code !in TERMINATION_STATES {
      var u := TerminationText(code);
      assert u[0] == 'U' && u[7] == ' ';
      forall v | v in TERMINATION_STATES.Values
        ensures v != u
      {
        var k :| k in TERMINATION_STATES && TERMINATION_STATES[k] == v;
        TerminationStateKeys();
        assert v[0] != 'U' || v[7] == '/';
      }
    }
  }

  // ---------------------------------------------------------------- display

  /** What the results pane shows for one step: the raw reply when nothing was parsed, or
      the termination text, the status code, whether the step passed, its failure
      reasons (`None` stands for the "could not parse status flags" line) and the
      remaining fields as label and value lines. */
  datatype StepView =
    | Unparsed(number: nat, raw: Option<string>)
    | Decoded(number: nat, termination: string, statusCode: string, pass: bool, reasons: Option<seq<string>>,
              details: seq<(string, string)>)

  /** What the results pane shows for a run. */
  datatype View = View(pass: bool, code: Option<string>, reasons: seq<string>, steps: seq<StepView>)

  /** The decoding of one step entry. An entry without a parsed record, or whose record is
      empty, shows the raw reply. */
  function StepViewOf(e: StepResult): (v: StepView)
    ensures v.number == e.stepNumber
    ensures v.Decoded? <==> e.parsed.Some? && e.parsed.value.Parsed?
    ensures v.Decoded? ==> (v.pass <==> e.parsed.value.statusCode == "0")
    ensures v.Decoded? && v.pass ==> v.reasons == Some([])
    ensures v.Decoded? && !v.pass ==>
      (v.reasons.None? <==> IntOf(e.parsed.value.statusCode).None?) &&
      (v.reasons.Some? ==> v.reasons.value == FlagReasons(IntOf(e.parsed.value.statusCode).value))
    ensures v.Decoded? ==>
      v.termination == TerminationText(e.parsed.value.termState) &&
      v.statusCode == e.parsed.value.statusCode
    ensures v.Decoded? ==>
      |v.details| >= 4 &&
      v.details[..4] == [("Elapsed Time", e.parsed.value.elapsedTime + " s"), ("Level", e.parsed.value.level),
                         ("Limit", e.parsed.value.limit), ("Measurement", e.parsed.value.measurement)]
    ensures v.Decoded? ==>
      (|v.details| == 5 <==> e.parsed.value.optional1.Some?) &&
      (e.parsed.value.optional1.Some? ==> v.details[4] == ("Optional1", e.parsed.value.optional1.value + " A"))
    ensures v.Unparsed? ==> v.raw == e.raw
  {
    match e.parsed
    case Some(Parsed(term, elapsed, status, level, limit, measurement, optional1)) =>
      var pass := status == "0";
      Decoded(e.stepNumber, TerminationText(term), status, pass,
              if pass then Some([])
              else match IntOf(status)
                case None => None
                case Some(k) => Some(FlagReasons(k)),
              [("Elapsed Time", elapsed + " s"), ("Level", level), ("Limit", limit), ("Measurement", measurement)]
              + (if optional1.Some? then [("Optional1", optional1.value + " A")] else []))
    case _ => Unparsed(e.stepNumber, e.raw)
  }

  function StepViews(steps: seq<StepResult>): (vs: seq<StepView>)
    ensures |vs| == |steps|
  {
    seq(|steps|, i requires 0 <= i < |steps| => StepViewOf(steps[i]))
  }

  /** The failure reasons of the overall code: none when it is not an integer. */
  function OverallReasons(code: string): seq<string>
  {
    match IntOf(code)
    case None => []
    case Some(k) => FlagReasons(k)
  }

  /** `display_results` as written. `None` stands for the `TypeError` raised by `int(None)`
      when the `RSLT?` query got no reply: only `ValueError` is caught, so the slot stops
      after the overall line. */
  function DisplayAsWritten(r: RunResults): (v: Option<View>)
    ensures v.Some? ==> v.value.steps == StepViews(r.steps) && (v.value.pass <==> r.overall == Some("0"))
  {
    if r.overall == Some("0") then Some(View(true, r.overall, [], StepViews(r.steps)))
    else match r.overall
      case None => None
      case Some(code) => Some(View(false, r.overall, OverallReasons(code), StepViews(r.steps)))
  }

  /** The decoding with an unanswered overall query treated like any other code that is
      not an integer: the run fails with no listed reasons. */
  function Display(r: RunResults): (v: View)
    ensures v.pass <==> r.overall == Some("0")
    ensures v.code == r.overall && v.steps == StepViews(r.steps)
    ensures v.pass || r.overall.None? ==> v.reasons == []
    ensures !v.pass && r.overall.Some? ==> v.reasons == OverallReasons(r.overall.value)
  {
    var pass := r.overall == Some("0");
    View(pass, r.overall, if pass || r.overall.None? then [] else OverallReasons(r.overall.value), StepViews(r.steps))
  }

  /** The decoding as written fails exactly on an unanswered overall query, and otherwise
      shows what the corrected decoding shows. */
  lemma DisplayFailsOnlyWithoutOverall(r: RunResults)
    ensures DisplayAsWritten(r).None? <==> r.overall.None?
    ensures DisplayAsWritten(r).Some? ==> DisplayAsWritten(r).value == Display(r)
  {
  }

  /** A failing overall code names a flag exactly when that flag's bit is set in it. */
  lemma DisplayNamesSetFlags(r: RunResults, k: int, i: nat)
    requires r.overall.Some? && r.overall.value != "0" && IntOf(r.overall.value) == Some(k)
    requires i < |STATUS_FLAGS|
    ensures STATUS_FLAGS[i].1 in Display(r).reasons <==> BitSet(k, Pow2(i))
  {
    FlagReasonsMember(k, i);
  }

  // ---------------------------------------------------------------- result records

  /** One row of the results table. The float columns hold what the conversion function
      gives; `conversionFailed` stands for the " | PARSE_ERROR: ..." note, whose exception
      text is not modelled. */
  datatype Record = Record(
    sequenceId: string, dutSerial: Option<string>, operatorName: Option<string>,
    overallResult: string, stepNumber: nat, testType: string,
    termCode: Option<int>, termText: Option<string>, elapsed: Option<real>,
    statusCode: Option<int>, statusDescription: Option<string>,
    level: Option<real>, levelUnit: Option<string>,
    measurement: Option<real>, measurementUnit: Option<string>,
    arcPeak: Option<real>, notes: string, conversionFailed: bool)

  /** A text field of the form: stripped, and `None` when that leaves nothing. */
  function FieldText(text: string): (r: Option<string>)
    ensures r.Some? ==> r.value != "" && r.value == Strip(text)
    ensures r.None? ==> AllSpace(text)
  {
    var t := Strip(text);
    if t == "" then None
    else
      Some(t)
  }

  /** The configuration of step `n` (counted from 1); `{}` for a number outside the sequence. */
  function StepConfigFor(sequence: seq<StepConfig>, n: nat): (c: StepConfig)
    ensures 0 < n <= |sequence| ==> c == sequence[n - 1]
    ensures !(0 < n <= |sequence|) ==> c.fields == map[]
  {
    if 0 < n <= |sequence| then sequence[n - 1] else StepConfig(map[], false)
  }

  /** The unit of the test level: volts for the voltage tests, amperes for the current tests. */
  function LevelUnit(testType: string): (u: Option<string>)
    ensures u == Some("V") <==> testType in {"ACW", "DCW", "IR"}
    ensures u == Some("A") <==> testType in {"CONT", "GND"}
    ensures u.None? <==> testType !in TEST_TYPES
  {
    if testType == "ACW" || testType == "DCW" || testType == "IR" then Some("V")
    else if testType == "CONT" || testType == "GND" then Some("A")
    else None
  }

  /** The unit of the measurement: amperes for the withstand tests, ohms for the others. */
  function MeasurementUnit(testType: string): (u: Option<string>)
    ensures u == Some("A") <==> testType in {"ACW", "DCW"}
    ensures u == Some("Ohms") <==> testType in {"GND", "IR", "CONT"}
    ensures u.None? <==> testType !in TEST_TYPES
  {
    if testType == "ACW" || testType == "DCW" || testType == "GND" then
      if testType != "GND" then Some("A") else Some("Ohms")
    else if testType == "IR" || testType == "CONT" then Some("Ohms")
    else None
  }

  /** The stored status code: a missing or "?" code counts as 0; otherwise `int()`. */
  function StatusCodeOf(s: string): (r: Option<int>)
    ensures s == "" || s == "?" ==> r == Some(0)
    ensures s != "" && s != "?" ==> r == IntOf(s)
  {
    if s == "" || s == "?" then Some(0) else IntOf(s)
  }

  /** `", ".join(parts)`. */
  function JoinComma(parts: seq<string>): string
  {
    if parts == [] then ""
    else if |parts| == 1 then parts[0]
    else parts[0] + ", " + JoinComma(parts[1..])
  }

  /** The status description: the set flags joined with ", ", "PASS" for code 0, and
      nothing for a non-zero code none of whose bits is in the table. */
  function StatusDescription(code: int): (d: Option<string>)
    ensures code == 0 ==> d == Some("PASS")
    ensures code != 0 && FlagReasons(code) == [] ==> d.None?
    ensures code != 0 && FlagReasons(code) != [] ==> d == Some(JoinComma(FlagReasons(code)))
  {
    var reasons := if code != 0 then FlagReasons(code) else [];
    if reasons != [] then Some(JoinComma(reasons))
    else if code == 0 then Some("PASS")
    else None
  }

  /** A code with a single flag bit is described by that flag alone. */
  lemma StatusDescriptionOfBit(i: nat)
    requires i < |STATUS_FLAGS|
    ensures StatusDescription(Pow2(i)) == Some(STATUS_FLAGS[i].1)
  {
    FlagReasonsOfBit(i);
  }

  /** Bit 17 is outside the table: such a code has no description at all. */
  lemma StatusDescriptionOfUnknownBit()
    ensures StatusDescription(131072) == None
  {
    FlagReasonsOfBit(17);
    Pow2Of17();
  }

  lemma Pow2Of17()
    ensures Pow2(17) == 131072
  {
    FlagBit(16);
    assert STATUS_FLAGS[16].0 == 65536;
  }

  /** The conversions of a parsed record run in a fixed order and the first that raises
      stops the rest: this is how many succeed (6 when all do). */
  function Reached(p: ParsedStep, testType: string, toFloat: string -> Option<real>): (k: nat)
    requires p.Parsed?
    ensures k <= 6
  {
    if p.termState != "" && p.termState != "?" && IntOf(p.termState).None? then 0
    else if p.elapsedTime != "" && toFloat(p.elapsedTime).None? then 1
    else if StatusCodeOf(p.statusCode).None? then 2
    else if p.level != "" && toFloat(p.level).None? then 3
    else if p.measurement != "" && toFloat(p.measurement).None? then 4
    else if p.optional1.Some? && (testType == "ACW" || testType == "DCW") &&
            p.optional1.value != "" && toFloat(p.optional1.value).None? then 5
    else 6
  }

  /** A float column: `float(s) if s else None`, with the conversion succeeding. */
  function FloatOf(s: string, toFloat: string -> Option<real>): Option<real>
  {
    if s == "" then None else toFloat(s)
  }

  /** The text of a value in an f-string: the text itself, or "None". */
  function Shown(raw: Option<string>): string
  {
    if raw.Some? then raw.value else "None"
  }

  /** The row before any conversion: identity, overall verdict, step and test type, and
      the raw reply as the note. */
  function BaseRecord(sequenceId: string, dutSerial: Option<string>, operatorName: Option<string>,
                      overall: Option<string>, sequence: seq<StepConfig>, e: StepResult): (rec: Record)
    ensures rec.overallResult == (if overall == Some("0") then "PASS" else "FAIL")
    ensures rec.testType == Get(StepConfigFor(sequence, e.stepNumber), "type", "UNKNOWN")
    ensures |rec.notes| >= 5 && rec.notes[..5] == "Raw: "
  {
    Record(sequenceId, dutSerial, operatorName, if overall == Some("0") then "PASS" else "FAIL",
           e.stepNumber, Get(StepConfigFor(sequence, e.stepNumber), "type", "UNKNOWN"),
           None, None, None, None, None, None, None, None, None, None,
           "Raw: " + Shown(e.raw), false)
  }

  /** The conversions of a parsed record into the row: the columns up to the first
      conversion that raises are filled, the rest stay empty, and a failure is noted. */
  function Converted(base: Record, p: ParsedStep, toFloat: string -> Option<real>): (rec: Record)
    requires p.Parsed?
    ensures rec.sequenceId == base.sequenceId && rec.stepNumber == base.stepNumber
    ensures rec.overallResult == base.overallResult && rec.testType == base.testType
    ensures rec.conversionFailed <==> Reached(p, base.testType, toFloat) < 6
  {
    var testType := base.testType;
    var k := Reached(p, testType, toFloat);
    var code := StatusCodeOf(p.statusCode);
    base.(
      termCode := if k >= 1 && p.termState != "" && p.termState != "?" then IntOf(p.termState) else None,
      termText := if k >= 1 && p.termState in TERMINATION_STATES then Some(TERMINATION_STATES[p.termState]) else None,
      elapsed := if k >= 2 then FloatOf(p.elapsedTime, toFloat) else None,
      statusCode := if k >= 3 then code else None,
      statusDescription := if k >= 3 then StatusDescription(code.value) else None,
      level := if k >= 4 then FloatOf(p.level, toFloat) else None,
      levelUnit := if k >= 4 then LevelUnit(testType) else None,
      measurement := if k >= 5 then FloatOf(p.measurement, toFloat) else None,
      measurementUnit := if k >= 5 then MeasurementUnit(testType) else None,
      arcPeak := if k >= 6 && p.optional1.Some? && (testType == "ACW" || testType == "DCW")
                 then FloatOf(p.optional1.value, toFloat) else None,
      notes := if k < 6 then base.notes + " | PARSE_ERROR" else base.notes,
      conversionFailed := k < 6)
  }

  /** The row for one step entry: the conversions run only on a non-empty parsed record. */
  function StepRecord(sequenceId: string, dutSerial: Option<string>, operatorName: Option<string>,
                      overall: Option<string>, sequence: seq<StepConfig>, e: StepResult,
                      toFloat: string -> Option<real>): (rec: Record)
    ensures rec.sequenceId == sequenceId && rec.stepNumber == e.stepNumber
    ensures rec.overallResult == (if overall == Some("0") then "PASS" else "FAIL")
    ensures rec.testType == Get(StepConfigFor(sequence, e.stepNumber), "type", "UNKNOWN")
  {
    var base := BaseRecord(sequenceId, dutSerial, operatorName, overall, sequence, e);
    if e.parsed.Some? && e.parsed.value.Parsed? then Converted(base, e.parsed.value, toFloat) else base
  }

  /** The rows of a run: none at all without a sequence id, else one per step entry. */
  function Records(sequenceId: Option<string>, sequence: seq<StepConfig>, r: RunResults,
                   dutText: string, operatorText: string, toFloat: string -> Option<real>): (rs: Option<seq<Record>>)
    ensures rs.None? <==> sequenceId.None?
    ensures rs.Some? ==> |rs.value| == |r.steps|
  {
    if sequenceId.None? then None
    else Some(MapSeq(r.steps, RowOf(sequenceId.value, FieldText(dutText), FieldText(operatorText), r.overall, sequence, toFloat)))
  }

  /** The row mapping of one run, as a function of the step entry. */
  function RowOf(sequenceId: string, dutSerial: Option<string>, operatorName: Option<string>,
                 overall: Option<string>, sequence: seq<StepConfig>,
                 toFloat: string -> Option<real>): StepResult -> Record
  {
    e => StepRecord(sequenceId, dutSerial, operatorName, overall, sequence, e, toFloat)
  }

  /** The rows of a run record each step under its own configuration's test type and
      units, in step order. */
  lemma RecordsFollowSequence(sequenceId: string, sequence: seq<StepConfig>, overall: Option<string>,
                              replies: seq<Option<string>>, dutText: string, operatorText: string,
                              toFloat: string -> Option<real>, i: nat)
    requires |replies| <= |sequence| && i < |replies|
    ensures var rs := Records(Some(sequenceId), sequence, RunResults(overall, Entries(replies)), dutText, operatorText, toFloat);
      rs.Some? && |rs.value| == |replies| &&
      rs.value[i].stepNumber == i + 1 &&
      rs.value[i].testType == Get(sequence[i], "type", "UNKNOWN")
  {
    var steps := Entries(replies);
    MapSeqIndex(steps, RowOf(sequenceId, FieldText(dutText), FieldText(operatorText), overall, sequence, toFloat), i);
    EntryAt(replies, i);
  }

  /** A step without a parsed record keeps only its raw reply, as the note. */
  lemma UnparsedRecord(sequenceId: string, dutSerial: Option<string>, operatorName: Option<string>,
                       overall: Option<string>, sequence: seq<StepConfig>, e: StepResult,
                       toFloat: string -> Option<real>)
    requires !(e.parsed.Some? && e.parsed.value.Parsed?)
    ensures var rec := StepRecord(sequenceId, dutSerial, operatorName, overall, sequence, e, toFloat);
      rec.termCode.None? && rec.statusCode.None? && rec.statusDescription.None? &&
      rec.levelUnit.None? && rec.measurementUnit.None? && !rec.conversionFailed &&
      rec.notes == "Raw: " + Shown(e.raw)
  {
  }

  /** The conversions fail exactly when one of them raises, and the failure is noted
      after the raw reply. */
  lemma ConversionFailureNoted(sequenceId: string, dutSerial: Option<string>, operatorName: Option<string>,
                               overall: Option<string>, sequence: seq<StepConfig>, e: StepResult,
                               toFloat: string -> Option<real>)
    requires e.parsed.Some? && e.parsed.value.Parsed?
    ensures var rec := StepRecord(sequenceId, dutSerial, operatorName, overall, sequence, e, toFloat);
      (rec.conversionFailed <==> Reached(e.parsed.value, rec.testType, toFloat) < 6) &&
      rec.notes == "Raw: " + Shown(e.raw) + (if rec.conversionFailed then " | PARSE_ERROR" else "")
  {
  }

  /** The status columns are filled exactly when the conversions before them succeed, and
      then hold the status code and its description. */
  lemma StatusColumns(sequenceId: string, dutSerial: Option<string>, operatorName: Option<string>,
                      overall: Option<string>, sequence: seq<StepConfig>, e: StepResult,
                      toFloat: string -> Option<real>)
    requires e.parsed.Some? && e.parsed.value.Parsed?
    ensures var rec := StepRecord(sequenceId, dutSerial, operatorName, overall, sequence, e, toFloat);
      (rec.statusCode.Some? <==> Reached(e.parsed.value, rec.testType, toFloat) >= 3) &&
      (rec.statusCode.Some? ==>
        rec.statusCode == StatusCodeOf(e.parsed.value.statusCode) &&
        rec.statusDescription == StatusDescription(rec.statusCode.value))
  {
  }

  /** A parsed step all of whose conversions succeed carries the units of its test type. */
  lemma CleanRecordUnits(sequenceId: string, dutSerial: Option<string>, operatorName: Option<string>,
                         overall: Option<string>, sequence: seq<StepConfig>, e: StepResult,
                         toFloat: string -> Option<real>)
    requires e.parsed.Some? && e.parsed.value.Parsed?
    requires Reached(e.parsed.value, Get(StepConfigFor(sequence, e.stepNumber), "type", "UNKNOWN"), toFloat) == 6
    ensures var rec := StepRecord(sequenceId, dutSerial, operatorName, overall, sequence, e, toFloat);
      rec.levelUnit == LevelUnit(rec.testType) && rec.measurementUnit == MeasurementUnit(rec.testType)
  {
  }

  /** `log_to_supabase`: the rows it would insert, or `None` when it skips the run for want
      of a sequence id. Nothing of the sequencer changes. */
  method LogToSupabase(s: TestSequencer, r: RunResults, dutText: string, operatorText: string,
                       toFloat: string -> Option<real>) returns (records: Option<seq<Record>>)
    ensures records == Records(s.sequenceId, s.sequence, r, dutText, operatorText, toFloat)
  {
    var dutSerial := FieldText(dutText);
    var operatorName := FieldText(operatorText);
    if s.sequenceId.None? {
      return None;
    }
    var rows := BuildRows(s.sequenceId.value, dutSerial, operatorName, r.overall, s.sequence, r.steps, toFloat);
    return Some(rows);
  }

  /** The loop of `log_to_supabase` that builds one row per step entry. */
  method BuildRows(sequenceId: string, dutSerial: Option<string>, operatorName: Option<string>,
                   overall: Option<string>, sequence: seq<StepConfig>, steps: seq<StepResult>,
                   toFloat: string -> Option<real>) returns (rows: seq<Record>)
    ensures rows == MapSeq(steps, RowOf(sequenceId, dutSerial, operatorName, overall, sequence, toFloat))
  {
    ghost var rowOf := RowOf(sequenceId, dutSerial, operatorName, overall, sequence, toFloat);
    rows := [];
    for i := 0 to |steps|
      invariant rows == MapSeq(steps[..i], rowOf)
    {
      var row := StepRecord(sequenceId, dutSerial, operatorName, overall, sequence, steps[i], toFloat);
      MapSeqMore(steps, rowOf, i);
      rows := rows + [row];
    }
    TakeAll(steps);
  }

  // ---------------------------------------------------------------- handling a finished run

  /** What happens to a finished run: the worker reported a failure; the display stopped
      on an exception; or the view was shown and the rows (if the run was logged) stored. */
  datatype Handling =
    | RunFailed
    | DisplayStopped
    | Handled(view: View, records: Option<seq<Record>>)

  /** `handle_test_results` as written. */
  function HandleAsWritten(results: Option<RunResults>, linked: bool, sequenceId: Option<string>,
                           sequence: seq<StepConfig>, dutText: string, operatorText: string,
                           toFloat: string -> Option<real>): (h: Handling)
    ensures results.None? <==> h.RunFailed?
    ensures h.DisplayStopped? <==> results.Some? && results.value.overall.None?
  {
    match results
    case None => RunFailed
    case Some(r) =>
      match DisplayAsWritten(r)
      case None => DisplayStopped
      case Some(v) => Handled(v, if linked then Records(sequenceId, sequence, r, dutText, operatorText, toFloat) else None)
  }

  /** The handling with the corrected display: every finished run is shown and, with a
      database link and a sequence id, logged. */
  function Handle(results: Option<RunResults>, linked: bool, sequenceId: Option<string>,
                  sequence: seq<StepConfig>, dutText: string, operatorText: string,
                  toFloat: string -> Option<real>): (h: Handling)
    ensures results.None? <==> h.RunFailed?
    ensures results.Some? ==> h.Handled? && h.view == Display(results.value)
    ensures results.Some? && linked && sequenceId.Some? ==>
      h.records.Some? && |h.records.value| == |results.value.steps|
  {
    match results
    case None => RunFailed
    case Some(r) => Handled(Display(r), if linked then Records(sequenceId, sequence, r, dutText, operatorText, toFloat) else None)
  }

  /** A completed run whose `RSLT?` query got no reply is never logged as written, though
      its step records are there; the corrected handling logs it. */
  lemma UnansweredOverallIsNotLogged(steps: seq<StepResult>, sequenceId: string, sequence: seq<StepConfig>,
                                     dutText: string, operatorText: string, toFloat: string -> Option<real>)
    ensures HandleAsWritten(Some(RunResults(None, steps)), true, Some(sequenceId), sequence, dutText, operatorText, toFloat)
            == DisplayStopped
    ensures Handle(Some(RunResults(None, steps)), true, Some(sequenceId), sequence, dutText, operatorText, toFloat).records
            == Records(Some(sequenceId), sequence, RunResults(None, steps), dutText, operatorText, toFloat)
  {
  }

  /** Where the display as written does not stop, both handlings agree. */
  lemma HandleAgrees(results: Option<RunResults>, linked: bool, sequenceId: Option<string>,
                     sequence: seq<StepConfig>, dutText: string, operatorText: string,
                     toFloat: string -> Option<real>)
    requires results.Some? ==> results.value.overall.Some?
    ensures HandleAsWritten(results, linked, sequenceId, sequence, dutText, operatorText, toFloat)
            == Handle(results, linked, sequenceId, sequence, dutText, operatorText, toFloat)
  {
    if results.Some? {
      DisplayFailsOnlyWithoutOverall(results.value);
    }
  }

  // ---------------------------------------------------------------- programming steps

  /** The outcome of one `add_step_to_device` for a step whose ADD command is `command`
      (`None` when the step is refused before anything is sent): on an open device with a
      command, the ADD exchange, accepted or not; otherwise a refusal with nothing
      exchanged. */
  predicate Programmed(open: bool, command: Option<string>, t: seq<Exchange>, ok: bool)
  {
    if open && command.Some? then AddLog(t, command.value) && (ok <==> AddAccepted(t))
    else !ok && t == []
  }

  /** The ADD commands of a sequence of steps. */
  function Commands(cs: seq<StepConfig>): (cmds: seq<Option<string>>)
    ensures |cmds| == |cs|
  {
    seq(|cs|, j requires 0 <= j < |cs| => StepCommand(cs[j]))
  }

  /** The exchanges of several attempts, in order. */
  function Flatten(ts: seq<seq<Exchange>>): seq<Exchange>
  {
    if ts == [] then [] else Flatten(ts[..|ts| - 1]) + ts[|ts| - 1]
  }

  /** The test-setup dialog: a step the dialog returns is appended to the local sequence
      only after the instrument accepted it; a closed device or a cancelled dialog
      changes nothing. */
  method OpenTestSetupDialog(s: TestSequencer, config: Option<StepConfig>) returns (added: bool, ghost t: seq<Exchange>)
    modifies s`sequence, s.device.bridge
    ensures !s.device.isOpen || config.None? ==> !added && unchanged(s.device.bridge)
    ensures s.device.isOpen && config.Some? ==>
      Programmed(true, StepCommand(config.value), t, added) && s.device.bridge.log == old(s.device.bridge.log) + t
    ensures s.sequence == old(s.sequence) + (if added then [config.value] else [])
  {
    if !s.device.isOpen || config.None? {
      return false, [];
    }
    added, t := s.AddStepToDevice(config.value);
    if StepCommand(config.value).None? {
      t := [];
    }
    if added {
      s.sequence := s.sequence + [config.value];
    }
  }

  /** One `add_step_to_device` call of the programming loop. */
  method ProgramStep(s: TestSequencer, c: StepConfig) returns (ok: bool, ghost t: seq<Exchange>)
    modifies s.device.bridge
    ensures Programmed(s.device.isOpen, StepCommand(c), t, ok)
    ensures s.device.bridge.log == old(s.device.bridge.log) + t
  {
    ok, t := s.AddStepToDevice(c);
    if !s.device.isOpen || StepCommand(c).None? {
      t := [];
    }
  }

  lemma FlattenAppend(ts: seq<seq<Exchange>>, t: seq<Exchange>)
    ensures Flatten(ts + [t]) == Flatten(ts) + t
  {
    assert (ts + [t])[..|ts|] == ts;
  }

  /** The outcomes of the first attempts at a sequence whose ADD commands are `cmds`:
      attempt j succeeded exactly when j < count. */
  ghost predicate Attempted(open: bool, cmds: seq<Option<string>>, attempts: seq<seq<Exchange>>, count: nat)
  {
    count <= |attempts| <= |cmds| &&
    forall j :: 0 <= j < |attempts| ==> Programmed(open, cmds[j], attempts[j], j < count)
  }

  lemma AttemptedMore(open: bool, cmds: seq<Option<string>>, attempts: seq<seq<Exchange>>, count: nat,
                      t: seq<Exchange>, ok: bool)
    requires Attempted(open, cmds, attempts, count) && |attempts| == count < |cmds|
    requires Programmed(open, cmds[count], t, ok)
    ensures Attempted(open, cmds, attempts + [t], if ok then count + 1 else count)
  {
    var more := attempts + [t];
    var k := if ok then count + 1 else count;
    forall j | 0 <= j < |more|
      ensures Programmed(open, cmds[j], more[j], j < k)
    {
      if j < |attempts| {
        assert more[j] == attempts[j] && (j < k <==> j < count);
      }
    }
  }

  /** Programming a loaded sequence: the steps go to the instrument in order and the
      first refusal stops the loop; `count` is the number accepted before it. */
  method ProgramLoadedSteps(s: TestSequencer) returns (count: nat, ghost attempts: seq<seq<Exchange>>)
    modifies s.device.bridge
    ensures Attempted(s.device.isOpen, Commands(s.sequence), attempts, count)
    ensures |attempts| == if count < |s.sequence| then count + 1 else count
    ensures s.device.bridge.log == old(s.device.bridge.log) + Flatten(attempts)
  {
    ghost var log0 := s.device.bridge.log;
    ghost var cmds := Commands(s.sequence);
    count := 0;
    attempts := [];
    while count < |s.sequence|
      invariant Attempted(s.device.isOpen, cmds, attempts, count) && |attempts| == count
      invariant s.device.bridge.log == log0 + Flatten(attempts)
    {
      var ok, t := ProgramStep(s, s.sequence[count]);
      assert cmds[count] == StepCommand(s.sequence[count]);
      FlattenAppend(attempts, t);
      Regroup(log0, Flatten(attempts), t);
      AttemptedMore(s.device.isOpen, cmds, attempts, count, t, ok);
      attempts := attempts + [t];
      if !ok {
        return;
      }
      count := count + 1;
    }
  }
}
