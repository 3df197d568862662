/** The V7X command vocabulary both front ends use, the `ADD` command builder, and the
    shapes the exchange log takes when a sequence is run. */
module Protocol {
  import opened Common
  import opened Transport

  const ERROR_QUERY := "*ERR?"
  const CLEAR_STATUS := "*CLS"
  const CLEAR_SEQUENCE := "NOSEQ"
  const RUN := "RUN"
  const RUN_STATUS := "RUN?"
  const ABORT := "ABORT"
  const RESULT_QUERY := "RSLT?"
  const STEP_COUNT_QUERY := "STEP?"

  /** The whole-run deadline of the polling loops: 3600 s. */
  const MAX_RUN_MS: nat := 3600000
  /** The pause before each `RUN?` poll. */
  const POLL_INTERVAL_MS: nat := 500

  /** `f"STEPRSLT?,{i}"`. */
  function StepQuery(i: nat): (q: string)
    ensures |q| > 10 && q[..10] == "STEPRSLT?,"
    ensures Split(q, ',') == ["STEPRSLT?", NatToString(i)]
  {
    var q := "STEPRSLT?," + NatToString(i);
    assert q == Join(["STEPRSLT?", NatToString(i)], ',');
    assert ',' !in "STEPRSLT?";
    NoCommaInDigits(NatToString(i));
    SplitJoin(["STEPRSLT?", NatToString(i)], ',');
    q
  }

  lemma NoCommaInDigits(s: string)
    requires AllDigits(s)
    ensures ',' !in s
  {
    forall k | 0 <= k < |s|
      ensures s[k] != ','
    {
      assert IsDigit(s[k]);
    }
  }

  /** The step-result queries are pairwise different, so each reply is tied to one step. */
  lemma StepQueriesDistinct(i: nat, j: nat)
    requires i != j
    ensures StepQuery(i) != StepQuery(j)
  {
    assert Split(StepQuery(i), ',')[1] == NatToString(i);
    assert Split(StepQuery(j), ',')[1] == NatToString(j);
    IntOfNatToString(i);
    IntOfNatToString(j);
  }

  /** A `RUN?` reply that keeps the polling loop going: still running, or no reply. */
  predicate KeepsPolling(reply: Option<string>)
  {
    reply == Some("1") || reply == None
  }

  /** A `RUN?` reply that neither ends nor continues the run. */
  predicate Unexpected(reply: Option<string>)
  {
    reply != Some("0") && !KeepsPolling(reply)
  }

  // ---------------------------------------------------------------- ADD command

  /** The `,<p>` suffix the builder appends for each parameter, blanks kept. */
  function Fields(params: seq<string>): string
  {
    if params == [] then "" else Fields(params[..|params| - 1]) + ([','] + params[|params| - 1])
  }

  /** `ADD,<type>` followed by one `,<p>` per parameter. */
  function AddCommand(testType: string, params: seq<string>): string
  {
    "ADD," + testType + Fields(params)
  }

  /** The loop that builds an `ADD` command. */
  method BuildAddCommand(testType: string, params: seq<string>) returns (command: string)
    ensures command == AddCommand(testType, params)
    ensures command[..4] == "ADD,"
  {
    command := "ADD," + testType;
    for i := 0 to |params|
      invariant command == "ADD," + testType + Fields(params[..i])
    {
      assert params[..i + 1][..i] == params[..i];
      command := command + ",";
      command := command + params[i];
    }
    assert params[..|params|] == params;
  }

  lemma {:induction false} JoinAppend(xs: seq<string>, p: string, sep: char)
    requires xs != []
    ensures Join(xs + [p], sep) == Join(xs, sep) + ([sep] + p)
    decreases |xs|
  {
    if |xs| == 1 {
      assert xs + [p] == [xs[0], p];
      assert Join([p], sep) == p;
    } else {
      assert (xs + [p])[1..] == xs[1..] + [p];
      JoinAppend(xs[1..], p, sep);
    }
  }

  /** The command is the comma-join of `ADD`, the type and the parameters. */
  lemma {:induction false} AddCommandIsJoin(testType: string, params: seq<string>)
    ensures AddCommand(testType, params) == Join(["ADD", testType] + params, ',')
    decreases |params|
  {
    if params == [] {
      assert ["ADD", testType] + params == ["ADD", testType];
      assert Join([testType], ',') == testType;
    } else {
      var init, last := params[..|params| - 1], params[|params| - 1];
      AddCommandIsJoin(testType, init);
      JoinAppend(["ADD", testType] + init, last, ',');
      assert ["ADD", testType] + init + [last] == ["ADD", testType] + params;
    }
  }

  /** The instrument splits an `ADD` command back into the type and the parameters, in
      order and blanks included, whenever none of them holds a comma. */
  lemma AddCommandSplits(testType: string, params: seq<string>)
    requires ',' !in testType
    requires forall i :: 0 <= i < |params| ==> ',' !in params[i]
    ensures Split(AddCommand(testType, params), ',') == ["ADD", testType] + params
  {
    AddCommandIsJoin(testType, params);
    var fs := ["ADD", testType] + params;
    assert forall i :: 0 <= i < |fs| ==> ',' !in fs[i] by {
      forall i | 0 <= i < |fs| ensures ',' !in fs[i] {
        if i >= 2 {
          assert fs[i] == params[i - 2];
        }
      }
    }
    SplitJoin(fs, ',');
  }

  // ---------------------------------------------------------------- run logs

  /** A stretch of `RUN?` polls that all kept the loop going. */
  predicate Polling(t: seq<Exchange>)
  {
    forall j :: 0 <= j < |t| ==> t[j].Query? && t[j].cmd == RUN_STATUS && KeepsPolling(t[j].reply)
  }

  /** The opening of a run: `*CLS`, whatever its outcome, then `RUN`. */
  predicate Started(t: seq<Exchange>, runSent: bool)
  {
    |t| >= 2 && t[0].Command? && t[0].cmd == CLEAR_STATUS && t[1] == Command(RUN, runSent)
  }

  /** A run whose `RUN` command failed: the error register is read and nothing else. */
  predicate Refused(t: seq<Exchange>)
  {
    |t| == 3 && Started(t, false) && t[2].Query? && t[2].cmd == ERROR_QUERY
  }

  /** The result queries of a completed run of `n` steps: `RSLT?`, then `STEPRSLT?,i`
      for i = 1..n in order. */
  predicate Collected(t: seq<Exchange>, n: nat)
  {
    |t| == n + 1 && t[0].Query? && t[0].cmd == RESULT_QUERY &&
    forall i :: 1 <= i <= n ==> t[i].Query? && t[i].cmd == StepQuery(i)
  }

  /** A run that started, polled until `RUN?` read "0", and collected `n` results. */
  predicate Completed(t: seq<Exchange>, n: nat)
  {
    |t| >= n + 4 && Started(t, true) && Polling(t[2..|t| - n - 2]) &&
    t[|t| - n - 2] == Query(RUN_STATUS, Some("0")) && Collected(t[|t| - n - 1..], n)
  }

  /** A run stopped by an unexpected `RUN?` reply; `checked` says whether the error
      register is read before `ABORT` is sent. */
  predicate AbortedOnStatus(t: seq<Exchange>, checked: bool)
  {
    var k := if checked then 3 else 2;
    |t| >= k + 2 && Started(t, true) && Polling(t[2..|t| - k]) &&
    t[|t| - k].Query? && t[|t| - k].cmd == RUN_STATUS && Unexpected(t[|t| - k].reply) &&
    (checked ==> t[|t| - 2].Query? && t[|t| - 2].cmd == ERROR_QUERY) &&
    t[|t| - 1].Command? && t[|t| - 1].cmd == ABORT
  }

  /** A run that kept polling until the hour was up, then sent `ABORT`. */
  predicate AbortedOnTimeout(t: seq<Exchange>)
  {
    |t| >= 3 && Started(t, true) && Polling(t[2..|t| - 1]) &&
    t[|t| - 1].Command? && t[|t| - 1].cmd == ABORT
  }

  /** A completed run ends with a result query, which no aborted run does. */
  lemma CompletedIsNotAborted(t: seq<Exchange>, n: nat)
    requires Completed(t, n)
    ensures !AbortedOnStatus(t, true) && !AbortedOnStatus(t, false) && !AbortedOnTimeout(t) && !Refused(t)
  {
    assert t[|t| - 1] == t[|t| - n - 1..][n];
  }

  // ---------------------------------------------------------------- run lemmas

  /** Appending one record to a log that already ends in `t`. */
  lemma Grow(log: seq<Exchange>, t: seq<Exchange>, e: Exchange)
    ensures log + t + [e] == log + (t + [e])
  {
  }

  lemma Regroup(log: seq<Exchange>, t: seq<Exchange>, u: seq<Exchange>)
    ensures log + t + u == log + (t + u)
  {
  }

  /** The step-result queries that produced those replies. */
  function ResultQueries(replies: seq<Option<string>>): (qs: seq<Exchange>)
    ensures |qs| == |replies|
  {
    seq(|replies|, i requires 0 <= i < |replies| => Query(StepQuery(i + 1), replies[i]))
  }

  /** The reply a log record carries (a command carries none). */
  function ReplyOf(e: Exchange): Option<string>
  {
    if e.Command? then None else e.reply
  }

  function Replies(t: seq<Exchange>): (rs: seq<Option<string>>)
    ensures |rs| == |t|
  {
    seq(|t|, i requires 0 <= i < |t| => ReplyOf(t[i]))
  }

  lemma RepliesOfQueries(replies: seq<Option<string>>)
    ensures Replies(ResultQueries(replies)) == replies
  {
  }

  lemma ResultQueriesAppend(replies: seq<Option<string>>, raw: Option<string>)
    ensures ResultQueries(replies + [raw]) == ResultQueries(replies) + [Query(StepQuery(|replies| + 1), raw)]
  {
  }

  /** The polls of a run that ended with `RUN?` reading "0". */
  predicate PolledToEnd(p: seq<Exchange>)
  {
    |p| >= 1 && Polling(p[..|p| - 1]) && p[|p| - 1] == Query(RUN_STATUS, Some("0"))
  }

  /** The polls of a run stopped by an unexpected `RUN?` reply, then `*ERR?` when
      `checked`, then `ABORT`. */
  predicate PolledToSurprise(p: seq<Exchange>, checked: bool)
  {
    var k := if checked then 3 else 2;
    |p| >= k && Polling(p[..|p| - k]) && p[|p| - k].Query? && p[|p| - k].cmd == RUN_STATUS &&
    Unexpected(p[|p| - k].reply) && (checked ==> p[|p| - 2].Query? && p[|p| - 2].cmd == ERROR_QUERY) &&
    p[|p| - 1].Command? && p[|p| - 1].cmd == ABORT
  }

  /** The polls of a run that kept going until the hour was up, then `ABORT`. */
  predicate PolledToDeadline(p: seq<Exchange>)
  {
    |p| >= 1 && Polling(p[..|p| - 1]) && p[|p| - 1].Command? && p[|p| - 1].cmd == ABORT
  }

  /** A run that polled to its end and then collected `n` results is `Completed`, and
      its last `n` records carry the step replies in order. */
  lemma RunCompleted(opening: seq<Exchange>, p: seq<Exchange>, overall: Option<string>,
                     replies: seq<Option<string>>)
    requires Started(opening, true) && |opening| == 2 && PolledToEnd(p)
    ensures var t, n := opening + p + ([Query(RESULT_QUERY, overall)] + ResultQueries(replies)), |replies|;
      Completed(t, n) && t[|t| - n - 1] == Query(RESULT_QUERY, overall) && Replies(t[|t| - n..]) == replies
  {
    var q := ResultQueries(replies);
    var c := [Query(RESULT_QUERY, overall)] + q;
    var t, n := opening + p + c, |replies|;
    Middle(opening, p, c);
    CollectedQueries(overall, replies);
    assert c[1..] == q;
    RepliesOfQueries(replies);
  }

  /** How a started run ends, from the polls `p` and the result queries `c` that follow
      the opening `*CLS`, `RUN`; `timedOut` says whether the hour was up. */
  lemma RunOutcome(opening: seq<Exchange>, p: seq<Exchange>, c: seq<Exchange>, overall: Option<string>,
                   replies: seq<Option<string>>, n: nat, ok: bool, checked: bool, timedOut: bool,
                   u: seq<Exchange>)
    requires Started(opening, true) && |opening| == 2 && u == opening + (p + c)
    requires ok ==> PolledToEnd(p) && |replies| == n && c == [Query(RESULT_QUERY, overall)] + ResultQueries(replies)
    requires !ok ==> c == [] && (PolledToSurprise(p, checked) || (PolledToDeadline(p) && timedOut))
    ensures ok ==> Completed(u, n) && u[|u| - n - 1] == Query(RESULT_QUERY, overall) &&
                   Replies(u[|u| - n..]) == replies
    ensures !ok ==> AbortedOnStatus(u, checked) || (AbortedOnTimeout(u) && timedOut)
  {
    if !ok {
      assert u == opening + p;
      if PolledToSurprise(p, checked) {
        RunAbortedOnStatus(opening, p, checked);
      } else {
        RunAbortedOnTimeout(opening, p);
      }
    } else {
      Assoc(opening, p, c);
      RunCompleted(opening, p, overall, replies);
    }
  }

  /** The three parts of `a + b + c`, read back by position from both ends. */
  lemma Middle<T>(a: seq<T>, b: seq<T>, c: seq<T>)
    requires |b| >= 1
    ensures var t := a + b + c;
      t[|a|..|t| - |c| - 1] == b[..|b| - 1] && t[|t| - |c| - 1] == b[|b| - 1] &&
      t[|t| - |c|..] == c
  {
  }

  /** `RSLT?` followed by the step queries in order is a collection of results. */
  lemma CollectedQueries(overall: Option<string>, replies: seq<Option<string>>)
    ensures Collected([Query(RESULT_QUERY, overall)] + ResultQueries(replies), |replies|)
  {
    var c := [Query(RESULT_QUERY, overall)] + ResultQueries(replies);
    forall i | 1 <= i <= |replies|
      ensures c[i].Query? && c[i].cmd == StepQuery(i)
    {
      assert c[i] == ResultQueries(replies)[i - 1];
    }
  }

  lemma RunAbortedOnStatus(opening: seq<Exchange>, p: seq<Exchange>, checked: bool)
    requires Started(opening, true) && |opening| == 2 && PolledToSurprise(p, checked)
    ensures AbortedOnStatus(opening + p, checked)
  {
    var t, k := opening + p, if checked then 3 else 2;
    assert t[2..|t| - k] == p[..|p| - k];
  }

  lemma RunAbortedOnTimeout(opening: seq<Exchange>, p: seq<Exchange>)
    requires Started(opening, true) && |opening| == 2 && PolledToDeadline(p)
    ensures AbortedOnTimeout(opening + p)
  {
    var t := opening + p;
    assert t[2..|t| - 1] == p[..|p| - 1];
  }
}
