/** The command-line driver: free functions over a bridge handle that send commands,
    read replies with their own deadline rule, run a configured sequence, and configure
    one from the operator's answers. Unlike the library driver there is no open check:
    every call goes to the handle it is given. */
module HipotCmd {
  import opened Common
  import opened Constants
  import opened Transport
  import opened Parsing
  import opened Protocol
  import Device
  import Sequencer

  /** The pause after `NOSEQ` and after each `ADD`. */
  const SETTLE_MS: nat := 200
  /** The pauses around `*CLS` before a run and before the result queries. */
  const SHORT_PAUSE_MS: nat := 100

  // ---------------------------------------------------------------- reading replies

  /** The reply loop of the command-line `read_response`: `since` is the time since the
      read started or since the last byte arrived, whichever is later, so the deadline
      only bounds the silence between bytes; `acc` is what has been kept so far. */
  function CliScan(polls: seq<Poll>, idleMs: nat, timeoutMs: nat, since: nat, acc: string): (s: Scan)
    ensures s.end == Deadline ==> s.elapsed >= timeoutMs
    ensures |s.rest| <= |polls|
    decreases |polls|, if since < timeoutMs then timeoutMs - since else 0
  {
    if since >= timeoutMs then Scan(Deadline, acc, polls, since)
    else
      var p := NextPoll(polls, idleMs);
      if p.status == HID_UART_SUCCESS && p.data == Some(LF_BYTE) then
        Scan(Line, acc, Tail(polls), since + p.ms)
      else if p.status == HID_UART_SUCCESS && p.data.Some? then
        CliScan(Tail(polls), idleMs, timeoutMs, 0, acc + Kept(p))
      else if Benign(p) then
        CliScan(Tail(polls), idleMs, timeoutMs, since + p.ms + 10, acc)
      else
        Scan(Failure, acc, Tail(polls), since + p.ms)
  }

  /** The reply the command-line `read_response` returns for a script. */
  function CliRead(polls: seq<Poll>, idleMs: nat, timeoutMs: nat): Option<string>
  {
    Reply(CliScan(polls, idleMs, timeoutMs, 0, ""), timeoutMs)
  }

  /** A read answer that ends nothing and carries no byte. */
  predicate Silent(p: Poll)
  {
    (p.status == HID_UART_SUCCESS || p.status == HID_UART_READ_TIMED_OUT) && p.data == None
  }

  predicate AllSilent(ps: seq<Poll>)
  {
    forall i :: 0 <= i < |ps| ==> Silent(ps[i])
  }

  /** A byte other than LF: kept (unless it is CR), and the deadline starts over. */
  predicate DataByte(p: Poll)
  {
    p.status == HID_UART_SUCCESS && p.data.Some? && p.data.value != LF_BYTE
  }

  /** Silence shorter than the remaining time is waited out without a change to the
      collected text. */
  lemma {:induction false} CliScanSilence(gap: seq<Poll>, rest: seq<Poll>, idleMs: nat, timeoutMs: nat,
                                          since: nat, acc: string, polls: seq<Poll>, reached: nat)
    requires AllSilent(gap) && since + Cost(gap) < timeoutMs
    requires polls == gap + rest && reached == since + Cost(gap)
    ensures CliScan(polls, idleMs, timeoutMs, since, acc) == CliScan(rest, idleMs, timeoutMs, reached, acc)
    decreases |gap|
  {
    if gap == [] {
      assert polls == rest;
    } else {
      var p, t := gap[0], gap[1..];
      var q, e := t + rest, since + StepCost(p);
      assert polls[0] == p && Silent(p) && AllSilent(t);
      assert Tail(polls) == q;
      CliScanSilence(t, rest, idleMs, timeoutMs, e, acc, q, reached);
    }
  }

  /** However long a reply takes in all, every byte that follows a silence shorter than
      the deadline is kept and the wait for the next one starts afresh. */
  lemma CliScanGapThenByte(gap: seq<Poll>, b: Poll, rest: seq<Poll>, idleMs: nat, timeoutMs: nat, acc: string)
    requires AllSilent(gap) && Cost(gap) < timeoutMs && DataByte(b)
    ensures CliScan(gap + [b] + rest, idleMs, timeoutMs, 0, acc)
         == CliScan(rest, idleMs, timeoutMs, 0, acc + Kept(b))
  {
    assert gap + [b] + rest == gap + ([b] + rest);
    CliScanSilence(gap, [b] + rest, idleMs, timeoutMs, 0, acc, gap + ([b] + rest), Cost(gap));
    assert Tail([b] + rest) == rest;
  }

  /** The same slow reply — "OK!" with two seconds before each byte, then LF — read with
      a three-second deadline: the library, which counts from the start of the read,
      stops after two characters; the command-line reader, which counts from the last
      byte, reads all three. */
  lemma SlowReplyReadsDiffer()
    ensures Device.LibRead(SlowReply(), 0, RESPONSE_READ_TIMEOUT_MS) == Some("OK")
    ensures CliRead(SlowReply(), 0, RESPONSE_READ_TIMEOUT_MS) == Some("OK!")
  {
    PlainTwo();
    PlainThree();
    SlowReplyLibScan();
    SlowReplyCliScan();
  }

  lemma PlainTwo()
    ensures Strip("OK") == "OK"
  {
    var s := "OK";
    assert s[0] == 'O' && s[1] == 'K';
    StripPlain(s);
  }

  lemma PlainThree()
    ensures Strip("OK!") == "OK!"
  {
    var s := "OK!";
    assert s[0] == 'O' && s[2] == '!';
    StripPlain(s);
  }

  lemma SlowReplyLibScan()
    ensures Device.LibScan(SlowReply(), 0, 3000, 0, "") == Scan(Deadline, "OK", SlowReply()[2..], 4000)
  {
    var ps := SlowReply();
    assert Kept(ps[0]) == "O" && Kept(ps[1]) == "K";
    assert Tail(ps) == ps[1..] && Tail(ps[1..]) == ps[2..];
    assert Device.LibScan(ps, 0, 3000, 0, "") == Device.LibScan(ps[1..], 0, 3000, 2000, "O");
    assert Device.LibScan(ps[1..], 0, 3000, 2000, "O") == Device.LibScan(ps[2..], 0, 3000, 4000, "OK");
  }

  lemma SlowReplyCliScan()
    ensures CliScan(SlowReply(), 0, 3000, 0, "") == Scan(Line, "OK!", [], 10)
  {
    var ps := SlowReply();
    var o, ok, okx := "O", "OK", "OK!";
    assert Kept(ps[0]) == o && Kept(ps[1]) == [ok[1]] && Kept(ps[2]) == [okx[2]];
    assert o == "" + o && ok == o + [ok[1]] && okx == ok + [okx[2]];
    CliScanKeeps(ps, 0, 3000, 0, "", ps[1..], o);
    CliScanKeeps(ps[1..], 0, 3000, 0, o, ps[2..], ok);
    CliScanKeeps(ps[2..], 0, 3000, 0, ok, ps[3..], okx);
    assert Tail(ps[3..]) == [];
  }

  /** A data byte before the deadline is kept and the wait for the next one starts afresh. */
  lemma CliScanKeeps(polls: seq<Poll>, idleMs: nat, timeoutMs: nat, since: nat, acc: string,
                     rest: seq<Poll>, kept: string)
    requires since < timeoutMs && DataByte(NextPoll(polls, idleMs))
    requires rest == Tail(polls) && kept == acc + Kept(NextPoll(polls, idleMs))
    ensures CliScan(polls, idleMs, timeoutMs, since, acc) == CliScan(rest, idleMs, timeoutMs, 0, kept)
  {
  }

  function SlowReply(): seq<Poll>
  {
    [Poll(HID_UART_SUCCESS, Some(79), 2000), Poll(HID_UART_SUCCESS, Some(75), 2000),
     Poll(HID_UART_SUCCESS, Some(33), 2000), Poll(HID_UART_SUCCESS, Some(LF_BYTE), 10)]
  }

  // ---------------------------------------------------------------- send, read, query

  /** The body of `send_command` without the record in the log: one write of the
      CR-terminated frame, reported successful exactly when the write status is success,
      whatever byte count the write reports. */
  method Transmit(bridge: Bridge, h: nat, command: string) returns (ok: bool)
    modifies bridge`writes, bridge`calls
    ensures ok <==> NextWrite(old(bridge.writes), |Device.Frame(command)|).status == HID_UART_SUCCESS
    ensures bridge.writes == Tail(old(bridge.writes))
    ensures bridge.calls == old(bridge.calls) + [WriteFrame(h, Device.Frame(command))]
  {
    var frame := Device.Frame(command);
    var w := bridge.Write(h, frame);
    if w.status != HID_UART_SUCCESS {
      return false;
    }
    // A short write is only a warning.
    ok := true;
  }

  /** `send_command`. */
  method SendCommand(bridge: Bridge, h: nat, command: string) returns (ok: bool)
    modifies bridge`writes, bridge`calls, bridge`log
    ensures ok <==> NextWrite(old(bridge.writes), |Device.Frame(command)|).status == HID_UART_SUCCESS
    ensures bridge.writes == Tail(old(bridge.writes))
    ensures bridge.calls == old(bridge.calls) + [WriteFrame(h, Device.Frame(command))]
    ensures bridge.log == old(bridge.log) + [Command(command, ok)]
  {
    ok := Transmit(bridge, h, command);
    bridge.log := bridge.log + [Command(command, ok)];
  }

  /** `read_response`: the reply is `CliRead` of the script, the read time-out is set to
      50 ms first, and it is set back to the 100/1000 ms defaults only when the loop did
      not end on a read error. */
  method ReadResponse(bridge: Bridge, h: nat, timeoutMs: nat) returns (r: Option<string>)
    modifies bridge`polls, bridge`clock, bridge`calls
    ensures var s := CliScan(old(bridge.polls), bridge.idleMs, timeoutMs, 0, "");
      r == Reply(s, timeoutMs) && bridge.polls == s.rest &&
      bridge.calls == old(bridge.calls) + [Timeouts(h, Device.POLL_READ_TIMEOUT_MS, DEFAULT_WRITE_TIMEOUT_MS)] +
        (if s.end == Failure then [] else [Timeouts(h, DEFAULT_READ_TIMEOUT_MS, DEFAULT_WRITE_TIMEOUT_MS)])
    ensures bridge.clock >= old(bridge.clock)
  {
    var _ := bridge.SetTimeouts(h, Device.POLL_READ_TIMEOUT_MS, DEFAULT_WRITE_TIMEOUT_MS);
    var ended, response, since := ReadLoop(bridge, timeoutMs);
    if ended == Failure {
      // Returns before the time-outs are restored.
      return None;
    }
    var _ := bridge.SetTimeouts(h, DEFAULT_READ_TIMEOUT_MS, DEFAULT_WRITE_TIMEOUT_MS);
    if since >= timeoutMs && response == "" {
      return None;
    }
    r := Some(Strip(response));
  }

  /** The byte-by-byte loop of the command-line `read_response`: it polls until a line
      feed, a read error, or until `timeoutMs` have passed since the last byte. It ends
      as `CliScan` says, `since` being the time from the last byte to the end. */
  method ReadLoop(bridge: Bridge, timeoutMs: nat) returns (ended: ScanEnd, response: string, since: nat)
    modifies bridge`polls, bridge`clock
    ensures CliScan(old(bridge.polls), bridge.idleMs, timeoutMs, 0, "") == Scan(ended, response, bridge.polls, since)
    ensures bridge.clock >= old(bridge.clock)
  {
    ghost var target := CliScan(bridge.polls, bridge.idleMs, timeoutMs, 0, "");
    ghost var clock0 := bridge.clock;
    response := "";
    var start := bridge.clock;
    ended := Deadline;
    since := 0;
    while bridge.clock - start < timeoutMs
      invariant clock0 <= start && bridge.clock == start + since && ended == Deadline
      invariant CliScan(bridge.polls, bridge.idleMs, timeoutMs, since, response) == target
      decreases |bridge.polls|, timeoutMs - since
    {
      ghost var polls1, response1 := bridge.polls, response;
      var p := bridge.Read();
      if p.status == HID_UART_SUCCESS {
        if p.data.Some? {
          if p.data.value == LF_BYTE {
            ended := Line;
            CliScanStops(polls1, bridge.idleMs, timeoutMs, since, response, ended, bridge.polls, since + p.ms);
            since := since + p.ms;
            break;
          }
          if p.data.value != CR_BYTE {
            response := response + [ByteChar(p.data.value)];
          } else {
            assert response == response1 + Kept(p);
          }
          CliScanKeeps(polls1, bridge.idleMs, timeoutMs, since, response1, bridge.polls, response);
          // The deadline starts over after every byte.
          start := bridge.clock;
          since := 0;
        } else {
          bridge.Sleep(10);
          CliScanWaits(polls1, bridge.idleMs, timeoutMs, since, response, bridge.polls, since + p.ms + 10);
          since := since + p.ms + 10;
        }
      } else if p.status == HID_UART_READ_TIMED_OUT {
        bridge.Sleep(10);
        CliScanWaits(polls1, bridge.idleMs, timeoutMs, since, response, bridge.polls, since + p.ms + 10);
        since := since + p.ms + 10;
      } else {
        ended := Failure;
        CliScanStops(polls1, bridge.idleMs, timeoutMs, since, response, ended, bridge.polls, since + p.ms);
        since := since + p.ms;
        break;
      }
    }
    if ended == Deadline {
      CliScanDeadline(bridge.polls, bridge.idleMs, timeoutMs, since, response);
    }
  }

  /** An answer with no byte before the deadline: the wait goes on, 10 ms later. */
  lemma CliScanWaits(polls: seq<Poll>, idleMs: nat, timeoutMs: nat, since: nat, acc: string,
                     rest: seq<Poll>, reached: nat)
    requires since < timeoutMs && Benign(NextPoll(polls, idleMs)) && !DataByte(NextPoll(polls, idleMs))
    requires rest == Tail(polls) && reached == since + NextPoll(polls, idleMs).ms + 10
    ensures CliScan(polls, idleMs, timeoutMs, since, acc) == CliScan(rest, idleMs, timeoutMs, reached, acc)
  {
  }

  /** Any other answer before the deadline ends the loop: a line feed ends the line, any
      other status fails the read. */
  lemma CliScanStops(polls: seq<Poll>, idleMs: nat, timeoutMs: nat, since: nat, acc: string,
                     end: ScanEnd, rest: seq<Poll>, reached: nat)
    requires since < timeoutMs && !Benign(NextPoll(polls, idleMs)) && rest == Tail(polls)
    requires reached == since + NextPoll(polls, idleMs).ms
    requires end == if NextPoll(polls, idleMs).status == HID_UART_SUCCESS then Line else Failure
    ensures CliScan(polls, idleMs, timeoutMs, since, acc) == Scan(end, acc, rest, reached)
  {
  }

  /** Once the deadline has passed since the last byte the loop stops where it stands. */
  lemma CliScanDeadline(polls: seq<Poll>, idleMs: nat, timeoutMs: nat, since: nat, acc: string)
    requires since >= timeoutMs
    ensures CliScan(polls, idleMs, timeoutMs, since, acc) == Scan(Deadline, acc, polls, since)
  {
  }

  /** `query_command`: a send, a 100 ms pause and a read with the default deadline; no
      reply, and nothing read, when the send fails. */
  method QueryCommand(bridge: Bridge, h: nat, command: string) returns (r: Option<string>)
    modifies bridge`writes, bridge`polls, bridge`clock, bridge`calls, bridge`log
    ensures bridge.log == old(bridge.log) + [Query(command, r)]
    ensures bridge.writes == Tail(old(bridge.writes))
    ensures NextWrite(old(bridge.writes), |Device.Frame(command)|).status != HID_UART_SUCCESS ==>
      r == None && bridge.polls == old(bridge.polls) && bridge.clock == old(bridge.clock) &&
      bridge.calls == old(bridge.calls) + [WriteFrame(h, Device.Frame(command))]
    ensures NextWrite(old(bridge.writes), |Device.Frame(command)|).status == HID_UART_SUCCESS ==>
      r == CliRead(old(bridge.polls), bridge.idleMs, RESPONSE_READ_TIMEOUT_MS) &&
      bridge.clock >= old(bridge.clock) + Device.QUERY_PAUSE_MS
    ensures bridge.clock >= old(bridge.clock)
  {
    var sent := Transmit(bridge, h, command);
    if sent {
      bridge.Sleep(Device.QUERY_PAUSE_MS);
      r := ReadResponse(bridge, h, RESPONSE_READ_TIMEOUT_MS);
    } else {
      r := None;
    }
    bridge.log := bridge.log + [Query(command, r)];
  }

  /** What callers of `send_command` rely on: one `Command` record and no time spent. */
  method LoggedSend(bridge: Bridge, h: nat, command: string) returns (ok: bool)
    modifies bridge
    ensures bridge.log == old(bridge.log) + [Command(command, ok)]
    ensures bridge.clock == old(bridge.clock)
  {
    ok := SendCommand(bridge, h, command);
  }

  /** What callers of `query_command` rely on: one `Query` record and time that only
      moves forward. */
  method LoggedQuery(bridge: Bridge, h: nat, command: string) returns (r: Option<string>)
    modifies bridge
    ensures bridge.log == old(bridge.log) + [Query(command, r)]
    ensures bridge.clock >= old(bridge.clock)
  {
    r := QueryCommand(bridge, h, command);
  }

  // ---------------------------------------------------------------- running a sequence

  /** The step count `run_test_sequence` accepts from the `STEP?` reply: Python's `int()`
      of it, and only when that is positive; no count for a missing reply, a reply that
      is not an integer, or zero or fewer steps. */
  function StepCount(reply: Option<string>): (n: Option<nat>)
    ensures n.Some? ==> reply.Some? && IntOf(reply.value) == Some(n.value as int) && n.value > 0
  {
    if reply.None? then None
    else match IntOf(reply.value)
      case None => None
      case Some(k) => if k <= 0 then None else Some(k as nat)
  }

  /** The count is the number the instrument reports, whenever that is positive. */
  lemma StepCountOfReply(k: nat)
    ensures StepCount(Some(NatToString(k))) == if k == 0 then None else Some(k)
  {
    IntOfNatToString(k);
  }

  /** A reply that `int()` accepts only once it is stripped still counts. */
  lemma StepCountIgnoresSpaces()
    ensures StepCount(Some(" 3 ")) == Some(3)
  {
    StripSurrounded(" ", "3", " ");
    assert " " + "3" + " " == " 3 ";
    assert IsDigitGroup("3");
  }

  /** `run_test_sequence`: nothing but the `STEP?` query unless the instrument reports a
      positive step count `n`; then the run is either `Completed` with `n` result queries
      (the only case that returns true), refused, aborted after an unexpected `RUN?` reply
      and a look at the error register, or aborted after polling for the full hour. */
  method RunTestSequence(bridge: Bridge, h: nat) returns (ok: bool, ghost t: seq<Exchange>)
    modifies bridge
    ensures bridge.log == old(bridge.log) + t
    ensures |t| >= 1 && t[0].Query? && t[0].cmd == STEP_COUNT_QUERY
    ensures StepCount(t[0].reply).None? ==> !ok && |t| == 1
    ensures StepCount(t[0].reply).Some? ==>
              var n := StepCount(t[0].reply).value;
              (ok <==> Completed(t[1..], n)) &&
              (!ok ==> Refused(t[1..]) || AbortedOnStatus(t[1..], true) ||
                       (AbortedOnTimeout(t[1..]) && bridge.clock >= old(bridge.clock) + MAX_RUN_MS))
  {
    ghost var log0 := bridge.log;
    var reply := LoggedQuery(bridge, h, STEP_COUNT_QUERY);
    t := [Query(STEP_COUNT_QUERY, reply)];
    var n := StepCount(reply);
    if n.None? {
      return false, t;
    }
    bridge.Sleep(SHORT_PAUSE_MS);
    ghost var u;
    ok, u := StartAndAwait(bridge, h, n.value);
    Regroup(log0, t, u);
    t := t + u;
    assert t[1..] == u;
    if ok {
      CompletedIsNotAborted(u, n.value);
    }
  }

  /** `run_test_sequence` from `*CLS` on, for a sequence of `n` steps. */
  method StartAndAwait(bridge: Bridge, h: nat, n: nat) returns (ok: bool, ghost u: seq<Exchange>)
    modifies bridge
    ensures bridge.log == old(bridge.log) + u
    ensures ok ==> Completed(u, n)
    ensures !ok ==> Refused(u) || AbortedOnStatus(u, true) ||
                    (AbortedOnTimeout(u) && bridge.clock >= old(bridge.clock) + MAX_RUN_MS)
  {
    ghost var log0 := bridge.log;
    var cleared := LoggedSend(bridge, h, CLEAR_STATUS);
    bridge.Sleep(SHORT_PAUSE_MS);
    var started := LoggedSend(bridge, h, RUN);
    ghost var opening := [Command(CLEAR_STATUS, cleared), Command(RUN, started)];
    Grow(log0, [Command(CLEAR_STATUS, cleared)], Command(RUN, started));
    if !started {
      var err := LoggedQuery(bridge, h, ERROR_QUERY);
      Grow(log0, opening, Query(ERROR_QUERY, err));
      return false, opening + [Query(ERROR_QUERY, err)];
    }
    ghost var p, c, overall, replies;
    ok, p, c, overall, replies := AwaitResults(bridge, h, n);
    Regroup(log0, opening, p + c);
    u := opening + (p + c);
    RunOutcome(opening, p, c, overall, replies, n, ok, true, bridge.clock >= old(bridge.clock) + MAX_RUN_MS, u);
  }

  /** `run_test_sequence` from just after `RUN` was sent: the polls `p`, then the result
      queries `c` when the run ended. */
  method AwaitResults(bridge: Bridge, h: nat, n: nat)
    returns (ok: bool, ghost p: seq<Exchange>, ghost c: seq<Exchange>,
             ghost overall: Option<string>, ghost replies: seq<Option<string>>)
    modifies bridge
    ensures bridge.log == old(bridge.log) + (p + c)
    ensures ok ==> PolledToEnd(p) && |replies| == n && c == [Query(RESULT_QUERY, overall)] + ResultQueries(replies)
    ensures !ok ==>
              c == [] &&
              (PolledToSurprise(p, true) || (PolledToDeadline(p) && bridge.clock >= old(bridge.clock) + MAX_RUN_MS))
  {
    ghost var log0 := bridge.log;
    var completed;
    completed, p := PollUntilDone(bridge, h);
    if !completed {
      assert p + [] == p;
      return false, p, [], None, [];
    }
    var shownOverall, shownReplies;
    shownOverall, shownReplies, c := CollectResults(bridge, h, n);
    Regroup(log0, p, c);
    overall, replies := shownOverall, shownReplies;
    ok := true;
  }

  /** The polling loop of `run_test_sequence`: `p` is the polls it made, then `*ERR?`
      and `ABORT` after an unexpected reply, or `ABORT` when the hour was up. */
  method PollUntilDone(bridge: Bridge, h: nat) returns (completed: bool, ghost p: seq<Exchange>)
    modifies bridge
    ensures bridge.log == old(bridge.log) + p
    ensures completed ==> PolledToEnd(p)
    ensures !completed ==>
              PolledToSurprise(p, true) || (PolledToDeadline(p) && bridge.clock >= old(bridge.clock) + MAX_RUN_MS)
  {
    ghost var log0 := bridge.log;
    p := [];
    var start := bridge.clock;
    while bridge.clock - start < MAX_RUN_MS
      invariant bridge.clock >= start
      invariant bridge.log == log0 + p && Polling(p)
      decreases MAX_RUN_MS - (bridge.clock - start)
    {
      bridge.Sleep(POLL_INTERVAL_MS);
      var status := LoggedQuery(bridge, h, RUN_STATUS);
      Grow(log0, p, Query(RUN_STATUS, status));
      ghost var polled := p;
      p := p + [Query(RUN_STATUS, status)];
      if status == Some("0") {
        assert p[..|p| - 1] == polled;
        return true, p;
      } else if status == Some("1") {
        continue;
      } else if status == None {
      } else {
        var err := LoggedQuery(bridge, h, ERROR_QUERY);
        Grow(log0, p, Query(ERROR_QUERY, err));
        p := p + [Query(ERROR_QUERY, err)];
        var aborted := LoggedSend(bridge, h, ABORT);
        Grow(log0, p, Command(ABORT, aborted));
        p := p + [Command(ABORT, aborted)];
        assert p[..|p| - 3] == polled;
        return false, p;
      }
    }
    ghost var polled := p;
    var aborted := LoggedSend(bridge, h, ABORT);
    Grow(log0, p, Command(ABORT, aborted));
    p := p + [Command(ABORT, aborted)];
    assert p[..|p| - 1] == polled;
    completed := false;
  }

  /** The result queries of `run_test_sequence`: `RSLT?`, then `STEPRSLT?,i` for each
      step in order; `overall` and `replies` are what it displays. */
  method CollectResults(bridge: Bridge, h: nat, n: nat)
    returns (overall: Option<string>, replies: seq<Option<string>>, ghost c: seq<Exchange>)
    modifies bridge
    ensures bridge.log == old(bridge.log) + c
    ensures |replies| == n && c == [Query(RESULT_QUERY, overall)] + ResultQueries(replies)
  {
    ghost var log0 := bridge.log;
    bridge.Sleep(SHORT_PAUSE_MS);
    overall := LoggedQuery(bridge, h, RESULT_QUERY);
    c := [Query(RESULT_QUERY, overall)];
    replies := [];
    for i := 1 to n + 1
      invariant |replies| == i - 1
      invariant bridge.log == log0 + c && c == [Query(RESULT_QUERY, overall)] + ResultQueries(replies)
    {
      var raw := LoggedQuery(bridge, h, StepQuery(i));
      Grow(log0, c, Query(StepQuery(i), raw));
      ResultQueriesAppend(replies, raw);
      c := c + [Query(StepQuery(i), raw)];
      replies := replies + [raw];
    }
  }

  // ---------------------------------------------------------------- configuring a sequence

  /** One pass of the operator through the step prompts: the menu choice, the answers to
      the chosen type's parameter prompts in the order they are asked, and the answer to
      the closing question ("add another step?" after a success, "retry?" after a
      failure). When the entries run out the operator has interrupted the setup. */
  datatype Entry = Entry(choice: string, answers: seq<string>, again: string)

  /** The test types in menu order. */
  const MENU: seq<string> := ["ACW", "DCW", "IR", "CONT", "GND"]

  /** The menu offers exactly the test types the instrument knows. */
  lemma MenuIsTestTypes()
    ensures forall k :: 0 <= k < |MENU| ==> MENU[k] in TEST_TYPES
    ensures forall t :: t in TEST_TYPES ==> t in MENU
  {
    TestTypeKeys();
  }

  /** The test type a menu answer selects: none for an empty answer, an answer `int()`
      rejects, or a number outside 1..5. */
  function Selection(choice: string): (t: Option<string>)
    ensures t.Some? ==> t.value in MENU
  {
    if choice == "" then None
    else match IntOf(choice)
      case None => None
      case Some(k) => if 1 <= k <= |MENU| then Some(MENU[k - 1]) else None
  }

  /** Typing the number of a menu entry selects that entry. */
  lemma SelectionOfNumber(k: nat)
    requires 1 <= k <= |MENU|
    ensures Selection(NatToString(k)) == Some(MENU[k - 1])
  {
    IntOfNatToString(k);
  }

  lemma SelectionRejectsZero()
    ensures Selection(NatToString(0)) == None
  {
    IntOfNatToString(0);
  }

  /** `input().upper() == "Y"`. */
  predicate Yes(answer: string)
  {
    answer == "Y" || answer == "y"
  }

  /** The k-th answer as typed, empty when it was not given. */
  function Raw(answers: seq<string>, k: nat): string
  {
    if k < |answers| then answers[k] else ""
  }

  /** `input() or default`: the k-th answer, or the default when it is empty. */
  function Answer(answers: seq<string>, k: nat, default: string): (a: string)
    ensures k < |answers| && answers[k] != "" ==> a == answers[k]
    ensures k >= |answers| || answers[k] == "" ==> a == default
  {
    if Raw(answers, k) != "" then answers[k] else default
  }

  /** The parameters the prompts of a test type yield: for ACW and DCW the voltage, ramp
      and dwell times (with their defaults), the converted minimum and maximum current,
      and `GND` on a "Y" to the ground question — none when a current does not convert;
      for IR, CONT and GND the answers as typed or their defaults. */
  function EntryParameters(testType: string, answers: seq<string>): (r: Option<seq<string>>)
    requires testType in MENU
    ensures r.None? ==> testType == "ACW" || testType == "DCW"
  {
    if testType == "ACW" || testType == "DCW" then
      WithstandAnswers(answers, ParseCurrentInput(Some(Raw(answers, 3))),
                       ParseCurrentInput(Some(Answer(answers, 4, "5mA"))))
    else if testType == "IR" then
      Some([Answer(answers, 0, "500"), Answer(answers, 1, "1.0"), Answer(answers, 2, "2.0"),
            Raw(answers, 3), Raw(answers, 4)])
    else if testType == "CONT" then
      Some([Answer(answers, 0, "0.1"), Raw(answers, 1), Answer(answers, 2, "0.1"), Answer(answers, 3, "1.0")])
    else
      Some([Answer(answers, 0, "10"), Answer(answers, 1, "0.1"), Answer(answers, 2, "2.0"), Answer(answers, 3, "60")])
  }

  /** The ACW and DCW parameters, given the converted current limits. */
  function WithstandAnswers(answers: seq<string>, minLimit: Option<string>, maxLimit: Option<string>): (r: Option<seq<string>>)
    ensures r.None? <==> minLimit.None? || maxLimit.None?
    ensures r.Some? ==> |r.value| >= 5 && r.value[3] == minLimit.value && r.value[4] == maxLimit.value
  {
    if minLimit.None? || maxLimit.None? then None
    else
      Some([Answer(answers, 0, "1000"), Answer(answers, 1, "1.0"), Answer(answers, 2, "2.0"),
            minLimit.value, maxLimit.value] + (if Yes(Raw(answers, 5)) then ["GND"] else []))
  }

  /** The `ADD` command an entry sends, or `None` when the entry is asked again with
      nothing sent. */
  function EntryCommand(e: Entry): (r: Option<string>)
    ensures r.Some? ==> Selection(e.choice).Some? && EntryParameters(Selection(e.choice).value, e.answers).Some?
  {
    match Selection(e.choice)
    case None => None
    case Some(t) =>
      match EntryParameters(t, e.answers)
      case None => None
      case Some(ps) => Some(AddCommand(t, ps))
  }

  /** The step configuration the operator's answers describe for a test type, in the
      library's terms: each non-empty answer under the name of the field it asks for, an
      empty answer left out so the library's default applies, and the ground check on
      for a "Y" to the ground question of ACW and DCW. */
  function EntryConfig(testType: string, answers: seq<string>): (c: Sequencer.StepConfig)
    ensures "type" in c.fields && c.fields["type"] == testType
  {
    var keys := PromptFields(testType);
    var first := Put(Put(Put(Put(map["type" := testType], keys[0], Raw(answers, 0)), keys[1], Raw(answers, 1)),
                         keys[2], Raw(answers, 2)), keys[3], Raw(answers, 3));
    var fields := if |keys| > 4 then Put(first, keys[4], Raw(answers, 4)) else first;
    Sequencer.StepConfig(fields, (testType == "ACW" || testType == "DCW") && Yes(Raw(answers, 5)))
  }

  /** The library field each prompt of a test type asks for, in prompt order. */
  function PromptFields(testType: string): (keys: seq<string>)
    ensures 4 <= |keys| <= 5
  {
    if testType == "ACW" || testType == "DCW" || testType == "IR" then
      ["voltage", "ramp_time", "dwell_time", "min_limit", "max_limit"]
    else if testType == "CONT" then ["current", "min_limit", "max_limit", "dwell_time"]
    else ["current", "max_limit", "dwell_time", "freq"]
  }

  function Put(m: map<string, string>, key: string, answer: string): map<string, string>
  {
    if answer == "" then m else m[key := answer]
  }

  /** A field the answers fill reads back as the answer, or as the library's default
      when the answer was left empty; a field they do not fill reads as the default. */
  lemma GetPut(m: map<string, string>, g: bool, key: string, answer: string, k: string, d: string)
    ensures Sequencer.Get(Sequencer.StepConfig(Put(m, key, answer), g), k, d) ==
      if k == key && answer != "" then answer else Sequencer.Get(Sequencer.StepConfig(m, g), k, d)
  {
  }

  lemma WithstandAgrees(t: string, a: seq<string>)
    requires t == "ACW" || t == "DCW"
    ensures Sequencer.StepParameters(t, EntryConfig(t, a)) == EntryParameters(t, a)
  {
    var c := EntryConfig(t, a);
    assert c.groundCheck == Yes(Raw(a, 5));
    assert Sequencer.Get(c, "voltage", "1000") == Answer(a, 0, "1000");
    assert Sequencer.Get(c, "ramp_time", "1.0") == Answer(a, 1, "1.0");
    assert Sequencer.Get(c, "dwell_time", "2.0") == Answer(a, 2, "2.0");
    assert Sequencer.Get(c, "min_limit", "") == Raw(a, 3);
    assert Sequencer.Get(c, "max_limit", "5mA") == Answer(a, 4, "5mA");
    TestTypeKeys();
  }

  lemma InsulationAgrees(a: seq<string>)
    ensures Sequencer.StepParameters("IR", EntryConfig("IR", a)) == EntryParameters("IR", a)
  {
    var c := EntryConfig("IR", a);
    assert Sequencer.Get(c, "voltage", "500") == Answer(a, 0, "500");
    assert Sequencer.Get(c, "ramp_time", "1.0") == Answer(a, 1, "1.0");
    assert Sequencer.Get(c, "dwell_time", "2.0") == Answer(a, 2, "2.0");
    assert Sequencer.Get(c, "min_limit", "") == Raw(a, 3);
    assert Sequencer.Get(c, "max_limit", "") == Raw(a, 4);
    TestTypeKeys();
  }

  lemma ContinuityAgrees(a: seq<string>)
    ensures Sequencer.StepParameters("CONT", EntryConfig("CONT", a)) == EntryParameters("CONT", a)
  {
    var c := EntryConfig("CONT", a);
    assert Sequencer.Get(c, "current", "0.1") == Answer(a, 0, "0.1");
    assert Sequencer.Get(c, "min_limit", "") == Raw(a, 1);
    assert Sequencer.Get(c, "max_limit", "0.1") == Answer(a, 2, "0.1");
    assert Sequencer.Get(c, "dwell_time", "1.0") == Answer(a, 3, "1.0");
    TestTypeKeys();
  }

  lemma GroundBondAgrees(a: seq<string>)
    ensures Sequencer.StepParameters("GND", EntryConfig("GND", a)) == EntryParameters("GND", a)
  {
    var c := EntryConfig("GND", a);
    assert Sequencer.Get(c, "current", "10") == Answer(a, 0, "10");
    assert Sequencer.Get(c, "max_limit", "0.1") == Answer(a, 1, "0.1");
    assert Sequencer.Get(c, "dwell_time", "2.0") == Answer(a, 2, "2.0");
    assert Sequencer.Get(c, "freq", "60") == Answer(a, 3, "60");
    TestTypeKeys();
  }

  /** The command-line prompts send, for every menu choice and every set of answers, the
      same `ADD` command as the library's `add_step_to_device` for the step those answers
      describe: the same parameter order, the same defaults, the same current conversion
      and the same rejection of a limit that does not convert. */
  lemma EntryAgreesWithLibrary(e: Entry)
    requires Selection(e.choice).Some?
    ensures EntryCommand(e) == Sequencer.StepCommand(EntryConfig(Selection(e.choice).value, e.answers))
  {
    var t := Selection(e.choice).value;
    ParametersAgree(t, e.answers);
  }

  lemma ParametersAgree(t: string, a: seq<string>)
    requires t in MENU
    ensures Sequencer.StepType(EntryConfig(t, a)) == Some(t)
    ensures Sequencer.StepParameters(t, EntryConfig(t, a)) == EntryParameters(t, a)
  {
    MenuIsTestTypes();
    if t == "ACW" || t == "DCW" {
      WithstandAgrees(t, a);
    } else if t == "IR" {
      InsulationAgrees(a);
    } else if t == "CONT" {
      ContinuityAgrees(a);
    } else {
      assert t == "GND";
      GroundBondAgrees(a);
    }
  }

  /** An answer and a default without commas give a parameter without one. */
  lemma AnswerHasNoComma(a: seq<string>, k: nat, d: string)
    requires CommaFree(a)
    requires ',' !in d
    ensures ',' !in Raw(a, k) && ',' !in Answer(a, k, d)
  {
  }

  predicate CommaFree(ps: seq<string>)
  {
    forall i :: 0 <= i < |ps| ==> ',' !in ps[i]
  }

  lemma WithstandAnswersHaveNoComma(a: seq<string>, lo: Option<string>, hi: Option<string>)
    requires WithstandAnswers(a, lo, hi).Some?
    requires CommaFree(a) && ',' !in lo.value && ',' !in hi.value
    ensures CommaFree(WithstandAnswers(a, lo, hi).value)
  {
    AnswerHasNoComma(a, 0, "1000");
    AnswerHasNoComma(a, 1, "1.0");
    AnswerHasNoComma(a, 2, "2.0");
  }

  lemma EntryParametersHaveNoComma(t: string, a: seq<string>)
    requires t in MENU && EntryParameters(t, a).Some?
    requires CommaFree(a)
    ensures CommaFree(EntryParameters(t, a).value)
  {
    if t == "ACW" || t == "DCW" {
      var lo := ParseCurrentInput(Some(Raw(a, 3)));
      var hi := ParseCurrentInput(Some(Answer(a, 4, "5mA")));
      assert EntryParameters(t, a) == WithstandAnswers(a, lo, hi);
      GTextHasNoComma(lo.value);
      GTextHasNoComma(hi.value);
      WithstandAnswersHaveNoComma(a, lo, hi);
    } else if t == "IR" {
      AnswerHasNoComma(a, 0, "500");
      AnswerHasNoComma(a, 1, "1.0");
      AnswerHasNoComma(a, 2, "2.0");
      AnswerHasNoComma(a, 3, "");
      AnswerHasNoComma(a, 4, "");
    } else if t == "CONT" {
      AnswerHasNoComma(a, 0, "0.1");
      AnswerHasNoComma(a, 1, "");
      AnswerHasNoComma(a, 2, "0.1");
      AnswerHasNoComma(a, 3, "1.0");
    } else {
      AnswerHasNoComma(a, 0, "10");
      AnswerHasNoComma(a, 1, "0.1");
      AnswerHasNoComma(a, 2, "2.0");
      AnswerHasNoComma(a, 3, "60");
    }
  }

  /** The command an entry sends splits back into its type and its parameters. */
  lemma EntryCommandReadsBack(e: Entry)
    requires EntryCommand(e).Some?
    requires CommaFree(e.answers)
    ensures Split(EntryCommand(e).value, ',') ==
      ["ADD", Selection(e.choice).value] + EntryParameters(Selection(e.choice).value, e.answers).value
  {
    var t := Selection(e.choice).value;
    var ps := EntryParameters(t, e.answers).value;
    assert EntryCommand(e).value == AddCommand(t, ps);
    EntryParametersHaveNoComma(t, e.answers);
    TypeHasNoComma(t);
    AddCommandSplits(t, ps);
  }

  lemma TypeHasNoComma(t: string)
    requires t in MENU
    ensures ',' !in t
  {
  }

  /** When no answer holds a comma, the instrument reads back from the command an entry
      sends the chosen type and the parameters in the order of the prompts: for ACW and
      DCW the voltage, ramp and dwell times (defaults 1000, 1.0 and 2.0), the minimum and
      maximum current converted to amps (the maximum defaulting to 5mA), then `GND` on a
      "Y"; for IR the voltage, ramp and dwell times (500, 1.0, 2.0) and both resistance
      limits as typed; for CONT the current (0.1), the minimum as typed, the maximum
      (0.1) and the dwell time (1.0); for GND the current (10), the maximum (0.1), the
      dwell time (2.0) and the frequency (60). */
  lemma EntryCommandSplits(e: Entry)
    requires EntryCommand(e).Some?
    requires CommaFree(e.answers)
    ensures var t := Selection(e.choice).value;
      var a := e.answers;
      var fields := Split(EntryCommand(e).value, ',');
      |fields| >= 2 && fields[..2] == ["ADD", t] &&
      ((t == "ACW" || t == "DCW") ==>
         fields[2..] == [Answer(a, 0, "1000"), Answer(a, 1, "1.0"), Answer(a, 2, "2.0"),
                         ParseCurrentInput(Some(Raw(a, 3))).value,
                         ParseCurrentInput(Some(Answer(a, 4, "5mA"))).value]
                        + (if Yes(Raw(a, 5)) then ["GND"] else [])) &&
      (t == "IR" ==>
         fields[2..] == [Answer(a, 0, "500"), Answer(a, 1, "1.0"), Answer(a, 2, "2.0"), Raw(a, 3), Raw(a, 4)]) &&
      (t == "CONT" ==>
         fields[2..] == [Answer(a, 0, "0.1"), Raw(a, 1), Answer(a, 2, "0.1"), Answer(a, 3, "1.0")]) &&
      (t == "GND" ==>
         fields[2..] == [Answer(a, 0, "10"), Answer(a, 1, "0.1"), Answer(a, 2, "2.0"), Answer(a, 3, "60")])
  {
    var t := Selection(e.choice).value;
    var a := e.answers;
    var ps := EntryParameters(t, a).value;
    EntryCommandReadsBack(e);
    var fields := ["ADD", t] + ps;
    assert fields[..2] == ["ADD", t] && fields[2..] == ps;
    if t == "ACW" || t == "DCW" {
      var lo := ParseCurrentInput(Some(Raw(a, 3)));
      var hi := ParseCurrentInput(Some(Answer(a, 4, "5mA")));
      assert EntryParameters(t, a) == WithstandAnswers(a, lo, hi);
    }
  }

  /** An ACW or DCW entry whose maximum current does not convert has no parameters, so
      nothing is sent for it. */
  lemma BadLimitSendsNothing(testType: string, answers: seq<string>)
    requires testType == "ACW" || testType == "DCW"
    requires |answers| > 4 && answers[4] == "10 m"
    ensures EntryParameters(testType, answers) == None
  {
    var lo := ParseCurrentInput(Some(Raw(answers, 3)));
    assert Answer(answers, 4, "5mA") == "10 m";
    ParseBareMilli();
    assert EntryParameters(testType, answers) == WithstandAnswers(answers, lo, None);
  }

  /** How one attempt to add a step shows in the log: `accepted` says whether it counts,
      `used` how many records it took. */
  datatype Outcome = Outcome(accepted: bool, used: nat)

  /** The attempt at the head of `t`: the `ADD` command, then `*ERR?` only when the
      command went out; the step counts only when that query read "0". */
  function Attempt(command: string, t: seq<Exchange>): (o: Option<Outcome>)
    ensures o.Some? ==> 1 <= o.value.used <= 2 && o.value.used <= |t|
    ensures o.Some? && o.value.accepted ==>
              |t| >= 2 && t[0] == Command(command, true) && t[1] == Query(ERROR_QUERY, Some("0"))
  {
    if |t| == 0 || !t[0].Command? || t[0].cmd != command then None
    else if !t[0].ok then Some(Outcome(false, 1))
    else if |t| < 2 || !t[1].Query? || t[1].cmd != ERROR_QUERY then None
    else Some(Outcome(t[1].reply == Some("0"), 2))
  }

  lemma AttemptPrefix(command: string, v: seq<Exchange>, u: seq<Exchange>)
    requires Attempt(command, v).Some? && Attempt(command, v).value.used == |v|
    ensures Attempt(command, v + u) == Attempt(command, v)
  {
    assert (v + u)[0] == v[0];
    if |v| == 2 {
      assert (v + u)[1] == v[1];
    }
  }

  /** What an entry amounts to for the loop: the command it sends, if any, and whether
      the operator answered "Y" to the closing question. */
  datatype Pass = Pass(command: Option<string>, goOn: bool)

  function Passes(entries: seq<Entry>): (ps: seq<Pass>)
    ensures |ps| == |entries|
  {
    seq(|entries|, i requires 0 <= i < |entries| => Pass(EntryCommand(entries[i]), Yes(entries[i].again)))
  }

  /** The number of steps the configuration loop adds for the operator's passes, read
      off the log `t` it leaves; `None` when `t` is not a log those passes produce.
      A pass that sends nothing is followed by the next pass; one that sends its `ADD`
      is followed by the next only on a "Y" to the closing question, and otherwise ends
      the loop; running out of passes ends it too. */
  function Walk(passes: seq<Pass>, t: seq<Exchange>): Option<nat>
    decreases |passes|
  {
    if passes == [] then (if t == [] then Some(0) else None)
    else
      var e := passes[0];
      match e.command
      case None => Walk(passes[1..], t)
      case Some(command) =>
        match Attempt(command, t)
        case None => None
        case Some(o) =>
          var k := if o.accepted then 1 else 0;
          if e.goOn then
            match Walk(passes[1..], t[o.used..])
            case None => None
            case Some(m) => Some(m + k)
          else if |t| == o.used then Some(k) else None
  }

  /** No more steps are added than the operator made passes, and each added one left
      its own `ADD` and `*ERR?` in the log. */
  lemma {:induction false} WalkBound(passes: seq<Pass>, t: seq<Exchange>)
    requires Walk(passes, t).Some?
    ensures Walk(passes, t).value <= |passes|
    ensures 2 * Walk(passes, t).value <= |t|
    decreases |passes|
  {
    if passes != [] {
      match passes[0].command
      case None =>
        WalkBound(passes[1..], t);
      case Some(command) =>
        var o := Attempt(command, t).value;
        if passes[0].goOn {
          WalkBound(passes[1..], t[o.used..]);
        }
    }
  }

  /** An `*ERR?` that gives no reply does not count the step here, while the library's
      `add_step_to_device` reports the same exchange as a success. */
  lemma SilentErrorQueryNotCounted(command: string)
    ensures Walk([Pass(Some(command), false)], [Command(command, true), Query(ERROR_QUERY, None)]) == Some(0)
    ensures Sequencer.AddAccepted([Command(command, true), Query(ERROR_QUERY, None)])
  {
  }

  lemma WalkSkip(passes: seq<Pass>, i: nat, u: seq<Exchange>)
    requires i < |passes| && passes[i].command.None?
    ensures Walk(passes[i..], u) == Walk(passes[i + 1..], u)
  {
    assert passes[i..][0] == passes[i] && passes[i..][1..] == passes[i + 1..];
  }

  lemma WalkAdvance(passes: seq<Pass>, i: nat, command: string, v: seq<Exchange>, accepted: bool,
                    u: seq<Exchange>)
    requires i < |passes| && passes[i] == Pass(Some(command), true)
    requires Attempt(command, v) == Some(Outcome(accepted, |v|))
    requires Walk(passes[i + 1..], u).Some?
    ensures Walk(passes[i..], v + u) == Some(Walk(passes[i + 1..], u).value + if accepted then 1 else 0)
  {
    assert passes[i..][0] == passes[i] && passes[i..][1..] == passes[i + 1..];
    AttemptPrefix(command, v, u);
    assert (v + u)[|v|..] == u;
  }

  lemma WalkStop(passes: seq<Pass>, i: nat, command: string, v: seq<Exchange>, accepted: bool)
    requires i < |passes| && passes[i] == Pass(Some(command), false)
    requires Attempt(command, v) == Some(Outcome(accepted, |v|))
    ensures Walk(passes[i..], v) == Some(if accepted then 1 else 0)
  {
    assert passes[i..][0] == passes[i];
  }

  /** The prompts of one pass: nothing to send when the menu choice or a current limit
      is invalid, otherwise the `ADD` command built from the chosen type and its
      parameters. */
  method PrepareStep(e: Entry) returns (command: Option<string>)
    ensures command == EntryCommand(e)
    ensures Selection(e.choice).None? ==> command.None?
    ensures Selection(e.choice).Some? ==>
      command == Sequencer.StepCommand(EntryConfig(Selection(e.choice).value, e.answers))
  {
    var testType := Selection(e.choice);
    if testType.None? {
      return None;
    }
    EntryAgreesWithLibrary(e);
    var params := EntryParameters(testType.value, e.answers);
    if params.None? {
      return None;
    }
    var add := BuildAddCommand(testType.value, params.value);
    command := Some(add);
  }

  /** The exchanges of one `ADD` attempt: the command, then after a 200 ms pause `*ERR?`
      when it went out; the step counts when that reads "0". */
  method TryStep(bridge: Bridge, h: nat, command: string) returns (accepted: bool, ghost v: seq<Exchange>)
    modifies bridge
    ensures bridge.log == old(bridge.log) + v
    ensures Attempt(command, v) == Some(Outcome(accepted, |v|))
  {
    var sent := LoggedSend(bridge, h, command);
    v := [Command(command, sent)];
    accepted := false;
    if sent {
      bridge.Sleep(SETTLE_MS);
      var err := LoggedQuery(bridge, h, ERROR_QUERY);
      v := v + [Query(ERROR_QUERY, err)];
      if err == Some("0") {
        accepted := true;
      }
    }
  }

  /** The loop state after the passes before `i`: for every log `u` the remaining
      passes can leave, the whole log counts `added` plus what `u` counts. */
  ghost predicate Continues(passes: seq<Pass>, i: nat, body: seq<Exchange>, added: nat)
    requires i <= |passes|
  {
    forall u :: Walk(passes[i..], u).Some? ==> Walk(passes, body + u) == Some(added + Walk(passes[i..], u).value)
  }

  lemma ContinueStart(passes: seq<Pass>)
    ensures Continues(passes, 0, [], 0)
  {
    assert passes[0..] == passes;
    forall u: seq<Exchange> ensures [] + u == u { }
  }

  lemma ContinueEnd(passes: seq<Pass>, body: seq<Exchange>, added: nat)
    requires Continues(passes, |passes|, body, added)
    ensures Walk(passes, body) == Some(added)
  {
    assert Walk(passes[|passes|..], []) == Some(0);
    assert body + [] == body;
  }

  lemma ContinueSkip(passes: seq<Pass>, i: nat, body: seq<Exchange>, added: nat)
    requires i < |passes| && passes[i].command.None? && Continues(passes, i, body, added)
    ensures Continues(passes, i + 1, body, added)
  {
    forall u | Walk(passes[i + 1..], u).Some?
      ensures Walk(passes, body + u) == Some(added + Walk(passes[i + 1..], u).value)
    {
      WalkSkip(passes, i, u);
    }
  }

  lemma ContinueAdvance(passes: seq<Pass>, i: nat, body: seq<Exchange>, added: nat,
                        command: string, v: seq<Exchange>, accepted: bool)
    requires i < |passes| && passes[i] == Pass(Some(command), true) && Continues(passes, i, body, added)
    requires Attempt(command, v) == Some(Outcome(accepted, |v|))
    ensures Continues(passes, i + 1, body + v, added + if accepted then 1 else 0)
  {
    var k := if accepted then 1 else 0;
    forall u | Walk(passes[i + 1..], u).Some?
      ensures Walk(passes, body + v + u) == Some(added + k + Walk(passes[i + 1..], u).value)
    {
      ContinueStep(passes, i, body, added, command, v, accepted, u, Walk(passes[i + 1..], u).value,
                   body + v + u);
    }
  }

  /** One continuation `u` of the pass after `i`, with the whole log named `t`. */
  lemma ContinueStep(passes: seq<Pass>, i: nat, body: seq<Exchange>, added: nat,
                     command: string, v: seq<Exchange>, accepted: bool, u: seq<Exchange>,
                     m: nat, t: seq<Exchange>)
    requires i < |passes| && passes[i] == Pass(Some(command), true) && Continues(passes, i, body, added)
    requires Attempt(command, v) == Some(Outcome(accepted, |v|))
    requires Walk(passes[i + 1..], u) == Some(m) && t == body + v + u
    ensures Walk(passes, t) == Some(added + (if accepted then 1 else 0) + m)
  {
    var vu := v + u;
    WalkAdvance(passes, i, command, v, accepted, u);
    assert Walk(passes[i..], vu).Some?;
    Assoc(body, v, u);
  }

  lemma ContinueStop(passes: seq<Pass>, i: nat, body: seq<Exchange>, added: nat,
                     command: string, v: seq<Exchange>, accepted: bool)
    requires i < |passes| && passes[i] == Pass(Some(command), false) && Continues(passes, i, body, added)
    requires Attempt(command, v) == Some(Outcome(accepted, |v|))
    ensures Walk(passes, body + v) == Some(added + if accepted then 1 else 0)
  {
    WalkStop(passes, i, command, v, accepted);
  }

  /** The loop state after pass `i`, which left `v` in the log and was or was not
      accepted: the loop goes on unless the pass sent its command and the operator did
      not answer "Y"; otherwise the count is final. */
  lemma ContinueAfter(passes: seq<Pass>, i: nat, body: seq<Exchange>, added: nat,
                      v: seq<Exchange>, accepted: bool)
    requires i < |passes| && Continues(passes, i, body, added)
    requires passes[i].command.None? ==> v == [] && !accepted
    requires passes[i].command.Some? ==> Attempt(passes[i].command.value, v) == Some(Outcome(accepted, |v|))
    ensures passes[i].command.None? || passes[i].goOn ==>
              Continues(passes, i + 1, body + v, added + if accepted then 1 else 0)
    ensures passes[i].command.Some? && !passes[i].goOn ==>
              Walk(passes, body + v) == Some(added + if accepted then 1 else 0)
  {
    match passes[i].command
    case None =>
      assert body + v == body;
      ContinueSkip(passes, i, body, added);
    case Some(command) =>
      if passes[i].goOn {
        ContinueAdvance(passes, i, body, added, command, v, accepted);
      } else {
        ContinueStop(passes, i, body, added, command, v, accepted);
      }
  }

  /** One pass through the step prompts: the command the pass sends, if any, and what
      sending it left in the log. */
  method TryEntry(bridge: Bridge, h: nat, e: Entry)
    returns (command: Option<string>, accepted: bool, ghost v: seq<Exchange>)
    modifies bridge
    ensures command == EntryCommand(e)
    ensures bridge.log == old(bridge.log) + v
    ensures command.None? ==> v == [] && !accepted
    ensures command.Some? ==> Attempt(command.value, v) == Some(Outcome(accepted, |v|))
  {
    command := PrepareStep(e);
    if command.None? {
      // Invalid choice or parameter: the same step is asked again.
      return command, false, [];
    }
    accepted, v := TryStep(bridge, h, command.value);
  }

  /** The configuration loop of `setup_test_sequence`: `added` is the number of steps
      the instrument accepted, and `body` is what the loop left in the log. */
  method AddSteps(bridge: Bridge, h: nat, entries: seq<Entry>) returns (added: nat, ghost body: seq<Exchange>)
    modifies bridge
    ensures bridge.log == old(bridge.log) + body
    ensures Walk(Passes(entries), body) == Some(added)
  {
    ghost var log0 := bridge.log;
    ghost var passes := Passes(entries);
    body := [];
    added := 0;
    var i := 0;
    var adding := true;
    ContinueStart(passes);
    while adding
      invariant 0 <= i <= |entries| == |passes|
      invariant bridge.log == log0 + body
      invariant adding ==> Continues(passes, i, body, added)
      invariant !adding ==> Walk(passes, body) == Some(added)
      decreases |entries| - i + (if adding then 1 else 0)
    {
      if i == |entries| {
        // The next prompt is interrupted.
        ContinueEnd(passes, body, added);
        adding := false;
      } else {
        var command, accepted;
        ghost var v;
        command, accepted, v := TryEntry(bridge, h, entries[i]);
        Regroup(log0, body, v);
        ContinueAfter(passes, i, body, added, v, accepted);
        if command.Some? && !Yes(entries[i].again) {
          adding := false;
        }
        body := body + v;
        added := added + if accepted then 1 else 0;
        i := i + 1;
      }
    }
  }

  /** The opening of `setup_test_sequence`: `*ERR?`; `*CLS` whenever that did not read
      "0" (also when it gave no reply); then `NOSEQ`, at index `NoseqIndex(t)`. */
  predicate SetupOpening(t: seq<Exchange>)
  {
    |t| >= 2 && t[0].Query? && t[0].cmd == ERROR_QUERY &&
    (t[0].reply != Some("0") ==> t[1].Command? && t[1].cmd == CLEAR_STATUS) &&
    |t| > NoseqIndex(t) && t[NoseqIndex(t)].Command? && t[NoseqIndex(t)].cmd == CLEAR_SEQUENCE
  }

  function NoseqIndex(t: seq<Exchange>): nat
    requires |t| >= 1
  {
    if t[0].Query? && t[0].reply != Some("0") then 2 else 1
  }

  /** A `STEP?` reply that makes the final `int()` raise, which ends the setup with an
      uncaught error. */
  predicate CountUnreadable(reply: Option<string>)
  {
    reply.Some? && IntOf(reply.value).None?
  }

  /** The opening of `setup_test_sequence` up to and including `NOSEQ`. */
  method ClearForSetup(bridge: Bridge, h: nat) returns (sent: bool, ghost t: seq<Exchange>)
    modifies bridge
    ensures bridge.log == old(bridge.log) + t
    ensures SetupOpening(t) && NoseqIndex(t) == |t| - 1 && t[|t| - 1].ok == sent
  {
    ghost var log0 := bridge.log;
    var status := LoggedQuery(bridge, h, ERROR_QUERY);
    t := [Query(ERROR_QUERY, status)];
    if status != Some("0") {
      var cleared := LoggedSend(bridge, h, CLEAR_STATUS);
      Grow(log0, t, Command(CLEAR_STATUS, cleared));
      t := t + [Command(CLEAR_STATUS, cleared)];
    }
    sent := LoggedSend(bridge, h, CLEAR_SEQUENCE);
    Grow(log0, t, Command(CLEAR_SEQUENCE, sent));
    t := t + [Command(CLEAR_SEQUENCE, sent)];
  }

  /** `setup_test_sequence`. When `NOSEQ` fails, the error register is read and the
      result is false. Otherwise the configuration loop runs (`body`, adding `added`
      steps as `Walk` counts them for the entries' passes), `STEP?` is queried, and the result is whether any
      step was added — or `None` when the `STEP?` reply is not an integer, where the
      source raises. */
  method SetupTestSequence(bridge: Bridge, h: nat, entries: seq<Entry>)
    returns (r: Option<bool>, ghost t: seq<Exchange>, ghost body: seq<Exchange>, ghost added: nat)
    modifies bridge
    ensures bridge.log == old(bridge.log) + t
    ensures SetupOpening(t)
    ensures !t[NoseqIndex(t)].ok ==>
              r == Some(false) && |t| == NoseqIndex(t) + 2 &&
              t[|t| - 1].Query? && t[|t| - 1].cmd == ERROR_QUERY
    ensures t[NoseqIndex(t)].ok ==>
              t == t[..NoseqIndex(t) + 1] + body + [t[|t| - 1]] &&
              t[|t| - 1].Query? && t[|t| - 1].cmd == STEP_COUNT_QUERY &&
              Walk(Passes(entries), body) == Some(added) &&
              r == if CountUnreadable(t[|t| - 1].reply) then None else Some(added > 0)
  {
    ghost var log0 := bridge.log;
    var sent;
    sent, t := ClearForSetup(bridge, h);
    ghost var opening := t;
    if !sent {
      var err := LoggedQuery(bridge, h, ERROR_QUERY);
      Grow(log0, t, Query(ERROR_QUERY, err));
      t := t + [Query(ERROR_QUERY, err)];
      return Some(false), t, [], 0;
    }
    bridge.Sleep(SETTLE_MS);
    var n;
    n, body := AddSteps(bridge, h, entries);
    added := n;
    Regroup(log0, t, body);
    t := t + body;
    var reported := LoggedQuery(bridge, h, STEP_COUNT_QUERY);
    Grow(log0, t, Query(STEP_COUNT_QUERY, reported));
    t := t + [Query(STEP_COUNT_QUERY, reported)];
    assert t[..NoseqIndex(t) + 1] == opening;
    if reported.Some? && IntOf(reported.value).None? {
      // int() raises ValueError here.
      return None, t, body, added;
    }
    r := Some(n > 0);
  }
}
