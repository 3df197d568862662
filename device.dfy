/** The library driver for the V7X: an object that owns one bridge handle, opens and
    closes it, and exchanges CR-terminated commands and LF-terminated replies. */
module Device {
  import opened Common
  import opened Constants
  import opened Transport

  /** The per-byte read time-out the reply loop switches to while it polls. */
  const POLL_READ_TIMEOUT_MS: nat := 50
  /** The pause between sending a query and reading its reply. */
  const QUERY_PAUSE_MS: nat := 100

  /** The bytes `send_command` puts on the wire: the command with a carriage return
      appended unless it already ends in one. */
  function Frame(command: string): (f: string)
    ensures f != [] && f[|f| - 1] == CR
    ensures f == command <==> (command != [] && command[|command| - 1] == CR)
    ensures f != command ==> f == command + [CR]
  {
    if command != [] && command[|command| - 1] == CR then command else command + [CR]
  }

  /** The reply loop of `read_response`, from a given point on: `elapsed` is the time
      since the read started (never reset), `acc` the characters kept so far. */
  function LibScan(polls: seq<Poll>, idleMs: nat, timeoutMs: nat, elapsed: nat, acc: string): (s: Scan)
    ensures s.elapsed >= elapsed
    ensures s.end == Deadline ==> s.elapsed >= timeoutMs
    ensures |s.rest| <= |polls|
    decreases |polls|, if elapsed < timeoutMs then timeoutMs - elapsed else 0
  {
    if elapsed >= timeoutMs then Scan(Deadline, acc, polls, elapsed)
    else
      var p := NextPoll(polls, idleMs);
      if p.status == HID_UART_SUCCESS && p.data == Some(LF_BYTE) then
        Scan(Line, acc, Tail(polls), elapsed + p.ms)
      else if Benign(p) then
        LibScan(Tail(polls), idleMs, timeoutMs, elapsed + StepCost(p), acc + Kept(p))
      else
        Scan(Failure, acc, Tail(polls), elapsed + p.ms)
  }

  /** One benign answer before the deadline moves the loop on to the rest of the script,
      by the answer's cost, keeping its character. */
  lemma LibScanAdvance(polls: seq<Poll>, idleMs: nat, timeoutMs: nat, elapsed: nat, acc: string,
                       rest: seq<Poll>, reached: nat, kept: string)
    requires elapsed < timeoutMs && Benign(NextPoll(polls, idleMs)) && rest == Tail(polls)
    requires reached == elapsed + StepCost(NextPoll(polls, idleMs)) && kept == acc + Kept(NextPoll(polls, idleMs))
    ensures LibScan(polls, idleMs, timeoutMs, elapsed, acc) == LibScan(rest, idleMs, timeoutMs, reached, kept)
  {
  }

  /** Any other answer before the deadline ends the loop: a line feed ends the line, any
      other status fails the read. */
  lemma LibScanStops(polls: seq<Poll>, idleMs: nat, timeoutMs: nat, elapsed: nat, acc: string,
                     end: ScanEnd, rest: seq<Poll>, reached: nat)
    requires elapsed < timeoutMs && !Benign(NextPoll(polls, idleMs)) && rest == Tail(polls)
    requires reached == elapsed + NextPoll(polls, idleMs).ms
    requires end == if NextPoll(polls, idleMs).status == HID_UART_SUCCESS then Line else Failure
    ensures LibScan(polls, idleMs, timeoutMs, elapsed, acc) == Scan(end, acc, rest, reached)
  {
  }

  /** At the deadline the loop stops where it stands. */
  lemma LibScanDeadline(polls: seq<Poll>, idleMs: nat, timeoutMs: nat, elapsed: nat, acc: string)
    requires elapsed >= timeoutMs
    ensures LibScan(polls, idleMs, timeoutMs, elapsed, acc) == Scan(Deadline, acc, polls, elapsed)
  {
  }

  /** The result a complete `read_response` returns for a script, when it starts on a
      script `polls` with deadline `timeoutMs`. */
  function LibRead(polls: seq<Poll>, idleMs: nat, timeoutMs: nat): Option<string>
  {
    Reply(LibScan(polls, idleMs, timeoutMs, 0, ""), timeoutMs)
  }

  /** How `__enter__` ends: with the device open, or raising one of its two errors. */
  datatype EnterOutcome = Entered | NoDevicesFound | OpenFailed

  class V7xDevice {
    const bridge: Bridge
    /** Whether the vendor library was loaded when the driver was built. */
    const hasLibrary: bool
    /** The bridge handle; 0 is the null handle. */
    var handle: nat
    var isOpen: bool

    /** The device is open exactly when it holds a non-null handle, and only with the
        library loaded. */
    predicate Valid()
      reads this
    {
      (isOpen <==> handle != 0) && (isOpen ==> hasLibrary)
    }

    constructor (bridge: Bridge, hasLibrary: bool)
      ensures this.bridge == bridge && this.hasLibrary == hasLibrary
      ensures handle == 0 && !isOpen && Valid()
    {
      this.bridge := bridge;
      this.hasLibrary := hasLibrary;
      handle := 0;
      isOpen := false;
    }

    /** What sending `command` did to the bridge: nothing when the device is closed;
        otherwise one write of its frame, reported successful exactly when the write
        status is success, whatever byte count the write reports. */
    twostate predicate Transmitted(command: string, ok: bool)
      reads this, bridge
    {
      var w := NextWrite(old(bridge.writes), |Frame(command)|);
      if !isOpen then
        !ok && bridge.writes == old(bridge.writes) && bridge.calls == old(bridge.calls)
      else
        (ok <==> w.status == HID_UART_SUCCESS) &&
        bridge.writes == Tail(old(bridge.writes)) &&
        bridge.calls == old(bridge.calls) + [WriteFrame(handle, Frame(command))]
    }

    /** What reading one reply did to the bridge: the reply is `LibRead` of the script,
        the loop consumed the script and the time `LibScan` says, and the read switched
        the read time-out to 50 ms and then back to the 100/1000 ms defaults. */
    twostate predicate Received(timeoutMs: nat, new r: Option<string>)
      reads this, bridge
    {
      var s := LibScan(old(bridge.polls), bridge.idleMs, timeoutMs, 0, "");
      r == Reply(s, timeoutMs) &&
      bridge.polls == s.rest &&
      bridge.clock == old(bridge.clock) + s.elapsed &&
      bridge.calls == old(bridge.calls) +
        [Timeouts(handle, POLL_READ_TIMEOUT_MS, DEFAULT_WRITE_TIMEOUT_MS),
         Timeouts(handle, DEFAULT_READ_TIMEOUT_MS, DEFAULT_WRITE_TIMEOUT_MS)]
    }

    /** `find_device`: the number of attached V7X units, 0 without the library or when
        enumeration fails. */
    method FindDevice() returns (n: nat)
      modifies bridge`calls
      ensures !hasLibrary ==> n == 0 && bridge.calls == old(bridge.calls)
      ensures hasLibrary ==> bridge.calls == old(bridge.calls) + [Enumerate(VID, PID)]
      ensures hasLibrary ==> n == (if bridge.enumStatus == HID_UART_SUCCESS then bridge.deviceCount else 0)
    {
      if !hasLibrary {
        return 0;
      }
      var status, count := bridge.GetNumDevices(VID, PID);
      if status != HID_UART_SUCCESS {
        return 0;
      }
      n := count;
    }

    /** `_configure_uart` with its default settings; a failing status is only a warning. */
    method ConfigureUart() returns (ok: bool)
      modifies bridge`calls
      ensures ok == isOpen
      ensures !isOpen ==> bridge.calls == old(bridge.calls)
      ensures isOpen ==> bridge.calls == old(bridge.calls) + [UartConfig(handle, DEFAULT_BAUD_RATE,
        HID_UART_EIGHT_DATA_BITS, HID_UART_NO_PARITY, HID_UART_SHORT_STOP_BIT, HID_UART_RTS_CTS_FLOW_CONTROL)]
    {
      if !isOpen {
        return false;
      }
      var _ := bridge.SetUartConfig(handle, DEFAULT_BAUD_RATE, HID_UART_EIGHT_DATA_BITS,
                                    HID_UART_NO_PARITY, HID_UART_SHORT_STOP_BIT,
                                    HID_UART_RTS_CTS_FLOW_CONTROL);
      ok := true;
    }

    /** `_set_timeouts`; a failing status is only a warning. */
    method SetTimeouts(readMs: nat, writeMs: nat) returns (ok: bool)
      modifies bridge`calls
      ensures ok == isOpen
      ensures !isOpen ==> bridge.calls == old(bridge.calls)
      ensures isOpen ==> bridge.calls == old(bridge.calls) + [Timeouts(handle, readMs, writeMs)]
    {
      if !isOpen {
        return false;
      }
      var _ := bridge.SetTimeouts(handle, readMs, writeMs);
      ok := true;
    }

    /** `flush_buffers`: succeeds only when the device is open and the flush succeeds. */
    method FlushBuffers(tx: bool, rx: bool) returns (ok: bool)
      modifies bridge`calls
      ensures ok <==> isOpen && bridge.flushStatus == HID_UART_SUCCESS
      ensures !isOpen ==> bridge.calls == old(bridge.calls)
      ensures isOpen ==> bridge.calls == old(bridge.calls) + [Flush(handle, tx, rx)]
    {
      if !isOpen {
        return false;
      }
      var status := bridge.FlushBuffers(handle, tx, rx);
      ok := status == HID_UART_SUCCESS;
    }

    /** `open`: a no-op success on an open device; otherwise opens the bridge, configures
        it, and rolls back through `close` only when the flush fails. */
    method Open(index: nat) returns (ok: bool)
      modifies this`handle, this`isOpen, bridge`calls
      ensures ok ==> isOpen
      ensures old(Valid()) ==> Valid()
      ensures !hasLibrary ==>
        !ok && handle == old(handle) && isOpen == old(isOpen) && bridge.calls == old(bridge.calls)
      ensures hasLibrary && old(isOpen) ==>
        ok && handle == old(handle) && isOpen && bridge.calls == old(bridge.calls)
      ensures hasLibrary && !old(isOpen) &&
              (bridge.openStatus != HID_UART_SUCCESS || bridge.openHandle == 0) ==>
        !ok && handle == 0 && !isOpen &&
        bridge.calls == old(bridge.calls) + [OpenDevice(index, VID, PID)]
      ensures hasLibrary && !old(isOpen) &&
              bridge.openStatus == HID_UART_SUCCESS && bridge.openHandle != 0 ==>
        var h := bridge.openHandle;
        var setup := old(bridge.calls) + [OpenDevice(index, VID, PID),
          UartConfig(h, DEFAULT_BAUD_RATE, HID_UART_EIGHT_DATA_BITS, HID_UART_NO_PARITY,
                     HID_UART_SHORT_STOP_BIT, HID_UART_RTS_CTS_FLOW_CONTROL),
          Timeouts(h, DEFAULT_READ_TIMEOUT_MS, DEFAULT_WRITE_TIMEOUT_MS),
          Flush(h, true, true)];
        (ok <==> bridge.flushStatus == HID_UART_SUCCESS) &&
        (ok ==> handle == h && bridge.calls == setup) &&
        (!ok ==> handle == 0 && !isOpen && bridge.calls == setup + [CloseDevice(h)])
    {
      if !hasLibrary {
        return false;
      }
      if isOpen {
        return true;
      }
      var status, h := bridge.Open(index, VID, PID);
      if status != HID_UART_SUCCESS || h == 0 {
        handle := 0;
        return false;
      }
      handle := h;
      isOpen := true;
      // Both report success whenever the device is open, so neither can trigger the
      // rollback that follows them.
      var _ := ConfigureUart();
      var _ := SetTimeouts(DEFAULT_READ_TIMEOUT_MS, DEFAULT_WRITE_TIMEOUT_MS);
      var flushed := FlushBuffers(true, true);
      if !flushed {
        var _ := Close();
        return false;
      }
      ok := true;
    }

    /** `close`: always leaves the device closed; a device that is not open (or holds no
        handle) counts as closed successfully. */
    method Close() returns (ok: bool)
      modifies this`handle, this`isOpen, bridge`calls
      ensures !isOpen
      ensures old(Valid()) ==> Valid()
      ensures !old(isOpen) || old(handle) == 0 ==>
        ok && handle == old(handle) && bridge.calls == old(bridge.calls)
      ensures old(isOpen) && old(handle) != 0 && !hasLibrary ==>
        !ok && handle == old(handle) && bridge.calls == old(bridge.calls)
      ensures old(isOpen) && old(handle) != 0 && hasLibrary ==>
        handle == 0 && bridge.calls == old(bridge.calls) + [CloseDevice(old(handle))] &&
        (ok <==> bridge.closeStatus == HID_UART_SUCCESS)
    {
      if !isOpen || handle == 0 {
        isOpen := false;
        return true;
      }
      if !hasLibrary {
        isOpen := false;
        return false;
      }
      var status := bridge.Close(handle);
      handle := 0;
      isOpen := false;
      ok := status == HID_UART_SUCCESS;
    }

    /** The body of `send_command`, without the record in the log. */
    method Transmit(command: string) returns (ok: bool)
      modifies bridge`writes, bridge`calls
      ensures Transmitted(command, ok)
    {
      if !isOpen {
        return false;
      }
      var frame := Frame(command);
      var w := bridge.Write(handle, frame);
      if w.status != HID_UART_SUCCESS {
        return false;
      }
      // A short write (w.written < |frame|) is only a warning.
      ok := true;
    }

    /** `send_command`. */
    method SendCommand(command: string) returns (ok: bool)
      modifies bridge`writes, bridge`calls, bridge`log
      ensures Transmitted(command, ok)
      ensures !isOpen ==> bridge.log == old(bridge.log)
      ensures isOpen ==> bridge.log == old(bridge.log) + [Command(command, ok)]
    {
      ok := Transmit(command);
      if isOpen {
        bridge.log := bridge.log + [Command(command, ok)];
      }
    }

    /** The body of `read_response` past its open check, without the record in the log. */
    method Receive(timeoutMs: nat) returns (r: Option<string>)
      requires isOpen
      modifies bridge`polls, bridge`clock, bridge`calls
      ensures Received(timeoutMs, r)
    {
      var _ := SetTimeouts(POLL_READ_TIMEOUT_MS, DEFAULT_WRITE_TIMEOUT_MS);
      var ended, response, elapsed := ReadLoop(timeoutMs);
      var _ := SetTimeouts(DEFAULT_READ_TIMEOUT_MS, DEFAULT_WRITE_TIMEOUT_MS);
      if ended == Failure {
        return None;
      }
      var timedOut := elapsed >= timeoutMs;
      if timedOut && response == "" {
        return None;
      }
      r := Some(Strip(response));
    }

    /** The byte-by-byte loop of `read_response`: it polls until a line feed, a read
        error, or until `timeoutMs` have passed since the loop began, never resetting
        that deadline. It ends as `LibScan` says. */
    method ReadLoop(timeoutMs: nat) returns (ended: ScanEnd, response: string, elapsed: nat)
      modifies bridge`polls, bridge`clock
      ensures LibScan(old(bridge.polls), bridge.idleMs, timeoutMs, 0, "") == Scan(ended, response, bridge.polls, elapsed)
      ensures bridge.clock == old(bridge.clock) + elapsed
    {
      ghost var target := LibScan(bridge.polls, bridge.idleMs, timeoutMs, 0, "");
      response := "";
      var start := bridge.clock;
      ended := Deadline;
      ghost var e: nat := 0;
      while bridge.clock - start < timeoutMs
        invariant bridge.clock == start + e && ended == Deadline
        invariant LibScan(bridge.polls, bridge.idleMs, timeoutMs, e, response) == target
        decreases |bridge.polls|, timeoutMs - e
      {
        ghost var polls1, response1 := bridge.polls, response;
        var p := bridge.Read();
        if p.status == HID_UART_SUCCESS {
          if p.data.Some? {
            if p.data.value == LF_BYTE {
              ended := Line;
              LibScanStops(polls1, bridge.idleMs, timeoutMs, e, response, ended, bridge.polls, e + p.ms);
              e := e + p.ms;
              break;
            }
            if p.data.value != CR_BYTE {
              response := response + [ByteChar(p.data.value)];
            } else {
              assert response == response1 + Kept(p);
            }
          } else {
            bridge.Sleep(10);
            assert response == response1 + Kept(p);
          }
        } else if p.status == HID_UART_READ_TIMED_OUT {
          bridge.Sleep(10);
          assert response == response1 + Kept(p);
        } else {
          ended := Failure;
          LibScanStops(polls1, bridge.idleMs, timeoutMs, e, response, ended, bridge.polls, e + p.ms);
          e := e + p.ms;
          break;
        }
        LibScanAdvance(polls1, bridge.idleMs, timeoutMs, e, response1, bridge.polls, e + StepCost(p), response);
        e := e + StepCost(p);
      }
      elapsed := bridge.clock - start;
      if ended == Deadline {
        LibScanDeadline(bridge.polls, bridge.idleMs, timeoutMs, e, response);
      }
    }

    /** `read_response`. */
    method ReadResponse(timeoutMs: nat) returns (r: Option<string>)
      modifies bridge`polls, bridge`clock, bridge`calls, bridge`log
      ensures !isOpen ==> r == None && unchanged(bridge)
      ensures isOpen ==> Received(timeoutMs, r) && bridge.log == old(bridge.log) + [Read(r)]
    {
      if !isOpen {
        return None;
      }
      r := Receive(timeoutMs);
      bridge.log := bridge.log + [Read(r)];
    }

    /** `query_command`: a send, a 100 ms pause and a read; no reply when the send fails. */
    method QueryCommand(command: string, timeoutMs: nat) returns (r: Option<string>)
      modifies bridge`writes, bridge`polls, bridge`clock, bridge`calls, bridge`log
      ensures !isOpen ==> r == None && unchanged(bridge)
      ensures isOpen ==> bridge.log == old(bridge.log) + [Query(command, r)]
      ensures isOpen ==> bridge.writes == Tail(old(bridge.writes))
      ensures isOpen && NextWrite(old(bridge.writes), |Frame(command)|).status != HID_UART_SUCCESS ==>
        r == None && bridge.polls == old(bridge.polls) && bridge.clock == old(bridge.clock) &&
        bridge.calls == old(bridge.calls) + [WriteFrame(handle, Frame(command))]
      ensures isOpen && NextWrite(old(bridge.writes), |Frame(command)|).status == HID_UART_SUCCESS ==>
        var s := LibScan(old(bridge.polls), bridge.idleMs, timeoutMs, 0, "");
        r == Reply(s, timeoutMs) && bridge.polls == s.rest &&
        bridge.clock == old(bridge.clock) + QUERY_PAUSE_MS + s.elapsed &&
        bridge.calls == old(bridge.calls) + [WriteFrame(handle, Frame(command)),
          Timeouts(handle, POLL_READ_TIMEOUT_MS, DEFAULT_WRITE_TIMEOUT_MS),
          Timeouts(handle, DEFAULT_READ_TIMEOUT_MS, DEFAULT_WRITE_TIMEOUT_MS)]
      ensures bridge.clock >= old(bridge.clock)
    {
      if !isOpen {
        return None;
      }
      var sent := Transmit(command);
      if sent {
        bridge.Sleep(QUERY_PAUSE_MS);
        r := Receive(timeoutMs);
      } else {
        r := None;
      }
      bridge.log := bridge.log + [Query(command, r)];
    }

    /** `__enter__`: there must be a device to find and it must open. */
    method Enter() returns (e: EnterOutcome)
      modifies this`handle, this`isOpen, bridge`calls
      ensures e == NoDevicesFound <==> !(hasLibrary && bridge.enumStatus == HID_UART_SUCCESS && bridge.deviceCount > 0)
      ensures e == NoDevicesFound ==> handle == old(handle) && isOpen == old(isOpen)
      ensures e == Entered <==> e != NoDevicesFound && (old(isOpen) || (bridge.openStatus == HID_UART_SUCCESS &&
                                bridge.openHandle != 0 && bridge.flushStatus == HID_UART_SUCCESS))
      ensures e == Entered ==> isOpen
      ensures old(Valid()) ==> Valid()
    {
      var n := FindDevice();
      if !(n > 0) {
        return NoDevicesFound;
      }
      var wasOpened := Open(0);
      if !wasOpened {
        return OpenFailed;
      }
      e := Entered;
    }

    /** `__exit__`: closes the device. */
    method Exit()
      modifies this`handle, this`isOpen, bridge`calls
      ensures !isOpen
      ensures old(Valid()) ==> Valid() && handle == 0
    {
      var _ := Close();
    }
  }

  /** What callers of `send_command` rely on: one `Command` record in the log when the
      device is open, nothing at all when it is closed, and no time spent. */
  method LoggedSend(d: V7xDevice, command: string) returns (ok: bool)
    modifies d.bridge
    ensures !d.isOpen ==> !ok && unchanged(d.bridge)
    ensures d.isOpen ==> d.bridge.log == old(d.bridge.log) + [Command(command, ok)]
    ensures d.bridge.clock == old(d.bridge.clock)
  {
    ok := d.SendCommand(command);
  }

  /** What callers of `query_command` rely on: one `Query` record in the log when the
      device is open, no reply and nothing at all when it is closed, and time that only
      moves forward. */
  method LoggedQuery(d: V7xDevice, command: string, timeoutMs: nat) returns (r: Option<string>)
    modifies d.bridge
    ensures !d.isOpen ==> r == None && unchanged(d.bridge)
    ensures d.isOpen ==> d.bridge.log == old(d.bridge.log) + [Query(command, r)]
    ensures d.bridge.clock >= old(d.bridge.clock)
  {
    r := d.QueryCommand(command, timeoutMs);
  }

  /** Every benign answer before the deadline is consumed in turn: the loop moves on by
      its cost and keeps its character, without looking at the deadline again until the
      prefix is used up. The script, the time and the text the loop reaches are named
      `polls`, `reached` and `kept`. */
  lemma {:induction false} LibScanPrefix(ps: seq<Poll>, rest: seq<Poll>, idleMs: nat, timeoutMs: nat,
                                         elapsed: nat, acc: string,
                                         polls: seq<Poll>, reached: nat, kept: string)
    requires AllBenign(ps) && elapsed + Cost(ps) < timeoutMs
    requires polls == ps + rest && reached == elapsed + Cost(ps) && kept == acc + Payload(ps)
    ensures LibScan(polls, idleMs, timeoutMs, elapsed, acc) == LibScan(rest, idleMs, timeoutMs, reached, kept)
    decreases |ps|
  {
    if ps == [] {
      assert polls == rest;
      assert kept == acc;
    } else {
      var p, t := ps[0], ps[1..];
      var q, e, a := t + rest, elapsed + StepCost(p), acc + Kept(p);
      assert polls == [p] + q by { SplitAt(ps, 1); Assoc([p], t, rest); }
      assert Benign(p) && AllBenign(t);
      LibScanBenign(p, q, idleMs, timeoutMs, elapsed, acc, polls, e, a);
      assert kept == a + Payload(t) by { Assoc(acc, Kept(p), Payload(t)); }
      LibScanPrefix(t, rest, idleMs, timeoutMs, e, a, q, reached, kept);
    }
  }

  /** One benign answer before the deadline: consumed, costed and kept. */
  lemma LibScanBenign(p: Poll, rest: seq<Poll>, idleMs: nat, timeoutMs: nat, elapsed: nat, acc: string,
                      polls: seq<Poll>, reached: nat, kept: string)
    requires Benign(p) && elapsed < timeoutMs
    requires polls == [p] + rest && reached == elapsed + StepCost(p) && kept == acc + Kept(p)
    ensures LibScan(polls, idleMs, timeoutMs, elapsed, acc) == LibScan(rest, idleMs, timeoutMs, reached, kept)
  {
    assert polls[0] == p;
    assert Tail(polls) == rest;
  }

  /** A reply terminated by LF before the deadline: the characters before it, with every
      CR dropped, stripped of surrounding whitespace. */
  lemma ReadLine(ps: seq<Poll>, lf: Poll, rest: seq<Poll>, idleMs: nat, timeoutMs: nat)
    requires AllBenign(ps) && Cost(ps) < timeoutMs
    requires lf.status == HID_UART_SUCCESS && lf.data == Some(LF_BYTE)
    ensures LibScan(ps + [lf] + rest, idleMs, timeoutMs, 0, "")
         == Scan(Line, Payload(ps), rest, Cost(ps) + lf.ms)
    ensures Cost(ps) + lf.ms < timeoutMs || Payload(ps) != "" ==>
      LibRead(ps + [lf] + rest, idleMs, timeoutMs) == Some(Strip(Payload(ps)))
  {
    assert ps + [lf] + rest == ps + ([lf] + rest);
    LibScanPrefix(ps, [lf] + rest, idleMs, timeoutMs, 0, "", ps + ([lf] + rest), Cost(ps), "" + Payload(ps));
    assert "" + Payload(ps) == Payload(ps);
    assert Tail([lf] + rest) == rest;
  }

  /** A line holding only LF reads as the empty reply, not as no reply. */
  lemma ReadEmptyLine(lf: Poll, rest: seq<Poll>, idleMs: nat, timeoutMs: nat)
    requires lf.status == HID_UART_SUCCESS && lf.data == Some(LF_BYTE) && lf.ms < timeoutMs
    ensures LibRead([lf] + rest, idleMs, timeoutMs) == Some("")
  {
    ReadLine([], lf, rest, idleMs, timeoutMs);
    assert [] + [lf] + rest == [lf] + rest;
    assert Strip("") == "";
  }

  /** A read error before the line ends loses everything collected so far. */
  lemma ReadError(ps: seq<Poll>, bad: Poll, rest: seq<Poll>, idleMs: nat, timeoutMs: nat)
    requires AllBenign(ps) && Cost(ps) < timeoutMs
    requires bad.status != HID_UART_SUCCESS && bad.status != HID_UART_READ_TIMED_OUT
    ensures LibScan(ps + [bad] + rest, idleMs, timeoutMs, 0, "").end == Failure
    ensures LibRead(ps + [bad] + rest, idleMs, timeoutMs) == None
  {
    assert ps + [bad] + rest == ps + ([bad] + rest);
    LibScanPrefix(ps, [bad] + rest, idleMs, timeoutMs, 0, "", ps + ([bad] + rest), Cost(ps), "" + Payload(ps));
  }

  /** Without a line feed the loop stops at the first answer that ends at or past the
      deadline, counted from the start of the read: the reply is the text kept so far,
      or no reply when nothing was kept. */
  lemma ReadPartial(ps: seq<Poll>, rest: seq<Poll>, idleMs: nat, timeoutMs: nat)
    requires ps != [] && AllBenign(ps)
    requires Cost(ps[..|ps| - 1]) < timeoutMs <= Cost(ps)
    ensures LibScan(ps + rest, idleMs, timeoutMs, 0, "") == Scan(Deadline, Payload(ps), rest, Cost(ps))
    ensures LibRead(ps + rest, idleMs, timeoutMs)
         == if Payload(ps) == "" then None else Some(Strip(Payload(ps)))
  {
    var init, last := ps[..|ps| - 1], ps[|ps| - 1];
    assert init + [last] == ps;
    assert ps + rest == init + ([last] + rest);
    assert AllBenign(init) && Benign(last);
    LibScanPrefix(init, [last] + rest, idleMs, timeoutMs, 0, "", init + ([last] + rest), Cost(init), "" + Payload(init));
    CostAppend(init, last);
    PayloadAppend(init, last);
    assert "" + Payload(init) == Payload(init);
    assert Tail([last] + rest) == rest;
  }

  lemma {:induction false} SilentScan(idleMs: nat, timeoutMs: nat, elapsed: nat)
    ensures LibScan([], idleMs, timeoutMs, elapsed, "") == Scan(Deadline, "", [], LibScan([], idleMs, timeoutMs, elapsed, "").elapsed)
    decreases if elapsed < timeoutMs then timeoutMs - elapsed else 0
  {
    if elapsed < timeoutMs {
      var p := NextPoll([], idleMs);
      assert Benign(p) && Kept(p) == "" && StepCost(p) >= 10;
      assert "" + Kept(p) == "";
      SilentScan(idleMs, timeoutMs, elapsed + StepCost(p));
    }
  }

  /** An instrument that never answers gives no reply. */
  lemma ReadSilence(idleMs: nat, timeoutMs: nat)
    ensures LibRead([], idleMs, timeoutMs) == None
  {
    SilentScan(idleMs, timeoutMs, 0);
  }
}
