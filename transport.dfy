/** The HID-to-UART bridge the drivers talk to, as a scripted stand-in for the vendor
    library and the instrument behind it.

    Each library entry point the drivers use is a method of `Bridge`. Statuses that a
    call returns are fixed per bridge (`const` fields); the outcomes of writes and of
    single-byte reads are scripts that the calls consume in order. Time is the `clock`
    field in milliseconds: a read takes the time its script entry says, and a sleep
    advances the clock by its length. Every library call except a read is appended to
    `calls`, and the drivers append what their callers observe to the ghost `log`. */
module Transport {
  import opened Common
  import opened Constants

  newtype byte = x: int | 0 <= x < 256

  const LF_BYTE: byte := 10
  const CR_BYTE: byte := 13

  /** The character `chr(b)` that a received byte becomes. */
  function ByteChar(b: byte): char
  {
    (b as int) as char
  }

  /** One answer of `HidUart_Read` for a one-byte buffer: its status, the byte when one
      was read, and how long the call took. */
  datatype Poll = Poll(status: int, data: Option<byte>, ms: nat)

  /** One answer of `HidUart_Write`: its status and the number of bytes it reports written. */
  datatype WriteOutcome = WriteOutcome(status: int, written: nat)

  /** The library calls the drivers make, as recorded in `calls`. */
  datatype Call =
    | Enumerate(vid: nat, pid: nat)
    | OpenDevice(index: nat, vid: nat, pid: nat)
    | UartConfig(handle: nat, baud: nat, dataBits: nat, parity: nat, stopBits: nat, flow: nat)
    | Timeouts(handle: nat, readMs: nat, writeMs: nat)
    | Flush(handle: nat, tx: bool, rx: bool)
    | CloseDevice(handle: nat)
    | WriteFrame(handle: nat, frame: string)

  /** What a driver's caller observes: a command sent (and whether the driver reported
      success), a query with its reply, or a bare read with its reply. */
  datatype Exchange =
    | Command(cmd: string, ok: bool)
    | Query(cmd: string, reply: Option<string>)
    | Read(reply: Option<string>)

  /** The next read answer: the head of the script, or an idle time-out once the
      instrument has nothing more to say. */
  function NextPoll(polls: seq<Poll>, idleMs: nat): (p: Poll)
    ensures polls != [] ==> p == polls[0]
    ensures polls == [] ==> p.status == HID_UART_READ_TIMED_OUT && p.data == None
  {
    if polls == [] then Poll(HID_UART_READ_TIMED_OUT, None, idleMs) else polls[0]
  }

  function Tail<T>(s: seq<T>): (r: seq<T>)
    ensures s != [] ==> |r| == |s| - 1
  {
    if s == [] then [] else s[1..]
  }

  /** The next write answer: the head of the script, or a complete successful write. */
  function NextWrite(writes: seq<WriteOutcome>, length: nat): (w: WriteOutcome)
    ensures writes == [] ==> w.status == HID_UART_SUCCESS && w.written == length
  {
    if writes == [] then WriteOutcome(HID_UART_SUCCESS, length) else writes[0]
  }

  /** How a byte-by-byte read loop ended: at a line feed, at its deadline, or at a read
      status that is neither success nor a time-out. */
  datatype ScanEnd = Line | Deadline | Failure

  /** The state a read loop ends in: why it stopped, the text it collected, the script
      left over, and the time that counts against the deadline when the loop stopped. */
  datatype Scan = Scan(end: ScanEnd, text: string, rest: seq<Poll>, elapsed: nat)

  /** What a read returns once its loop has ended: nothing after a read error; nothing
      when the deadline has passed and no character was kept; otherwise the collected
      text with surrounding whitespace stripped. */
  function Reply(s: Scan, timeoutMs: nat): (r: Option<string>)
    ensures s.end == Failure ==> r == None
    ensures s.end != Failure && s.elapsed < timeoutMs ==> r == Some(Strip(s.text))
    ensures s.end != Failure && s.text != "" ==> r == Some(Strip(s.text))
  {
    if s.end == Failure then None
    else if s.elapsed >= timeoutMs && s.text == "" then None
    else Some(Strip(s.text))
  }

  /** A read answer that neither ends the line nor fails the read. */
  predicate Benign(p: Poll)
  {
    (p.status == HID_UART_SUCCESS && p.data != Some(LF_BYTE)) || p.status == HID_UART_READ_TIMED_OUT
  }

  predicate AllBenign(ps: seq<Poll>)
  {
    forall i :: 0 <= i < |ps| ==> Benign(ps[i])
  }

  /** The time one benign answer costs the library's loop: the call itself, plus the
      10 ms pause that follows an answer that carried no byte. */
  function StepCost(p: Poll): nat
  {
    if p.status == HID_UART_SUCCESS && p.data.Some? then p.ms else p.ms + 10
  }

  /** The character an answer contributes to the reply: bytes other than CR. */
  function Kept(p: Poll): string
  {
    if p.status == HID_UART_SUCCESS && p.data.Some? && p.data.value != CR_BYTE
    then [ByteChar(p.data.value)] else ""
  }

  function Cost(ps: seq<Poll>): nat
  {
    if ps == [] then 0 else StepCost(ps[0]) + Cost(ps[1..])
  }

  function Payload(ps: seq<Poll>): string
  {
    if ps == [] then "" else Kept(ps[0]) + Payload(ps[1..])
  }

  lemma {:induction false} CostAppend(ps: seq<Poll>, p: Poll)
    ensures Cost(ps + [p]) == Cost(ps) + StepCost(p)
    decreases |ps|
  {
    if ps == [] {
      assert ps + [p] == [p];
    } else {
      assert (ps + [p])[1..] == ps[1..] + [p];
      CostAppend(ps[1..], p);
    }
  }

  lemma {:induction false} PayloadAppend(ps: seq<Poll>, p: Poll)
    ensures Payload(ps + [p]) == Payload(ps) + Kept(p)
    decreases |ps|
  {
    if ps == [] {
      assert ps + [p] == [p];
      assert Payload([p]) == Kept(p) + "";
    } else {
      assert (ps + [p])[1..] == ps[1..] + [p];
      PayloadAppend(ps[1..], p);
    }
  }

  /** The scripted bridge. */
  class Bridge {
    const enumStatus: int
    const deviceCount: nat
    const openStatus: int
    const openHandle: nat
    const configStatus: int
    const timeoutStatus: int
    const flushStatus: int
    const closeStatus: int
    /** How long a read takes once the script is exhausted. */
    const idleMs: nat

    var writes: seq<WriteOutcome>
    var polls: seq<Poll>
    var clock: nat
    var calls: seq<Call>
    ghost var log: seq<Exchange>

    constructor (enumStatus: int, deviceCount: nat, openStatus: int, openHandle: nat,
                 configStatus: int, timeoutStatus: int, flushStatus: int, closeStatus: int,
                 idleMs: nat, writes: seq<WriteOutcome>, polls: seq<Poll>)
      ensures this.enumStatus == enumStatus && this.deviceCount == deviceCount
      ensures this.openStatus == openStatus && this.openHandle == openHandle
      ensures this.configStatus == configStatus && this.timeoutStatus == timeoutStatus
      ensures this.flushStatus == flushStatus && this.closeStatus == closeStatus
      ensures this.idleMs == idleMs && this.writes == writes && this.polls == polls
      ensures clock == 0 && calls == [] && log == []
    {
      this.enumStatus := enumStatus;
      this.deviceCount := deviceCount;
      this.openStatus := openStatus;
      this.openHandle := openHandle;
      this.configStatus := configStatus;
      this.timeoutStatus := timeoutStatus;
      this.flushStatus := flushStatus;
      this.closeStatus := closeStatus;
      this.idleMs := idleMs;
      this.writes := writes;
      this.polls := polls;
      clock := 0;
      calls := [];
      log := [];
    }

    /** `HidUart_GetNumDevices`. */
    method GetNumDevices(vid: nat, pid: nat) returns (status: int, count: nat)
      modifies this`calls
      ensures status == enumStatus && count == deviceCount
      ensures calls == old(calls) + [Enumerate(vid, pid)]
    {
      calls := calls + [Enumerate(vid, pid)];
      status, count := enumStatus, deviceCount;
    }

    /** `HidUart_Open`: a status and the handle written back. */
    method Open(index: nat, vid: nat, pid: nat) returns (status: int, handle: nat)
      modifies this`calls
      ensures status == openStatus && handle == openHandle
      ensures calls == old(calls) + [OpenDevice(index, vid, pid)]
    {
      calls := calls + [OpenDevice(index, vid, pid)];
      status, handle := openStatus, openHandle;
    }

    /** `HidUart_SetUartConfig`. */
    method SetUartConfig(h: nat, baud: nat, dataBits: nat, parity: nat, stopBits: nat, flow: nat)
      returns (status: int)
      modifies this`calls
      ensures status == configStatus
      ensures calls == old(calls) + [UartConfig(h, baud, dataBits, parity, stopBits, flow)]
    {
      calls := calls + [UartConfig(h, baud, dataBits, parity, stopBits, flow)];
      status := configStatus;
    }

    /** `HidUart_SetTimeouts`. */
    method SetTimeouts(h: nat, readMs: nat, writeMs: nat) returns (status: int)
      modifies this`calls
      ensures status == timeoutStatus
      ensures calls == old(calls) + [Timeouts(h, readMs, writeMs)]
    {
      calls := calls + [Timeouts(h, readMs, writeMs)];
      status := timeoutStatus;
    }

    /** `HidUart_FlushBuffers`. */
    method FlushBuffers(h: nat, tx: bool, rx: bool) returns (status: int)
      modifies this`calls
      ensures status == flushStatus
      ensures calls == old(calls) + [Flush(h, tx, rx)]
    {
      calls := calls + [Flush(h, tx, rx)];
      status := flushStatus;
    }

    /** `HidUart_Close`. */
    method Close(h: nat) returns (status: int)
      modifies this`calls
      ensures status == closeStatus
      ensures calls == old(calls) + [CloseDevice(h)]
    {
      calls := calls + [CloseDevice(h)];
      status := closeStatus;
    }

    /** `HidUart_Write` of a whole frame. */
    method Write(h: nat, frame: string) returns (w: WriteOutcome)
      modifies this`calls, this`writes
      ensures w == NextWrite(old(writes), |frame|)
      ensures writes == Tail(old(writes))
      ensures calls == old(calls) + [WriteFrame(h, frame)]
    {
      calls := calls + [WriteFrame(h, frame)];
      w := NextWrite(writes, |frame|);
      writes := Tail(writes);
    }

    /** `HidUart_Read` of a single byte. */
    method Read() returns (p: Poll)
      modifies this`polls, this`clock
      ensures p == NextPoll(old(polls), idleMs)
      ensures polls == Tail(old(polls))
      ensures clock == old(clock) + p.ms
    {
      p := NextPoll(polls, idleMs);
      polls := Tail(polls);
      clock := clock + p.ms;
    }

    /** `time.sleep`, in milliseconds. */
    method Sleep(ms: nat)
      modifies this`clock
      ensures clock == old(clock) + ms
    {
      clock := clock + ms;
    }
  }
}
