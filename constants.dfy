/** The fixed tables and numbers the driver, the sequencer and the result decoding share. */
module Constants {
  import opened Common

  // Identification of the Vitrek V7X behind the HID-to-UART bridge.
  const VID: nat := 4292
  const PID: nat := 34869

  // Status codes of the HID-to-UART vendor library.
  const HID_UART_SUCCESS: int := 0x00
  const HID_UART_DEVICE_NOT_FOUND: int := 0x01
  const HID_UART_INVALID_HANDLE: int := 0x02
  const HID_UART_INVALID_DEVICE_OBJECT: int := 0x03
  const HID_UART_INVALID_PARAMETER: int := 0x04
  const HID_UART_INVALID_REQUEST_LENGTH: int := 0x05
  const HID_UART_READ_ERROR: int := 0x10
  const HID_UART_WRITE_ERROR: int := 0x11
  const HID_UART_READ_TIMED_OUT: int := 0x12
  const HID_UART_WRITE_TIMED_OUT: int := 0x13
  const HID_UART_DEVICE_IO_FAILED: int := 0x14
  const HID_UART_DEVICE_ACCESS_ERROR: int := 0x15
  const HID_UART_DEVICE_NOT_SUPPORTED: int := 0x16

  // UART settings the driver asks for.
  const HID_UART_EIGHT_DATA_BITS: nat := 0x03
  const HID_UART_NO_PARITY: nat := 0x00
  const HID_UART_SHORT_STOP_BIT: nat := 0x00
  const HID_UART_RTS_CTS_FLOW_CONTROL: nat := 0x01

  // Communication defaults, in milliseconds.
  const DEFAULT_BAUD_RATE: nat := 115200
  const DEFAULT_READ_TIMEOUT_MS: nat := 100
  const DEFAULT_WRITE_TIMEOUT_MS: nat := 1000
  const RESPONSE_READ_TIMEOUT_MS: nat := 3000

  /** The test types a step may have, with their descriptions. */
  const TEST_TYPES: map<string, string> := map[
    "ACW" := "AC Withstand Voltage Test",
    "DCW" := "DC Withstand Voltage Test",
    "IR" := "Insulation Resistance Test",
    "CONT" := "Continuity Test",
    "GND" := "Ground Bond Test"
  ]

  /** The status-code bits reported by RSLT? and STEPRSLT?, in the order the table lists
      them (the order in which failure reasons are reported). */
  const STATUS_FLAGS: seq<(nat, string)> := [
    (1, "V7X Internal Fault"),
    (2, "Over Voltage Output"),
    (4, "Line Too Low"),
    (8, "DUT Breakdown Detected"),
    (16, "HOLD Step Timeout"),
    (32, "User Aborted Sequence"),
    (64, "GB Over-Compliance"),
    (128, "Arc Detected"),
    (256, "Measurement < Min Limit"),
    (512, "Measurement > Max Limit"),
    (1024, "IR Not Steady/Decreasing"),
    (2048, "Interlock Failure"),
    (4096, "Switch Matrix Error"),
    (8192, "V7X Overheated"),
    (16384, "Unstable Load/Control Error"),
    (32768, "GB Wiring Error"),
    (65536, "Voltage Error")
  ]

  /** The termination-state codes (first field of a STEPRSLT? record). */
  const TERMINATION_STATES: map<string, string> := map[
    "0" := "Not Executed",
    "1" := "Terminated Before Start",
    "2" := "Terminated during Ramp",
    "3" := "Terminated during Dwell",
    "4" := "Completed Normally",
    "?" := "Unknown/In Process"
  ]

  /** The flag table has seventeen entries, the i-th being bit 2^i. */
  lemma StatusFlagsAreBits()
    ensures |STATUS_FLAGS| == 17
    ensures forall i :: 0 <= i < |STATUS_FLAGS| ==> STATUS_FLAGS[i].0 == Pow2(i)
  {
    assert Pow2(0) == 1;
    assert Pow2(1) == 2;
    assert Pow2(2) == 4;
    assert Pow2(3) == 8;
    assert Pow2(4) == 16;
    assert Pow2(5) == 32;
    assert Pow2(6) == 64;
    assert Pow2(7) == 128;
    assert Pow2(8) == 256;
    assert Pow2(9) == 512;
    assert Pow2(10) == 1024;
    assert Pow2(11) == 2048;
    assert Pow2(12) == 4096;
    assert Pow2(13) == 8192;
    assert Pow2(14) == 16384;
    assert Pow2(15) == 32768;
    assert Pow2(16) == 65536;
  }

  /** No two flags share a description. */
  lemma StatusFlagDescriptionsDistinct()
    ensures forall i, j :: 0 <= i < j < |STATUS_FLAGS| ==> STATUS_FLAGS[i].1 != STATUS_FLAGS[j].1
  {
  }

  lemma TestTypeKeys()
    ensures TEST_TYPES.Keys == {"ACW", "DCW", "IR", "CONT", "GND"}
  {
  }

  lemma TerminationStateKeys()
    ensures TERMINATION_STATES.Keys == {"0", "1", "2", "3", "4", "?"}
    ensures TERMINATION_STATES["4"] == "Completed Normally"
  {
  }

  /** A benign read time-out and success are distinct statuses, and neither is a hard error. */
  lemma ReadStatusesDistinct()
    ensures HID_UART_SUCCESS != HID_UART_READ_TIMED_OUT
    ensures HID_UART_READ_ERROR !in {HID_UART_SUCCESS, HID_UART_READ_TIMED_OUT}
  {
  }
}
