/**
 This module holds the data of the BIOS boot logic: the fixed-width integer
 types of the C record, the global `SystemState`, the temperature threshold,
 and the boot status codes together with their `uint8_t` encoding.
 */
module BootState {

  /** `uint8_t`: values 0 .. 255. */
  type U8 = x: int | 0 <= x < 256

  /** `uint16_t`: values 0 .. 65535. */
  type U16 = x: int | 0 <= x < 65536

  /** Highest CPU temperature (degrees Celsius) at which boot may proceed. */
  const TempNormalMax: int := 85

  /** The global state record: two sensor readings, the boot attempt counter
      and the (never consulted) high-temperature flag. */
  datatype SystemState = SystemState(
    cpuTemp: U16,
    boardTemp: U16,
    bootCount: U8,
    highTempMode: bool)

  /** The zero-initialised global state the program starts from. */
  const InitialState: SystemState := SystemState(0, 0, 0, false)

  /** The four boot status values. */
  datatype BootStatus = BootOk | BootTempWarning | BootTempCritical | BootFailed

  datatype Option<T> = None | Some(value: T)

  /** The `uint8_t` code a status is returned as. */
  function Code(st: BootStatus): (c: U8)
    ensures c < 4
  {
    match st
    case BootOk => 0
    case BootTempWarning => 1
    case BootTempCritical => 2
    case BootFailed => 3
  }

  /** The status a `uint8_t` code stands for, if any. */
  function Decode(c: U8): (r: Option<BootStatus>)
    ensures r.Some? <==> c < 4
  {
    if c == 0 then Some(BootOk)
    else if c == 1 then Some(BootTempWarning)
    else if c == 2 then Some(BootTempCritical)
    else if c == 3 then Some(BootFailed)
    else None
  }

  /** Decoding the code of a status gives that status back. */
  lemma CodeRoundTrip(st: BootStatus)
    ensures Decode(Code(st)) == Some(st)
  {
  }

  /** Every code that decodes is the code of the status it decodes to. */
  lemma DecodeRoundTrip(c: U8)
    ensures Decode(c).Some? ==> Code(Decode(c).value) == c
  {
  }

  /** Distinct statuses are returned as distinct codes. */
  lemma CodeInjective(a: BootStatus, b: BootStatus)
    ensures Code(a) == Code(b) <==> a == b
  {
  }

  /** `x++` on a `uint8_t`: one more, wrapping from 255 back to 0. */
  function IncrementU8(x: U8): (r: U8)
    ensures x < 255 ==> r == x + 1
    ensures x == 255 ==> r == 0
    ensures r == (x + 1) % 256
  {
    if x == 255 then 0 else x + 1
  }
}
