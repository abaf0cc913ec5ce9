/**
 * The X20AT6402 temperature input module: six channels whose raw values
 * and two-bit statuses are read straight from the I/O image
 * IOMappingX20AT6402_TYP. Channels 1 to 4 report in StatusInput01 and
 * channels 5 and 6 in the low four bits of StatusInput02.
 */
module X20AT6402 {
  import opened Wrappers
  import opened Bytes
  import opened IOStatus

  /** The fields of the I/O image the module reads. */
  datatype Mapping = Mapping(
    moduleOk: bool,
    temperature01: int16,
    temperature02: int16,
    temperature03: int16,
    temperature04: int16,
    temperature05: int16,
    temperature06: int16,
    statusInput01: bv8,
    statusInput02: bv8)

  const CHANNEL_COUNT: nat := 6

  /** isActive: the module reports ModuleOk. */
  predicate IsActive(m: Mapping)
  {
    m.moduleOk
  }

  /** The six raw temperatures, channel n at index n - 1. */
  function Temperatures(m: Mapping): (s: seq<int16>)
    ensures |s| == CHANNEL_COUNT
  {
    [m.temperature01, m.temperature02, m.temperature03,
     m.temperature04, m.temperature05, m.temperature06]
  }

  /** getRawValue: the raw temperature of channel n; other channel numbers throw. */
  function GetRawValue(m: Mapping, n: uint32): (r: Result<int16>)
    ensures r.Ok? <==> 1 <= n <= CHANNEL_COUNT
    ensures r.Ok? ==> r.value == Temperatures(m)[n - 1]
    ensures r.Err? ==> r.error == InvalidChannelNumber
  {
    match n
    case 1 => Ok(m.temperature01)
    case 2 => Ok(m.temperature02)
    case 3 => Ok(m.temperature03)
    case 4 => Ok(m.temperature04)
    case 5 => Ok(m.temperature05)
    case 6 => Ok(m.temperature06)
    case _ => Err(InvalidChannelNumber)
  }

  /** The status register and field that report channel n. */
  function StatusSource(m: Mapping, n: nat): (f: (bv8, nat))
    requires 1 <= n <= CHANNEL_COUNT
    ensures f.1 < 4
  {
    if n <= 4 then (m.statusInput01, n - 1) else (m.statusInput02, n - 5)
  }

  /** getIOStatus: the two status bits of channel n; other channel numbers throw. */
  function GetIOStatus(m: Mapping, n: uint32): (r: Result<int>)
    ensures r.Ok? <==> 1 <= n <= CHANNEL_COUNT
    ensures r.Ok? ==> 0 <= r.value <= 3
    ensures r.Ok? ==> r.value == StatusValue(StatusField(StatusSource(m, n).0, StatusSource(m, n).1))
    ensures r.Err? ==> r.error == InvalidChannelNumber
  {
    match n
    case 1 => Ok(StatusValue(m.statusInput01 & 3))
    case 2 => Ok(StatusValue((m.statusInput01 >> 2) & 3))
    case 3 => Ok(StatusValue((m.statusInput01 >> 4) & 3))
    case 4 => Ok(StatusValue((m.statusInput01 >> 6) & 3))
    case 5 => Ok(StatusValue(m.statusInput02 & 3))
    case 6 => Ok(StatusValue((m.statusInput02 >> 2) & 3))
    case _ => Err(InvalidChannelNumber)
  }

  /**
   * Six statuses packed into the two registers (the upper half of the
   * second one free) come back on their channels, and whatever the upper
   * half of StatusInput02 holds does not reach any channel.
   */
  lemma GetIOStatusOfPack(m: Mapping, a: bv8, b: bv8, c: bv8, d: bv8, e: bv8, f: bv8, x: bv8, y: bv8)
    requires a <= 3 && b <= 3 && c <= 3 && d <= 3 && e <= 3 && f <= 3 && x <= 3 && y <= 3
    requires m.statusInput01 == PackStatus(a, b, c, d)
    requires m.statusInput02 == PackStatus(e, f, x, y)
    ensures GetIOStatus(m, 1) == Ok(a as int) && GetIOStatus(m, 2) == Ok(b as int)
    ensures GetIOStatus(m, 3) == Ok(c as int) && GetIOStatus(m, 4) == Ok(d as int)
    ensures GetIOStatus(m, 5) == Ok(e as int) && GetIOStatus(m, 6) == Ok(f as int)
  {
    StatusOfPack(a, b, c, d);
    StatusOfPack(e, f, x, y);
  }
}
