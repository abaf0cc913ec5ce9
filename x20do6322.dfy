/**
 * The X20DO6322 digital output module: six output channels and one status
 * bit per channel in the I/O image IOMappingX20DO6322_TYP. setOutput writes
 * the image in place; getOutput and getIOStatus read it.
 */
module X20DO6322 {
  import opened Wrappers
  import opened Bytes

  const CHANNEL_COUNT: nat := 6

  /** One flag per channel, channel n at index n - 1. */
  type Channels = s: seq<bool> | |s| == CHANNEL_COUNT
    witness [false, false, false, false, false, false]

  /**
   * The fields of the I/O image the module reads or writes. The six
   * DigitalOutput0n and the six StatusDigitalOutput0n fields of the image
   * are held as one sequence each.
   */
  datatype Mapping = Mapping(
    moduleOk: bool,
    digitalOutputs: Channels,
    statusDigitalOutputs: Channels)

  /** isActive: the module reports ModuleOk. */
  predicate IsActive(m: Mapping)
  {
    m.moduleOk
  }

  /**
   * The image after setOutput(n, v): output n becomes v and nothing else
   * changes; other channel numbers throw.
   */
  function WithOutput(m: Mapping, n: uint32, v: bool): (r: Result<Mapping>)
    ensures r.Ok? <==> 1 <= n <= CHANNEL_COUNT
    ensures r.Ok? ==> r.value.moduleOk == m.moduleOk && r.value.statusDigitalOutputs == m.statusDigitalOutputs
    ensures r.Err? ==> r.error == InvalidChannelNumber
  {
    if 1 <= n <= CHANNEL_COUNT then
      Ok(m.(digitalOutputs := m.digitalOutputs[n - 1 := v]))
    else
      Err(InvalidChannelNumber)
  }

  /** getOutput: the output of channel n; other channel numbers throw. */
  function GetOutput(m: Mapping, n: uint32): (r: Result<bool>)
    ensures r.Ok? <==> 1 <= n <= CHANNEL_COUNT
    ensures r.Err? ==> r.error == InvalidChannelNumber
  {
    if 1 <= n <= CHANNEL_COUNT then Ok(m.digitalOutputs[n - 1]) else Err(InvalidChannelNumber)
  }

  /**
   * getIOStatus: the status bit of channel n as a uint16_t (0 = no error,
   * 1 = short circuit, overload or supply fault); other channel numbers throw.
   */
  function GetIOStatus(m: Mapping, n: uint32): (r: Result<int>)
    ensures r.Ok? <==> 1 <= n <= CHANNEL_COUNT
    ensures r.Ok? ==> (r.value == 1 <==> m.statusDigitalOutputs[n - 1]) && (r.value == 0 <==> !m.statusDigitalOutputs[n - 1])
    ensures r.Err? ==> r.error == InvalidChannelNumber
  {
    if 1 <= n <= CHANNEL_COUNT then
      Ok(if m.statusDigitalOutputs[n - 1] then 1 else 0)
    else
      Err(InvalidChannelNumber)
  }

  /** getOutput(k) after setOutput(n, v) is v on channel n and the old output on every other channel. */
  lemma GetOutputAfterSet(m: Mapping, n: uint32, v: bool, k: uint32)
    requires 1 <= n <= CHANNEL_COUNT
    ensures GetOutput(WithOutput(m, n, v).value, k) == if k == n then Ok(v) else GetOutput(m, k)
  {
  }

  /** Setting an output never changes what getIOStatus reports. */
  lemma GetIOStatusAfterSet(m: Mapping, n: uint32, v: bool, k: uint32)
    requires 1 <= n <= CHANNEL_COUNT
    ensures GetIOStatus(WithOutput(m, n, v).value, k) == GetIOStatus(m, k)
  {
  }

  /** Setting an output to the value it already has leaves the image as it was. */
  lemma WithOutputIdempotent(m: Mapping, n: uint32)
    requires 1 <= n <= CHANNEL_COUNT
    ensures WithOutput(m, n, GetOutput(m, n).value) == Ok(m)
  {
    assert m.digitalOutputs[n - 1 := m.digitalOutputs[n - 1]] == m.digitalOutputs;
  }

  class CIOModuleX20DO6322 {
    const name: string
    /** The I/O image the module points to. */
    var mapping: Mapping

    constructor (name: string, mapping: Mapping)
      ensures this.name == name && this.mapping == mapping
    {
      this.name := name;
      this.mapping := mapping;
    }

    /** setOutput: writes output n of the image; other channel numbers throw and change nothing. */
    method SetOutput(n: uint32, v: bool) returns (r: Result<()>)
      modifies this
      ensures var s := WithOutput(old(mapping), n, v);
        && (s.Err? ==> r == Err(s.error) && mapping == old(mapping))
        && (s.Ok? ==> r == Ok(()) && mapping == s.value)
    {
      if 1 <= n <= CHANNEL_COUNT {
        mapping := mapping.(digitalOutputs := mapping.digitalOutputs[n - 1 := v]);
      } else {
        return Err(InvalidChannelNumber);
      }
      return Ok(());
    }
  }
}
