/**
 * The X20AI4622 analog input module: four channels, each one a voltage
 * (+/-10 V) or current (0-20 mA, 4-20 mA) input.
 *
 * The module object keeps, per channel, the configured channel type and
 * the raw value range of that type (three arrays of four entries, updated
 * in place by setChannelType and setRange). The measured values and the
 * status register live in the I/O image IOMappingX20AI4622_TYP, which the
 * I/O system rewrites every cycle; the queries take that image as a value.
 */
module X20AI4622 {
  import opened Wrappers
  import opened Bytes
  import opened IOStatus

  /** eIOChannelType_X20AI4622. */
  datatype ChannelType = Unknown | Voltage10V | Current0to20mA | Current4to20mA

  /** The fields of the I/O image the module reads. */
  datatype Mapping = Mapping(
    moduleOk: bool,
    analogInput01: int16,
    analogInput02: int16,
    analogInput03: int16,
    analogInput04: int16,
    statusInput01: bv8)

  const CHANNEL_COUNT: nat := 4

  /** The limits every channel starts with. */
  const DEFAULT_LOWER_LIMIT: int16 := -32767
  const DEFAULT_UPPER_LIMIT: int16 := 32766

  /** isActive: the module reports ModuleOk. */
  predicate IsActive(m: Mapping)
  {
    m.moduleOk
  }

  /** The four raw inputs, channel n at index n - 1. */
  function Inputs(m: Mapping): (s: seq<int16>)
    ensures |s| == CHANNEL_COUNT
  {
    [m.analogInput01, m.analogInput02, m.analogInput03, m.analogInput04]
  }

  /** getRawValue: the raw value of channel n; other channel numbers throw. */
  function GetRawValue(m: Mapping, n: uint32): (r: Result<int16>)
    ensures r.Ok? <==> 1 <= n <= CHANNEL_COUNT
    ensures r.Ok? ==> r.value == Inputs(m)[n - 1]
    ensures r.Err? ==> r.error == InvalidChannelNumber
  {
    match n
    case 1 => Ok(m.analogInput01)
    case 2 => Ok(m.analogInput02)
    case 3 => Ok(m.analogInput03)
    case 4 => Ok(m.analogInput04)
    case _ => Err(InvalidChannelNumber)
  }

  /** getIOStatus: the two status bits of channel n; other channel numbers throw. */
  function GetIOStatus(m: Mapping, n: uint32): (r: Result<int>)
    ensures r.Ok? <==> 1 <= n <= CHANNEL_COUNT
    ensures r.Ok? ==> 0 <= r.value <= 3 && r.value == StatusValue(StatusField(m.statusInput01, n - 1))
    ensures r.Err? ==> r.error == InvalidChannelNumber
  {
    match n
    case 1 => Ok(StatusValue(m.statusInput01 & 3))
    case 2 => Ok(StatusValue((m.statusInput01 >> 2) & 3))
    case 3 => Ok(StatusValue((m.statusInput01 >> 4) & 3))
    case 4 => Ok(StatusValue((m.statusInput01 >> 6) & 3))
    case _ => Err(InvalidChannelNumber)
  }

  /** A status register packed from four channel statuses reports each of them on its channel. */
  lemma GetIOStatusOfPack(m: Mapping, a: bv8, b: bv8, c: bv8, d: bv8)
    requires a <= 3 && b <= 3 && c <= 3 && d <= 3
    requires m.statusInput01 == PackStatus(a, b, c, d)
    ensures GetIOStatus(m, 1) == Ok(a as int) && GetIOStatus(m, 2) == Ok(b as int)
    ensures GetIOStatus(m, 3) == Ok(c as int) && GetIOStatus(m, 4) == Ok(d as int)
  {
    StatusOfPack(a, b, c, d);
  }

  /** The raw range setChannelType gives a channel of type t. */
  function TypeRange(t: ChannelType): (lim: (int16, int16))
    requires t != Unknown
    ensures lim.0 < lim.1 == INT16_MAX
  {
    match t
    case Voltage10V => (INT16_MIN, INT16_MAX)
    case Current0to20mA => (0, INT16_MAX)
    case Current4to20mA => (-8192, INT16_MAX)
  }

  class CIOModuleX20AI4622 {
    const name: string
    const channelTypes: array<ChannelType>
    const lowerLimits: array<int16>
    const upperLimits: array<int16>

    /** Four entries per table, and no channel of unknown type. */
    ghost predicate Valid()
      reads this, channelTypes
    {
      && channelTypes.Length == CHANNEL_COUNT
      && lowerLimits.Length == CHANNEL_COUNT
      && upperLimits.Length == CHANNEL_COUNT
      && lowerLimits != upperLimits
      && forall i :: 0 <= i < CHANNEL_COUNT ==> channelTypes[i] != Unknown
    }

    /** Every channel starts as a voltage input with limits -32767..32766. */
    constructor (name: string)
      ensures Valid() && this.name == name
      ensures fresh(channelTypes) && fresh(lowerLimits) && fresh(upperLimits)
      ensures forall i :: 0 <= i < CHANNEL_COUNT ==> channelTypes[i] == Voltage10V
      ensures forall i :: 0 <= i < CHANNEL_COUNT ==> lowerLimits[i] == DEFAULT_LOWER_LIMIT
      ensures forall i :: 0 <= i < CHANNEL_COUNT ==> upperLimits[i] == DEFAULT_UPPER_LIMIT
    {
      var types := new ChannelType[CHANNEL_COUNT];
      var lower := new int16[CHANNEL_COUNT];
      var upper := new int16[CHANNEL_COUNT];
      var i := 0;
      while i < CHANNEL_COUNT
        invariant 0 <= i <= CHANNEL_COUNT
        invariant forall k :: 0 <= k < i ==> types[k] == Voltage10V
      {
        types[i] := Voltage10V;
        i := i + 1;
      }
      i := 0;
      while i < CHANNEL_COUNT
        invariant 0 <= i <= CHANNEL_COUNT
        invariant forall k :: 0 <= k < i ==> lower[k] == DEFAULT_LOWER_LIMIT
        invariant forall k :: 0 <= k < CHANNEL_COUNT ==> types[k] == Voltage10V
      {
        lower[i] := DEFAULT_LOWER_LIMIT;
        i := i + 1;
      }
      i := 0;
      while i < CHANNEL_COUNT
        invariant 0 <= i <= CHANNEL_COUNT
        invariant forall k :: 0 <= k < i ==> upper[k] == DEFAULT_UPPER_LIMIT
        invariant forall k :: 0 <= k < CHANNEL_COUNT ==> types[k] == Voltage10V
        invariant forall k :: 0 <= k < CHANNEL_COUNT ==> lower[k] == DEFAULT_LOWER_LIMIT
      {
        upper[i] := DEFAULT_UPPER_LIMIT;
        i := i + 1;
      }
      this.name := name;
      channelTypes := types;
      lowerLimits := lower;
      upperLimits := upper;
    }

    /** getChannelType: the configured type of channel n, mtUnknown for any other number. */
    function GetChannelType(n: uint32): (t: ChannelType)
      requires Valid()
      reads this, channelTypes
      ensures t == Unknown <==> !(1 <= n <= CHANNEL_COUNT)
      ensures t != Unknown ==> t == channelTypes[n - 1]
    {
      if 1 <= n <= CHANNEL_COUNT then channelTypes[n - 1] else Unknown
    }

    /**
     * setRange: stores the limits of channel n and reports whether n is a
     * channel. The limits arrive as uint16_t and are stored into int16_t
     * entries, so a value above 32767 becomes negative.
     */
    method SetRange(n: uint32, lower: uint16, upper: uint16) returns (ok: bool)
      requires Valid()
      modifies lowerLimits, upperLimits
      ensures Valid()
      ensures ok <==> 1 <= n <= CHANNEL_COUNT
      ensures ok ==> lowerLimits[..] == old(lowerLimits[..])[n - 1 := ToInt16(lower)]
      ensures ok ==> upperLimits[..] == old(upperLimits[..])[n - 1 := ToInt16(upper)]
      ensures !ok ==> lowerLimits[..] == old(lowerLimits[..]) && upperLimits[..] == old(upperLimits[..])
    {
      if 1 <= n <= CHANNEL_COUNT {
        lowerLimits[n - 1] := ToInt16(lower);
        upperLimits[n - 1] := ToInt16(upper);
        return true;
      } else {
        return false;
      }
    }

    /**
     * setChannelType: configures channel n as type t and sets the raw range
     * of that type. A channel number outside 1..4 throws
     * INVALIDCHANNELNUMBER and an unknown type INVALIDCHANNELTYPE, and then
     * nothing changes. The range's lower limit passes through setRange's
     * uint16_t parameter; the int16_t table gets the signed value back.
     */
    method SetChannelType(n: uint32, t: ChannelType) returns (r: Result<bool>)
      requires Valid()
      modifies channelTypes, lowerLimits, upperLimits
      ensures Valid()
      ensures r.Ok? <==> 1 <= n <= CHANNEL_COUNT && t != Unknown
      ensures !(1 <= n <= CHANNEL_COUNT) ==> r == Err(InvalidChannelNumber)
      ensures 1 <= n <= CHANNEL_COUNT && t == Unknown ==> r == Err(InvalidChannelType)
      ensures r.Ok? ==> r.value && GetChannelType(n) == t
      ensures r.Ok? ==> channelTypes[..] == old(channelTypes[..])[n - 1 := t]
      ensures r.Ok? ==> lowerLimits[..] == old(lowerLimits[..])[n - 1 := TypeRange(t).0]
      ensures r.Ok? ==> upperLimits[..] == old(upperLimits[..])[n - 1 := TypeRange(t).1]
      ensures r.Err? ==> unchanged(channelTypes, lowerLimits, upperLimits)
    {
      if 1 <= n <= CHANNEL_COUNT {
        var ok;
        match t {
          case Voltage10V =>
            ok := SetRange(n, Uint16Of(-32768), Uint16Of(32767));
          case Current0to20mA =>
            ok := SetRange(n, Uint16Of(0), Uint16Of(32767));
          case Current4to20mA =>
            ok := SetRange(n, Uint16Of(-8192), Uint16Of(32767));
          case Unknown =>
            return Err(InvalidChannelType);
        }
        Int16ThroughUint16(TypeRange(t).0);
        Int16ThroughUint16(TypeRange(t).1);
        channelTypes[n - 1] := t;
        return Ok(true);
      } else {
        return Err(InvalidChannelNumber);
      }
    }
  }
}
