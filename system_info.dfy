/**
 * CSystemInfo (SystemInfo.cpp): widens the PLC's free-running 32-bit
 * microsecond register to a 64-bit time since construction by counting the
 * register's wrap-arounds.
 *
 * The register (IOMapping_PLC.SystemTime) is I/O; each operation that reads
 * it takes the value read as a parameter. The cycle counter is taken to be a
 * uint64_t, so `cycle << 32` keeps only the low 32 bits of the cycle count.
 */
module SystemTime {
  import opened Bytes

  /** The three fields of CSystemInfo. */
  datatype Clock = Clock(cycle: uint64, current: uint32, start: uint64)

  /** The clock as the constructor leaves it (SystemInfo.cpp:40-46): the current-register field stays 0. */
  function ConstructedAsWritten(register: uint32): (c: Clock)
    ensures c.cycle == 0 && c.current == 0 && c.start == register
  {
    Clock(0, 0, register)
  }

  /** The clock with the current-register field initialised to the start value. */
  function Constructed(register: uint32): (c: Clock)
    ensures c.cycle == 0 && c.current == register && c.start == register
    ensures Elapsed(c) == 0
  {
    Clock(0, register, register)
  }

  /** handleCyclic: count a wrap-around whenever the register went backwards. */
  function Step(c: Clock, register: uint32): (r: Clock)
    ensures r.current == register && r.start == c.start
    ensures register < c.current ==> r.cycle == (c.cycle + 1) % UINT64_LIMIT
    ensures register >= c.current ==> r.cycle == c.cycle
  {
    Clock(if register < c.current then (c.cycle + 1) % UINT64_LIMIT else c.cycle, register, c.start)
  }

  /** (cycle << 32) | register in 64-bit arithmetic. */
  function Widened(c: Clock): (r: uint64)
    ensures c.cycle < UINT32_LIMIT ==> r == c.cycle * UINT32_LIMIT + c.current
  {
    (c.cycle % UINT32_LIMIT) * UINT32_LIMIT + c.current
  }

  /** getSystemTimeInMicroseconds after its handleCyclic: widened value minus start, modulo 2^64. */
  function Elapsed(c: Clock): (r: uint64)
    ensures Widened(c) >= c.start ==> r == Widened(c) - c.start
  {
    (Widened(c) - c.start) % UINT64_LIMIT
  }

  /** The clock after handleCyclic has seen each register value in turn. */
  function Run(c: Clock, registers: seq<uint32>): Clock
    decreases |registers|
  {
    if registers == [] then c else Run(Step(c, registers[0]), registers[1..])
  }

  /**
   * `ticks` is the true microsecond count at construction and at each later
   * handleCyclic; the register shows it modulo 2^32. The count never goes
   * back and advances by less than one register period between two reads.
   */
  predicate Sampled(ticks: seq<nat>)
  {
    forall i :: 0 <= i < |ticks| - 1 ==> ticks[i] <= ticks[i + 1] < ticks[i] + UINT32_LIMIT
  }

  function Registers(ticks: seq<nat>): (r: seq<uint32>)
    ensures |r| == |ticks|
    ensures forall i :: 0 <= i < |ticks| ==> r[i] == ticks[i] % UINT32_LIMIT
  {
    if ticks == [] then [] else [ticks[0] % UINT32_LIMIT] + Registers(ticks[1..])
  }

  /** The window base: the largest multiple of 2^32 not above t. */
  function Base(t: nat): nat
  {
    (t / UINT32_LIMIT) * UINT32_LIMIT
  }

  lemma StepTracks(c: Clock, t: nat, t': nat, b: nat)
    requires c.cycle * UINT32_LIMIT + c.current == t - b
    requires t <= t' < t + UINT32_LIMIT
    requires b % UINT32_LIMIT == 0 && b <= t
    requires c.cycle + 1 < UINT64_LIMIT
    ensures Step(c, t' % UINT32_LIMIT).cycle * UINT32_LIMIT + t' % UINT32_LIMIT == t' - b
  {
    var q, q' := (t - b) / UINT32_LIMIT, (t' - b) / UINT32_LIMIT;
    assert (t - b) % UINT32_LIMIT == c.current && q == c.cycle;
    assert t' % UINT32_LIMIT == (t' - b) % UINT32_LIMIT;
    if t' % UINT32_LIMIT < c.current {
      assert q' == q + 1;
    } else {
      assert q' == q;
    }
  }

  lemma {:induction false} RunTracks(c: Clock, ticks: seq<nat>, b: nat)
    requires |ticks| >= 1 && Sampled(ticks)
    requires c.cycle * UINT32_LIMIT + c.current == ticks[0] - b
    requires b % UINT32_LIMIT == 0 && b <= ticks[0]
    requires ticks[|ticks| - 1] - b < UINT32_LIMIT * UINT32_LIMIT
    ensures Run(c, Registers(ticks[1..])).cycle * UINT32_LIMIT + Run(c, Registers(ticks[1..])).current
      == ticks[|ticks| - 1] - b
    ensures Run(c, Registers(ticks[1..])).cycle < UINT32_LIMIT
    ensures Run(c, Registers(ticks[1..])).start == c.start
    decreases |ticks|
  {
    if |ticks| == 1 {
      assert Registers(ticks[1..]) == [];
      assert c.cycle < UINT32_LIMIT by {
        assert c.cycle * UINT32_LIMIT <= ticks[0] - b;
      }
    } else {
      var rest := ticks[1..];
      assert ticks[1] - b < UINT32_LIMIT * UINT32_LIMIT by {
        MonotoneTicks(ticks, 1, |ticks| - 1);
      }
      assert c.cycle < UINT32_LIMIT by {
        assert c.cycle * UINT32_LIMIT <= ticks[0] - b < UINT32_LIMIT * UINT32_LIMIT;
      }
      StepTracks(c, ticks[0], ticks[1], b);
      var c' := Step(c, ticks[1] % UINT32_LIMIT);
      assert Sampled(rest);
      assert Registers(ticks[1..]) == [ticks[1] % UINT32_LIMIT] + Registers(rest[1..]);
      RunTracks(c', rest, b);
    }
  }

  lemma {:induction false} MonotoneTicks(ticks: seq<nat>, i: nat, j: nat)
    requires Sampled(ticks) && i <= j < |ticks|
    ensures ticks[i] <= ticks[j]
    decreases j - i
  {
    if i < j {
      MonotoneTicks(ticks, i + 1, j);
    }
  }

  /**
   * The elapsed time is exact: after every read, getSystemTimeInMicroseconds
   * returns the true microseconds since construction, as long as the register
   * is read at least once per 2^32 microseconds and the total stays below
   * 2^64 - 2^32 microseconds.
   */
  lemma ElapsedIsTrueTime(ticks: seq<nat>)
    requires |ticks| >= 1 && Sampled(ticks)
    requires ticks[|ticks| - 1] < ticks[0] + UINT32_LIMIT * UINT32_LIMIT - UINT32_LIMIT
    ensures ticks[0] + Elapsed(Run(Constructed(ticks[0] % UINT32_LIMIT), Registers(ticks[1..]))) == ticks[|ticks| - 1]
  {
    var b := Base(ticks[0]);
    var c := Constructed(ticks[0] % UINT32_LIMIT);
    assert ticks[0] % UINT32_LIMIT == ticks[0] - b;
    MonotoneTicks(ticks, 0, |ticks| - 1);
    RunTracks(c, ticks, b);
  }

  /**
   * As written, a wrap of the register between construction and the first
   * handleCyclic is missed: 32 microseconds later the clock reports almost
   * 2^64 microseconds.
   */
  lemma MissedFirstWrap()
    ensures Elapsed(Step(ConstructedAsWritten(UINT32_LIMIT - 16), 16)) == UINT64_LIMIT - UINT32_LIMIT + 32
    ensures Elapsed(Step(Constructed(UINT32_LIMIT - 16), 16)) == 32
  {
  }

  /** Without a wrap before the first read, the constructor as written and the corrected one agree. */
  lemma AsWrittenAgreesWithoutEarlyWrap(start: uint32, first: uint32)
    requires start <= first
    ensures Step(ConstructedAsWritten(start), first) == Step(Constructed(start), first)
  {
  }

  /** getSystemTimeInMilliseconds. */
  function Milliseconds(c: Clock): (ms: uint64)
    ensures ms * 1000 <= Elapsed(c) < ms * 1000 + 1000
  {
    Elapsed(c) / 1000
  }

  class SystemInfo {
    var cycle: uint64
    var current: uint32
    var start: uint64

    function State(): Clock
      reads this
    {
      Clock(cycle, current, start)
    }

    /** Reads the register once and takes it as the start time. */
    constructor (register: uint32)
      ensures State() == Constructed(register)
    {
      cycle := 0;
      current := register;
      start := register;
    }

    method HandleCyclic(register: uint32)
      modifies this
      ensures State() == Step(old(State()), register)
    {
      if register < current {
        cycle := (cycle + 1) % UINT64_LIMIT;
      }
      current := register;
    }

    method GetSystemTimeInMicroseconds(register: uint32) returns (t: uint64)
      modifies this
      ensures State() == Step(old(State()), register)
      ensures t == Elapsed(State())
    {
      HandleCyclic(register);
      t := ((cycle % UINT32_LIMIT) * UINT32_LIMIT + current - start) % UINT64_LIMIT;
    }

    method GetSystemTimeInMilliseconds(register: uint32) returns (ms: uint64)
      modifies this
      ensures State() == Step(old(State()), register)
      ensures ms == Milliseconds(State())
    {
      var t := GetSystemTimeInMicroseconds(register);
      ms := t / 1000;
    }
  }
}
