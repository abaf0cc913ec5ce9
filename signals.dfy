/**
 * The signal mechanism (SignalHandler.cpp): typed parameter and result
 * definitions laid out in a per-instance memory block, a fixed pool of
 * instances per signal definition that move between the unused,
 * in-preparation, active, in-process and finished pools, and the handler
 * that keeps the definitions by name.
 *
 * A definition's parameters and results are two name spaces over the same
 * memory block; here they are one sequence in registration order, each
 * definition tagged with its role. Instances are named by their IDs
 * 1..queueSize; instance k owns bytes (k-1)*memorySize .. k*memorySize of
 * the definition's memory buffer. The system time is a parameter.
 */
module Signals {
  import opened Wrappers
  import opened Bytes

  const SIGNALDEFINITION_MINQUEUESIZE: nat := 1
  const SIGNALDEFINITION_MAXQUEUESIZE: nat := 64
  const ACTIVE_PARAMETER: string := "__active"
  const PROCESSED_RESULT: string := "__processed"

  datatype Role = ParameterRole | ResultRole

  /** The four definition classes with their default values; a double default is its IEEE-754 bit pattern. */
  datatype ParameterKind =
    | BoolParameter(defaultBool: bool)
    | Int32Parameter(defaultInt32: int32)
    | Uint32Parameter(defaultUint32: uint32)
    | DoubleParameter(defaultBits: uint64)

  /** getSizeInBytes of each definition class. */
  function SizeInBytes(kind: ParameterKind): (n: nat)
    ensures n == 1 <==> kind.BoolParameter?
    ensures n == 8 <==> kind.DoubleParameter?
    ensures 1 <= n <= 8
  {
    match kind
    case BoolParameter(_) => 1
    case Int32Parameter(_) => 4
    case Uint32Parameter(_) => 4
    case DoubleParameter(_) => 8
  }

  datatype ParameterDefinition = ParameterDefinition(role: Role, name: string, address: nat, kind: ParameterKind)

  function End(d: ParameterDefinition): nat
  {
    d.address + SizeInBytes(d.kind)
  }

  /** The definitions the constructor registers first (SignalHandler.cpp:297-298). */
  const ACTIVE_DEFINITION := ParameterDefinition(ParameterRole, ACTIVE_PARAMETER, 0, BoolParameter(false))
  const PROCESSED_DEFINITION := ParameterDefinition(ResultRole, PROCESSED_RESULT, 1, BoolParameter(false))

  // ---------------------------------------------------------------------
  // Values and their bytes
  // ---------------------------------------------------------------------

  /** writeIntegerToInstance of each definition class: the bytes stored, or the error. */
  function IntegerBytes(kind: ParameterKind, v: int64): (r: Result<seq<byte>>)
    ensures r.Ok? ==> |r.value| == SizeInBytes(kind)
    ensures r.Err? <==> (kind.DoubleParameter?
      || (kind.Int32Parameter? && !(INT32_MIN <= v <= INT32_MAX))
      || (kind.Uint32Parameter? && !(0 <= v < UINT32_LIMIT)))
  {
    Pow256Values();
    match kind
    case BoolParameter(_) => Ok([if v != 0 then 1 else 0])
    case Int32Parameter(_) =>
      if v < INT32_MIN || v > INT32_MAX then Err(ValueIsOutsideOfInteger32Range)
      else Ok(EncodeLE(FromInt32(v), 4))
    case Uint32Parameter(_) =>
      // The value is cast to int32_t before it is stored; the four bytes are those of v.
      if v < 0 || v >= UINT32_LIMIT then Err(ValueIsOutsideOfUnsignedInteger32Range)
      else Ok(EncodeLE(v, 4))
    case DoubleParameter(_) => Err(CouldNotWriteIntegerToParameter)
  }

  /** The four stored bytes of a 32-bit value as an unsigned pattern. */
  function Word(bytes: seq<byte>): (w: uint32)
    requires |bytes| == 4
    ensures w == DecodeLE(bytes)
  {
    Pow256Values();
    DecodeLE(bytes)
  }

  /** readIntegerFromInstance as written: a Uint32 parameter is read into an int32_t (SignalHandler.cpp:232-241). */
  function IntegerFromBytesAsWritten(kind: ParameterKind, bytes: seq<byte>): (r: Result<int64>)
    requires |bytes| == SizeInBytes(kind)
    ensures r.Err? <==> kind.DoubleParameter?
  {
    Pow256Values();
    match kind
    case BoolParameter(_) => Ok(if bytes[0] != 0 then 1 else 0)
    case Int32Parameter(_) => Ok(ToInt32(Word(bytes)))
    case Uint32Parameter(_) => Ok(ToInt32(Word(bytes)))
    case DoubleParameter(_) => Err(CouldNotReadIntegerFromParameter)
  }

  /** readIntegerFromInstance with a Uint32 parameter read as unsigned. */
  function IntegerFromBytes(kind: ParameterKind, bytes: seq<byte>): (r: Result<int64>)
    requires |bytes| == SizeInBytes(kind)
    ensures r.Err? <==> kind.DoubleParameter?
    ensures r.Ok? && kind.BoolParameter? ==> r.value in {0, 1}
    ensures r.Ok? && kind.Uint32Parameter? ==> 0 <= r.value < UINT32_LIMIT
  {
    Pow256Values();
    match kind
    case BoolParameter(_) => Result<int64>.Ok(if bytes[0] != 0 then 1 else 0)
    case Int32Parameter(_) => Result<int64>.Ok(ToInt32(Word(bytes)))
    case Uint32Parameter(_) => Result<int64>.Ok(Word(bytes))
    case DoubleParameter(_) => Err(CouldNotReadIntegerFromParameter)
  }

  /** A stored integer reads back as itself; a bool as 0 or 1. */
  lemma IntegerRoundTrip(kind: ParameterKind, v: int64)
    requires IntegerBytes(kind, v).Ok?
    ensures IntegerFromBytes(kind, IntegerBytes(kind, v).value) == Ok(if kind.BoolParameter? then (if v != 0 then 1 else 0) else v)
  {
    Pow256Values();
    match kind
    case BoolParameter(_) =>
    case Int32Parameter(_) => DecodeEncode(FromInt32(v), 4);
    case Uint32Parameter(_) => DecodeEncode(v, 4);
  }

  /** getInt32Parameter / getInt32Result range check. */
  function Int32Value(v: int64): (r: Result<int32>)
    ensures r.Ok? <==> INT32_MIN <= v <= INT32_MAX
    ensures r.Ok? ==> r.value == v
    ensures r.Err? ==> r.error == ValueIsOutsideOfInteger32Range
  {
    if v < INT32_MIN || v > INT32_MAX then Err(ValueIsOutsideOfInteger32Range) else Ok(v)
  }

  /** getUint32Parameter / getUint32Result range check. */
  function Uint32Value(v: int64): (r: Result<uint32>)
    ensures r.Ok? <==> 0 <= v < UINT32_LIMIT
    ensures r.Ok? ==> r.value == v
    ensures r.Err? ==> r.error == ValueIsOutsideOfUnsignedInteger32Range
  {
    if v < 0 || v >= UINT32_LIMIT then Err(ValueIsOutsideOfUnsignedInteger32Range) else Ok(v)
  }

  /**
   * As written, setUint32Parameter(2^31) succeeds but the value reads back
   * as -2^31, so getUint32Parameter throws; read as unsigned it comes back.
   */
  lemma Uint32ReadBackAsWritten()
    ensures IntegerBytes(Uint32Parameter(0), 0x8000_0000).Ok?
    ensures IntegerFromBytesAsWritten(Uint32Parameter(0), IntegerBytes(Uint32Parameter(0), 0x8000_0000).value) == Ok(-0x8000_0000)
    ensures Uint32Value(-0x8000_0000).Err?
    ensures IntegerFromBytes(Uint32Parameter(0), IntegerBytes(Uint32Parameter(0), 0x8000_0000).value) == Ok(0x8000_0000)
  {
    IntegerRoundTrip(Uint32Parameter(0), 0x8000_0000);
    Pow256Values();
    DecodeEncode(0x8000_0000, 4);
  }

  /** Every Uint32 value that can be stored reads back through the corrected reader and passes the range check. */
  lemma Uint32RoundTrip(v: uint32)
    ensures IntegerBytes(Uint32Parameter(0), v).Ok?
    ensures IntegerFromBytes(Uint32Parameter(0), IntegerBytes(Uint32Parameter(0), v).value).Ok?
    ensures Uint32Value(IntegerFromBytes(Uint32Parameter(0), IntegerBytes(Uint32Parameter(0), v).value).value) == Ok(v)
  {
    IntegerRoundTrip(Uint32Parameter(0), v);
  }

  /** The integer writeDefaultToInstance passes to writeIntegerToInstance. */
  function DefaultInteger(kind: ParameterKind): int64
    requires !kind.DoubleParameter?
  {
    match kind
    case BoolParameter(b) => if b then 1 else 0
    case Int32Parameter(v) => v
    case Uint32Parameter(v) => v
  }

  /** The bytes writeDefaultToInstance stores. */
  function DefaultBytes(kind: ParameterKind): (r: seq<byte>)
    ensures |r| == SizeInBytes(kind)
    ensures !kind.DoubleParameter? ==> IntegerBytes(kind, DefaultInteger(kind)) == Ok(r)
  {
    Pow256Values();
    match kind
    case DoubleParameter(bits) => EncodeLE(bits, 8)
    case _ => IntegerBytes(kind, DefaultInteger(kind)).value
  }

  // ---------------------------------------------------------------------
  // Definitions and their memory layout
  // ---------------------------------------------------------------------

  /** Every definition lies inside `size` bytes and no two overlap. */
  predicate Allocated(defs: seq<ParameterDefinition>, size: nat)
  {
    (forall i :: 0 <= i < |defs| ==> End(defs[i]) <= size)
    && (forall i, j :: 0 <= i < j < |defs| ==> End(defs[i]) <= defs[j].address || End(defs[j]) <= defs[i].address)
  }

  predicate HasName(defs: seq<ParameterDefinition>, role: Role, name: string)
  {
    exists i :: 0 <= i < |defs| && defs[i].role == role && defs[i].name == name
  }

  /** Names are unique within parameters and within results. */
  predicate UniqueNames(defs: seq<ParameterDefinition>)
  {
    forall i, j :: 0 <= i < j < |defs| && defs[i].role == defs[j].role ==> defs[i].name != defs[j].name
  }

  /** registerParameter / registerResult after its null check (SignalHandler.cpp:315-356). */
  function Register(defs: seq<ParameterDefinition>, memorySize: nat, built: bool, d: ParameterDefinition): (r: Result<seq<ParameterDefinition>>)
    ensures built ==> r == Err(if d.role == ParameterRole then CannotRegisterParameter else CannotRegisterResult)
    ensures !built && d.address != memorySize ==> r == Err(SignalMemoryAllocationError)
    ensures !built && d.address == memorySize && HasName(defs, d.role, d.name) ==>
      r == Err(if d.role == ParameterRole then DuplicateSignalParameterName else DuplicateSignalResultName)
    ensures r.Ok? <==> !built && d.address == memorySize && !HasName(defs, d.role, d.name)
    ensures r.Ok? ==> r.value == defs + [d]
  {
    if built then Err(if d.role == ParameterRole then CannotRegisterParameter else CannotRegisterResult)
    else if d.address != memorySize then Err(SignalMemoryAllocationError)
    else if HasName(defs, d.role, d.name) then Err(if d.role == ParameterRole then DuplicateSignalParameterName else DuplicateSignalResultName)
    else Ok(defs + [d])
  }

  /** A registration keeps the definitions inside the grown memory block, disjoint, with unique names. */
  lemma RegisterKeepsLayout(defs: seq<ParameterDefinition>, memorySize: nat, d: ParameterDefinition)
    requires Allocated(defs, memorySize) && UniqueNames(defs)
    requires Register(defs, memorySize, false, d).Ok?
    ensures Allocated(defs + [d], memorySize + SizeInBytes(d.kind))
    ensures UniqueNames(defs + [d])
  {
    var r := defs + [d];
    forall i, j | 0 <= i < j < |r| && r[i].role == r[j].role
      ensures r[i].name != r[j].name
    {
      if j == |defs| {
        assert r[i] == defs[i];
      }
    }
  }

  /** findParameter / findResult with bMustExist. */
  function Find(defs: seq<ParameterDefinition>, role: Role, name: string): (r: Result<ParameterDefinition>)
    ensures r.Ok? <==> HasName(defs, role, name)
    ensures r.Ok? ==> r.value in defs && r.value.role == role && r.value.name == name
    ensures r.Err? ==> r.error == (if role == ParameterRole then SignalParameterNotFound else SignalResultNotFound)
    decreases |defs|
  {
    if defs == [] then Err(if role == ParameterRole then SignalParameterNotFound else SignalResultNotFound)
    else if defs[0].role == role && defs[0].name == name then Ok(defs[0])
    else
      assert HasName(defs, role, name) <==> HasName(defs[1..], role, name) by {
        if HasName(defs, role, name) {
          var i :| 0 <= i < |defs| && defs[i].role == role && defs[i].name == name;
          assert defs[1..][i - 1] == defs[i];
        }
        if HasName(defs[1..], role, name) {
          var i :| 0 <= i < |defs| - 1 && defs[1..][i].role == role && defs[1..][i].name == name;
          assert defs[i + 1] == defs[1..][i];
        }
      }
      Find(defs[1..], role, name)
  }

  /** An instance's block after writing every definition's default, in order. */
  function WriteDefaults(block: seq<byte>, defs: seq<ParameterDefinition>): (r: seq<byte>)
    ensures |r| == |block|
    decreases |defs|
  {
    if defs == [] then block
    else
      var last := defs[|defs| - 1];
      var rest := WriteDefaults(block, defs[..|defs| - 1]);
      // A definition outside the block cannot occur once the definitions are allocated in it.
      if End(last) <= |rest| then Splice(rest, last.address, DefaultBytes(last.kind)) else rest
  }

  /** Dropping the last definition keeps the rest allocated. */
  lemma AllocatedPrefix(defs: seq<ParameterDefinition>, size: nat)
    requires Allocated(defs, size) && defs != []
    ensures Allocated(defs[..|defs| - 1], size)
  {
    var init := defs[..|defs| - 1];
    forall i, j | 0 <= i < j < |init|
      ensures End(init[i]) <= init[j].address || End(init[j]) <= init[i].address
    {
      assert init[i] == defs[i] && init[j] == defs[j];
    }
  }

  /**
   * prepareSignal leaves every definition's slot holding its default,
   * whatever order the defaults are written in.
   */
  lemma {:induction false} WriteDefaultsSlot(block: seq<byte>, defs: seq<ParameterDefinition>, i: nat)
    requires Allocated(defs, |block|) && i < |defs|
    ensures End(defs[i]) <= |block|
    ensures WriteDefaults(block, defs)[defs[i].address..End(defs[i])] == DefaultBytes(defs[i].kind)
    decreases |defs|
  {
    var n := |defs| - 1;
    var init := defs[..n];
    var last := defs[n];
    if i < n {
      AllocatedPrefix(defs, |block|);
      assert init[i] == defs[i];
      WriteDefaultsSlot(block, init, i);
      SpliceKeepsDisjoint(WriteDefaults(block, init), last.address, DefaultBytes(last.kind),
        defs[i].address, SizeInBytes(defs[i].kind));
    }
  }

  /** The writeData checks of an instance block of `memorySize` bytes (SignalHandler.cpp:592-609). */
  function WriteError(memorySize: nat, offset: nat, size: nat): (e: Option<ErrorCode>)
    ensures e.None? <==> size == 0 || offset + size <= memorySize
  {
    if size == 0 then None
    else if memorySize == 0 then Some(SignalDataMissingMemory)
    else if offset >= memorySize then Some(SignalDataWriteOutOfRange)
    else if offset + size > memorySize then Some(SignalDataWriteOutOfRange)
    else None
  }

  /** The readData checks (SignalHandler.cpp:611-628). */
  function ReadError(memorySize: nat, offset: nat, size: nat): (e: Option<ErrorCode>)
    ensures e.None? <==> size == 0 || offset + size <= memorySize
  {
    if size == 0 then None
    else if memorySize == 0 then Some(SignalDataMissingMemory)
    else if offset >= memorySize then Some(SignalDataReadOutOfRange)
    else if offset + size > memorySize then Some(SignalDataReadOutOfRange)
    else None
  }

  // ---------------------------------------------------------------------
  // Instance pools
  // ---------------------------------------------------------------------

  /** The five pools of instance IDs: FIFO queues for unused, active and finished; ID maps for the other two. */
  datatype Pools = Pools(unused: seq<nat>, preparation: set<nat>, active: seq<nat>, inProcess: set<nat>, finished: seq<nat>)

  const NO_INSTANCES := Pools([], {}, [], {}, [])

  function Members(p: Pools): multiset<nat>
  {
    multiset(p.unused) + multiset(p.preparation) + multiset(p.active) + multiset(p.inProcess) + multiset(p.finished)
  }

  /** The IDs buildInstances pushes onto the unused queue, in order. */
  function Ids(n: nat): (r: seq<nat>)
    ensures |r| == n
    ensures forall i :: 0 <= i < n ==> r[i] == i + 1
  {
    seq(n, i => i + 1)
  }

  /** buildInstances creates each of the IDs 1..n once, and no other. */
  lemma {:induction false} IdsOnce(n: nat, id: nat)
    ensures multiset(Ids(n))[id] == if 1 <= id <= n then 1 else 0
  {
    if n > 0 {
      assert Ids(n) == Ids(n - 1) + [n];
      IdsOnce(n - 1, id);
    }
  }

  /** Every instance ID is one that was built, in at most one pool, at most once. */
  ghost predicate Distinct(p: Pools, n: nat)
  {
    forall id :: Members(p)[id] <= if 1 <= id <= n then 1 else 0
  }

  /** Put another way, the pools hold a sub-multiset of the IDs buildInstances created. */
  lemma DistinctIsSubset(p: Pools, n: nat)
    ensures Distinct(p, n) <==> Members(p) <= multiset(Ids(n))
  {
    forall id: nat
      ensures multiset(Ids(n))[id] == if 1 <= id <= n then 1 else 0
    {
      IdsOnce(n, id);
    }
  }

  /** The pools buildInstances leaves: all IDs unused. */
  lemma BuiltDistinct(n: nat)
    ensures Distinct(Pools(Ids(n), {}, [], {}, []), n)
  {
    assert Members(Pools(Ids(n), {}, [], {}, [])) == multiset(Ids(n));
    DistinctIsSubset(Pools(Ids(n), {}, [], {}, []), n);
  }

  lemma DistinctMember(p: Pools, n: nat, id: nat)
    requires Distinct(p, n) && id in Members(p)
    ensures 1 <= id <= n && Members(p)[id] == 1
  {
  }

  function Prepared(p: Pools): Pools
    requires p.unused != []
  {
    p.(unused := p.unused[1..], preparation := p.preparation + {p.unused[0]})
  }

  function Triggered(p: Pools, id: nat): Pools
    requires id in p.preparation
  {
    p.(preparation := p.preparation - {id}, active := p.active + [id])
  }

  function Checked(p: Pools): Pools
    requires p.active != []
  {
    p.(active := p.active[1..], inProcess := p.inProcess + {p.active[0]})
  }

  function Finished(p: Pools, id: nat, expired: bool): Pools
    requires id in p.inProcess
  {
    var q := p.(inProcess := p.inProcess - {id});
    if expired then q.(unused := q.unused + [id]) else q.(finished := q.finished + [id])
  }

  function Released(p: Pools): Pools
    requires p.finished != []
  {
    p.(finished := p.finished[1..], unused := p.unused + [p.finished[0]])
  }

  lemma SetWithout(s: set<nat>, x: nat)
    requires x in s
    ensures multiset(s - {x}) + multiset{x} == multiset(s)
  {
    assert s == (s - {x}) + {x};
  }

  lemma SeqFront(s: seq<nat>)
    requires s != []
    ensures multiset(s) == multiset(s[1..]) + multiset{s[0]}
  {
    assert s == [s[0]] + s[1..];
  }

  // No pool move loses or duplicates an instance: each keeps the multiset of all IDs in the pools.

  lemma PreparedKeepsMembers(p: Pools, n: nat)
    requires Distinct(p, n) && p.unused != []
    ensures Members(Prepared(p)) == Members(p)
  {
    var id := p.unused[0];
    SeqFront(p.unused);
    DistinctMember(p, n, id);
    assert id !in p.preparation;
  }

  lemma TriggeredKeepsMembers(p: Pools, id: nat)
    requires id in p.preparation
    ensures Members(Triggered(p, id)) == Members(p)
  {
    SetWithout(p.preparation, id);
  }

  lemma CheckedKeepsMembers(p: Pools, n: nat)
    requires Distinct(p, n) && p.active != []
    ensures Members(Checked(p)) == Members(p)
  {
    var id := p.active[0];
    SeqFront(p.active);
    DistinctMember(p, n, id);
    assert id !in p.inProcess;
  }

  lemma FinishedKeepsMembers(p: Pools, id: nat, expired: bool)
    requires id in p.inProcess
    ensures Members(Finished(p, id, expired)) == Members(p)
  {
    SetWithout(p.inProcess, id);
  }

  lemma ReleasedKeepsMembers(p: Pools)
    requires p.finished != []
    ensures Members(Released(p)) == Members(p)
  {
    SeqFront(p.finished);
  }

  /** finishProcessing erases the ID from the in-process map before it can throw; the instance is then dropped. */
  lemma DroppedInstance(p: Pools, n: nat, id: nat)
    requires Distinct(p, n) && id in p.inProcess
    ensures Members(p.(inProcess := p.inProcess - {id})) + multiset{id} == Members(p)
    ensures Distinct(p.(inProcess := p.inProcess - {id}), n)
    ensures id !in Members(p.(inProcess := p.inProcess - {id}))
  {
    SetWithout(p.inProcess, id);
    DistinctMember(p, n, id);
    var q := p.(inProcess := p.inProcess - {id});
    assert forall x :: Members(q)[x] <= Members(p)[x];
  }

  /** signalLifeTimeIsExpired (SignalHandler.cpp:876-893), given the current system time. */
  function Expired(triggerTime: uint64, now: uint64, lifetimeInMilliseconds: uint32): (r: Result<bool>)
    ensures r.Err? <==> now < triggerTime
    ensures r.Err? ==> r.error == SignalTriggerTimeIsInFuture
    ensures r.Ok? ==> (r.value <==> now - triggerTime >= (lifetimeInMilliseconds + 1) * 1000)
  {
    if now >= triggerTime then Ok((now - triggerTime) / 1000 > lifetimeInMilliseconds)
    else Err(SignalTriggerTimeIsInFuture)
  }


  // ---------------------------------------------------------------------
  // Typed access to one instance's block
  // ---------------------------------------------------------------------

  /** The block after writeIntegerToInstance for the named parameter or result. */
  function StoreInteger(block: seq<byte>, defs: seq<ParameterDefinition>, role: Role, valueName: string, v: int64): (r: Result<seq<byte>>)
    requires Allocated(defs, |block|)
    ensures r.Ok? ==> |r.value| == |block|
  {
    var d :- Find(defs, role, valueName);
    var bytes :- IntegerBytes(d.kind, v);
    assert End(d) <= |block| by { var i :| 0 <= i < |defs| && defs[i] == d; }
    Ok(Splice(block, d.address, bytes))
  }

  /** readIntegerFromInstance for the named parameter or result. */
  function LoadInteger(block: seq<byte>, defs: seq<ParameterDefinition>, role: Role, valueName: string): (r: Result<int64>)
    requires Allocated(defs, |block|)
  {
    var d :- Find(defs, role, valueName);
    assert End(d) <= |block| by { var i :| 0 <= i < |defs| && defs[i] == d; }
    IntegerFromBytes(d.kind, block[d.address..End(d)])
  }

  /** The block after writeDoubleToInstance: only a double definition takes a double. */
  function StoreDouble(block: seq<byte>, defs: seq<ParameterDefinition>, role: Role, valueName: string, bits: uint64): (r: Result<seq<byte>>)
    requires Allocated(defs, |block|)
    ensures r.Ok? ==> |r.value| == |block|
  {
    var d :- Find(defs, role, valueName);
    if !d.kind.DoubleParameter? then Err(CouldNotWriteDoubleToParameter)
    else
      assert End(d) <= |block| by { var i :| 0 <= i < |defs| && defs[i] == d; }
      Pow256Values();
      Ok(Splice(block, d.address, EncodeLE(bits, 8)))
  }

  /** readDoubleFromInstance: the eight stored bytes of a double definition. */
  function LoadDouble(block: seq<byte>, defs: seq<ParameterDefinition>, role: Role, valueName: string): (r: Result<uint64>)
    requires Allocated(defs, |block|)
  {
    var d :- Find(defs, role, valueName);
    if !d.kind.DoubleParameter? then Err(CouldNotReadDoubleFromParameter)
    else
      assert End(d) <= |block| by { var i :| 0 <= i < |defs| && defs[i] == d; }
      Pow256Values();
      Ok(DecodeLE(block[d.address..End(d)]))
  }

  /** An integer written to a parameter or result reads back, a bool as 0 or 1. */
  lemma StoreLoadInteger(block: seq<byte>, defs: seq<ParameterDefinition>, role: Role, valueName: string, v: int64)
    requires Allocated(defs, |block|)
    requires StoreInteger(block, defs, role, valueName, v).Ok?
    ensures LoadInteger(StoreInteger(block, defs, role, valueName, v).value, defs, role, valueName)
      == Ok(if Find(defs, role, valueName).value.kind.BoolParameter? then (if v != 0 then 1 else 0) else v)
  {
    var d := Find(defs, role, valueName).value;
    IntegerRoundTrip(d.kind, v);
  }

  /** The store fails exactly for an unknown name, a value outside the definition's range, or a double definition. */
  lemma StoreIntegerErrors(block: seq<byte>, defs: seq<ParameterDefinition>, role: Role, valueName: string, v: int64)
    requires Allocated(defs, |block|)
    ensures StoreInteger(block, defs, role, valueName, v).Err? <==>
      (!HasName(defs, role, valueName) || IntegerBytes(Find(defs, role, valueName).value.kind, v).Err?)
    ensures !HasName(defs, role, valueName) ==>
      StoreInteger(block, defs, role, valueName, v) == Err(if role == ParameterRole then SignalParameterNotFound else SignalResultNotFound)
  {
  }

  /** A double written to a double definition reads back. */
  lemma StoreLoadDouble(block: seq<byte>, defs: seq<ParameterDefinition>, role: Role, valueName: string, bits: uint64)
    requires Allocated(defs, |block|)
    requires StoreDouble(block, defs, role, valueName, bits).Ok?
    ensures LoadDouble(StoreDouble(block, defs, role, valueName, bits).value, defs, role, valueName) == Ok(bits)
  {
    Pow256Values();
    DecodeEncode(bits, 8);
  }

  /** Writing one parameter or result leaves every other definition's bytes as they were. */
  lemma StoreKeepsOthers(block: seq<byte>, defs: seq<ParameterDefinition>, role: Role, valueName: string, v: int64, j: nat)
    requires Allocated(defs, |block|)
    requires StoreInteger(block, defs, role, valueName, v).Ok?
    requires j < |defs| && defs[j] != Find(defs, role, valueName).value
    ensures End(defs[j]) <= |block|
    ensures StoreInteger(block, defs, role, valueName, v).value[defs[j].address..End(defs[j])]
      == block[defs[j].address..End(defs[j])]
  {
    var d := Find(defs, role, valueName).value;
    var i :| 0 <= i < |defs| && defs[i] == d;
    assert i != j;
    var bytes := IntegerBytes(d.kind, v).value;
    SpliceKeepsDisjoint(block, d.address, bytes, defs[j].address, SizeInBytes(defs[j].kind));
  }

  /** setBoolParameter("__active", true) and setBoolResult("__processed", true) reach the definitions the constructor registered. */
  lemma FlagStores(block: seq<byte>, defs: seq<ParameterDefinition>)
    requires Allocated(defs, |block|)
    requires |defs| >= 2 && defs[0] == ACTIVE_DEFINITION && defs[1] == PROCESSED_DEFINITION
    ensures StoreInteger(block, defs, ParameterRole, ACTIVE_PARAMETER, 1) == Ok(block[ACTIVE_DEFINITION.address := 1])
    ensures StoreInteger(block, defs, ResultRole, PROCESSED_RESULT, 1) == Ok(block[PROCESSED_DEFINITION.address := 1])
  {
    assert End(defs[1]) <= |block|;
    assert Splice(block, 0, [1]) == block[0 := 1];
    assert Splice(block, 1, [1]) == block[1 := 1];
    assert defs[1..][0] == PROCESSED_DEFINITION;
    assert Find(defs[1..], ResultRole, PROCESSED_RESULT) == Ok(PROCESSED_DEFINITION);
    assert Find(defs, ResultRole, PROCESSED_RESULT) == Ok(PROCESSED_DEFINITION);
  }

  class CSignalDefinition {
    const name: string
    const queueSize: nat
    const lifetime: uint32
    /** m_Parameters and m_Results, in registration order. */
    var definitions: seq<ParameterDefinition>
    /** m_nCurrentMemorySizePerInstance. */
    var memorySize: nat
    /** m_Instances is non-empty. */
    var built: bool
    /** m_MemoryBuffer cut into the instances' blocks: instance k owns memory[k - 1]. */
    var memory: seq<seq<byte>>
    var pools: Pools
    /** The instances' trigger times, by ID - 1. */
    var triggerTimes: seq<uint64>

    ghost predicate Valid()
      reads this
    {
      SIGNALDEFINITION_MINQUEUESIZE <= queueSize <= SIGNALDEFINITION_MAXQUEUESIZE
      && |definitions| >= 2 && definitions[0] == ACTIVE_DEFINITION && definitions[1] == PROCESSED_DEFINITION
      && Allocated(definitions, memorySize) && UniqueNames(definitions)
      && (built ==> (|memory| == queueSize && |triggerTimes| == queueSize && Distinct(pools, queueSize)
        && forall k :: 0 <= k < |memory| ==> |memory[k]| == memorySize))
      && (!built ==> pools == NO_INSTANCES)
    }

    /** The constructor for a queue size in range (SignalHandler.cpp:288-299). */
    constructor (signalName: string, nQueueSize: nat, nLifetime: uint32)
      requires SIGNALDEFINITION_MINQUEUESIZE <= nQueueSize <= SIGNALDEFINITION_MAXQUEUESIZE
      ensures Valid() && !built && name == signalName && queueSize == nQueueSize && lifetime == nLifetime
      ensures definitions == [ACTIVE_DEFINITION, PROCESSED_DEFINITION] && memorySize == 2
    {
      name := signalName;
      queueSize := nQueueSize;
      lifetime := nLifetime;
      definitions := [ACTIVE_DEFINITION, PROCESSED_DEFINITION];
      memorySize := 2;
      built := false;
      memory := [];
      pools := NO_INSTANCES;
      triggerTimes := [];
    }

    /** registerParameter / registerResult (SignalHandler.cpp:315-356). */
    method RegisterDefinition(d: ParameterDefinition) returns (r: Result<()>)
      requires Valid()
      modifies this
      ensures Valid() && built == old(built) && memory == old(memory) && pools == old(pools) && triggerTimes == old(triggerTimes)
      ensures Register(old(definitions), old(memorySize), old(built), d).Err? ==>
        r == Err(Register(old(definitions), old(memorySize), old(built), d).error)
        && definitions == old(definitions) && memorySize == old(memorySize)
      ensures Register(old(definitions), old(memorySize), old(built), d).Ok? ==>
        r.Ok? && definitions == old(definitions) + [d] && memorySize == old(memorySize) + SizeInBytes(d.kind)
    {
      var registered := Register(definitions, memorySize, built, d);
      if registered.Err? {
        return Err(registered.error);
      }
      RegisterKeepsLayout(definitions, memorySize, d);
      definitions := registered.value;
      memorySize := memorySize + SizeInBytes(d.kind);
      r := Ok(());
    }

    /** addBoolParameter, addInt32Result and the other add helpers (SignalHandler.cpp:360-399): register at the current memory size. */
    method AddDefinition(role: Role, definitionName: string, kind: ParameterKind) returns (r: Result<()>)
      requires Valid()
      modifies this
      ensures Valid() && built == old(built) && memory == old(memory) && pools == old(pools) && triggerTimes == old(triggerTimes)
      ensures r.Err? <==> old(built) || HasName(old(definitions), role, definitionName)
      ensures r.Ok? ==> (definitions == old(definitions) + [ParameterDefinition(role, definitionName, old(memorySize), kind)]
        && memorySize == old(memorySize) + SizeInBytes(kind))
      ensures r.Err? ==> definitions == old(definitions) && memorySize == old(memorySize)
    {
      r := RegisterDefinition(ParameterDefinition(role, definitionName, memorySize, kind));
    }

    /** buildInstances (SignalHandler.cpp:402-421): queueSize zeroed blocks, all of them unused. */
    method BuildInstances() returns (r: Result<()>)
      requires Valid()
      modifies this
      ensures Valid() && definitions == old(definitions) && memorySize == old(memorySize)
      ensures old(built) ==> r == Err(SignalInstancesAlreadyBuilt) && unchanged(this)
      ensures !old(built) ==> r.Ok? && Blanked()
    {
      if built {
        return Err(SignalInstancesAlreadyBuilt);
      }
      var size := memorySize;
      var blocks: seq<seq<byte>> := [];
      var unused: seq<nat> := [];
      var times: seq<uint64> := [];
      var index := 0;
      while index < queueSize
        invariant 0 <= index <= queueSize
        invariant blocks == Blank(index, size)
        invariant unused == Ids(index)
        invariant times == seq(index, _ => 0)
      {
        blocks := blocks + [Zeroes(size)];
        unused := unused + [index + 1];
        times := times + [0];
        index := index + 1;
      }
      memory := blocks;
      BuiltDistinct(queueSize);
      pools := Pools(unused, {}, [], {}, []);
      triggerTimes := times;
      built := true;
      r := Ok(());
    }

    /** writeData on instance `id` (SignalHandler.cpp:592-609): copy `source` into its block at `offset`. */
    method WriteData(id: nat, offset: nat, source: seq<byte>) returns (r: Result<()>)
      requires Valid() && built && 1 <= id <= queueSize
      modifies this
      ensures Valid() && definitions == old(definitions) && memorySize == old(memorySize) && built
      ensures pools == old(pools) && triggerTimes == old(triggerTimes)
      ensures WriteError(memorySize, offset, |source|).Some? ==>
        r == Err(WriteError(memorySize, offset, |source|).value) && memory == old(memory)
      ensures source == [] ==> r.Ok? && memory == old(memory)
      ensures WriteError(memorySize, offset, |source|).None? && source != [] ==> (r.Ok?
        && offset + |source| <= memorySize
        && memory == old(memory)[id - 1 := Splice(old(memory)[id - 1], offset, source)])
    {
      var e := WriteError(memorySize, offset, |source|);
      if e.Some? {
        return Err(e.value);
      }
      if source == [] {
        return Ok(());
      }
      var block := memory[id - 1];
      var i := 0;
      while i < |source|
        invariant 0 <= i <= |source|
        invariant |block| == memorySize
        invariant block == Splice(old(memory)[id - 1], offset, source[..i])
      {
        block := block[offset + i := source[i]];
        assert source[..i + 1] == source[..i] + [source[i]];
        i := i + 1;
      }
      assert source[..i] == source;
      SetBlock(id, block);
      r := Ok(());
    }

    /** readData on instance `id` (SignalHandler.cpp:611-628). */
    method ReadData(id: nat, offset: nat, size: nat) returns (r: Result<seq<byte>>)
      requires Valid() && built && 1 <= id <= queueSize
      ensures ReadError(memorySize, offset, size).Some? ==> r == Err(ReadError(memorySize, offset, size).value)
      ensures size == 0 ==> r == Ok([])
      ensures ReadError(memorySize, offset, size).None? && size > 0 ==> (offset + size <= memorySize
        && r == Ok(memory[id - 1][offset..offset + size]))
    {
      var e := ReadError(memorySize, offset, size);
      if e.Some? {
        return Err(e.value);
      }
      if size == 0 {
        return Ok([]);
      }
      var block := memory[id - 1];
      var target: seq<byte> := [];
      var i := 0;
      while i < size
        invariant 0 <= i <= size
        invariant target == block[offset..offset + i]
      {
        target := target + [block[offset + i]];
        i := i + 1;
      }
      r := Ok(target);
    }

    /** Replaces the block of instance `id`. */
    method SetBlock(id: nat, block: seq<byte>)
      requires Valid() && built && 1 <= id <= queueSize && |block| == memorySize
      modifies this
      ensures Valid() && built && definitions == old(definitions) && memorySize == old(memorySize)
      ensures pools == old(pools) && triggerTimes == old(triggerTimes)
      ensures memory == old(memory)[id - 1 := block]
    {
      memory := memory[id - 1 := block];
    }

    /** The default-writing loops of prepareSignal on instance `id`. */
    method WriteDefaultValues(id: nat)
      requires Valid() && built && 1 <= id <= queueSize
      modifies this
      ensures Valid() && definitions == old(definitions) && memorySize == old(memorySize) && built
      ensures pools == old(pools) && triggerTimes == old(triggerTimes)
      ensures memory == old(memory)[id - 1 := WriteDefaults(old(memory)[id - 1], definitions)]
    {
      var block := FillDefaults(memory[id - 1], definitions);
      SetBlock(id, block);
    }

    /** prepareSignal (SignalHandler.cpp:436-458): take the oldest unused instance and reset it to its defaults. */
    method PrepareSignal() returns (r: Result<nat>)
      requires Valid()
      modifies this
      ensures PreparedAt(this, r)
    {
      if !built {
        return Err(SignalHasNoInstances);
      }
      if pools.unused == [] {
        return Err(CouldNotPrepareSignal);
      }
      var id := pools.unused[0];
      DistinctMember(pools, queueSize, id);
      PreparedKeepsMembers(pools, queueSize);
      pools := Prepared(pools);
      triggerTimes := triggerTimes[id - 1 := 0];
      WriteDefaultValues(id);
      r := Ok(id);
    }

    /** finishPreparation and triggerSignal (SignalHandler.cpp:522-537, 835-843) at system time `now`. */
    method TriggerSignal(id: nat, now: uint64) returns (r: Result<()>)
      requires Valid()
      modifies this
      ensures Valid() && definitions == old(definitions) && memorySize == old(memorySize) && built == old(built)
      ensures !old(built) ==> r == Err(SignalHasNoInstances) && unchanged(this)
      ensures old(built) && id !in old(pools).preparation ==> r == Err(SignalIsNotInPreparation) && unchanged(this)
      ensures old(built) && id in old(pools).preparation ==> (r.Ok? && 1 <= id <= queueSize
        && pools == Triggered(old(pools), id)
        && triggerTimes == old(triggerTimes)[id - 1 := now]
        && memory == old(memory)[id - 1 := old(memory)[id - 1][ACTIVE_DEFINITION.address := 1]])
    {
      if !built {
        return Err(SignalHasNoInstances);
      }
      if id !in pools.preparation {
        return Err(SignalIsNotInPreparation);
      }
      DistinctMember(pools, queueSize, id);
      TriggeredKeepsMembers(pools, id);
      pools := Triggered(pools, id);
      // setBoolParameter("__active", true); FlagStores shows it is this one-byte write.
      memory := memory[id - 1 := memory[id - 1][ACTIVE_DEFINITION.address := 1]];
      triggerTimes := triggerTimes[id - 1 := now];
      r := Ok(());
    }

    /** checkSignal (SignalHandler.cpp:461-477): None when no instance is active. */
    method CheckSignal() returns (r: Result<Option<nat>>)
      requires Valid()
      modifies this
      ensures CheckedAt(this, r)
    {
      if !built {
        return Err(SignalHasNoInstances);
      }
      if pools.active == [] {
        return Ok(None);
      }
      var id := pools.active[0];
      DistinctMember(pools, queueSize, id);
      CheckedKeepsMembers(pools, queueSize);
      pools := Checked(pools);
      r := Ok(Some(id));
    }

    /**
     * finishProcessing (SignalHandler.cpp:480-504) at system time `now`:
     * mark the instance processed, then recycle it if its lifetime has
     * expired, else queue it as finished. A trigger time in the future
     * throws after the instance has left the in-process map.
     */
    method FinishProcessing(id: nat, now: uint64) returns (r: Result<()>)
      requires Valid()
      modifies this
      ensures Valid() && definitions == old(definitions) && memorySize == old(memorySize) && built == old(built)
      ensures !old(built) ==> r == Err(SignalHasNoInstances) && unchanged(this)
      ensures old(built) && id !in old(pools).inProcess ==> r == Err(SignalIsNotInProcess) && unchanged(this)
      ensures old(built) && id in old(pools).inProcess ==> (1 <= id <= queueSize
        && memory == old(memory)[id - 1 := old(memory)[id - 1][PROCESSED_DEFINITION.address := 1]]
        && FinishedAs(old(pools), old(triggerTimes), id, Expired(old(triggerTimes)[id - 1], now, lifetime), r))
    {
      if !built {
        return Err(SignalHasNoInstances);
      }
      if id !in pools.inProcess {
        return Err(SignalIsNotInProcess);
      }
      TakeFromProcess(id);
      var expired := Expired(triggerTimes[id - 1], now, lifetime);
      if expired.Err? {
        return Err(expired.error);
      }
      Requeue(id, expired.value);
      r := Ok(());
    }

    /** The start of finishProcessing: the instance leaves the in-process map and is marked processed. */
    method TakeFromProcess(id: nat)
      requires Valid() && built && id in pools.inProcess
      modifies this
      ensures Valid() && definitions == old(definitions) && memorySize == old(memorySize) && built
      ensures 1 <= id <= queueSize && id !in Members(pools) && triggerTimes == old(triggerTimes)
      ensures pools == old(pools).(inProcess := old(pools).inProcess - {id})
      ensures memory == old(memory)[id - 1 := old(memory)[id - 1][PROCESSED_DEFINITION.address := 1]]
    {
      DistinctMember(pools, queueSize, id);
      DroppedInstance(pools, queueSize, id);
      pools := pools.(inProcess := pools.inProcess - {id});
      // setBoolResult("__processed", true); FlagStores shows it is this one-byte write.
      memory := memory[id - 1 := memory[id - 1][PROCESSED_DEFINITION.address := 1]];
    }

    /** The end of finishProcessing: an expired instance is unused again with its timer reset, any other is finished. */
    method Requeue(id: nat, expired: bool)
      requires Valid() && built && 1 <= id <= queueSize && id !in Members(pools)
      modifies this
      ensures Valid() && definitions == old(definitions) && memorySize == old(memorySize) && built && memory == old(memory)
      ensures expired ==> pools == old(pools).(unused := old(pools).unused + [id]) && triggerTimes == old(triggerTimes)[id - 1 := 0]
      ensures !expired ==> pools == old(pools).(finished := old(pools).finished + [id]) && triggerTimes == old(triggerTimes)
    {
      RequeueDistinct(pools, queueSize, id, expired);
      if expired {
        pools := pools.(unused := pools.unused + [id]);
        triggerTimes := triggerTimes[id - 1 := 0];
      } else {
        pools := pools.(finished := pools.finished + [id]);
      }
    }

    /** The pools and trigger times finishProcessing leaves, given the outcome of the expiry check. */
    ghost predicate FinishedAs(p: Pools, times: seq<uint64>, id: nat, expired: Result<bool>, r: Result<()>)
      reads this
      requires id in p.inProcess && 1 <= id <= |times|
    {
      if expired.Err? then
        r == Err(SignalTriggerTimeIsInFuture) && pools == p.(inProcess := p.inProcess - {id}) && triggerTimes == times
      else
        r.Ok? && pools == Finished(p, id, expired.value)
        && triggerTimes == if expired.value then times[id - 1 := 0] else times
    }

    /** The state buildInstances leaves: every instance zeroed, unused and untriggered. */
    ghost predicate Blanked()
      reads this
    {
      built && memory == Blank(queueSize, memorySize)
      && pools == Pools(Ids(queueSize), {}, [], {}, []) && triggerTimes == seq(queueSize, _ => 0)
    }

    /**
     * releaseExpiredSignals (SignalHandler.cpp:506-520) at system time
     * `now`: recycle finished instances from the front of the queue while
     * their lifetime has expired; `released` is how many were moved.
     */
    method ReleaseExpiredSignals(now: uint64) returns (r: Result<()>, released: nat)
      requires Valid()
      modifies this
      ensures Valid() && definitions == old(definitions) && memorySize == old(memorySize) && built == old(built)
      ensures memory == old(memory)
      ensures ReleasedTo(old(pools), old(triggerTimes), now, lifetime, r, pools, triggerTimes)
      ensures released == ReleaseAll(old(pools), old(triggerTimes), now, lifetime).released
    {
      if !built {
        return Ok(()), 0;
      }
      FinishedIds(pools, queueSize);
      var o := ReleaseFinished(pools, triggerTimes, now, lifetime);
      ReleaseAllMovesFront(pools, triggerTimes, now, lifetime);
      MovedFrontKeepsMembers(pools, o.released);
      SetQueues(o.pools, o.times);
      r, released := o.r, o.released;
    }

    /** Replaces the pools and the trigger times of the built instances. */
    method SetQueues(p: Pools, times: seq<uint64>)
      requires Valid() && built && Distinct(p, queueSize) && |times| == queueSize
      modifies this
      ensures Valid() && built && definitions == old(definitions) && memorySize == old(memorySize) && memory == old(memory)
      ensures pools == p && triggerTimes == times
    {
      pools, triggerTimes := p, times;
    }

    /** writeIntegerToInstance through findParameter / findResult: setBoolParameter, setInt32Result and the rest. */
    method SetIntegerValue(id: nat, role: Role, valueName: string, v: int64) returns (r: Result<()>)
      requires Valid() && built && 1 <= id <= queueSize
      modifies this
      ensures Valid() && definitions == old(definitions) && memorySize == old(memorySize) && built
      ensures pools == old(pools) && triggerTimes == old(triggerTimes)
      ensures StoreInteger(old(memory)[id - 1], definitions, role, valueName, v).Err? ==>
        r == Err(StoreInteger(old(memory)[id - 1], definitions, role, valueName, v).error) && memory == old(memory)
      ensures StoreInteger(old(memory)[id - 1], definitions, role, valueName, v).Ok? ==>
        r.Ok? && memory == old(memory)[id - 1 := StoreInteger(old(memory)[id - 1], definitions, role, valueName, v).value]
    {
      var d :- Find(definitions, role, valueName);
      var bytes :- IntegerBytes(d.kind, v);
      assert End(d) <= memorySize by { var i :| 0 <= i < |definitions| && definitions[i] == d; }
      r := WriteData(id, d.address, bytes);
    }

    /** readIntegerFromInstance through findParameter / findResult. */
    method GetIntegerValue(id: nat, role: Role, valueName: string) returns (r: Result<int64>)
      requires Valid() && built && 1 <= id <= queueSize
      ensures r == LoadInteger(memory[id - 1], definitions, role, valueName)
    {
      var d :- Find(definitions, role, valueName);
      assert End(d) <= memorySize by { var i :| 0 <= i < |definitions| && definitions[i] == d; }
      var bytes := ReadData(id, d.address, SizeInBytes(d.kind));
      r := IntegerFromBytes(d.kind, bytes.value);
    }

    /** getBoolParameter / getBoolResult: any nonzero value is true. */
    method GetBoolValue(id: nat, role: Role, valueName: string) returns (r: Result<bool>)
      requires Valid() && built && 1 <= id <= queueSize
      ensures LoadInteger(memory[id - 1], definitions, role, valueName).Err? ==>
        r == Err(LoadInteger(memory[id - 1], definitions, role, valueName).error)
      ensures LoadInteger(memory[id - 1], definitions, role, valueName).Ok? ==>
        r == Ok(LoadInteger(memory[id - 1], definitions, role, valueName).value != 0)
    {
      var v :- GetIntegerValue(id, role, valueName);
      r := Ok(v != 0);
    }

    /** getInt32Parameter / getInt32Result. */
    method GetInt32Value(id: nat, role: Role, valueName: string) returns (r: Result<int32>)
      requires Valid() && built && 1 <= id <= queueSize
      ensures LoadInteger(memory[id - 1], definitions, role, valueName).Err? ==>
        r == Err(LoadInteger(memory[id - 1], definitions, role, valueName).error)
      ensures LoadInteger(memory[id - 1], definitions, role, valueName).Ok? ==>
        r == Int32Value(LoadInteger(memory[id - 1], definitions, role, valueName).value)
    {
      var v :- GetIntegerValue(id, role, valueName);
      r := Int32Value(v);
    }

    /** getUint32Parameter / getUint32Result, with the stored value read as unsigned. */
    method GetUint32Value(id: nat, role: Role, valueName: string) returns (r: Result<uint32>)
      requires Valid() && built && 1 <= id <= queueSize
      ensures LoadInteger(memory[id - 1], definitions, role, valueName).Err? ==>
        r == Err(LoadInteger(memory[id - 1], definitions, role, valueName).error)
      ensures LoadInteger(memory[id - 1], definitions, role, valueName).Ok? ==>
        r == Uint32Value(LoadInteger(memory[id - 1], definitions, role, valueName).value)
    {
      var v :- GetIntegerValue(id, role, valueName);
      r := Uint32Value(v);
    }

    /** writeDoubleToInstance through findParameter / findResult; the double is its bit pattern. */
    method SetDoubleValue(id: nat, role: Role, valueName: string, bits: uint64) returns (r: Result<()>)
      requires Valid() && built && 1 <= id <= queueSize
      modifies this
      ensures Valid() && definitions == old(definitions) && memorySize == old(memorySize) && built
      ensures pools == old(pools) && triggerTimes == old(triggerTimes)
      ensures StoreDouble(old(memory)[id - 1], definitions, role, valueName, bits).Err? ==>
        r == Err(StoreDouble(old(memory)[id - 1], definitions, role, valueName, bits).error) && memory == old(memory)
      ensures StoreDouble(old(memory)[id - 1], definitions, role, valueName, bits).Ok? ==>
        r.Ok? && memory == old(memory)[id - 1 := StoreDouble(old(memory)[id - 1], definitions, role, valueName, bits).value]
    {
      var d :- Find(definitions, role, valueName);
      if !d.kind.DoubleParameter? {
        return Err(CouldNotWriteDoubleToParameter);
      }
      assert End(d) <= memorySize by { var i :| 0 <= i < |definitions| && definitions[i] == d; }
      Pow256Values();
      r := WriteData(id, d.address, EncodeLE(bits, 8));
    }

    /** readDoubleFromInstance through findParameter / findResult. */
    method GetDoubleValue(id: nat, role: Role, valueName: string) returns (r: Result<uint64>)
      requires Valid() && built && 1 <= id <= queueSize
      ensures r == LoadDouble(memory[id - 1], definitions, role, valueName)
    {
      var d :- Find(definitions, role, valueName);
      if !d.kind.DoubleParameter? {
        return Err(CouldNotReadDoubleFromParameter);
      }
      assert End(d) <= memorySize by { var i :| 0 <= i < |definitions| && definitions[i] == d; }
      var bytes := ReadData(id, d.address, 8);
      Pow256Values();
      r := Ok(DecodeLE(bytes.value));
    }
  }

  /** A zeroed block of `size` bytes. */
  function Zeroes(size: nat): (r: seq<byte>)
    ensures |r| == size && forall i :: 0 <= i < size ==> r[i] == 0
  {
    seq(size, _ => 0)
  }

  /** `count` zeroed blocks of `size` bytes, the memory buildInstances allocates. */
  function Blank(count: nat, size: nat): (r: seq<seq<byte>>)
    ensures |r| == count && forall k :: 0 <= k < count ==> r[k] == Zeroes(size)
  {
    seq(count, _ => Zeroes(size))
  }

  /** The default-writing loops of prepareSignal on one block. */
  method FillDefaults(block: seq<byte>, defs: seq<ParameterDefinition>) returns (r: seq<byte>)
    requires Allocated(defs, |block|)
    ensures r == WriteDefaults(block, defs)
  {
    r := block;
    var i := 0;
    while i < |defs|
      invariant 0 <= i <= |defs|
      invariant r == WriteDefaults(block, defs[..i])
    {
      var d := defs[i];
      assert defs[..i + 1][..i] == defs[..i];
      assert End(defs[i]) <= |block|;
      r := Splice(r, d.address, DefaultBytes(d.kind));
      i := i + 1;
    }
    assert defs[..i] == defs;
  }

  /** The first `released` finished instances had expired when they were released. */
  predicate ReleasedExpired(finished: seq<nat>, times: seq<uint64>, now: uint64, lifetime: uint32, released: nat)
  {
    released <= |finished|
    && forall i :: 0 <= i < released ==> (1 <= finished[i] <= |times|
      && Expired(times[finished[i] - 1], now, lifetime) == Ok(true))
  }

  /** Every ID in `ids` names one of `count` instances. */
  predicate InRange(ids: seq<nat>, count: nat)
  {
    forall i :: 0 <= i < |ids| ==> 1 <= ids[i] <= count
  }

  predicate NoDuplicates(ids: seq<nat>)
  {
    forall i, j :: 0 <= i < j < |ids| ==> ids[i] != ids[j]
  }

  /** The finished queue of distinct pools holds built IDs, each once. */
  lemma FinishedIds(p: Pools, n: nat)
    requires Distinct(p, n)
    ensures InRange(p.finished, n) && NoDuplicates(p.finished)
  {
    var s := p.finished;
    forall i | 0 <= i < |s|
      ensures 1 <= s[i] <= n
    {
      assert s[i] in multiset(s);
      DistinctMember(p, n, s[i]);
    }
    forall i, j | 0 <= i < j < |s|
      ensures s[i] != s[j]
    {
      var x := s[i];
      assert s == s[..j] + s[j..];
      assert s[..j][i] == x && s[j..][0] == s[j];
      assert x in multiset(s[..j]);
      assert multiset(s)[x] == multiset(s[..j])[x] + multiset(s[j..])[x];
      assert Members(p)[x] <= 1;
      assert multiset(s[j..])[x] == 0;
    }
  }

  lemma ReleasedInRange(p: Pools, count: nat)
    requires p.finished != [] && InRange(p.finished, count)
    ensures InRange(Released(p).finished, count)
  {
    forall i | 0 <= i < |p.finished| - 1
      ensures Released(p).finished[i] == p.finished[i + 1]
    {
    }
  }

  /** What releaseExpiredSignals returns and leaves: its result, how many instances it released, the pools and the trigger times. */
  datatype Release = Release(r: Result<()>, released: nat, pools: Pools, times: seq<uint64>)

  /**
   * The loop of releaseExpiredSignals (SignalHandler.cpp:506-520): while the
   * finished queue is not empty, check the lifetime of its front instance;
   * stop with the error of a trigger time in the future, stop when it has not
   * expired, and otherwise move it to the unused queue with its timer reset.
   */
  function ReleaseAll(p: Pools, times: seq<uint64>, now: uint64, lifetime: uint32): (o: Release)
    requires InRange(p.finished, |times|)
    ensures |o.times| == |times|
    decreases |p.finished|
  {
    if p.finished == [] then Release(Ok(()), 0, p, times)
    else
      var id := p.finished[0];
      var expired := Expired(times[id - 1], now, lifetime);
      if expired.Err? then Release(Err(expired.error), 0, p, times)
      else if !expired.value then Release(Ok(()), 0, p, times)
      else
        ReleasedInRange(p, |times|);
        var o := ReleaseAll(Released(p), times[id - 1 := 0], now, lifetime);
        o.(released := o.released + 1)
  }

  /** The loop of releaseExpiredSignals on pools `p0` and trigger times `t0`. */
  method ReleaseFinished(p0: Pools, t0: seq<uint64>, now: uint64, lifetime: uint32) returns (o: Release)
    requires InRange(p0.finished, |t0|)
    ensures o == ReleaseAll(p0, t0, now, lifetime)
  {
    var released := 0;
    var p, times := p0, t0;
    while p.finished != []
      invariant InRange(p.finished, |times|)
      invariant var rest := ReleaseAll(p, times, now, lifetime);
        ReleaseAll(p0, t0, now, lifetime) == rest.(released := rest.released + released)
      decreases |p.finished|
    {
      var id := p.finished[0];
      var expired := Expired(times[id - 1], now, lifetime);
      if expired.Err? {
        return Release(Err(expired.error), released, p, times);
      }
      if !expired.value {
        return Release(Ok(()), released, p, times);
      }
      ReleasedInRange(p, |times|);
      p := Released(p);
      times := times[id - 1 := 0];
      released := released + 1;
    }
    o := Release(Ok(()), released, p, times);
  }

  /** Moving the front of the finished queue to the unused queue keeps every instance ID, each as often as before. */
  lemma MovedFrontKeepsMembers(p: Pools, k: nat)
    requires k <= |p.finished|
    ensures Members(p.(finished := p.finished[k..], unused := p.unused + p.finished[..k])) == Members(p)
  {
    assert p.finished == p.finished[..k] + p.finished[k..];
  }

  /** The released instances are the front of the finished queue, appended in order to the unused queue. */
  lemma {:induction false} ReleaseAllMovesFront(p: Pools, times: seq<uint64>, now: uint64, lifetime: uint32)
    requires InRange(p.finished, |times|)
    ensures var o := ReleaseAll(p, times, now, lifetime);
      o.released <= |p.finished|
      && o.pools == p.(finished := p.finished[o.released..], unused := p.unused + p.finished[..o.released])
    decreases |p.finished|
  {
    var o := ReleaseAll(p, times, now, lifetime);
    if p.finished == [] || Expired(times[p.finished[0] - 1], now, lifetime) != Ok(true) {
      assert p.finished[..0] == [] && p.finished[0..] == p.finished && p.unused + [] == p.unused;
    } else {
      var id := p.finished[0];
      var q := Released(p);
      ReleaseAllMovesFront(q, times[id - 1 := 0], now, lifetime);
      var k := o.released - 1;
      assert q.finished[k..] == p.finished[k + 1..];
      assert q.unused + q.finished[..k] == p.unused + p.finished[..k + 1];
    }
  }

  /** Dropping the front of a queue without duplicates leaves one without duplicates, in range, that lacks the front. */
  lemma FrontDropped(f: seq<nat>, count: nat)
    requires f != [] && InRange(f, count) && NoDuplicates(f)
    ensures InRange(f[1..], count) && NoDuplicates(f[1..]) && f[0] !in f[1..]
  {
    forall i | 0 <= i < |f| - 1
      ensures f[1..][i] == f[i + 1]
    {
    }
  }

  /** Resetting the front's timer leaves the trigger times of the instances behind it as they were. */
  lemma FrontResetKeepsRest(f: seq<nat>, times: seq<uint64>)
    requires f != [] && InRange(f, |times|) && NoDuplicates(f)
    ensures forall j :: 1 <= j < |f| ==> times[f[0] - 1 := 0][f[j] - 1] == times[f[j] - 1]
  {
  }

  /** The loop releases at most the whole finished queue. */
  lemma {:induction false} ReleaseAllBound(p: Pools, times: seq<uint64>, now: uint64, lifetime: uint32)
    requires InRange(p.finished, |times|)
    ensures ReleaseAll(p, times, now, lifetime).released <= |p.finished|
    decreases |p.finished|
  {
    if p.finished != [] && Expired(times[p.finished[0] - 1], now, lifetime) == Ok(true) {
      ReleasedInRange(p, |times|);
      ReleaseAllBound(Released(p), times[p.finished[0] - 1 := 0], now, lifetime);
    }
  }

  /** An expired front followed by expired instances, judged on trigger times that agree behind the front. */
  lemma ReleasedExpiredFront(f: seq<nat>, times: seq<uint64>, t': seq<uint64>, now: uint64, lifetime: uint32, k: nat)
    requires f != [] && 1 <= f[0] <= |times| && Expired(times[f[0] - 1], now, lifetime) == Ok(true)
    requires ReleasedExpired(f[1..], t', now, lifetime, k) && |t'| == |times|
    requires forall j :: 1 <= j < |f| ==> 1 <= f[j] <= |times| && t'[f[j] - 1] == times[f[j] - 1]
    ensures ReleasedExpired(f, times, now, lifetime, k + 1)
  {
    forall j | 1 <= j < k + 1
      ensures Expired(times[f[j] - 1], now, lifetime) == Ok(true)
    {
      assert f[j] == f[1..][j - 1];
    }
  }

  /** Every released instance had expired when the loop reached it. */
  lemma {:induction false} ReleaseAllExpired(p: Pools, times: seq<uint64>, now: uint64, lifetime: uint32)
    requires InRange(p.finished, |times|) && NoDuplicates(p.finished)
    ensures ReleasedExpired(p.finished, times, now, lifetime, ReleaseAll(p, times, now, lifetime).released)
    decreases |p.finished|
  {
    if p.finished != [] && Expired(times[p.finished[0] - 1], now, lifetime) == Ok(true) {
      var f := p.finished;
      var t' := times[f[0] - 1 := 0];
      var q := Released(p);
      FrontDropped(f, |times|);
      FrontResetKeepsRest(f, times);
      assert q.finished == f[1..];
      ReleaseAllExpired(q, t', now, lifetime);
      var k := ReleaseAll(q, t', now, lifetime).released;
      assert ReleaseAll(p, times, now, lifetime).released == k + 1;
      ReleasedExpiredFront(f, times, t', now, lifetime, k);
    }
  }

  /**
   * After releasing `k` instances of the finished queue `f` the loop ends in
   * `r`: at an instance that had not expired, with the error when its
   * trigger time is in the future, or at the end of the queue with success.
   */
  predicate StoppedAt(f: seq<nat>, times: seq<uint64>, now: uint64, lifetime: uint32, k: nat, r: Result<()>)
    requires InRange(f, |times|)
  {
    k <= |f|
    && (k < |f| ==>
      Expired(times[f[k] - 1], now, lifetime) != Ok(true)
      && (r.Err? <==> Expired(times[f[k] - 1], now, lifetime).Err?))
    && (k == |f| ==> r.Ok?)
  }

  /** Where the loop stops behind an expired front, judged on trigger times that agree behind the front. */
  lemma StoppedFront(f: seq<nat>, times: seq<uint64>, t': seq<uint64>, now: uint64, lifetime: uint32, k: nat, r: Result<()>)
    requires f != [] && InRange(f, |times|) && InRange(f[1..], |t'|)
    requires StoppedAt(f[1..], t', now, lifetime, k, r)
    requires forall j :: 1 <= j < |f| ==> t'[f[j] - 1] == times[f[j] - 1]
    ensures StoppedAt(f, times, now, lifetime, k + 1, r)
  {
    if k < |f| - 1 {
      assert f[k + 1] == f[1..][k];
    }
  }

  /** The loop stopped at the first finished instance that had not expired. */
  lemma {:induction false} ReleaseAllStops(p: Pools, times: seq<uint64>, now: uint64, lifetime: uint32)
    requires InRange(p.finished, |times|) && NoDuplicates(p.finished)
    ensures var o := ReleaseAll(p, times, now, lifetime);
      StoppedAt(p.finished, times, now, lifetime, o.released, o.r)
    decreases |p.finished|
  {
    if p.finished != [] && Expired(times[p.finished[0] - 1], now, lifetime) == Ok(true) {
      var f := p.finished;
      var t' := times[f[0] - 1 := 0];
      FrontDropped(f, |times|);
      FrontResetKeepsRest(f, times);
      assert Released(p).finished == f[1..];
      ReleaseAllStops(Released(p), t', now, lifetime);
      var o := ReleaseAll(Released(p), t', now, lifetime);
      StoppedFront(f, times, t', now, lifetime, o.released, o.r);
    }
  }

  /** Exactly the released instances have their timers reset. */
  lemma {:induction false} ReleaseAllResets(p: Pools, times: seq<uint64>, now: uint64, lifetime: uint32)
    requires InRange(p.finished, |times|)
    ensures var o := ReleaseAll(p, times, now, lifetime);
      o.released <= |p.finished| && o.times == ResetTimes(times, p.finished[..o.released])
    decreases |p.finished|
  {
    ReleaseAllBound(p, times, now, lifetime);
    var o := ReleaseAll(p, times, now, lifetime);
    if p.finished == [] || Expired(times[p.finished[0] - 1], now, lifetime) != Ok(true) {
      assert p.finished[..0] == [];
    } else {
      var f := p.finished;
      ReleasedInRange(p, |times|);
      ReleaseAllResets(Released(p), times[f[0] - 1 := 0], now, lifetime);
      var k := o.released - 1;
      assert f[..k + 1][1..] == f[1..][..k];
    }
  }

  /** The trigger times with the timers of `ids` reset, one after the other. */
  function ResetTimes(times: seq<uint64>, ids: seq<nat>): (r: seq<uint64>)
    ensures |r| == |times|
    decreases |ids|
  {
    if ids == [] then times
    else ResetTimes(if 1 <= ids[0] <= |times| then times[ids[0] - 1 := 0] else times, ids[1..])
  }

  /** Exactly the timers of the listed IDs are zero afterwards; the others keep their trigger times. */
  lemma {:induction false} ResetTimesMeaning(times: seq<uint64>, ids: seq<nat>)
    ensures forall k :: 0 <= k < |times| ==> ResetTimes(times, ids)[k] == if k + 1 in ids then 0 else times[k]
    decreases |ids|
  {
    if ids != [] {
      var t' := if 1 <= ids[0] <= |times| then times[ids[0] - 1 := 0] else times;
      ResetTimesMeaning(t', ids[1..]);
      forall k | 0 <= k < |times|
        ensures ResetTimes(times, ids)[k] == if k + 1 in ids then 0 else times[k]
      {
        assert (k + 1 in ids) <==> k + 1 == ids[0] || k + 1 in ids[1..];
      }
    }
  }

  /** Putting back a built instance that is in no pool keeps the IDs distinct. */
  lemma RequeueDistinct(p: Pools, n: nat, id: nat, expired: bool)
    requires Distinct(p, n) && 1 <= id <= n && id !in Members(p)
    ensures expired ==> Distinct(p.(unused := p.unused + [id]), n)
    ensures !expired ==> Distinct(p.(finished := p.finished + [id]), n)
  {
    assert Members(p.(unused := p.unused + [id])) == Members(p) + multiset{id};
    assert Members(p.(finished := p.finished + [id])) == Members(p) + multiset{id};
  }

  /** The queue-size check of the definition's constructor (SignalHandler.cpp:288-299). */
  method NewSignalDefinition(name: string, queueSize: nat, lifetime: uint32) returns (r: Result<CSignalDefinition>)
    ensures r.Err? <==> !(SIGNALDEFINITION_MINQUEUESIZE <= queueSize <= SIGNALDEFINITION_MAXQUEUESIZE)
    ensures r.Err? ==> r.error == InvalidSignalQueueSize
    ensures r.Ok? ==> (fresh(r.value) && r.value.Valid() && !r.value.built && r.value.name == name
      && r.value.queueSize == queueSize && r.value.lifetime == lifetime
      && r.value.definitions == [ACTIVE_DEFINITION, PROCESSED_DEFINITION])
  {
    if queueSize < SIGNALDEFINITION_MINQUEUESIZE || queueSize > SIGNALDEFINITION_MAXQUEUESIZE {
      return Err(InvalidSignalQueueSize);
    }
    var d := new CSignalDefinition(name, queueSize, lifetime);
    r := Ok(d);
  }

  /**
   * std::less<std::string>: lexicographic order of the characters' codes,
   * a proper prefix first.
   */
  predicate Less(a: string, b: string)
    decreases |a|
  {
    if a == [] then b != []
    else if b == [] then false
    else if a[0] != b[0] then a[0] < b[0]
    else Less(a[1..], b[1..])
  }

  /** Two different names are always ordered one way or the other. */
  lemma {:induction false} LessTotal(a: string, b: string)
    requires a != b
    ensures Less(a, b) || Less(b, a)
    decreases |a|
  {
    if a != [] && b != [] && a[0] == b[0] {
      assert a[1..] != b[1..] by {
        assert a == [a[0]] + a[1..] && b == [b[0]] + b[1..];
      }
      LessTotal(a[1..], b[1..]);
    }
  }

  lemma {:induction false} LessIrreflexive(a: string)
    ensures !Less(a, a)
    decreases |a|
  {
    if a != [] {
      LessIrreflexive(a[1..]);
    }
  }

  lemma {:induction false} LessTransitive(a: string, b: string, c: string)
    requires Less(a, b) && Less(b, c)
    ensures Less(a, c)
    decreases |a|
  {
    if a != [] && b != [] && c != [] && a[0] == b[0] && b[0] == c[0] {
      LessTransitive(a[1..], b[1..], c[1..]);
    }
  }

  /** Every name comes before each later one: the key order of a std::map. */
  predicate Ascending(names: seq<string>)
  {
    forall i, j :: 0 <= i < j < |names| ==> Less(names[i], names[j])
  }

  /** map::find: where `name` is among the keys, if it is. */
  function IndexOf(names: seq<string>, name: string): (r: Option<nat>)
    ensures r.None? <==> name !in names
    ensures r.Some? ==> r.value < |names| && names[r.value] == name
  {
    if names == [] then None
    else if names[0] == name then Some(0)
    else match IndexOf(names[1..], name)
      case None => None
      case Some(k) => Some(k + 1)
  }

  /** Where map::insert places a new key: before the first key not less than it. */
  function InsertionPoint(names: seq<string>, name: string): (k: nat)
    ensures k <= |names|
    ensures forall i :: 0 <= i < k ==> Less(names[i], name)
    ensures k < |names| ==> !Less(names[k], name)
  {
    if names == [] || !Less(names[0], name) then 0 else InsertionPoint(names[1..], name) + 1
  }

  /** Inserting a new key at its insertion point keeps the keys ascending. */
  lemma InsertKeepsAscending(names: seq<string>, name: string)
    requires Ascending(names) && name !in names
    ensures Ascending(names[..InsertionPoint(names, name)] + [name] + names[InsertionPoint(names, name)..])
  {
    var k := InsertionPoint(names, name);
    var n' := names[..k] + [name] + names[k..];
    if k < |names| {
      LessTotal(names[k], name);
    }
    forall i, j | 0 <= i < j < |n'|
      ensures Less(n'[i], n'[j])
    {
      if j < k {
        assert n'[i] == names[i] && n'[j] == names[j];
      } else if j == k {
        assert n'[i] == names[i] && n'[j] == name;
      } else if i == k {
        assert n'[i] == name && n'[j] == names[j - 1];
        if j - 1 > k {
          LessTransitive(name, names[k], names[j - 1]);
        }
      } else if i < k {
        assert n'[i] == names[i] && n'[j] == names[j - 1];
      } else {
        assert n'[i] == names[i - 1] && n'[j] == names[j - 1];
      }
    }
  }

  /** The names of the definitions, in order. */
  function NamesOf(defs: seq<CSignalDefinition>): (r: seq<string>)
    ensures |r| == |defs| && forall i :: 0 <= i < |defs| ==> r[i] == defs[i].name
  {
    seq(|defs|, i requires 0 <= i < |defs| => defs[i].name)
  }

  lemma NamesOfInsert(defs: seq<CSignalDefinition>, k: nat, d: CSignalDefinition)
    requires k <= |defs|
    ensures NamesOf(defs[..k] + [d] + defs[k..]) == NamesOf(defs)[..k] + [d.name] + NamesOf(defs)[k..]
  {
    var a, b := NamesOf(defs[..k] + [d] + defs[k..]), NamesOf(defs)[..k] + [d.name] + NamesOf(defs)[k..];
    assert |a| == |b|;
    forall i | 0 <= i < |a|
      ensures a[i] == b[i]
    {
      if i < k {
      } else if i == k {
      } else {
        assert a[i] == defs[i - 1].name;
      }
    }
  }

  /** Different names, so different objects. */
  lemma AscendingDistinct(defs: seq<CSignalDefinition>)
    requires Ascending(NamesOf(defs))
    ensures forall i, j :: 0 <= i < j < |defs| ==> defs[i] != defs[j]
  {
    var names := NamesOf(defs);
    forall i, j | 0 <= i < j < |defs|
      ensures defs[i] != defs[j]
    {
      LessIrreflexive(names[i]);
      assert names[i] != names[j];
    }
  }

  /** One definition's releaseExpiredSignals, ending in `r`, between the two states. */
  twostate predicate ReleasedAt(d: CSignalDefinition, now: uint64, new r: Result<()>)
    reads d
  {
    d.Valid() && d.definitions == old(d.definitions) && d.memorySize == old(d.memorySize) && d.built == old(d.built)
    && d.memory == old(d.memory) && ReleasedTo(old(d.pools), old(d.triggerTimes), now, d.lifetime, r, d.pools, d.triggerTimes)
  }

  /** releaseExpiredSignals takes pools `p` and trigger times `t` to `p'` and `t'`, ending in `r`. */
  predicate ReleasedTo(p: Pools, t: seq<uint64>, now: uint64, lifetime: uint32, r: Result<()>, p': Pools, t': seq<uint64>)
  {
    InRange(p.finished, |t|)
    && var o := ReleaseAll(p, t, now, lifetime);
    o.r == r && o.pools == p' && o.times == t'
  }

  /** One definition's buildInstances, from no instances to fresh ones, between the two states. */
  twostate predicate BuiltFrom(d: CSignalDefinition)
    reads d
  {
    d.Valid() && d.Blanked() && d.definitions == old(d.definitions) && d.memorySize == old(d.memorySize)
  }

  /** One definition's checkSignal on built instances, returning `r`, between the two states. */
  twostate predicate CheckedAt(d: CSignalDefinition, new r: Result<Option<nat>>)
    reads d
  {
    d.Valid() && d.built == old(d.built) && d.definitions == old(d.definitions) && d.memorySize == old(d.memorySize)
    && d.memory == old(d.memory) && d.triggerTimes == old(d.triggerTimes)
    && (!old(d.built) ==> r == Err(SignalHasNoInstances) && d.pools == old(d.pools))
    && (old(d.built) && old(d.pools).active == [] ==> r == Ok(None) && d.pools == old(d.pools))
    && (old(d.built) && old(d.pools).active != [] ==>
      r == Ok(Some(old(d.pools).active[0])) && 1 <= old(d.pools).active[0] <= d.queueSize
      && d.pools == Checked(old(d.pools)))
  }

  /** One definition's prepareSignal, returning `r`, between the two states. */
  twostate predicate PreparedAt(d: CSignalDefinition, new r: Result<nat>)
    reads d
  {
    old(d.Valid()) && d.Valid() && d.built == old(d.built) && d.definitions == old(d.definitions) && d.memorySize == old(d.memorySize)
    && (!old(d.built) ==> r == Err(SignalHasNoInstances) && unchanged(d))
    && (old(d.built) && old(d.pools).unused == [] ==> r == Err(CouldNotPrepareSignal) && unchanged(d))
    && (old(d.built) && old(d.pools).unused != [] ==>
      r == Ok(old(d.pools).unused[0]) && 1 <= r.value <= d.queueSize
      && d.pools == Prepared(old(d.pools)) && d.triggerTimes == old(d.triggerTimes)[r.value - 1 := 0]
      && d.memory == old(d.memory)[r.value - 1 := WriteDefaults(old(d.memory)[r.value - 1], d.definitions)])
  }

  /**
   * The loop of CSignalHandler::buildInstances: builds each definition
   * until one already has instances. `stopped` is that definition, or the
   * count when there is none.
   */
  method BuildAll(defs: seq<CSignalDefinition>) returns (r: Result<()>, ghost stopped: nat)
    requires forall i, j :: 0 <= i < j < |defs| ==> defs[i] != defs[j]
    requires forall i :: 0 <= i < |defs| ==> defs[i].Valid()
    modifies set i | 0 <= i < |defs| :: defs[i]
    ensures stopped <= |defs| && (r.Ok? <==> stopped == |defs|)
    ensures stopped < |defs| ==> old(defs[stopped].built) && r == Err(SignalInstancesAlreadyBuilt)
    ensures forall j :: 0 <= j < stopped ==> !old(defs[j].built) && BuiltFrom(defs[j])
    ensures forall j :: stopped <= j < |defs| ==> unchanged(defs[j])
  {
    var i := 0;
    while i < |defs|
      invariant i <= |defs|
      invariant forall j :: 0 <= j < i ==> !old(defs[j].built) && BuiltFrom(defs[j])
      invariant forall j :: i <= j < |defs| ==> unchanged(defs[j])
    {
      r := defs[i].BuildInstances();
      if r.Err? {
        return r, i;
      }
      assert r.value == ();
      assert r == Ok(());
      i := i + 1;
    }
    return Ok(()), |defs|;
  }

  /**
   * The loop of CSignalHandler::releaseExpiredSignals: an error of one
   * definition ends it. `stopped` is the definition that failed, or the
   * count when none did.
   */
  method ReleaseEach(defs: seq<CSignalDefinition>, now: uint64) returns (r: Result<()>, ghost stopped: nat)
    requires forall i, j :: 0 <= i < j < |defs| ==> defs[i] != defs[j]
    requires forall i :: 0 <= i < |defs| ==> defs[i].Valid()
    modifies set i | 0 <= i < |defs| :: defs[i]
    ensures stopped <= |defs| && (r.Ok? <==> stopped == |defs|)
    ensures forall j :: 0 <= j < |defs| ==>
      if j < stopped then ReleasedAt(defs[j], now, Ok(()))
      else if j == stopped then ReleasedAt(defs[j], now, r)
      else unchanged(defs[j])
  {
    var i := 0;
    while i < |defs|
      invariant i <= |defs|
      invariant forall j :: 0 <= j < i ==> ReleasedAt(defs[j], now, Ok(()))
      invariant forall j :: i <= j < |defs| ==> unchanged(defs[j])
    {
      var d := defs[i];
      var released;
      r, released := d.ReleaseExpiredSignals(now);
      if r.Err? {
        return r, i;
      }
      assert r.value == ();
      assert r == Ok(());
      i := i + 1;
    }
    return Ok(()), |defs|;
  }

  /**
   * CSignalHandler (SignalHandler.cpp:896-982): the signal definitions by
   * name. m_SignalDefinitions is a std::map, so `signals` is kept in
   * ascending name order and the loops visit the definitions in that order.
   */
  class CSignalHandler {
    /** m_bIsInitializing. */
    var initializing: bool
    /** The values of m_SignalDefinitions, in key order. */
    var signals: seq<CSignalDefinition>

    ghost function Defs(): set<object>
      reads this
    {
      set i | 0 <= i < |signals| :: signals[i]
    }

    ghost predicate Valid()
      reads this, Defs()
    {
      Ascending(NamesOf(signals))
      && (forall i :: 0 <= i < |signals| ==> signals[i].Valid())
      && (!initializing ==> forall i :: 0 <= i < |signals| ==> signals[i].built)
    }

    /** The constructor for a non-null system info. */
    constructor ()
      ensures Valid() && initializing && signals == []
    {
      initializing := true;
      signals := [];
    }

    /** Two slots of the registry never hold the same definition. */
    lemma DistinctDefinitions(i: nat, j: nat)
      requires Valid() && i < j < |signals|
      ensures signals[i] != signals[j]
    {
      AscendingDistinct(signals);
    }

    /** registerSignal (SignalHandler.cpp:908-925). */
    method RegisterSignal(name: string, queueSize: nat, lifetime: uint32) returns (r: Result<CSignalDefinition>)
      requires Valid()
      modifies this
      ensures Valid() && initializing == old(initializing)
      ensures !old(initializing) ==> r == Err(CannotRegisterSignal) && signals == old(signals)
      ensures old(initializing) && name in NamesOf(old(signals)) ==> r == Err(DuplicateSignalDefinition) && signals == old(signals)
      ensures (old(initializing) && name !in NamesOf(old(signals))
        && !(SIGNALDEFINITION_MINQUEUESIZE <= queueSize <= SIGNALDEFINITION_MAXQUEUESIZE)) ==>
        r == Err(InvalidSignalQueueSize) && signals == old(signals)
      ensures r.Ok? ==> (old(initializing) && name !in NamesOf(old(signals))
        && fresh(r.value) && !r.value.built && r.value.name == name && r.value.queueSize == queueSize
        && r.value.lifetime == lifetime && r.value.definitions == [ACTIVE_DEFINITION, PROCESSED_DEFINITION]
        && var k := InsertionPoint(NamesOf(old(signals)), name);
        signals == old(signals)[..k] + [r.value] + old(signals)[k..])
      ensures (old(initializing) && name !in NamesOf(old(signals))
        && SIGNALDEFINITION_MINQUEUESIZE <= queueSize <= SIGNALDEFINITION_MAXQUEUESIZE) ==> r.Ok?
    {
      if !initializing {
        return Err(CannotRegisterSignal);
      }
      if IndexOf(NamesOf(signals), name).Some? {
        return Err(DuplicateSignalDefinition);
      }
      r := AddSignal(name, queueSize, lifetime);
    }

    /** The new-name part of registerSignal: create the definition, then insert it by name. */
    method AddSignal(name: string, queueSize: nat, lifetime: uint32) returns (r: Result<CSignalDefinition>)
      requires Valid() && initializing && name !in NamesOf(signals)
      modifies this
      ensures Valid() && initializing
      ensures r.Err? <==> !(SIGNALDEFINITION_MINQUEUESIZE <= queueSize <= SIGNALDEFINITION_MAXQUEUESIZE)
      ensures r.Err? ==> r.error == InvalidSignalQueueSize && signals == old(signals)
      ensures r.Ok? ==> (fresh(r.value) && !r.value.built && r.value.name == name && r.value.queueSize == queueSize
        && r.value.lifetime == lifetime && r.value.definitions == [ACTIVE_DEFINITION, PROCESSED_DEFINITION]
        && var k := InsertionPoint(NamesOf(old(signals)), name);
        signals == old(signals)[..k] + [r.value] + old(signals)[k..])
    {
      var created := NewSignalDefinition(name, queueSize, lifetime);
      if created.Err? {
        return Err(created.error);
      }
      var d := created.value;
      Insert(d);
      r := Ok(d);
    }

    /** checkSignal (SignalHandler.cpp:928-943): the named definition's checkSignal. */
    method CheckSignal(name: string) returns (r: Result<Option<nat>>)
      requires Valid()
      modifies Defs()
      ensures Valid()
      ensures old(initializing) ==> r == Err(CouldNotCheckSignal) && unchanged(Defs())
      ensures !old(initializing) ==>
        match IndexOf(NamesOf(signals), name)
        case None => r == Err(SignalDefinitionNotFound) && unchanged(Defs())
        case Some(i) => CheckedAt(signals[i], r) && forall j :: 0 <= j < |signals| && j != i ==> unchanged(signals[j])
    {
      if initializing {
        return Err(CouldNotCheckSignal);
      }
      var k := IndexOf(NamesOf(signals), name);
      if k.None? {
        return Err(SignalDefinitionNotFound);
      }
      AscendingDistinct(signals);
      var d := signals[k.value];
      r := d.CheckSignal();
    }

    /** prepareSignal (SignalHandler.cpp:946-962): the named definition's prepareSignal. */
    method PrepareSignal(name: string) returns (r: Result<nat>)
      requires Valid()
      modifies Defs()
      ensures Valid()
      ensures old(initializing) ==> r == Err(CouldNotPrepareSignal) && unchanged(Defs())
      ensures !old(initializing) ==>
        match IndexOf(NamesOf(signals), name)
        case None => r == Err(SignalDefinitionNotFound) && unchanged(Defs())
        case Some(i) => PreparedAt(signals[i], r) && forall j :: 0 <= j < |signals| && j != i ==> unchanged(signals[j])
    {
      if initializing {
        return Err(CouldNotPrepareSignal);
      }
      var k := IndexOf(NamesOf(signals), name);
      if k.None? {
        return Err(SignalDefinitionNotFound);
      }
      AscendingDistinct(signals);
      var d := signals[k.value];
      r := d.PrepareSignal();
    }

    /**
     * buildInstances (SignalHandler.cpp:964-976): build every definition in
     * name order, then leave initialization. A definition that already has
     * instances stops the loop; `stopped` is its slot, or the count.
     */
    method BuildInstances() returns (r: Result<()>, ghost stopped: nat)
      requires Valid()
      modifies this, Defs()
      ensures Valid() && signals == old(signals)
      ensures !old(initializing) ==> r == Err(CannotBuildSignalInstances) && !initializing && unchanged(Defs())
      ensures old(initializing) ==>
        stopped <= |signals| && (r.Ok? <==> stopped == |signals|)
        && (r.Ok? ==> !initializing)
        && (r.Err? ==> initializing && old(signals[stopped].built) && r == Err(SignalInstancesAlreadyBuilt))
        && (forall j :: 0 <= j < stopped ==> !old(signals[j].built) && BuiltFrom(signals[j]))
        && (forall j :: stopped <= j < |signals| ==> unchanged(signals[j]))
    {
      if !initializing {
        return Err(CannotBuildSignalInstances), 0;
      }
      AscendingDistinct(signals);
      r, stopped := BuildAll(signals);
      if r.Ok? {
        initializing := false;
      }
    }

    /** releaseExpiredSignals (SignalHandler.cpp:978-982) at system time `now`, in name order. */
    method ReleaseExpiredSignals(now: uint64) returns (r: Result<()>, ghost stopped: nat)
      requires Valid()
      modifies Defs()
      ensures Valid()
      ensures stopped <= |signals| && (r.Ok? <==> stopped == |signals|)
      ensures forall j :: 0 <= j < |signals| ==>
        if j < stopped then ReleasedAt(signals[j], now, Ok(()))
        else if j == stopped then ReleasedAt(signals[j], now, r)
        else unchanged(signals[j])
    {
      AscendingDistinct(signals);
      r, stopped := ReleaseEach(signals, now);
    }

    /** map::insert of a definition under a new name, at its place in name order. */
    method Insert(d: CSignalDefinition)
      requires Valid() && initializing && d.Valid() && !d.built && d.name !in NamesOf(signals)
      modifies this
      ensures Valid() && initializing
      ensures var k := InsertionPoint(NamesOf(old(signals)), d.name);
        signals == old(signals)[..k] + [d] + old(signals)[k..]
    {
      var names := NamesOf(signals);
      var k := InsertionPoint(names, d.name);
      InsertKeepsAscending(names, d.name);
      NamesOfInsert(signals, k, d);
      signals := signals[..k] + [d] + signals[k..];
    }
  }
}
