/**
 * Buffered command lists (TcpListHandler.cpp): a fixed pool of lists and a
 * fixed pool of list entries, both allocated once by the constructor and
 * chained into free lists. A client begins a list, appends buffered commands
 * to it, finishes it and asks for it to be executed; the cyclic program then
 * runs the executing list's entries one after the other.
 *
 * The source links pool elements by pointer; here a link is the index of the
 * element in its pool (`Option<nat>`, `None` for nullptr). Lists and entries
 * are taken from their pools in index order and never given back, so the
 * begun lists are the prefix [0, usedLists) of the list pool and the used
 * entries the prefix [0, usedEntries) of the entry pool, each list owning a
 * contiguous range of entries.
 */
module TcpList {
  import opened Wrappers
  import opened Bytes
  import opened TcpPacket

  /** LISTCONTEXT_SIGNALSLOTCOUNT. */
  const SIGNAL_SLOT_COUNT: nat := 16
  /** sizeof (TcpListEntryContext::m_ContextData). */
  const CONTEXT_DATA_SIZE: nat := 32

  /** Command ids of the default list commands (Framework.hpp). */
  const COMMAND_BEGINLIST: uint32 := 101
  const COMMAND_FINISHLIST: uint32 := 102
  const COMMAND_EXECUTELIST: uint32 := 103
  const COMMAND_LISTSTATUS: uint32 := 105

  /** eListEntryState. */
  datatype EntryState = InQueue | InitialExecution | CyclicExecution | Finished | ExecutionError

  /** eListState; ExecutionFinished and ListExecutionError are declared but never entered. */
  datatype ListState = ListInQueue | ListInCreation | ListFinished | ExecutingList | ExecutionFinished | ListExecutionError

  /** The value `(uint32_t) eListState` that a list status reply carries. */
  function ListStateValue(s: ListState): (n: uint32)
    ensures n <= 5
    ensures n == 0 <==> s == ListInQueue
  {
    match s
    case ListInQueue => 0
    case ListInCreation => 1
    case ListFinished => 2
    case ExecutingList => 3
    case ExecutionFinished => 4
    case ListExecutionError => 5
  }

  /** A prepared signal instance held in a signal slot: its handler, its signal and its instance id. */
  datatype SignalRef = SignalRef(handler: string, signal: string, instance: nat)

  /** TcpListEntryContext. */
  datatype EntryContext = EntryContext(state: EntryState, lifetimeInMilliseconds: uint32,
                                       slots: seq<Option<SignalRef>>, data: seq<byte>)

  predicate WellFormedContext(c: EntryContext)
  {
    |c.slots| == SIGNAL_SLOT_COUNT && |c.data| == CONTEXT_DATA_SIZE
  }

  /** An execution context cleared with memset: in queue, no lifetime, empty slots, zero data. */
  function ZeroContext(): EntryContext
  {
    EntryContext(InQueue, 0, seq(SIGNAL_SLOT_COUNT, _ => None), seq(CONTEXT_DATA_SIZE, _ => 0))
  }

  /** TcpListEntry; `handler` is the buffered command handler, None for nullptr. */
  datatype TcpListEntry = TcpListEntry(handler: Option<PacketHandler>, payload: seq<byte>, indexInList: uint32,
                                       context: EntryContext, next: Option<nat>)

  /** TcpList. */
  datatype TcpList = TcpList(listId: uint32, entryCount: uint32, state: ListState,
                             first: Option<nat>, last: Option<nat>, current: Option<nat>,
                             nextUnused: Option<nat>)

  /** The link to pool element i, or nullptr past the end of a pool of n elements. */
  function Link(i: nat, n: nat): Option<nat>
  {
    if i < n then Some(i) else None
  }

  /** List i of a pool of n lists as the constructor leaves it. */
  function FreeList(i: nat, n: nat): TcpList
    requires i + 1 < UINT32_LIMIT
  {
    TcpList(i + 1, 0, ListInQueue, None, None, None, Link(i + 1, n))
  }

  /** Entry k of a pool of n entries as the constructor leaves it. */
  function FreeEntry(k: nat, n: nat): TcpListEntry
  {
    TcpListEntry(None, seq(PAYLOAD_SIZE, _ => 0), 0, ZeroContext(), Link(k + 1, n))
  }

  /** The entry `next` pointers met walking at most `steps` links from `from`. */
  function Walk(es: seq<TcpListEntry>, from: Option<nat>, steps: nat): (w: seq<nat>)
    ensures |w| <= steps
    ensures forall j :: 0 <= j < |w| ==> w[j] < |es|
    decreases steps
  {
    if steps == 0 || from.None? || from.value >= |es| then []
    else [from.value] + Walk(es, es[from.value].next, steps - 1)
  }

  /** Where an entry's state puts it in a list: entries run in order, one at a time. */
  predicate EntryStateFits(l: TcpList, k: nat, s: EntryState)
  {
    if l.state == ExecutingList then
      match l.current
      case None => s == Finished
      case Some(c) => (k < c ==> s == Finished) && (c < k ==> s == InQueue)
    else s == InQueue
  }

  /** A begun list whose entries are the range [b, b + entryCount) of the entry pool. */
  predicate Shaped(l: TcpList, b: nat, usedEntries: nat)
  {
    (l.state == ListInCreation || l.state == ListFinished || l.state == ExecutingList)
    && l.nextUnused.None?
    && b + l.entryCount as int <= usedEntries
    && l.first == (if l.entryCount == 0 then None else Some(b))
    && l.last == (if l.entryCount == 0 then None else Some(b + l.entryCount as int - 1))
    && (l.state != ListInCreation ==> l.entryCount > 0)
    && (l.state == ExecutingList && l.current.Some? ==> b <= l.current.value < b + l.entryCount as int)
    && (l.state != ExecutingList ==> l.current.None?)
  }

  /** Entry k of the list l whose range starts at b. */
  predicate EntryFits(k: nat, e: TcpListEntry, l: TcpList, b: nat)
  {
    b <= k < b + l.entryCount as int
    && e.handler.Some? && e.handler.value.buffered
    && |e.payload| == PAYLOAD_SIZE
    && e.indexInList as int == k - b
    && e.next == Link(k + 1, b + l.entryCount as int)
    && WellFormedContext(e.context)
    && EntryStateFits(l, k, e.context.state)
  }

  /**
   * What the current entry's enterExecution or cyclicExecution did, with
   * `context` the execution context its CPayloadEnvironment holds afterwards.
   * The environment writes through a pointer to the entry's own context, so
   * its writes stay in the entry, also when the handler throws afterwards.
   */
  datatype CallOutcome = Returned(finished: bool, context: EntryContext) | Threw(context: EntryContext)

  /** What one cyclic step does to the executing list. */
  datatype CycleEffect = SetEntryState(state: EntryState) | MoveToNext | DropList

  /** Order of the entry states along an execution. */
  function Rank(s: EntryState): nat
  {
    match s
    case InQueue => 0
    case InitialExecution => 1
    case CyclicExecution => 2
    case Finished => 3
    case ExecutionError => 3
  }

  /**
   * The switch of handleCyclic on the current entry's state: `o` is what
   * enterExecution or cyclicExecution did. An entry never moves backwards,
   * fails exactly when its handler throws, and finishes exactly when
   * cyclicExecution reports it finished.
   */
  function CycleEffectOf(s: EntryState, o: CallOutcome): (e: CycleEffect)
    ensures e.SetEntryState? ==> Rank(s) <= Rank(e.state) && e.state != InQueue
    ensures e.SetEntryState? && e.state == ExecutionError <==> o.Threw? && (s == InitialExecution || s == CyclicExecution)
    ensures e.SetEntryState? && e.state == Finished <==> s == CyclicExecution && o.Returned? && o.finished
    ensures e == MoveToNext <==> s == Finished
    ensures e == DropList <==> s == ExecutionError
  {
    match s
    case InQueue => SetEntryState(InitialExecution)
    case InitialExecution => if o.Threw? then SetEntryState(ExecutionError) else SetEntryState(CyclicExecution)
    case CyclicExecution =>
      if o.Threw? then SetEntryState(ExecutionError)
      else if o.finished then SetEntryState(Finished)
      else SetEntryState(CyclicExecution)
    case Finished => MoveToNext
    case ExecutionError => DropList
  }

  /**
   * getListByID with its guard as intended: the index of list `id` when it
   * has been begun, nullptr (None) otherwise, and LISTDOESNOTEXIST when the
   * caller demands a list.
   */
  function ListById(states: seq<ListState>, id: uint32, mustExist: bool): (r: Result<Option<nat>>)
    ensures (r.Ok? && r.value.Some?) <==> 1 <= id <= |states| && states[id - 1] != ListInQueue
    ensures r.Ok? && r.value.Some? ==> r.value.value == id - 1
    ensures r.Err? <==> mustExist && !(1 <= id <= |states| && states[id - 1] != ListInQueue)
    ensures r.Err? ==> r.error == ListDoesNotExist
  {
    var found := if 1 <= id <= |states| && states[id - 1] != ListInQueue then Some(id - 1) else None;
    if found.None? && mustExist then Err(ListDoesNotExist) else Ok(found)
  }

  /**
   * getListByID as written: the guard `nListID > 0 || nListID <= size` holds
   * for every id, so `nListID - 1` (computed in uint32_t) always reaches
   * std::vector::at, which throws std::out_of_range past the end.
   */
  function ListByIdAsWritten(states: seq<ListState>, id: uint32, mustExist: bool): (r: Result<Option<nat>>)
  {
    var guard := id > 0 || id as int <= |states|;
    var index := (id as int - 1) % UINT32_LIMIT;
    if guard && index >= |states| then Err(OutOfRange)
    else
      var found := if guard && states[index] != ListInQueue then Some(index) else None;
      if found.None? && mustExist then Err(ListDoesNotExist) else Ok(found)
  }

  /** For an id in range the guard as written does no harm. */
  lemma AsWrittenAgreesInRange(states: seq<ListState>, id: uint32, mustExist: bool)
    requires 1 <= id <= |states|
    ensures ListByIdAsWritten(states, id, mustExist) == ListById(states, id, mustExist)
  {
  }

  /** For id 0 or an id past the pool the lookup as written throws instead of answering nullptr. */
  lemma AsWrittenThrowsOutOfRange(states: seq<ListState>, id: uint32, mustExist: bool)
    requires !(1 <= id <= |states|)
    requires |states| < UINT32_LIMIT
    ensures ListByIdAsWritten(states, id, mustExist) == Err(OutOfRange)
    ensures ListById(states, id, mustExist) == if mustExist then Err(ListDoesNotExist) else Ok(None)
  {
  }

  /** The entry pool with `entry` stored at e and linked after `last`. */
  function LinkedIn(es: seq<TcpListEntry>, last: Option<nat>, e: nat, entry: TcpListEntry): (r: seq<TcpListEntry>)
    requires e < |es|
    ensures |r| == |es| && r[e] == entry
  {
    var linked := if last.Some? && last.value < |es| then es[last.value := es[last.value].(next := Some(e))] else es;
    linked[e := entry]
  }

  /** Chains the list pool in index order, as the constructor's countdown loop does. */
  method ChainLists(lists: array<TcpList>) returns (head: Option<nat>)
    requires lists.Length < UINT32_LIMIT
    modifies lists
    ensures head == Link(0, lists.Length)
    ensures forall i :: 0 <= i < lists.Length ==> lists[i] == FreeList(i, lists.Length)
  {
    head := None;
    var i := lists.Length;
    while i > 0
      invariant 0 <= i <= lists.Length
      invariant head == Link(i, lists.Length)
      invariant forall j :: i <= j < lists.Length ==> lists[j] == FreeList(j, lists.Length)
    {
      i := i - 1;
      lists[i] := TcpList(i + 1, 0, ListInQueue, None, None, None, head);
      head := Some(i);
    }
  }

  /**
   * Chains the entry pool in index order and clears each entry, as the
   * constructor's second loop does; the contexts are zero already, since
   * std::vector::resize value-initializes the entries.
   */
  method ChainEntries(entries: array<TcpListEntry>) returns (head: Option<nat>)
    requires forall k :: 0 <= k < entries.Length ==> entries[k].context == ZeroContext()
    modifies entries
    ensures head == Link(0, entries.Length)
    ensures forall k :: 0 <= k < entries.Length ==> entries[k] == FreeEntry(k, entries.Length)
  {
    head := None;
    var k := entries.Length;
    while k > 0
      invariant 0 <= k <= entries.Length
      invariant head == Link(k, entries.Length)
      invariant forall j :: k <= j < entries.Length ==> entries[j] == FreeEntry(j, entries.Length)
      invariant forall j :: 0 <= j < k ==> entries[j].context == ZeroContext()
    {
      k := k - 1;
      var e := entries[k];
      entries[k] := TcpListEntry(None, seq(PAYLOAD_SIZE, _ => 0), 0, e.context, head);
      head := Some(k);
    }
  }

  // ---------------------------------------------------------------------
  // The handler's state as a value, and each operation as a function of it
  // ---------------------------------------------------------------------

  /**
   * The list handler's pools and cursors. `usedLists`, `usedEntries`,
   * `bases` (the first entry of each begun list) and `owner` (the list of
   * each used entry) are bookkeeping the source keeps implicit.
   */
  datatype Snapshot = Snapshot(lists: seq<TcpList>, entries: seq<TcpListEntry>,
                               unusedLists: Option<nat>, unusedEntries: Option<nat>,
                               currentWriteList: Option<nat>, currentExecutionList: Option<nat>,
                               usedLists: nat, usedEntries: nat, bases: seq<nat>, owner: seq<nat>)

  /** Both free chains start at the end of the used prefix of their pool. */
  predicate Pools(p: Snapshot)
  {
    |p.lists| < UINT32_LIMIT && |p.entries| < UINT32_LIMIT
    && p.usedLists <= |p.lists| && p.usedEntries <= |p.entries|
    && |p.bases| == p.usedLists && |p.owner| == p.usedEntries
    && p.unusedLists == Link(p.usedLists, |p.lists|)
    && p.unusedEntries == Link(p.usedEntries, |p.entries|)
  }

  /** The unused part of each pool is as the constructor left it. */
  predicate FreeChains(p: Snapshot)
    requires Pools(p)
  {
    (forall i :: p.usedLists <= i < |p.lists| ==> p.lists[i] == FreeList(i, |p.lists|))
    && (forall k :: p.usedEntries <= k < |p.entries| ==> p.entries[k] == FreeEntry(k, |p.entries|))
  }

  /** Every begun list keeps its id and owns the range of entries that starts at its base. */
  predicate BegunLists(p: Snapshot)
    requires Pools(p)
  {
    forall i :: 0 <= i < p.usedLists ==>
      p.lists[i].listId as int == i + 1 && Shaped(p.lists[i], p.bases[i], p.usedEntries)
      && forall k :: p.bases[i] <= k < p.bases[i] + p.lists[i].entryCount as int ==> p.owner[k] == i
  }

  /** Every used entry sits in the range of the list that owns it. */
  predicate UsedEntries(p: Snapshot)
    requires Pools(p)
  {
    forall k :: 0 <= k < p.usedEntries ==>
      p.owner[k] < p.usedLists && EntryFits(k, p.entries[k], p.lists[p.owner[k]], p.bases[p.owner[k]])
  }

  /**
   * The list being written is the last begun one, in creation, and its range
   * ends at the first unused entry; the list being executed is executing.
   */
  predicate Cursors(p: Snapshot)
    requires Pools(p)
  {
    (p.currentWriteList.Some? ==>
       var w := p.currentWriteList.value;
       w + 1 == p.usedLists && p.lists[w].state == ListInCreation
       && p.bases[w] + p.lists[w].entryCount as int == p.usedEntries)
    && (p.currentExecutionList.Some? ==>
          p.currentExecutionList.value < p.usedLists && p.lists[p.currentExecutionList.value].state == ExecutingList)
  }

  predicate Consistent(p: Snapshot)
  {
    Pools(p) && FreeChains(p) && BegunLists(p) && UsedEntries(p) && Cursors(p)
  }

  /** What the constructor leaves: every list and every entry unused. */
  function Initial(nLists: uint32, nEntries: uint32): (p: Snapshot)
    ensures |p.lists| == nLists as int && |p.entries| == nEntries as int
    ensures p.usedLists == 0 && p.usedEntries == 0
  {
    Snapshot(seq(nLists, i requires 0 <= i < nLists as int => FreeList(i, nLists as int)),
             seq(nEntries, k requires 0 <= k < nEntries as int => FreeEntry(k, nEntries as int)),
             Link(0, nLists as int), Link(0, nEntries as int), None, None, 0, 0, [], [])
  }

  /** An operation's answer and the state it leaves. */
  datatype Step<T> = Step(result: Result<T>, after: Snapshot)

  /** beginList on the state p. */
  function BeginStep(p: Snapshot): (s: Step<uint32>)
    requires Consistent(p)
    ensures |s.after.lists| == |p.lists| && |s.after.entries| == |p.entries|
    ensures s.result.Ok? <==> p.unusedLists.Some?
    ensures s.result.Err? ==> s == Step(Err(TooManyOpenLists), p)
    ensures s.result.Ok? ==> s.result.value as int == p.usedLists + 1
                             && s.after.currentWriteList == Some(p.usedLists)
                             && s.after.lists[p.usedLists].state == ListInCreation
                             && s.after.lists[p.usedLists].entryCount == 0
  {
    if p.unusedLists.None? then Step(Err(TooManyOpenLists), p)
    else
      var i := p.unusedLists.value;
      var l := p.lists[i];
      // Every list on the unused chain is in queue, so LISTISNOTINQUEUE is never thrown.
      Step(Ok(l.listId),
           p.(lists := p.lists[i := TcpList(l.listId, 0, ListInCreation, None, None, None, None)],
              unusedLists := l.nextUnused, currentWriteList := Some(i),
              usedLists := p.usedLists + 1, bases := p.bases + [p.usedEntries]))
  }

  /** finishList on the state p; the answer is the index of the finished list. */
  function FinishStep(p: Snapshot): (s: Step<nat>)
    requires Consistent(p)
    ensures |s.after.lists| == |p.lists| && |s.after.entries| == |p.entries|
    ensures p.currentWriteList.None? ==> s == Step(Err(NotWritingToAnyList), p)
    ensures p.currentWriteList.Some? && p.lists[p.currentWriteList.value].entryCount == 0 ==>
              s == Step(Err(ListIsEmpty), p)
    ensures s.result.Ok? ==> Some(s.result.value) == p.currentWriteList
                             && s.after.currentWriteList.None?
                             && s.after.lists[s.result.value] == p.lists[s.result.value].(state := ListFinished)
  {
    if p.currentWriteList.None? then Step(Err(NotWritingToAnyList), p)
    else
      var w := p.currentWriteList.value;
      // The list being written is in creation, so NOTINLISTCREATION is never thrown.
      if p.lists[w].first.None? then Step(Err(ListIsEmpty), p)
      else Step(Ok(w), p.(lists := p.lists[w := p.lists[w].(state := ListFinished)], currentWriteList := None))
  }

  /** executeList on the state p; the answer is the index of the list now executing. */
  function ExecuteStep(p: Snapshot, id: uint32): (s: Step<nat>)
    requires Consistent(p)
    ensures |s.after.lists| == |p.lists| && |s.after.entries| == |p.entries|
    ensures s.result.Ok? <==> 1 <= id as int <= |p.lists| && p.lists[id - 1].state == ListFinished
    ensures !(1 <= id as int <= |p.lists|) ==> s.result == Err(InvalidListId)
    ensures 1 <= id as int <= |p.lists| && p.lists[id - 1].state != ListFinished ==> s.result == Err(ListIsNotFinished)
    ensures s.after.currentExecutionList == if s.result.Ok? then Some(id as int - 1) else None
    ensures s.result.Ok? ==> s.result.value == id as int - 1
                             && s.after.lists[id - 1].current == p.lists[id - 1].first
                             && s.after.lists[id - 1].current.Some?
    ensures s.result.Err? ==> s.after == p.(currentExecutionList := None)
  {
    var q := p.(currentExecutionList := None);
    if id == 0 || id as int > |p.lists| then Step(Err(InvalidListId), q)
    else
      var i := id as int - 1;
      var l := p.lists[i];
      if l.state != ListFinished then Step(Err(ListIsNotFinished), q)
      else
        // A finished list has entries, so executeList's LISTISEMPTY is never thrown.
        Step(Ok(i), q.(lists := p.lists[i := l.(state := ExecutingList, current := l.first)],
                       currentExecutionList := Some(i)))
  }

  /** addCommandToCurrentList on the state p; the answer is the index of the new entry. */
  function AddStep(p: Snapshot, handler: PacketHandler, payload: seq<byte>): (s: Step<nat>)
    requires Consistent(p)
    ensures |s.after.lists| == |p.lists| && |s.after.entries| == |p.entries|
    ensures p.currentWriteList.None? ==> s == Step(Err(NoListToWriteTo), p)
    ensures p.currentWriteList.Some? && p.unusedEntries.None? ==> s == Step(Err(NoListEntriesLeft), p)
    ensures s.result.Ok? <==> p.currentWriteList.Some? && p.unusedEntries.Some?
    ensures s.result.Ok? ==>
              var w := p.currentWriteList.value;
              s.result.value == p.usedEntries
              && s.after.entries[s.result.value] == TcpListEntry(Some(handler), payload, p.lists[w].entryCount, ZeroContext(), None)
              && s.after.lists[w].entryCount as int == p.lists[w].entryCount as int + 1
              && s.after.lists[w].last == Some(s.result.value)
  {
    if p.currentWriteList.None? then Step(Err(NoListToWriteTo), p)
    else if p.unusedEntries.None? then Step(Err(NoListEntriesLeft), p)
    else
      var w := p.currentWriteList.value;
      var e := p.unusedEntries.value;
      var l := p.lists[w];
      var entry := TcpListEntry(Some(handler), payload, l.entryCount, ZeroContext(), None);
      Step(Ok(e),
           p.(entries := LinkedIn(p.entries, l.last, e, entry),
              lists := p.lists[w := l.(entryCount := l.entryCount + 1,
                                       first := if l.first.None? then Some(e) else l.first,
                                       last := Some(e))],
              unusedEntries := p.entries[e].next,
              usedEntries := p.usedEntries + 1, owner := p.owner + [w]))
  }

  /**
   * The current entry's context after a cycle: a handler that ran
   * (in InitialExecution or CyclicExecution) leaves the lifetime and the
   * signal slots its environment set, and handleCyclic then sets the state.
   */
  function Handled(c: EntryContext, o: CallOutcome, st: EntryState): (r: EntryContext)
    ensures r.state == st && r.data == c.data
    ensures c.state != InQueue ==> r.lifetimeInMilliseconds == o.context.lifetimeInMilliseconds && r.slots == o.context.slots
    ensures c.state == InQueue ==> r == c.(state := st)
  {
    if c.state == InQueue then c.(state := st)
    else c.(state := st, lifetimeInMilliseconds := o.context.lifetimeInMilliseconds, slots := o.context.slots)
  }

  /** handleCyclic on the state p, with `o` what the current entry's handler did. */
  function CycleStep(p: Snapshot, o: CallOutcome): (q: Snapshot)
    requires WellFormedContext(o.context)
    ensures p.currentExecutionList.None? ==> q == p
    ensures q.(lists := p.lists, entries := p.entries, currentExecutionList := p.currentExecutionList) == p
    ensures q.currentExecutionList != p.currentExecutionList ==> q.currentExecutionList.None?
  {
    // The pointers a consistent handler holds are in range (CurrentEntryFits).
    if p.currentExecutionList.None? || p.currentExecutionList.value >= |p.lists| then p
    else
      var i := p.currentExecutionList.value;
      var l := p.lists[i];
      if l.current.None? || l.current.value >= |p.entries| then p
      else
        var c := l.current.value;
        var entry := p.entries[c];
        // A list entry always has a handler, so INTERNALLISTERROR is never thrown.
        match CycleEffectOf(entry.context.state, o)
        case SetEntryState(st) => p.(entries := p.entries[c := entry.(context := Handled(entry.context, o, st))])
        case MoveToNext => p.(lists := p.lists[i := l.(current := entry.next)])
        case DropList => p.(currentExecutionList := None)
  }

  // ---------------------------------------------------------------------
  // The operations keep the handler consistent
  // ---------------------------------------------------------------------

  lemma InitialConsistent(nLists: uint32, nEntries: uint32)
    ensures Consistent(Initial(nLists, nEntries))
  {
  }

  lemma BeginKeepsConsistent(p: Snapshot)
    requires Consistent(p)
    ensures Consistent(BeginStep(p).after)
  {
  }

  lemma FinishKeepsConsistent(p: Snapshot)
    requires Consistent(p)
    ensures Consistent(FinishStep(p).after)
  {
    var s := FinishStep(p);
    if s.result.Ok? {
      var w := s.result.value;
      var l' := p.lists[w].(state := ListFinished);
      assert s.after == p.(lists := p.lists[w := l'], currentWriteList := None);
      ReplaceListKeepsConsistent(p, w, l', None, p.currentExecutionList);
    }
  }

  lemma ExecuteKeepsConsistent(p: Snapshot, id: uint32)
    requires Consistent(p)
    ensures Consistent(ExecuteStep(p, id).after)
  {
    var s := ExecuteStep(p, id);
    if s.result.Ok? {
      var i := s.result.value;
      var l := p.lists[i];
      var l' := l.(state := ExecutingList, current := l.first);
      assert s.after == p.(lists := p.lists[i := l'], currentExecutionList := Some(i));
      forall k | p.bases[i] <= k < p.bases[i] + l.entryCount as int
        ensures EntryStateFits(l', k, p.entries[k].context.state)
      {
        assert k < p.usedEntries && p.owner[k] == i;
        assert EntryFits(k, p.entries[k], l, p.bases[i]);
      }
      assert Cursors(s.after);
      ReplaceListKeepsConsistent(p, i, l', p.currentWriteList, Some(i));
    } else {
      assert s.after == p.(currentExecutionList := None);
    }
  }

  /**
   * Replacing begun list i by l', when l' keeps the list's id and range and
   * fits the states of the list's entries, keeps the handler consistent.
   */
  lemma ReplaceListKeepsConsistent(p: Snapshot, i: nat, l': TcpList, cw: Option<nat>, ce: Option<nat>)
    requires Consistent(p) && i < p.usedLists
    requires l'.listId == p.lists[i].listId && l'.entryCount == p.lists[i].entryCount
    requires Shaped(l', p.bases[i], p.usedEntries)
    requires forall k :: p.bases[i] <= k < p.bases[i] + l'.entryCount as int ==> EntryStateFits(l', k, p.entries[k].context.state)
    requires Cursors(p.(lists := p.lists[i := l'], currentWriteList := cw, currentExecutionList := ce))
    ensures Consistent(p.(lists := p.lists[i := l'], currentWriteList := cw, currentExecutionList := ce))
  {
    var q := p.(lists := p.lists[i := l'], currentWriteList := cw, currentExecutionList := ce);
    assert Pools(q);
    forall j | p.usedLists <= j < |q.lists|
      ensures q.lists[j] == FreeList(j, |q.lists|)
    {
      assert q.lists[j] == p.lists[j];
    }
    assert FreeChains(q);
    forall j | 0 <= j < q.usedLists
      ensures q.lists[j].listId as int == j + 1 && Shaped(q.lists[j], q.bases[j], q.usedEntries)
    {
      if j != i {
        assert q.lists[j] == p.lists[j];
      }
    }
    assert BegunLists(q);
    forall k | 0 <= k < q.usedEntries
      ensures EntryFits(k, q.entries[k], q.lists[q.owner[k]], q.bases[q.owner[k]])
    {
      var j := p.owner[k];
      assert EntryFits(k, p.entries[k], p.lists[j], p.bases[j]);
      if j != i {
        assert q.lists[j] == p.lists[j];
      }
    }
  }

  lemma AddKeepsConsistent(p: Snapshot, handler: PacketHandler, payload: seq<byte>)
    requires Consistent(p) && handler.buffered && |payload| == PAYLOAD_SIZE
    ensures Consistent(AddStep(p, handler, payload).after)
  {
    if p.currentWriteList.Some? && p.unusedEntries.Some? {
      var q := AddStep(p, handler, payload).after;
      assert Pools(q);
      AddKeepsFreeChains(p, handler, payload);
      AddKeepsBegunLists(p, handler, payload);
      AddKeepsUsedEntries(p, handler, payload);
    }
  }

  lemma AddKeepsFreeChains(p: Snapshot, handler: PacketHandler, payload: seq<byte>)
    requires Consistent(p) && p.currentWriteList.Some? && p.unusedEntries.Some?
    ensures Pools(AddStep(p, handler, payload).after)
    ensures FreeChains(AddStep(p, handler, payload).after)
  {
    var q := AddStep(p, handler, payload).after;
    var w := p.currentWriteList.value;
    var e := p.usedEntries;
    var l := p.lists[w];
    assert l.last.Some? ==> l.last.value < e;
    forall k | e < k < |q.entries|
      ensures q.entries[k] == p.entries[k]
    {
    }
  }

  lemma AddKeepsBegunLists(p: Snapshot, handler: PacketHandler, payload: seq<byte>)
    requires Consistent(p) && p.currentWriteList.Some? && p.unusedEntries.Some?
    ensures Pools(AddStep(p, handler, payload).after)
    ensures BegunLists(AddStep(p, handler, payload).after)
  {
    var q := AddStep(p, handler, payload).after;
    var w := p.currentWriteList.value;
    forall i | 0 <= i < q.usedLists
      ensures q.lists[i].listId as int == i + 1 && Shaped(q.lists[i], q.bases[i], q.usedEntries)
      ensures forall k :: q.bases[i] <= k < q.bases[i] + q.lists[i].entryCount as int ==> q.owner[k] == i
    {
      if i != w {
        assert q.lists[i] == p.lists[i];
      }
    }
  }

  lemma AddKeepsUsedEntries(p: Snapshot, handler: PacketHandler, payload: seq<byte>)
    requires Consistent(p) && p.currentWriteList.Some? && p.unusedEntries.Some?
    requires handler.buffered && |payload| == PAYLOAD_SIZE
    ensures Pools(AddStep(p, handler, payload).after)
    ensures UsedEntries(AddStep(p, handler, payload).after)
  {
    var q := AddStep(p, handler, payload).after;
    forall k | 0 <= k < q.usedEntries
      ensures q.owner[k] < q.usedLists && EntryFits(k, q.entries[k], q.lists[q.owner[k]], q.bases[q.owner[k]])
    {
      if k < p.usedEntries {
        OldEntryStillFits(p, handler, payload, k);
      }
    }
  }

  /** An entry that was in use before addCommandToCurrentList still fits its list after it. */
  lemma OldEntryStillFits(p: Snapshot, handler: PacketHandler, payload: seq<byte>, k: nat)
    requires Consistent(p) && p.currentWriteList.Some? && p.unusedEntries.Some?
    requires k < p.usedEntries
    ensures var q := AddStep(p, handler, payload).after;
            Pools(q) && q.owner[k] < q.usedLists && EntryFits(k, q.entries[k], q.lists[q.owner[k]], q.bases[q.owner[k]])
  {
    var q := AddStep(p, handler, payload).after;
    var w := p.currentWriteList.value;
    var e := p.usedEntries;
    var l := p.lists[w];
    var n := l.entryCount as int;
    var j := p.owner[k];
    assert EntryFits(k, p.entries[k], p.lists[j], p.bases[j]);
    // The entry linked to the new one is the list's last, e - 1, which the list owns.
    assert n > 0 ==> l.last == Some(e - 1) && p.owner[e - 1] == w;
    assert q.owner[k] == j;
    if j == w {
      assert q.entries[k] == if k == e - 1 then p.entries[k].(next := Some(e)) else p.entries[k];
    } else {
      assert k != e - 1 || n == 0;
      assert q.entries[k] == p.entries[k] && q.lists[j] == p.lists[j];
    }
  }

  lemma CycleKeepsConsistent(p: Snapshot, o: CallOutcome)
    requires Consistent(p) && WellFormedContext(o.context)
    ensures Consistent(CycleStep(p, o))
  {
    if p.currentExecutionList.Some? && p.lists[p.currentExecutionList.value].current.Some? {
      var c := p.lists[p.currentExecutionList.value].current.value;
      match CycleEffectOf(p.entries[c].context.state, o)
      case SetEntryState(st) => SetStateKeepsConsistent(p, o);
      case MoveToNext => MoveToNextKeepsConsistent(p, o);
      case DropList =>
    }
  }

  /** The current entry is in the executing list's range. */
  lemma CurrentEntryFits(p: Snapshot)
    requires Consistent(p) && p.currentExecutionList.Some? && p.lists[p.currentExecutionList.value].current.Some?
    ensures var i := p.currentExecutionList.value;
            var c := p.lists[i].current.value;
            c < p.usedEntries && p.owner[c] == i && EntryFits(c, p.entries[c], p.lists[i], p.bases[i])
  {
  }

  lemma SetStateKeepsConsistent(p: Snapshot, o: CallOutcome)
    requires Consistent(p) && WellFormedContext(o.context)
    requires p.currentExecutionList.Some? && p.lists[p.currentExecutionList.value].current.Some?
    requires CycleEffectOf(p.entries[p.lists[p.currentExecutionList.value].current.value].context.state, o).SetEntryState?
    ensures Consistent(CycleStep(p, o))
  {
    var q := CycleStep(p, o);
    var c := p.lists[p.currentExecutionList.value].current.value;
    CurrentEntryFits(p);
    assert q.lists == p.lists;
    forall k | 0 <= k < q.usedEntries
      ensures EntryFits(k, q.entries[k], q.lists[q.owner[k]], q.bases[q.owner[k]])
    {
      if k != c {
        assert q.entries[k] == p.entries[k];
      }
    }
  }

  lemma MoveToNextKeepsConsistent(p: Snapshot, o: CallOutcome)
    requires Consistent(p) && WellFormedContext(o.context)
    requires p.currentExecutionList.Some? && p.lists[p.currentExecutionList.value].current.Some?
    requires CycleEffectOf(p.entries[p.lists[p.currentExecutionList.value].current.value].context.state, o) == MoveToNext
    ensures Consistent(CycleStep(p, o))
  {
    var i := p.currentExecutionList.value;
    var l := p.lists[i];
    var c := l.current.value;
    var b := p.bases[i];
    CurrentEntryFits(p);
    var l' := l.(current := p.entries[c].next);
    assert CycleStep(p, o) == p.(lists := p.lists[i := l']);
    forall k | b <= k < b + l.entryCount as int
      ensures EntryStateFits(l', k, p.entries[k].context.state)
    {
      assert k < p.usedEntries && p.owner[k] == i;
      assert EntryFits(k, p.entries[k], l, b);
      AdvancedEntryFits(l, b, c, p.entries[c].context.state, k, p.entries[k].context.state);
    }
    ReplaceListKeepsConsistent(p, i, l', p.currentWriteList, p.currentExecutionList);
  }

  /** Moving a list past its finished current entry keeps every entry state in place. */
  lemma AdvancedEntryFits(l: TcpList, b: nat, c: nat, sc: EntryState, k: nat, s: EntryState)
    requires l.state == ExecutingList && l.current == Some(c) && b <= c < b + l.entryCount as int
    requires sc == Finished && (k == c ==> s == sc)
    requires b <= k < b + l.entryCount as int && EntryStateFits(l, k, s)
    ensures EntryStateFits(l.(current := Link(c + 1, b + l.entryCount as int)), k, s)
  {
  }

  // ---------------------------------------------------------------------
  // What a consistent handler promises
  // ---------------------------------------------------------------------

  /** The indices k, k + 1, ..., end - 1. */
  function Range(k: nat, end: nat): (r: seq<nat>)
    requires k <= end
    ensures |r| == end - k && forall j :: 0 <= j < |r| ==> r[j] == k + j
  {
    seq(end - k, j requires 0 <= j < end - k => k + j)
  }

  lemma {:induction false} WalkAlongRange(es: seq<TcpListEntry>, k: nat, end: nat)
    requires k < end <= |es|
    requires forall m :: k <= m < end ==> es[m].next == Link(m + 1, end)
    ensures Walk(es, Some(k), end - k + 1) == Range(k, end)
    decreases end - k
  {
    if k + 1 < end {
      WalkAlongRange(es, k + 1, end);
      assert Range(k, end) == [k] + Range(k + 1, end);
    }
  }

  /**
   * Following a begun list from m_pFirstEntry visits exactly its entryCount
   * entries, in the order they were added and numbered 0, 1, ... by
   * m_nIndexInList, and then reaches nullptr.
   */
  lemma ListWalksItsEntries(p: Snapshot, i: nat)
    requires Consistent(p) && i < p.usedLists
    ensures var l := p.lists[i];
            Walk(p.entries, l.first, l.entryCount as int + 1) == Range(p.bases[i], p.bases[i] + l.entryCount as int)
    ensures var b := p.bases[i];
            forall k :: b <= k < b + p.lists[i].entryCount as int ==> p.entries[k].indexInList as int == k - b
    ensures var b := p.bases[i];
            var end := b + p.lists[i].entryCount as int;
            end <= |p.entries| && forall k :: b <= k < end ==> p.entries[k].next == Link(k + 1, end)
  {
    var l := p.lists[i];
    var b := p.bases[i];
    var end := b + l.entryCount as int;
    forall m | b <= m < end
      ensures p.entries[m].next == Link(m + 1, end) && p.entries[m].indexInList as int == m - b
    {
      assert m < p.usedEntries && p.owner[m] == i;
      assert EntryFits(m, p.entries[m], l, b);
    }
    if l.entryCount > 0 {
      WalkAlongRange(p.entries, b, end);
    }
  }

  /** addCommandToCurrentList appends the new entry at the end of the list being written. */
  lemma AddAppendsToList(p: Snapshot, handler: PacketHandler, payload: seq<byte>)
    requires Consistent(p) && handler.buffered && |payload| == PAYLOAD_SIZE
    requires p.currentWriteList.Some? && p.unusedEntries.Some?
    ensures var w := p.currentWriteList.value; var s := AddStep(p, handler, payload); var n := p.lists[w].entryCount as int;
            Walk(s.after.entries, s.after.lists[w].first, n + 2) == Walk(p.entries, p.lists[w].first, n + 1) + [s.result.value]
  {
    var w := p.currentWriteList.value;
    var b := p.bases[w];
    var n := p.lists[w].entryCount as int;
    var entry := TcpListEntry(Some(handler), payload, p.lists[w].entryCount, ZeroContext(), None);
    AddStepLinksEntry(p, handler, payload);
    ListWalksItsEntries(p, w);
    var s := AddStep(p, handler, payload);
    WalkOfLinkedIn(p.entries, b, n, entry);
    WalkGrowsByOne(p.entries, s.after.entries, p.lists[w].first, s.after.lists[w].first, b, n);
  }

  /** A walk over b .. b+n that grows into one over b .. b+n+1 gained exactly the index b + n. */
  lemma WalkGrowsByOne(es: seq<TcpListEntry>, es': seq<TcpListEntry>, first: Option<nat>, first': Option<nat>, b: nat, n: nat)
    requires Walk(es, first, n + 1) == Range(b, b + n)
    requires Walk(es', first', n + 2) == Range(b, b + n + 1)
    ensures Walk(es', first', n + 2) == Walk(es, first, n + 1) + [b + n]
  {
    assert Range(b, b + n + 1) == Range(b, b + n) + [b + n];
  }

  /** The shape of the state addCommandToCurrentList leaves behind, in terms of the written list's base. */
  lemma AddStepLinksEntry(p: Snapshot, handler: PacketHandler, payload: seq<byte>)
    requires Consistent(p)
    requires p.currentWriteList.Some? && p.unusedEntries.Some?
    ensures var w := p.currentWriteList.value; var b := p.bases[w]; var n := p.lists[w].entryCount as int;
            var s := AddStep(p, handler, payload);
            w < p.usedLists && b + n < |p.entries| && s.result == Ok(b + n)
            && s.after.lists[w].first == Some(b)
            && s.after.entries == LinkedIn(p.entries, if n == 0 then None else Some(b + n - 1), b + n,
                                           TcpListEntry(Some(handler), payload, p.lists[w].entryCount, ZeroContext(), None))
  {
    var w := p.currentWriteList.value;
    assert w < p.usedLists && Shaped(p.lists[w], p.bases[w], p.usedEntries);
    assert p.usedEntries == p.bases[w] + p.lists[w].entryCount as int;
  }

  /** Linking a new entry behind a chained range extends the walk by that entry. */
  lemma WalkOfLinkedIn(es: seq<TcpListEntry>, b: nat, n: nat, entry: TcpListEntry)
    requires b + n < |es| && entry.next.None?
    requires forall k :: b <= k < b + n ==> es[k].next == Link(k + 1, b + n)
    ensures Walk(LinkedIn(es, if n == 0 then None else Some(b + n - 1), b + n, entry), Some(b), n + 2) == Range(b, b + n + 1)
  {
    LinkedInExtendsRange(es, b, n, entry);
    WalkAlongRange(LinkedIn(es, if n == 0 then None else Some(b + n - 1), b + n, entry), b, b + n + 1);
  }

  lemma LinkedInExtendsRange(es: seq<TcpListEntry>, b: nat, n: nat, entry: TcpListEntry)
    requires b + n < |es| && entry.next.None?
    requires forall k :: b <= k < b + n ==> es[k].next == Link(k + 1, b + n)
    ensures var es' := LinkedIn(es, if n == 0 then None else Some(b + n - 1), b + n, entry);
            forall k :: b <= k < b + n + 1 ==> es'[k].next == Link(k + 1, b + n + 1)
  {
  }

  /** n calls of handleCyclic whose handler calls all do `o`. */
  function RunCycles(p: Snapshot, o: CallOutcome, n: nat): Snapshot
    requires WellFormedContext(o.context)
    decreases n
  {
    if n == 0 then p else RunCycles(CycleStep(p, o), o, n - 1)
  }

  /**
   * An entry whose handler finishes at once takes four cycles: it is
   * entered, executed cyclically once and reports itself finished, and then
   * the list moves on to the next entry.
   */
  lemma EntryFinishesInFourCycles(p: Snapshot)
    requires Consistent(p) && p.currentExecutionList.Some?
    requires p.lists[p.currentExecutionList.value].current.Some?
    requires p.entries[p.lists[p.currentExecutionList.value].current.value].context.state == InQueue
    ensures var i := p.currentExecutionList.value;
            var c := p.lists[i].current.value;
            var q := RunCycles(p, Returned(true, ZeroContext()), 4);
            q.currentExecutionList == Some(i) && q.lists[i].current == p.entries[c].next
            && q.entries[c].context.state == Finished
  {
    CurrentEntryFits(p);
    var o := Returned(true, ZeroContext());
    var p1 := CycleStep(p, o);
    var p2 := CycleStep(p1, o);
    var p3 := CycleStep(p2, o);
    var p4 := CycleStep(p3, o);
    assert RunCycles(p3, o, 1) == p4;
    assert RunCycles(p2, o, 2) == p4;
    assert RunCycles(p1, o, 3) == p4;
  }

  /**
   * What enterExecution's environment writes stays in the entry: after the
   * cycle that entered it, the entry is in cyclic execution and its context,
   * which the next cycle hands to cyclicExecution's environment, holds the
   * signal slots and the lifetime that environment set.
   */
  lemma EnteredContextPersists(p: Snapshot, o: CallOutcome)
    requires Consistent(p) && WellFormedContext(o.context) && o.Returned?
    requires p.currentExecutionList.Some? && p.lists[p.currentExecutionList.value].current.Some?
    requires p.entries[p.lists[p.currentExecutionList.value].current.value].context.state == InitialExecution
    ensures var i := p.currentExecutionList.value;
            var c := p.lists[i].current.value;
            var q := CycleStep(p, o);
            Consistent(q) && q.currentExecutionList == Some(i) && q.lists[i].current == Some(c)
            && q.entries[c].context.state == CyclicExecution
            && q.entries[c].context.slots == o.context.slots
            && q.entries[c].context.lifetimeInMilliseconds == o.context.lifetimeInMilliseconds
  {
  }

  /**
   * A signal prepared in slot `slot` during enterExecution is the one
   * signalHasBeenProcessed(slot) asks about in the next cycle.
   */
  lemma PreparedSlotSeenByCyclicExecution(p: Snapshot, o: CallOutcome, slot: nat, signal: SignalRef)
    requires Consistent(p) && WellFormedContext(o.context) && o.Returned?
    requires p.currentExecutionList.Some? && p.lists[p.currentExecutionList.value].current.Some?
    requires p.entries[p.lists[p.currentExecutionList.value].current.value].context.state == InitialExecution
    requires slot < SIGNAL_SLOT_COUNT && o.context.slots[slot] == Some(signal)
    ensures var i := p.currentExecutionList.value;
            var c := p.lists[i].current.value;
            var q := CycleStep(p, o);
            q.entries[c].context.state == CyclicExecution && q.entries[c].context.slots[slot] == Some(signal)
  {
  }

  /** The state of every list, in pool order. */
  function States(p: Snapshot): (s: seq<ListState>)
    ensures |s| == |p.lists| && forall i :: 0 <= i < |s| ==> s[i] == p.lists[i].state
  {
    seq(|p.lists|, i requires 0 <= i < |p.lists| => p.lists[i].state)
  }

  /** The current entry of a begun list is one of its own entries. */
  lemma CurrentOfBegunList(p: Snapshot, i: nat)
    requires Consistent(p) && i < p.usedLists && p.lists[i].current.Some?
    ensures var c := p.lists[i].current.value;
            c < |p.entries| && p.entries[c].indexInList as int == c - p.bases[i]
  {
    var c := p.lists[i].current.value;
    assert c < p.usedEntries && p.owner[c] == i;
    assert EntryFits(c, p.entries[c], p.lists[i], p.bases[i]);
  }

  /** The four words a list status reply carries for the lookup result `found`. */
  function StatusWords(p: Snapshot, found: Option<nat>): (ws: seq<uint32>)
    requires Consistent(p)
    requires found.Some? ==> found.value < p.usedLists
    ensures |ws| == 4
    ensures found.None? ==> ws == [0, 0, 0, 0]
    ensures found.Some? ==>
              var i := found.value;
              var l := p.lists[i];
              ws[0] == l.listId && ws[1] == ListStateValue(l.state) && ws[2] == l.entryCount
              && ws[3] as int == if l.current.Some? then l.current.value - p.bases[i] else 0
  {
    match found
    case None => [0, 0, 0, 0]
    case Some(i) =>
      var l := p.lists[i];
      if l.current.Some? then
        CurrentOfBegunList(p, i);
        [l.listId, ListStateValue(l.state), l.entryCount, p.entries[l.current.value].indexInList]
      else
        [l.listId, ListStateValue(l.state), l.entryCount, 0]
  }

  /**
   * The reply of the list status command for list `id`: the list's id, its
   * state, its entry count and the position of the entry being executed,
   * or four zeros for a list that has not been begun.
   */
  function ListStatus(p: Snapshot, id: uint32): (ws: seq<uint32>)
    requires Consistent(p)
    ensures |ws| == 4
    ensures ws[0] != 0 <==> 1 <= id as int <= |p.lists| && p.lists[id - 1].state != ListInQueue
    ensures ws[0] == 0 ==> ws == [0, 0, 0, 0]
    ensures ws[0] != 0 ==>
              var i := id as int - 1;
              var l := p.lists[i];
              ws[0] == id && ws[1] == ListStateValue(l.state) && ws[2] == l.entryCount
              && ws[3] as int == if l.current.Some? then l.current.value - p.bases[i] else 0
  {
    StatusWords(p, ListById(States(p), id, false).value)
  }

  /** The list status command as written, with getListByID as written. */
  function ListStatusAsWritten(p: Snapshot, id: uint32): HandlerOutcome
    requires Consistent(p)
  {
    var found := ListByIdAsWritten(States(p), id, false);
    if found.Err? then Failed(found.error)
    else if found.value.Some? && found.value.value >= p.usedLists then Failed(OutOfRange)
    else Completed(Words(StatusWords(p, found.value)))
  }

  /** The concatenated little-endian bytes of some uint32 words, as repeated addUint32 calls write them. */
  function Words(ws: seq<uint32>): (r: seq<byte>)
    ensures |r| == 4 * |ws|
  {
    if ws == [] then [] else EncodeUint32(ws[0]) + Words(ws[1..])
  }

  /**
   * The status of list 0 is asked for by a client that holds no list id:
   * as intended the reply is four zeros, as written the command fails with
   * std::out_of_range, an exception the packet registry does not catch.
   */
  lemma ListStatusOfIdZero(p: Snapshot)
    requires Consistent(p)
    ensures ListStatus(p, 0) == [0, 0, 0, 0]
    ensures ListStatusAsWritten(p, 0) == Failed(OutOfRange)
    ensures !IsFrameworkError(OutOfRange)
  {
    AsWrittenThrowsOutOfRange(States(p), 0, false);
  }

  // ---------------------------------------------------------------------
  // The handler object
  // ---------------------------------------------------------------------

  class CTcpListHandler {
    const lists: array<TcpList>
    const entries: array<TcpListEntry>
    var unusedLists: Option<nat>
    var unusedEntries: Option<nat>
    var currentWriteList: Option<nat>
    var currentExecutionList: Option<nat>
    ghost var usedLists: nat
    ghost var usedEntries: nat
    ghost var bases: seq<nat>
    ghost var owner: seq<nat>

    ghost function Snap(): Snapshot
      reads this, lists, entries
    {
      Snapshot(lists[..], entries[..], unusedLists, unusedEntries, currentWriteList, currentExecutionList,
               usedLists, usedEntries, bases, owner)
    }

    ghost predicate Valid()
      reads this, lists, entries
    {
      Consistent(Snap())
    }

    /** The state of every list, in pool order. */
    function ListStates(): (s: seq<ListState>)
      reads this, lists
      ensures |s| == lists.Length
      ensures forall i :: 0 <= i < |s| ==> s[i] == lists[i].state
    {
      seq(lists.Length, i reads lists requires 0 <= i < lists.Length => lists[i].state)
    }

    /** CTcpListHandler(nListBufferSize, nListEntryBufferSize, ...). */
    constructor (nLists: uint32, nEntries: uint32)
      ensures Valid() && fresh(lists) && fresh(entries)
      ensures Snap() == Initial(nLists, nEntries)
    {
      lists := new TcpList[nLists](_ => TcpList(0, 0, ListInQueue, None, None, None, None));
      entries := new TcpListEntry[nEntries](_ => TcpListEntry(None, [], 0, ZeroContext(), None));
      currentWriteList := None;
      currentExecutionList := None;
      usedLists := 0;
      usedEntries := 0;
      bases := [];
      owner := [];
      new;
      unusedLists := ChainLists(lists);
      unusedEntries := ChainEntries(entries);
      InitialConsistent(nLists, nEntries);
      assert lists[..] == Initial(nLists, nEntries).lists;
      assert entries[..] == Initial(nLists, nEntries).entries;
    }

    /** hasCurrentList. */
    predicate HasCurrentList()
      reads this
    {
      currentWriteList.Some?
    }

    /** beginList. */
    method BeginList() returns (r: Result<uint32>)
      requires Valid()
      modifies this, lists
      ensures Valid()
      ensures Step(r, Snap()) == BeginStep(old(Snap()))
    {
      ghost var p := Snap();
      BeginKeepsConsistent(p);
      if unusedLists.None? {
        return Err(TooManyOpenLists);
      }
      var i := unusedLists.value;
      var l := lists[i];
      unusedLists := l.nextUnused;
      lists[i] := TcpList(l.listId, 0, ListInCreation, None, None, None, None);
      currentWriteList := Some(i);
      bases := bases + [usedEntries];
      usedLists := usedLists + 1;
      r := Ok(l.listId);
      assert lists[..] == p.lists[i := lists[i]];
    }

    /** finishList; the answer is the index of the finished list. */
    method FinishList() returns (r: Result<nat>)
      requires Valid()
      modifies this`currentWriteList, lists
      ensures Valid()
      ensures Step(r, Snap()) == FinishStep(old(Snap()))
    {
      ghost var p := Snap();
      FinishKeepsConsistent(p);
      if currentWriteList.None? {
        return Err(NotWritingToAnyList);
      }
      var w := currentWriteList.value;
      if lists[w].first.None? {
        return Err(ListIsEmpty);
      }
      currentWriteList := None;
      lists[w] := lists[w].(state := ListFinished);
      r := Ok(w);
      assert lists[..] == p.lists[w := lists[w]];
    }

    /** executeList; the answer is the index of the list now executing. */
    method ExecuteList(id: uint32) returns (r: Result<nat>)
      requires Valid()
      modifies this`currentExecutionList, lists
      ensures Valid()
      ensures Step(r, Snap()) == ExecuteStep(old(Snap()), id)
    {
      ghost var p := Snap();
      ExecuteKeepsConsistent(p, id);
      currentExecutionList := None;
      if id == 0 || id as int > lists.Length {
        return Err(InvalidListId);
      }
      var i := id as int - 1;
      var l := lists[i];
      if l.state != ListFinished {
        return Err(ListIsNotFinished);
      }
      lists[i] := l.(state := ExecutingList, current := l.first);
      currentExecutionList := Some(i);
      r := Ok(i);
      assert lists[..] == p.lists[i := lists[i]];
    }

    /** getListByID, with the guard corrected (see ListByIdAsWritten). */
    method GetListById(id: uint32, mustExist: bool) returns (r: Result<Option<nat>>)
      requires Valid()
      ensures r == ListById(ListStates(), id, mustExist)
    {
      var found: Option<nat> := None;
      if id > 0 && id as int <= lists.Length {
        if lists[id - 1].state != ListInQueue {
          found := Some(id as int - 1);
        }
      }
      if found.None? && mustExist {
        return Err(ListDoesNotExist);
      }
      r := Ok(found);
    }

    /** addCommandToCurrentList; the answer is the index of the new entry. */
    method AddCommandToCurrentList(handler: PacketHandler, payload: seq<byte>) returns (r: Result<nat>)
      requires Valid() && handler.buffered && |payload| == PAYLOAD_SIZE
      modifies this, lists, entries
      ensures Valid()
      ensures Step(r, Snap()) == AddStep(old(Snap()), handler, payload)
    {
      ghost var p := Snap();
      AddKeepsConsistent(p, handler, payload);
      if currentWriteList.None? {
        return Err(NoListToWriteTo);
      }
      if unusedEntries.None? {
        return Err(NoListEntriesLeft);
      }
      var w := currentWriteList.value;
      var e := unusedEntries.value;
      var l := lists[w];
      var entry := TcpListEntry(Some(handler), payload, l.entryCount, ZeroContext(), None);
      unusedEntries := entries[e].next;
      if l.last.Some? {
        var last := l.last.value;
        entries[last] := entries[last].(next := Some(e));
      }
      entries[e] := entry;
      lists[w] := l.(entryCount := l.entryCount + 1, first := if l.first.None? then Some(e) else l.first, last := Some(e));
      owner := owner + [w];
      usedEntries := usedEntries + 1;
      r := Ok(e);
      assert entries[..] == LinkedIn(p.entries, l.last, e, entry);
      assert lists[..] == p.lists[w := lists[w]];
    }

    /** handleCyclic, with `o` what the current entry's enterExecution or cyclicExecution did. */
    method HandleCyclic(o: CallOutcome)
      requires Valid() && WellFormedContext(o.context)
      modifies this`currentExecutionList, lists, entries
      ensures Valid()
      ensures Snap() == CycleStep(old(Snap()), o)
    {
      ghost var p := Snap();
      CycleKeepsConsistent(p, o);
      if currentExecutionList.None? {
        return;
      }
      var i := currentExecutionList.value;
      var l := lists[i];
      if l.current.None? {
        return;
      }
      var c := l.current.value;
      var entry := entries[c];
      match CycleEffectOf(entry.context.state, o)
      case SetEntryState(st) =>
        entries[c] := entry.(context := Handled(entry.context, o, st));
        assert entries[..] == p.entries[c := entries[c]];
      case MoveToNext =>
        lists[i] := l.(current := entry.next);
        assert lists[..] == p.lists[i := lists[i]];
      case DropList =>
        currentExecutionList := None;
    }

    // The default list commands: each answers with the words its handlePacket adds to the response.

    /** CTcpPacketHandler_BeginList::handlePacket: the id of the new list. */
    method BeginListCommand() returns (o: HandlerOutcome)
      requires Valid()
      modifies this, lists
      ensures Valid()
      ensures var s := BeginStep(old(Snap()));
              Snap() == s.after
              && o == if s.result.Ok? then Completed(Words([s.result.value])) else Failed(s.result.error)
    {
      var r := BeginList();
      o := if r.Ok? then Completed(Words([r.value])) else Failed(r.error);
    }

    /** CTcpPacketHandler_FinishList::handlePacket: the finished list's id and entry count. */
    method FinishListCommand() returns (o: HandlerOutcome)
      requires Valid()
      modifies this`currentWriteList, lists
      ensures Valid()
      ensures var s := FinishStep(old(Snap()));
              Snap() == s.after
              && o == if s.result.Err? then Failed(s.result.error)
                      else var l := s.after.lists[s.result.value]; Completed(Words([l.listId, l.entryCount]))
    {
      var r := FinishList();
      if r.Err? {
        return Failed(r.error);
      }
      var l := lists[r.value];
      o := Completed(Words([l.listId, l.entryCount]));
    }

    /** CTcpPacketHandler_ExecuteList::handlePacket: the list id is the payload's first word; answers the entry count. */
    method ExecuteListCommand(payload: seq<byte>) returns (o: HandlerOutcome)
      requires Valid() && |payload| == PAYLOAD_SIZE
      modifies this`currentExecutionList, lists
      ensures Valid()
      ensures var s := ExecuteStep(old(Snap()), DecodeUint32(payload[..4]));
              Snap() == s.after
              && o == if s.result.Err? then Failed(s.result.error)
                      else Completed(Words([s.after.lists[s.result.value].entryCount]))
    {
      var id := ReadUint32FromPayload(payload, 0).value;
      assert EncodeUint32(id) == payload[..4];
      var r := ExecuteList(id);
      if r.Err? {
        return Failed(r.error);
      }
      o := Completed(Words([lists[r.value].entryCount]));
    }

    /** CTcpPacketHandler_ListStatus::handlePacket for the list whose id is the payload's first word. */
    method ListStatusCommand(payload: seq<byte>) returns (o: HandlerOutcome)
      requires Valid() && |payload| == PAYLOAD_SIZE
      ensures o == Completed(Words(ListStatus(Snap(), DecodeUint32(payload[..4]))))
    {
      var id := ReadUint32FromPayload(payload, 0).value;
      assert EncodeUint32(id) == payload[..4];
      var found := GetListById(id, false);
      assert ListStates() == States(Snap());
      var ws: seq<uint32> := [0, 0, 0, 0];
      if found.value.Some? {
        var i := found.value.value;
        var l := lists[i];
        var index: uint32 := 0;
        if l.current.Some? {
          CurrentOfBegunList(Snap(), i);
          index := entries[l.current.value].indexInList;
        }
        ws := [l.listId, ListStateValue(l.state), l.entryCount, index];
      }
      o := Completed(Words(ws));
    }

    /** CTcpPacketHandler_Buffered::handlePacket: appends the command to the list being written; answers its index in the list. */
    method BufferedCommand(handler: PacketHandler, payload: seq<byte>) returns (o: HandlerOutcome)
      requires Valid() && handler.buffered && |payload| == PAYLOAD_SIZE
      modifies this, lists, entries
      ensures Valid()
      ensures var s := AddStep(old(Snap()), handler, payload);
              Snap() == s.after
              && o == if s.result.Err? then Failed(s.result.error)
                      else Completed(Words([s.after.entries[s.result.value].indexInList]))
    {
      var r := AddCommandToCurrentList(handler, payload);
      if r.Err? {
        return Failed(r.error);
      }
      o := Completed(Words([entries[r.value].indexInList]));
    }
  }

  /** registerDefaultCommands: registers the four direct list commands, stopping at the first id already taken. */
  method RegisterDefaultCommands(registry: CTcpPacketRegistry) returns (r: Result<()>)
    modifies registry`handlers
    ensures r.Ok? <==> forall id :: id in DefaultCommandIds() ==> id !in old(registry.handlers)
    ensures r.Ok? ==> registry.handlers == old(registry.handlers)
                        [COMMAND_BEGINLIST := PacketHandler(COMMAND_BEGINLIST, false)]
                        [COMMAND_FINISHLIST := PacketHandler(COMMAND_FINISHLIST, false)]
                        [COMMAND_EXECUTELIST := PacketHandler(COMMAND_EXECUTELIST, false)]
                        [COMMAND_LISTSTATUS := PacketHandler(COMMAND_LISTSTATUS, false)]
    ensures r.Err? ==> r.error == PacketHandlerAlreadyRegistered
    ensures old(registry.handlers).Keys <= registry.handlers.Keys
  {
    r := registry.RegisterHandler(PacketHandler(COMMAND_BEGINLIST, false));
    if r.Err? { return; }
    r := registry.RegisterHandler(PacketHandler(COMMAND_FINISHLIST, false));
    if r.Err? { return; }
    r := registry.RegisterHandler(PacketHandler(COMMAND_EXECUTELIST, false));
    if r.Err? { return; }
    r := registry.RegisterHandler(PacketHandler(COMMAND_LISTSTATUS, false));
  }

  function DefaultCommandIds(): set<uint32>
  {
    {COMMAND_BEGINLIST, COMMAND_FINISHLIST, COMMAND_EXECUTELIST, COMMAND_LISTSTATUS}
  }

  // ---------------------------------------------------------------------
  // The environment a buffered command runs in
  // ---------------------------------------------------------------------

  /**
   * readPayloadData: `count` bytes from `address`; a read of no bytes does
   * nothing, an address past the payload is INVALIDPAYLOADADDRESS, and a
   * read of the whole payload or past its end INVALIDPAYLOADREADOPERATION.
   */
  function PayloadRead(payload: seq<byte>, address: uint32, count: uint32): (r: Result<seq<byte>>)
    requires |payload| == PAYLOAD_SIZE
    ensures count == 0 ==> r == Ok([])
    ensures count > 0 ==> (r.Ok? <==> address as int + count as int <= PAYLOAD_SIZE && count as int < PAYLOAD_SIZE)
    ensures count > 0 && r.Ok? ==> r.value == payload[address..address as int + count as int]
    ensures count > 0 && address as int >= PAYLOAD_SIZE ==> r == Err(InvalidPayloadAddress)
    ensures count > 0 && address as int < PAYLOAD_SIZE && r.Err? ==> r.error == InvalidPayloadReadOperation
  {
    if count == 0 then Ok([])
    else if address as int >= PAYLOAD_SIZE then Err(InvalidPayloadAddress)
    else if count as int >= PAYLOAD_SIZE then Err(InvalidPayloadReadOperation)
    else if address as int + count as int > PAYLOAD_SIZE then Err(InvalidPayloadReadOperation)
    else Ok(payload[address..address as int + count as int])
  }

  /** CPayloadEnvironment over one list entry's execution context and payload. */
  class CPayloadEnvironment {
    var context: EntryContext
    const payload: seq<byte>

    ghost predicate Valid()
      reads this
    {
      WellFormedContext(context) && |payload| == PAYLOAD_SIZE
    }

    constructor (c: EntryContext, p: seq<byte>)
      requires WellFormedContext(c) && |p| == PAYLOAD_SIZE
      ensures Valid() && context == c && payload == p
    {
      context := c;
      payload := p;
    }

    /** getState. */
    function GetState(): EntryState
      reads this
    {
      context.state
    }

    /** isFirstCycle: the entry is in its initial execution. */
    predicate IsFirstCycle()
      reads this
    {
      context.state == InitialExecution
    }

    /** getPayloadSize. */
    function GetPayloadSize(): nat
    {
      PAYLOAD_SIZE
    }

    /** getContextSize. */
    function GetContextSize(): nat
    {
      CONTEXT_DATA_SIZE
    }

    /** readPayloadData: copies the bytes one at a time, as the source's loop does. */
    method ReadPayloadData(address: uint32, count: uint32) returns (r: Result<seq<byte>>)
      requires Valid()
      ensures r == PayloadRead(payload, address, count)
    {
      if count == 0 {
        return Ok([]);
      }
      if address as int >= PAYLOAD_SIZE {
        return Err(InvalidPayloadAddress);
      }
      if count as int >= PAYLOAD_SIZE || address as int + count as int > PAYLOAD_SIZE {
        return Err(InvalidPayloadReadOperation);
      }
      var target: seq<byte> := [];
      var index: nat := 0;
      while index < count as int
        invariant index <= count as int
        invariant target == payload[address..address as int + index]
      {
        target := target + [payload[address as int + index]];
        index := index + 1;
      }
      r := Ok(target);
    }

    /** readPayloadUint8. */
    function ReadPayloadUint8(address: uint32): (r: Result<byte>)
      requires Valid()
      reads this
      ensures r.Ok? <==> address as int < PAYLOAD_SIZE
      ensures r.Ok? ==> [r.value] == payload[address..address as int + 1]
      ensures r.Err? ==> r.error == InvalidPayloadAddress
    {
      var read := PayloadRead(payload, address, 1);
      if read.Err? then Err(read.error) else Ok(read.value[0])
    }

    /** readPayloadUint16. */
    function ReadPayloadUint16(address: uint32): (r: Result<uint16>)
      requires Valid()
      reads this
      ensures r.Ok? <==> address as int + 2 <= PAYLOAD_SIZE
      ensures r.Ok? ==> EncodeUint16(r.value) == payload[address..address as int + 2]
    {
      var read := PayloadRead(payload, address, 2);
      if read.Err? then Err(read.error)
      else
        Pow256Values();
        EncodeDecode(read.value);
        Ok(DecodeLE(read.value))
    }

    /** readPayloadUint32. */
    function ReadPayloadUint32(address: uint32): (r: Result<uint32>)
      requires Valid()
      reads this
      ensures r.Ok? <==> address as int + 4 <= PAYLOAD_SIZE
      ensures r.Ok? ==> EncodeUint32(r.value) == payload[address..address as int + 4]
    {
      var read := PayloadRead(payload, address, 4);
      if read.Err? then Err(read.error)
      else
        EncodeDecodeUint32(read.value);
        Ok(DecodeUint32(read.value))
    }

    /** readPayloadInt8: the byte read as two's complement. */
    function ReadPayloadInt8(address: uint32): (r: Result<int8>)
      requires Valid()
      reads this
      ensures r.Ok? <==> address as int < PAYLOAD_SIZE
      ensures r.Ok? ==> EncodeSigned(r.value, 1) == payload[address..address as int + 1]
    {
      var read := PayloadRead(payload, address, 1);
      if read.Err? then Err(read.error) else Pow256Values(); Ok(SignedFromBytes(read.value))
    }

    /** readPayloadInt16. */
    function ReadPayloadInt16(address: uint32): (r: Result<int16>)
      requires Valid()
      reads this
      ensures r.Ok? <==> address as int + 2 <= PAYLOAD_SIZE
      ensures r.Ok? ==> EncodeSigned(r.value, 2) == payload[address..address as int + 2]
    {
      var read := PayloadRead(payload, address, 2);
      if read.Err? then Err(read.error) else Pow256Values(); Ok(SignedFromBytes(read.value))
    }

    /** readPayloadInt32: the source reads a uint32_t and returns it as int32_t, which is the same two's-complement reading. */
    function ReadPayloadInt32(address: uint32): (r: Result<int32>)
      requires Valid()
      reads this
      ensures r.Ok? <==> address as int + 4 <= PAYLOAD_SIZE
      ensures r.Ok? ==> EncodeSigned(r.value, 4) == payload[address..address as int + 4]
    {
      var read := PayloadRead(payload, address, 4);
      if read.Err? then Err(read.error) else Pow256Values(); Ok(SignedFromBytes(read.value))
    }

    /** readPayloadDouble, with the double given by its IEEE 754 bit pattern. */
    function ReadPayloadDouble(address: uint32): (r: Result<uint64>)
      requires Valid()
      reads this
      ensures r.Ok? <==> address as int + 8 <= PAYLOAD_SIZE
      ensures r.Ok? ==> EncodeLE(r.value, 8) == payload[address..address as int + 8]
    {
      var read := PayloadRead(payload, address, 8);
      if read.Err? then Err(read.error)
      else
        Pow256Values();
        EncodeDecode(read.value);
        Ok(DecodeLE(read.value))
    }

    /** readPayloadFloat, with the float given by its IEEE 754 bit pattern. */
    function ReadPayloadFloat(address: uint32): (r: Result<uint32>)
      requires Valid()
      reads this
      ensures r.Ok? <==> address as int + 4 <= PAYLOAD_SIZE
      ensures r.Ok? ==> EncodeUint32(r.value) == payload[address..address as int + 4]
    {
      ReadPayloadUint32(address)
    }

    /** setLifetimeInMillseconds. */
    method SetLifetimeInMilliseconds(ms: uint32)
      modifies this
      ensures context == old(context).(lifetimeInMilliseconds := ms)
    {
      context := context.(lifetimeInMilliseconds := ms);
    }

    /**
     * prepareSignal: `prepared` is what finding the state handler and
     * preparing the signal in it gave. A slot past LISTCONTEXT_SIGNALSLOTCOUNT
     * is INVALIDSIGNALSLOTINDEX, a taken slot PAYLOADSIGNALSLOTALREADYTAKEN;
     * the prepared instance lands in the slot.
     */
    method PrepareSignal(slot: uint32, prepared: Result<SignalRef>) returns (r: Result<SignalRef>)
      requires Valid()
      modifies this
      ensures Valid()
      ensures slot as int >= SIGNAL_SLOT_COUNT ==> r == Err(InvalidSignalSlotIndex)
      ensures slot as int < SIGNAL_SLOT_COUNT && old(context.slots[slot]).Some? ==> r == Err(PayloadSignalSlotAlreadyTaken)
      ensures slot as int < SIGNAL_SLOT_COUNT && old(context.slots[slot]).None? ==> r == prepared
      ensures r.Ok? ==> context == old(context).(slots := old(context.slots)[slot := Some(r.value)])
      ensures r.Ok? ==> GetSignal(slot, true) == Ok(Some(r.value))
      ensures r.Err? ==> context == old(context)
    {
      if slot as int >= SIGNAL_SLOT_COUNT {
        return Err(InvalidSignalSlotIndex);
      }
      if context.slots[slot].Some? {
        return Err(PayloadSignalSlotAlreadyTaken);
      }
      if prepared.Err? {
        return prepared;
      }
      context := context.(slots := context.slots[slot := Some(prepared.value)]);
      r := prepared;
    }

    /** getSignal: the instance in a slot; SIGNALSLOTISEMPTY for an empty slot the caller demands. */
    function GetSignal(slot: uint32, mustExist: bool): (r: Result<Option<SignalRef>>)
      requires Valid()
      reads this
      ensures slot as int >= SIGNAL_SLOT_COUNT ==> r == Err(InvalidSignalSlotIndex)
      ensures slot as int < SIGNAL_SLOT_COUNT ==>
                if context.slots[slot].None? && mustExist then r == Err(SignalSlotIsEmpty)
                else r == Ok(context.slots[slot])
    {
      if slot as int >= SIGNAL_SLOT_COUNT then Err(InvalidSignalSlotIndex)
      else if context.slots[slot].None? && mustExist then Err(SignalSlotIsEmpty)
      else Ok(context.slots[slot])
    }

    /** signalHasBeenProcessed, with `processed` what the instance reports. */
    function SignalHasBeenProcessed(slot: uint32, processed: SignalRef -> bool): (r: Result<bool>)
      requires Valid()
      reads this
      ensures r.Ok? <==> slot as int < SIGNAL_SLOT_COUNT && context.slots[slot].Some?
      ensures r.Ok? ==> r.value == processed(context.slots[slot].value)
    {
      var found := GetSignal(slot, true);
      if found.Err? then Err(found.error) else Ok(processed(found.value.value))
    }
  }

  /** The signed value of one, two or four little-endian bytes. */
  function SignedFromBytes(s: seq<byte>): (v: int)
    ensures -(Pow256(|s|) as int) <= 2 * v < Pow256(|s|)
    ensures EncodeSigned(v, |s|) == s
  {
    EncodeDecode(s);
    DecodeSigned(s)
  }
}
