/**
 * The framework's registries (Framework.cpp): CModule with its journal
 * registration, CModuleHandler's module map, CStateHandler's state map and
 * current state, and CEnvironment, through which a state's Execute picks
 * the next state and reads the journal.
 *
 * A state is identified by its name, the key of the state map; what a
 * state's Execute does is not part of this module. A null pointer argument
 * is `None` (or `null` for class references).
 */
module Framework {
  import opened Wrappers
  import opened Bytes
  import opened JournalData
  import opened Journal
  import opened Signals

  // ---------------------------------------------------------------------
  // Journal registration of a module
  // ---------------------------------------------------------------------

  /** What CJournal::registerGroup makes of the journal's groups: refused once the journal is prepared. */
  function GroupRegistration(initializing: bool, gs: seq<Group>, groupId: uint32, name: string): Result<seq<Group>>
  {
    if !initializing then Err(JournalIsNotInitializing) else AddGroup(gs, groupId, name)
  }

  /** The integer widths a module registers values with (registerUInt8Value .. registerInt32Value). */
  datatype RegisteredWidth = UInt8 | UInt16 | UInt32 | Int8 | Int16 | Int32

  /** The getter that reads a value registered with width `w`. */
  function GetterWidth(w: RegisteredWidth): IntegerWidth
  {
    match w
    case UInt8 => Uint8Width
    case UInt16 => Uint16Width
    case UInt32 => Uint32Width
    case Int8 => Int8Width
    case Int16 => Int16Width
    case Int32 => Int32Width
  }

  /**
   * The [minimum, maximum] registered for each width (Framework.cpp:139-167):
   * exactly the range the getter of that width accepts.
   */
  function WidthKind(w: RegisteredWidth): (k: EntryKind)
    ensures k == IntegerKind(WidthMin(GetterWidth(w)), WidthMax(GetterWidth(w)))
  {
    match w
    case UInt8 => IntegerKind(0, 255)
    case UInt16 => IntegerKind(0, 65535)
    case UInt32 => IntegerKind(0, 4294967295)
    case Int8 => IntegerKind(-128, 127)
    case Int16 => IntegerKind(-32768, 32767)
    case Int32 => IntegerKind(-2147483648, 2147483647)
  }

  /** Every value within the registered bounds reads back unchanged through the getter of its width, and no other value does. */
  lemma RegisteredBoundsMatchGetter(w: RegisteredWidth, v: int64)
    ensures WidthKind(w).minimum <= v <= WidthKind(w).maximum <==> Narrow(v, GetterWidth(w)) == Ok(v)
  {
  }

  /** A set of the value `entryId` of group `gid` in journal `j`, a null journal refused as a module without one is. */
  method SetInGroup(j: CJournal?, gid: uint32, entryId: uint32, want: ValueType, bytes: seq<byte>, timestamp: uint64) returns (r: Result<()>)
    requires j != null ==> j.Valid()
    requires |bytes| == (if want == BoolValue then 1 else 8)
    modifies if j == null || j.data == null then {} else {j.data, j.data.values, j.data.ring}
    ensures j != null ==> j.Valid() && unchanged(j)
    ensures j == null ==> r == Err(JournalNotSet)
    ensures j != null ==>
              var d := Lookup(j.groups, gid, entryId, want);
              (d.Err? ==> r == Err(d.error))
              && (d.Ok? && j.data == null ==> r == Err(JournalDataBufferOverrun))
              && (d.Ok? && j.data != null && j.data.values.Length <= JOURNAL_MAXSIZE ==>
                    r.Ok? && d.value.address + |bytes| <= j.data.values.Length
                    && j.data.values[..] == Splice(old(j.data.values[..]), d.value.address, bytes))
              && (d.Ok? && j.data != null ==> (
                    var a := d.value.address;
                    (a > JOURNAL_MAXSIZE ==> r == Err(InvalidJournalAddress))
                    && (a <= JOURNAL_MAXSIZE ==> r.Ok?)
                    && WrittenData(j.data, a, gid, entryId, bytes, timestamp, r)))
  {
    if j == null {
      return Err(JournalNotSet);
    }
    if j.data != null && Lookup(j.groups, gid, entryId, want).Ok? {
      LookupInBuffer(j.groups, j.data.values.Length, gid, entryId, want);
    }
    r := j.SetValue(gid, entryId, want, bytes, timestamp);
  }

  class CModule {
    const name: string
    /** m_pJournal; null until setJournal. */
    var journal: CJournal?
    var journalGroupId: uint32
    /** m_bJournalIsRegistering. */
    var journalIsRegistering: bool

    constructor (moduleName: string)
      ensures name == moduleName && journal == null && !journalIsRegistering
    {
      name := moduleName;
      journal := null;
      journalGroupId := 0;
      journalIsRegistering := false;
    }

    /**
     * setJournal: adopt the journal and the group ID, register the group
     * under the module's name, then run the module's onRegisterJournal
     * hook, whose outcome is `onRegister`. Once registration began the
     * module stays registering, so a second setJournal is refused; a hook
     * that throws ends registering and passes its error on.
     */
    method SetJournal(j: CJournal?, groupId: uint32, onRegister: Result<()>) returns (r: Result<()>)
      requires j != null ==> j.Valid()
      modifies this, j
      ensures j != null ==> j.Valid() && j.initializing == old(j.initializing)
      ensures j == null ==> r == Err(InvalidParam) && unchanged(this)
      ensures j != null && old(journalIsRegistering) ==>
                r == Err(JournalAlreadyRegistering) && unchanged(this) && j.groups == old(j.groups)
      ensures j != null && !old(journalIsRegistering) ==>
                journal == j && journalGroupId == groupId
                && var g := GroupRegistration(old(j.initializing), old(j.groups), groupId, name);
                   (g.Err? ==> r == Err(g.error) && !journalIsRegistering && j.groups == old(j.groups))
                   && (g.Ok? ==> r == onRegister && journalIsRegistering == onRegister.Ok? && j.groups == g.value)
    {
      if j == null {
        return Err(InvalidParam);
      }
      if journalIsRegistering {
        return Err(JournalAlreadyRegistering);
      }
      journal := j;
      journalGroupId := groupId;
      r := j.RegisterGroup(groupId, name);
      if r.Err? {
        return;
      }
      journalIsRegistering := true;
      if onRegister.Err? {
        journalIsRegistering := false;
      }
      r := onRegister;
    }

    /** registerIntegerValue, registerBoolValue and registerDoubleValue: only with a journal, and only while registering. */
    method RegisterValue(entryName: string, entryId: uint32, kind: EntryKind) returns (r: Result<()>)
      requires journal != null ==> journal.Valid()
      modifies journal
      ensures journal != null ==> journal.Valid() && journal.initializing == old(journal.initializing)
      ensures journal == null ==> r == Err(JournalNotSet)
      ensures journal != null && !journalIsRegistering ==> r == Err(JournalIsNotRegistering) && journal.groups == old(journal.groups)
      ensures journal != null && journalIsRegistering ==>
                var a := if !old(journal.initializing) then Err(JournalIsNotInitializing)
                         else AddValue(old(journal.groups), journalGroupId, entryId, entryName, kind);
                (a.Err? ==> r == Err(a.error) && journal.groups == old(journal.groups))
                && (a.Ok? ==> r.Ok? && journal.groups == a.value)
    {
      if journal == null {
        return Err(JournalNotSet);
      }
      if !journalIsRegistering {
        return Err(JournalIsNotRegistering);
      }
      r := journal.RegisterValue(entryName, journalGroupId, entryId, kind);
    }

    /** registerUInt8Value .. registerInt32Value: an integer value with the width's bounds. */
    method RegisterWidthValue(entryName: string, entryId: uint32, w: RegisteredWidth) returns (r: Result<()>)
      requires journal != null ==> journal.Valid()
      modifies journal
      ensures journal != null ==> journal.Valid() && journal.initializing == old(journal.initializing)
      ensures journal == null ==> r == Err(JournalNotSet)
      ensures journal != null && !journalIsRegistering ==> r == Err(JournalIsNotRegistering) && journal.groups == old(journal.groups)
      ensures journal != null && journalIsRegistering ==>
                var a := if !old(journal.initializing) then Err(JournalIsNotInitializing)
                         else AddValue(old(journal.groups), journalGroupId, entryId, entryName, WidthKind(w));
                (a.Err? ==> r == Err(a.error) && journal.groups == old(journal.groups))
                && (a.Ok? ==> r.Ok? && journal.groups == a.value)
    {
      r := RegisterValue(entryName, entryId, WidthKind(w));
    }

    /**
     * setIntegerValue, setBoolValue and setDoubleValue: the value's bytes
     * into the module's group of the journal, stamped with `timestamp`.
     */
    method SetValue(entryId: uint32, want: ValueType, bytes: seq<byte>, timestamp: uint64) returns (r: Result<()>)
      requires journal != null ==> journal.Valid()
      requires |bytes| == (if want == BoolValue then 1 else 8)
      modifies if journal == null || journal.data == null then {} else {journal.data, journal.data.values, journal.data.ring}
      ensures unchanged(this)
      ensures journal != null ==> journal.Valid() && unchanged(journal)
      ensures journal == null ==> r == Err(JournalNotSet)
      ensures journal != null ==>
                var d := Lookup(journal.groups, journalGroupId, entryId, want);
                (d.Err? ==> r == Err(d.error))
                && (d.Ok? && journal.data == null ==> r == Err(JournalDataBufferOverrun))
                && (d.Ok? && journal.data != null && journal.data.values.Length <= JOURNAL_MAXSIZE ==>
                      r.Ok? && d.value.address + |bytes| <= journal.data.values.Length
                      && journal.data.values[..] == Splice(old(journal.data.values[..]), d.value.address, bytes))
                && (d.Ok? && journal.data != null ==> (
                      var a := d.value.address;
                      (a > JOURNAL_MAXSIZE ==> r == Err(InvalidJournalAddress))
                      && (a <= JOURNAL_MAXSIZE ==> r.Ok?)
                      && WrittenData(journal.data, a, journalGroupId, entryId, bytes, timestamp, r)))
    {
      r := SetInGroup(journal, journalGroupId, entryId, want, bytes, timestamp);
    }
  }

  // ---------------------------------------------------------------------
  // CModuleHandler
  // ---------------------------------------------------------------------

  class CModuleHandler {
    const journal: CJournal
    /** m_Modules: the modules by name. */
    var modules: map<string, CModule>

    /** Every module is filed under its own name. */
    ghost predicate Valid()
      reads this
    {
      forall n :: n in modules ==> modules[n].name == n
    }

    constructor (j: CJournal)
      ensures Valid() && journal == j && modules == map[]
    {
      journal := j;
      modules := map[];
    }

    /** CModuleHandler::CModuleHandler: a null journal is refused. */
    static method New(j: CJournal?) returns (r: Result<CModuleHandler>)
      ensures j == null ==> r == Err(InvalidParam)
      ensures j != null ==> r.Ok? && fresh(r.value) && r.value.Valid() && r.value.journal == j && r.value.modules == map[]
    {
      if j == null {
        return Err(InvalidParam);
      }
      var h := new CModuleHandler(j);
      r := Ok(h);
    }

    /** findModule: the module registered under `moduleName`, or null. */
    function FindModule(moduleName: string): (m: Option<CModule>)
      reads this
      ensures m.Some? <==> moduleName in modules
      ensures m.Some? ==> m.value == modules[moduleName]
    {
      if moduleName in modules then Some(modules[moduleName]) else None
    }

    /**
     * registerModule: a null module or a taken name is refused; otherwise
     * the module is filed under its name and then given the journal and
     * group. It stays filed even when setJournal throws.
     */
    method RegisterModule(m: CModule?, groupId: uint32, onRegister: Result<()>) returns (r: Result<()>)
      requires Valid() && journal.Valid()
      modifies this`modules, m, journal
      ensures Valid() && journal.Valid()
      ensures m == null ==> r == Err(InvalidParam) && modules == old(modules)
      ensures m != null && m.name in old(modules) ==> r == Err(ModuleAlreadyExists) && modules == old(modules) && unchanged(m)
      ensures m != null && m.name !in old(modules) ==>
                modules == old(modules)[m.name := m]
                && (old(m.journalIsRegistering) ==> r == Err(JournalAlreadyRegistering))
                && (!old(m.journalIsRegistering) ==>
                      m.journal == journal && m.journalGroupId == groupId
                      && var g := GroupRegistration(old(journal.initializing), old(journal.groups), groupId, m.name);
                         (g.Err? ==> r == Err(g.error) && journal.groups == old(journal.groups))
                         && (g.Ok? ==> r == onRegister && journal.groups == g.value))
    {
      if m == null {
        return Err(InvalidParam);
      }
      if FindModule(m.name).Some? {
        return Err(ModuleAlreadyExists);
      }
      modules := modules[m.name := m];
      r := m.SetJournal(journal, groupId, onRegister);
    }
  }

  // ---------------------------------------------------------------------
  // CStateHandler
  // ---------------------------------------------------------------------

  /** The state map and the current state as values. */
  datatype StateTable = StateTable(states: set<string>, current: Option<string>)

  /** The current state, once there is one, is a state of the table. */
  predicate TableValid(t: StateTable)
  {
    t.current.Some? ==> t.current.value in t.states
  }

  /**
   * addState on table `t`: a null state or a taken name is refused;
   * otherwise the state is added, and becomes current when there was none.
   */
  function AddStateTo(t: StateTable, state: Option<string>): (r: Result<StateTable>)
  {
    if state.None? then Err(InvalidParam)
    else if state.value in t.states then Err(StateAlreadyExists)
    else Ok(StateTable(t.states + {state.value}, if t.current.None? then state else t.current))
  }

  /** addState refuses exactly a null state and a taken name, and otherwise adds the state and keeps the table valid. */
  lemma AddStateMeans(t: StateTable, state: Option<string>)
    requires TableValid(t)
    ensures var r := AddStateTo(t, state);
            (r.Err? <==> state.None? || state.value in t.states)
            && (state.None? ==> r == Err(InvalidParam))
            && (state.Some? && state.value in t.states ==> r == Err(StateAlreadyExists))
            && (r.Ok? ==> r.value.states == t.states + {state.value} && TableValid(r.value)
                          && r.value.current == (if t.current.None? then state else t.current))
  {
  }

  /** Adding states one after another: the first one added is the current state from then on. */
  function AddStates(t: StateTable, names: seq<string>): (r: Result<StateTable>)
    decreases |names|
  {
    if names == [] then Ok(t)
    else
      match AddStateTo(t, Some(names[0]))
      case Err(e) => Err(e)
      case Ok(t1) => AddStates(t1, names[1..])
  }

  /** Registering distinct names on an empty table makes the first one current and all of them states. */
  lemma {:induction false} AddStatesFirstIsCurrent(t: StateTable, names: seq<string>)
    requires TableValid(t)
    requires forall i :: 0 <= i < |names| ==> names[i] !in t.states
    requires forall i, j :: 0 <= i < j < |names| ==> names[i] != names[j]
    ensures var r := AddStates(t, names);
            r.Ok? && TableValid(r.value)
            && r.value.states == t.states + (set i | 0 <= i < |names| :: names[i])
            && r.value.current == (if t.current.None? && names != [] then Some(names[0]) else t.current)
    decreases |names|
  {
    if names != [] {
      var t1 := StateTable(t.states + {names[0]}, if t.current.None? then Some(names[0]) else t.current);
      assert AddStateTo(t, Some(names[0])) == Ok(t1);
      var rest := names[1..];
      assert forall i :: 0 <= i < |rest| ==> rest[i] == names[i + 1];
      AddStatesFirstIsCurrent(t1, rest);
      assert (set i | 0 <= i < |names| :: names[i]) == {names[0]} + (set i | 0 <= i < |rest| :: rest[i]) by {
        forall i | 0 < i < |names|
          ensures names[i] in set k | 0 <= k < |rest| :: rest[k]
        {
          assert rest[i - 1] == names[i];
        }
      }
    }
  }

  /** A second addState under a name already added is refused and changes nothing. */
  lemma AddStateTwiceRefused(t: StateTable, name: string)
    requires AddStateTo(t, Some(name)).Ok?
    ensures AddStateTo(AddStateTo(t, Some(name)).value, Some(name)) == Err(StateAlreadyExists)
  {
  }

  class CStateHandler {
    const name: string
    const journal: CJournal
    const journalGroupId: uint32
    const moduleHandler: CModuleHandler
    /** m_pSignalHandler, created with the handler. */
    const signalHandler: CSignalHandler
    /** The names of m_States. */
    var states: set<string>
    /** m_pCurrentState, by name. */
    var current: Option<string>

    ghost function Table(): StateTable
      reads this
    {
      StateTable(states, current)
    }

    ghost predicate Valid()
      reads this
    {
      TableValid(Table())
    }

    constructor (j: CJournal, handlerName: string, mh: CModuleHandler, groupId: uint32)
      ensures Valid() && Table() == StateTable({}, None)
      ensures name == handlerName && journal == j && moduleHandler == mh && journalGroupId == groupId
      ensures fresh(signalHandler) && signalHandler.Valid() && signalHandler.initializing && signalHandler.signals == []
    {
      name := handlerName;
      journal := j;
      moduleHandler := mh;
      journalGroupId := groupId;
      signalHandler := new CSignalHandler();
      states := {};
      current := None;
    }

    /**
     * CStateHandler::CStateHandler: null journal or module handler are
     * refused; the handler's group is registered in the journal under the
     * handler's name, and a refused registration refuses the handler.
     */
    static method New(j: CJournal?, handlerName: string, mh: CModuleHandler?, groupId: uint32)
      returns (r: Result<CStateHandler>)
      requires j != null ==> j.Valid()
      modifies j
      ensures j != null ==> j.Valid() && j.initializing == old(j.initializing)
      ensures j == null || mh == null ==> r == Err(InvalidParam)
      ensures j != null && mh != null ==>
                var g := GroupRegistration(old(j.initializing), old(j.groups), groupId, handlerName);
                (g.Err? ==> r == Err(g.error) && j.groups == old(j.groups))
                && (g.Ok? ==> j.groups == g.value && r.Ok? && fresh(r.value) && r.value.Valid()
                              && r.value.Table() == StateTable({}, None) && r.value.name == handlerName
                              && r.value.journal == j && r.value.moduleHandler == mh && r.value.journalGroupId == groupId
                              && fresh(r.value.signalHandler) && r.value.signalHandler.Valid()
                              && r.value.signalHandler.initializing && r.value.signalHandler.signals == [])
    {
      if j == null || mh == null {
        return Err(InvalidParam);
      }
      var registered := j.RegisterGroup(groupId, handlerName);
      if registered.Err? {
        return Err(registered.error);
      }
      var h := new CStateHandler(j, handlerName, mh, groupId);
      r := Ok(h);
    }

    /** findState: the state under `stateName`, or null. */
    function FindState(stateName: string): (s: Option<string>)
      reads this
      ensures s.Some? <==> stateName in states
      ensures s.Some? ==> s.value == stateName
    {
      if stateName in states then Some(stateName) else None
    }

    /** addState (Framework.cpp:426-442). */
    method AddState(state: Option<string>) returns (r: Result<()>)
      modifies this`states, this`current
      ensures var a := AddStateTo(old(Table()), state);
              (a.Err? ==> r == Err(a.error) && Table() == old(Table()))
              && (a.Ok? ==> r == Ok(()) && Table() == a.value)
    {
      if state.None? {
        return Err(InvalidParam);
      }
      if FindState(state.value).Some? {
        return Err(StateAlreadyExists);
      }
      states := states + {state.value};
      if current.None? {
        current := state;
      }
      r := Ok(());
    }

    /** setCurrentState: a null state is refused. */
    method SetCurrentState(state: Option<string>) returns (r: Result<()>)
      modifies this`current
      ensures state.None? ==> r == Err(InvalidParam) && current == old(current)
      ensures state.Some? ==> r == Ok(()) && current == state
    {
      if state.None? {
        return Err(InvalidParam);
      }
      current := state;
      r := Ok(());
    }

    /** findModule: through the module handler. */
    function FindModule(moduleName: string): (m: Option<CModule>)
      reads moduleHandler
      ensures m == moduleHandler.FindModule(moduleName)
    {
      moduleHandler.FindModule(moduleName)
    }

    /** onRegister: build the instances of every signal registered so far. */
    method OnRegister() returns (r: Result<()>, ghost stopped: nat)
      requires signalHandler.Valid()
      modifies signalHandler, signalHandler.Defs()
      ensures signalHandler.Valid() && signalHandler.signals == old(signalHandler.signals)
      ensures !old(signalHandler.initializing) ==> r == Err(CannotBuildSignalInstances)
      ensures old(signalHandler.initializing) ==>
                stopped <= |signalHandler.signals| && (r.Ok? <==> stopped == |signalHandler.signals|)
                && (r.Ok? ==> !signalHandler.initializing)
    {
      r, stopped := signalHandler.BuildInstances();
    }

    /** registerSignal: a definition in the handler's own signal handler. */
    method RegisterSignal(signalName: string, queueSize: nat, lifetime: uint32) returns (r: Result<CSignalDefinition>)
      requires signalHandler.Valid()
      modifies signalHandler
      ensures signalHandler.Valid() && signalHandler.initializing == old(signalHandler.initializing)
      ensures !old(signalHandler.initializing) ==> r == Err(CannotRegisterSignal) && signalHandler.signals == old(signalHandler.signals)
      ensures old(signalHandler.initializing) && signalName in NamesOf(old(signalHandler.signals)) ==>
                r == Err(DuplicateSignalDefinition) && signalHandler.signals == old(signalHandler.signals)
      ensures r.Ok? ==> fresh(r.value) && r.value.name == signalName && r.value.queueSize == queueSize && r.value.lifetime == lifetime
    {
      r := signalHandler.RegisterSignal(signalName, queueSize, lifetime);
    }

    /** releaseExpiredSignals: every definition releases its expired finished instances, in name order. */
    method ReleaseExpiredSignals(now: uint64) returns (r: Result<()>, ghost stopped: nat)
      requires signalHandler.Valid()
      modifies signalHandler.Defs()
      ensures signalHandler.Valid()
      ensures stopped <= |signalHandler.signals| && (r.Ok? <==> stopped == |signalHandler.signals|)
      ensures forall j :: 0 <= j < |signalHandler.signals| ==>
                if j < stopped then ReleasedAt(signalHandler.signals[j], now, Ok(()))
                else if j == stopped then ReleasedAt(signalHandler.signals[j], now, r)
                else unchanged(signalHandler.signals[j])
    {
      r, stopped := signalHandler.ReleaseExpiredSignals(now);
    }

    /**
     * The handler's typed getters: the journal's, in the handler's group. The
     * value is the stored int64 under the width's range check.
     */
    method GetIntegerValue(entryId: uint32, w: IntegerWidth) returns (r: Result<int>)
      requires journal.Valid()
      ensures Lookup(journal.groups, journalGroupId, entryId, IntegerValue).Err? ==>
                r == Err(Lookup(journal.groups, journalGroupId, entryId, IntegerValue).error)
      ensures var l := Lookup(journal.groups, journalGroupId, entryId, IntegerValue);
        l.Ok? && journal.data != null && journal.data.values.Length <= JOURNAL_MAXSIZE ==>
          l.value.address + 8 <= journal.data.values.Length
          && r == Narrow(DecodeInt64(journal.data.values[l.value.address..l.value.address + 8]), w)
      ensures r.Ok? ==> WidthMin(w) <= r.value <= WidthMax(w)
    {
      r := journal.GetIntegerValue(journalGroupId, entryId, w);
    }
  }

  // ---------------------------------------------------------------------
  // CEnvironment
  // ---------------------------------------------------------------------

  class CEnvironment {
    const stateHandler: CStateHandler
    /** m_pNextState, by name; null until the state picks one. */
    var nextState: Option<string>

    constructor (h: CStateHandler)
      ensures stateHandler == h && nextState == None
    {
      stateHandler := h;
      nextState := None;
    }

    /** CEnvironment::CEnvironment: a null state handler is refused. */
    static method New(h: CStateHandler?) returns (r: Result<CEnvironment>)
      ensures h == null ==> r == Err(InvalidParam)
      ensures h != null ==> r.Ok? && fresh(r.value) && r.value.stateHandler == h && r.value.nextState == None
    {
      if h == null {
        return Err(InvalidParam);
      }
      var e := new CEnvironment(h);
      r := Ok(e);
    }

    /** setNextState: a name that is not a state of the handler throws STATENOTFOUND; otherwise it is the next state. */
    method SetNextState(stateName: string) returns (r: Result<()>)
      modifies this`nextState
      ensures stateName !in stateHandler.states ==> r == Err(StateNotFound) && nextState == old(nextState)
      ensures stateName in stateHandler.states ==> r == Ok(()) && nextState == Some(stateName)
    {
      var s := stateHandler.FindState(stateName);
      if s.None? {
        return Err(StateNotFound);
      }
      nextState := s;
      r := Ok(());
    }

    /** findModule: null for a missing module, or MODULENOTFOUND when `failIfNotExist`. */
    method FindModule(moduleName: string, failIfNotExist: bool) returns (r: Result<Option<CModule>>)
      ensures moduleName in stateHandler.moduleHandler.modules ==> r == Ok(Some(stateHandler.moduleHandler.modules[moduleName]))
      ensures moduleName !in stateHandler.moduleHandler.modules ==> r == (if failIfNotExist then Err(ModuleNotFound) else Ok(None))
    {
      var m := stateHandler.FindModule(moduleName);
      if m.None? && failIfNotExist {
        return Err(ModuleNotFound);
      }
      r := Ok(m);
    }

    /** checkSignal: the handler's signal handler is always there, so this is its checkSignal. */
    method CheckSignal(signalName: string) returns (r: Result<Option<nat>>)
      requires stateHandler.signalHandler.Valid()
      modifies stateHandler.signalHandler.Defs()
      ensures stateHandler.signalHandler.Valid()
      ensures old(stateHandler.signalHandler.initializing) ==>
                r == Err(CouldNotCheckSignal) && unchanged(stateHandler.signalHandler.Defs())
      ensures !old(stateHandler.signalHandler.initializing) ==>
        var signals := stateHandler.signalHandler.signals;
        match IndexOf(NamesOf(signals), signalName)
        case None => r == Err(SignalDefinitionNotFound) && unchanged(stateHandler.signalHandler.Defs())
        case Some(i) => CheckedAt(signals[i], r) && forall j :: 0 <= j < |signals| && j != i ==> unchanged(signals[j])
    {
      r := stateHandler.signalHandler.CheckSignal(signalName);
    }

    /** getInt64Value .. getUint8Value except getUint16Value: the stored int64 of the handler's group, range-checked for the width. */
    method GetIntegerValue(entryId: uint32, w: IntegerWidth) returns (r: Result<int>)
      requires stateHandler.journal.Valid()
      ensures var j := stateHandler.journal; var l := Lookup(j.groups, stateHandler.journalGroupId, entryId, IntegerValue);
        && (l.Err? ==> r == Err(l.error))
        && (l.Ok? && j.data != null && j.data.values.Length <= JOURNAL_MAXSIZE ==>
              l.value.address + 8 <= j.data.values.Length
              && r == Narrow(DecodeInt64(j.data.values[l.value.address..l.value.address + 8]), w))
      ensures r.Ok? ==> WidthMin(w) <= r.value <= WidthMax(w)
    {
      r := stateHandler.GetIntegerValue(entryId, w);
    }

    /**
     * getUint16Value, with the uint16 range check its name promises: the
     * stored int64 read as Uint16Intended reads it, so a stored value outside
     * 0 .. 65535 throws JOURNALVALUEOUTSIDEOFRANGE.
     */
    method GetUint16Value(entryId: uint32) returns (r: Result<int>)
      requires stateHandler.journal.Valid()
      ensures var j := stateHandler.journal; var l := Lookup(j.groups, stateHandler.journalGroupId, entryId, IntegerValue);
        && (l.Err? ==> r == Err(l.error))
        && (l.Ok? && j.data != null && j.data.values.Length <= JOURNAL_MAXSIZE ==>
              l.value.address + 8 <= j.data.values.Length
              && r == Uint16Intended(DecodeInt64(j.data.values[l.value.address..l.value.address + 8])))
      ensures r.Ok? ==> 0 <= r.value < UINT16_LIMIT
    {
      assert WidthMin(Uint16Width) == 0 && WidthMax(Uint16Width) == UINT16_LIMIT - 1;
      r := stateHandler.GetIntegerValue(entryId, Uint16Width);
    }
  }

  // ---------------------------------------------------------------------
  // CEnvironment::getUint16Value as written
  // ---------------------------------------------------------------------

  /** What getUint16Value makes of the stored int64 `v` as written: the uint32 getter's check, then the uint32 returned as uint16. */
  function Uint16AsWritten(v: int64): (r: Result<int>)
  {
    match Narrow(v, Uint32Width)
    case Err(e) => Err(e)
    case Ok(x) => Ok(x % UINT16_LIMIT)
  }

  /** What getUint16Value evidently means: the uint16 getter's check. */
  function Uint16Intended(v: int64): (r: Result<int>)
  {
    Narrow(v, Uint16Width)
  }

  /** The intended getter returns exactly the stored values that fit a uint16, unchanged, and refuses the rest. */
  lemma Uint16IntendedMeans(v: int64)
    ensures Uint16Intended(v).Ok? <==> 0 <= v < UINT16_LIMIT
    ensures Uint16Intended(v).Ok? ==> Uint16Intended(v).value == v
    ensures Uint16Intended(v).Err? ==> Uint16Intended(v).error == JournalValueOutsideOfRange
  {
  }

  /** The two agree on every value that fits a uint16, and on every value outside the uint32 range. */
  lemma Uint16AsWrittenAgreesInRange(v: int64)
    requires 0 <= v < UINT16_LIMIT || v < 0 || v >= UINT32_LIMIT
    ensures Uint16AsWritten(v) == Uint16Intended(v)
  {
  }

  /** On every other value the code as written returns a wrapped value where a range error is meant. */
  lemma Uint16AsWrittenWraps(v: int64)
    requires UINT16_LIMIT <= v < UINT32_LIMIT
    ensures Uint16AsWritten(v) == Ok(v % UINT16_LIMIT) && Uint16Intended(v) == Err(JournalValueOutsideOfRange)
  {
  }

  /** 70000 stored: the code as written returns 4464. */
  lemma Uint16AsWrittenExample()
    ensures Uint16AsWritten(70000) == Ok(4464)
    ensures Uint16Intended(70000) == Err(JournalValueOutsideOfRange)
  {
  }
}
