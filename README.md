# A Dafny model of the AMCF PLC framework

This project models the control side of a B&R PLC application for a
machine with a door, a heater and a motion axis, and proves properties of
that model. The application is built on a small cyclic framework that
runs as one cyclic program with no threads. Each cycle that framework:

- records process values in a **journal**: a byte buffer of current values
  and a ring buffer that records every change (`journal_data.dfy`,
  `journal.dfy`);
- passes **signals** between state machines. A signal instance moves
  through fixed pools: unused, in preparation, active, in process,
  finished. Its parameters sit in a per-instance byte block, and finished
  instances are released once their lifetime runs out (`signals.dfy`);
- serves a **TCP protocol**:
  - `tcp_packet.dfy` holds the bounded response buffer, the payload
    readers and the command registry;
  - `tcp_list.dfy` holds the pools of command lists and entries and the
    per-entry execution state machine;
  - `tcp_server.dfy` holds the connections, with their double-buffered
    send queue and their receive/send states, and the server's own state
    machine;
- keeps a registry of **state handlers**, each a named set of states with
  a current one, and steps every handler's current state once
  (`framework.dfy`, `application.dfy`);
- turns the 32-bit hardware microsecond register into a 64-bit clock
  (`system_info.dfy`).

On top of the framework sit:

- the I/O module wrappers X20AI4622, X20AT6402 and X20DO6322, with status
  bits packed two per channel (`io_status.dfy`, `x20*.dfy`);
- the Mapp Motion single-axis wrapper (`axis.dfy`);
- the door and heater state machines (`door.dfy`, `heater.dfy`).

`io_map.dfy` models the offline I/O-map generator, `GenerateIOmap.py`. It
turns a module catalog and a hardware topology into IEC `STRUCT` types,
`IOMapping_*` variables and `VAR_CONFIG` address bindings.

`wrappers.dfy` holds the `Option`/`Result` types and the framework's error
codes. `bytes.dfy` holds the fixed-width integer types and their
little-endian layout.

How the C++ becomes Dafny:

- A C++ class whose fields change in place becomes a Dafny `class` with the
  same fields. Each method is proved against a pure function of the old
  state; that function takes
  - the new state, and
  - the result or the `CException` error code, as a `Result`.
- Each state of a state machine is a step function. It maps the module's
  inputs and its data to the next-state request, the new data and the
  signals it finishes. The class method that runs a state is proved equal
  to that step function.
- Properties that span several calls are lemmas about the pure functions.

Values the program gets from outside enter as parameters:

- the microsecond register;
- the CRC32 routine (`crc: seq<byte> -> uint32`);
- the outcomes of the vendor function blocks:
  - TCP server and connection;
  - MpAxisBasic;
  - MTBasics PID, tuner and PWM;
- the expiry of the TOF timer;
- the signal lifetimes' clock.

An instance whose type is missing from the catalog still gets its
`IOMapping_*` variable line and an empty `VAR_CONFIG` block
(GenerateIOmap.py:71-97).

## Model

| member | source | states |
|---|---|---|
| IOMap.Sanitize | PLC/Physical/Config1/111AF01/IOmapper/GenerateIOmap.py:22 | every '-' of a type name becomes '_', every other character and the length are kept |
| IOMap.FieldLines | PLC/Physical/Config1/111AF01/IOmapper/GenerateIOmap.py:27-28 | one "variable : type;" line per catalog field, in catalog order |
| IOMap.StructBlockLayout | PLC/Physical/Config1/111AF01/IOmapper/GenerateIOmap.py:21-36 | a STRUCT block is the header with the sanitized name and "_TYP", one line per field in order, and END_STRUCT; the struct name contains no '-' |
| IOMap.StructBlocksAppend | PLC/Physical/Config1/111AF01/IOmapper/GenerateIOmap.py:21-36 | the STRUCT blocks follow the catalog order (they distribute over concatenation) |
| IOMap.StructHeaderDeclared | PLC/Physical/Config1/111AF01/IOmapper/GenerateIOmap.py:19-40 | every catalog entry's STRUCT header appears in the type file |
| IOMap.IsIOModulePrefixes | PLC/Physical/Config1/111AF01/IOmapper/GenerateIOmap.py:48-50 | a module is selected iff its type starts with X20 and with neither X20TB nor X20BM |
| IOMap.SelectModulesMembers | PLC/Physical/Config1/111AF01/IOmapper/GenerateIOmap.py:45-55 | a module is in the selection iff it is in the hardware tree and passes the prefix tests |
| IOMap.SelectModulesAppend | PLC/Physical/Config1/111AF01/IOmapper/GenerateIOmap.py:45-55 | selection keeps the tree order |
| IOMap.SelectModulesExamples | PLC/Physical/Config1/111AF01/IOmapper/GenerateIOmap.py:48-50 | an X20DO6322 is kept; an X20TB terminal block, an X20BM bus module and an X67 module are dropped |
| IOMap.AddressTagMatchesWidth | PLC/Physical/Config1/111AF01/IOmapper/GenerateIOmap.py:83-92 | the address tag is the IEC 61131-3 input location prefix of the type's bit width (%IX, %IB, %IW, %ID), and empty exactly for the types the chain does not list |
| IOMap.BindingLines | PLC/Physical/Config1/111AF01/IOmapper/GenerateIOmap.py:94 | one binding line per field of the module's type, in order |
| IOMap.FindCatalogEntry | PLC/Physical/Config1/111AF01/IOmapper/GenerateIOmap.py:76-79 | the first catalog entry with the module's type, and None iff no entry has that type |
| IOMap.VarConfigBlockKnown | PLC/Physical/Config1/111AF01/IOmapper/GenerateIOmap.py:75-97 | the VAR_CONFIG block of a module of a catalogued type holds one binding per field, in order, between VAR_CONFIG and END_VAR |
| IOMap.VarConfigBlockUnknown | PLC/Physical/Config1/111AF01/IOmapper/GenerateIOmap.py:75-97 | a module whose type is not in the catalog still gets an empty VAR_CONFIG block |
| IOMap.FirstEntryWins | PLC/Physical/Config1/111AF01/IOmapper/GenerateIOmap.py:76-96 | only the first catalog entry of the module's type is used (the loop's break) |
| IOMap.IoMapFileAppend | PLC/Physical/Config1/111AF01/IOmapper/GenerateIOmap.py:69-97 | the binding file holds one block per selected module, in tree order |
| IOMap.VariableLinesLayout | PLC/Physical/Config1/111AF01/IOmapper/GenerateIOmap.py:69-71 | one IOMapping_<name> variable per selected module, in order, typed with the sanitized type name |
| IOMap.GeneratedFilesConsistent | PLC/Physical/Config1/111AF01/IOmapper/GenerateIOmap.py:13-105 | every selected module gets a variable; when its type is catalogued, the variable's STRUCT is declared in the type file |
| IOMap.TypeFile | PLC/Physical/Config1/111AF01/IOmapper/GenerateIOmap.py:19-39 | the Global.typ text: TYPE, one STRUCT block per catalog entry in catalog order, END_TYPE; StructBlockLayout, StructBlocksAppend and StructHeaderDeclared state its layout |
| IOMap.SelectModules | PLC/Physical/Config1/111AF01/IOmapper/GenerateIOmap.py:45-55 | the hardware tree's modules that pass the three prefix tests, in tree order; SelectModulesMembers and SelectModulesAppend state this |
| IOMap.AddressTag | PLC/Physical/Config1/111AF01/IOmapper/GenerateIOmap.py:83-92 | the if/elif chain from scalar type to address tag; AddressTagMatchesWidth relates it to the IEC 61131-3 input location prefixes |
| IOMap.VarConfigBlock | PLC/Physical/Config1/111AF01/IOmapper/GenerateIOmap.py:75-97 | VAR_CONFIG, the bindings of the first catalog entry of the module's type (none when there is none), END_VAR; VarConfigBlockKnown, VarConfigBlockUnknown and FirstEntryWins state this |
| IOMap.IoMapFile | PLC/Physical/Config1/111AF01/IOmapper/GenerateIOmap.py:69-97 | the IoMap.iom text: one VAR_CONFIG block per selected module, in order; IoMapFileAppend states this |
| IOMap.VariableFile | PLC/Physical/Config1/111AF01/IOmapper/GenerateIOmap.py:64-71 | the appended Global.var text: the script header, VAR, one IOMapping_ line per selected module, END_VAR and the closing comment line (lines 103-104); VariableLinesLayout states the lines |
| IOMap.Generate | PLC/Physical/Config1/111AF01/IOmapper/GenerateIOmap.py:13-105 | one run of the script: the three files from the catalog and the modules the filter selects; GeneratedFilesConsistent states how they agree |
| SystemTime.ConstructedAsWritten | PLC/Logical/Main/Framework/SystemInfo.cpp:40-46 | as written, the constructor leaves the current-register field at 0 and takes the register as start |
| SystemTime.Constructed | PLC/Logical/Main/Framework/SystemInfo.cpp:40-46 | the corrected clock starts with the current-register field equal to the start value, so the elapsed time is 0 |
| SystemTime.Step | PLC/Logical/Main/Framework/SystemInfo.cpp:64-70 | handleCyclic counts one wrap (modulo 2^64) exactly when the register went backwards, and keeps the new register value |
| SystemTime.Widened | PLC/Logical/Main/Framework/SystemInfo.cpp:55 | (cycle << 32) \| register equals cycle * 2^32 + register while the cycle count fits 32 bits |
| SystemTime.Elapsed | PLC/Logical/Main/Framework/SystemInfo.cpp:52-56 | the widened value minus the start value, modulo 2^64 |
| SystemTime.RunTracks | PLC/Logical/Main/Framework/SystemInfo.cpp:64-70 | over a run of reads, cycle * 2^32 + register tracks the true microsecond count from the current window base |
| SystemTime.ElapsedIsTrueTime | PLC/Logical/Main/Framework/SystemInfo.cpp:52-70 | read at least once per register period, getSystemTimeInMicroseconds returns exactly the microseconds since construction |
| SystemTime.MissedFirstWrap | PLC/Logical/Main/Framework/SystemInfo.cpp:40-46 | as written, a wrap before the first handleCyclic makes the clock report almost 2^64 microseconds after 32; the corrected clock reports 32 |
| SystemTime.AsWrittenAgreesWithoutEarlyWrap | PLC/Logical/Main/Framework/SystemInfo.cpp:40-46 | without a wrap before the first read, the constructor as written and the corrected one behave the same |
| SystemTime.Milliseconds | PLC/Logical/Main/Framework/SystemInfo.cpp:58-61 | the millisecond time is the microsecond time divided by 1000, rounded down |
| SystemTime.SystemInfo.constructor | PLC/Logical/Main/Framework/SystemInfo.cpp:40-46 | the object starts as the corrected clock for the register value read |
| SystemTime.SystemInfo.HandleCyclic | PLC/Logical/Main/Framework/SystemInfo.cpp:64-70 | the object's fields become Step of the old fields |
| SystemTime.SystemInfo.GetSystemTimeInMicroseconds | PLC/Logical/Main/Framework/SystemInfo.cpp:52-56 | runs handleCyclic, then returns the elapsed time of the new state |
| SystemTime.SystemInfo.GetSystemTimeInMilliseconds | PLC/Logical/Main/Framework/SystemInfo.cpp:58-61 | runs handleCyclic, then returns the elapsed milliseconds |
| IOStatus.StatusField | PLC/Logical/Main/Modules/IOModule_X20AI4622.cpp:290-293 | the two status bits of field k of a status register, a value from 0 to 3 |
| IOStatus.StatusOfPack | PLC/Logical/Main/Modules/IOModule_X20AI4622.cpp:290-293 | four two-bit statuses packed into one register read back, each from its own field |
| IOStatus.PackOfStatus | PLC/Logical/Main/Modules/IOModule_X20AI4622.cpp:290-293 | the four fields of a register, packed again, give the register back (nothing is lost) |
| IOStatus.StatusValue | PLC/Logical/Main/Modules/IOModule_X20AI4622.cpp:286 | a two-bit field as the returned uint16_t, from 0 to 3 |
| X20AI4622.GetRawValue | PLC/Logical/Main/Modules/IOModule_X20AI4622.cpp:218-230 | Ok iff the channel is 1 to 4, with that channel's raw input; otherwise INVALIDCHANNELNUMBER |
| X20AI4622.GetIOStatus | PLC/Logical/Main/Modules/IOModule_X20AI4622.cpp:286-297 | Ok iff the channel is 1 to 4, with field n-1 of StatusInput01, from 0 to 3; otherwise INVALIDCHANNELNUMBER |
| X20AI4622.GetIOStatusOfPack | PLC/Logical/Main/Modules/IOModule_X20AI4622.cpp:286-297 | a register packed from four statuses reports each status on its own channel |
| X20AI4622.TypeRange | PLC/Logical/Main/Modules/IOModule_X20AI4622.cpp:313-323 | the raw range each known channel type sets: -32768, 0 or -8192 up to 32767 |
| X20AI4622.CIOModuleX20AI4622.constructor | PLC/Logical/Main/Modules/IOModule_X20AI4622.cpp:62-74 | every channel starts as a +/-10 V input with limits -32767 and 32766 |
| X20AI4622.CIOModuleX20AI4622.GetChannelType | PLC/Logical/Main/Modules/IOModule_X20AI4622.cpp:300-308 | the configured type of channels 1 to 4; mtUnknown exactly for any other number |
| X20AI4622.CIOModuleX20AI4622.SetRange | PLC/Logical/Main/Modules/IOModule_X20AI4622.cpp:272-284 | true iff the channel is 1 to 4; then only that channel's limits change, to the uint16_t arguments read as int16_t; otherwise nothing changes |
| X20AI4622.CIOModuleX20AI4622.SetChannelType | PLC/Logical/Main/Modules/IOModule_X20AI4622.cpp:310-334 | a bad channel throws INVALIDCHANNELNUMBER and mtUnknown throws INVALIDCHANNELTYPE, changing nothing; otherwise channel n gets type t and the range of t, and getChannelType(n) returns t |
| X20AT6402.GetRawValue | PLC/Logical/Main/Modules/IOModule_X20AT6402.cpp:122-135 | Ok iff the channel is 1 to 6, with that channel's raw temperature; otherwise INVALIDCHANNELNUMBER |
| X20AT6402.StatusSource | PLC/Logical/Main/Modules/IOModule_X20AT6402.cpp:144-149 | channels 1 to 4 report in the four fields of StatusInput01, channels 5 and 6 in the low two fields of StatusInput02 |
| X20AT6402.GetIOStatus | PLC/Logical/Main/Modules/IOModule_X20AT6402.cpp:140-153 | Ok iff the channel is 1 to 6, with the status field of that channel (0 to 3); otherwise INVALIDCHANNELNUMBER |
| X20AT6402.GetIOStatusOfPack | PLC/Logical/Main/Modules/IOModule_X20AT6402.cpp:140-153 | six packed statuses come back on their channels, and the upper half of StatusInput02 reaches no channel |
| X20DO6322.WithOutput | PLC/Logical/Main/Modules/IOModule_X20DO6322.cpp:134-165 | Ok iff the channel is 1 to 6, with only that output changed; otherwise INVALIDCHANNELNUMBER |
| X20DO6322.GetOutput | PLC/Logical/Main/Modules/IOModule_X20DO6322.cpp:167-193 | Ok iff the channel is 1 to 6, with that output; otherwise INVALIDCHANNELNUMBER |
| X20DO6322.GetIOStatus | PLC/Logical/Main/Modules/IOModule_X20DO6322.cpp:195-211 | Ok iff the channel is 1 to 6, with 1 when the channel's status bit is set and 0 when it is clear |
| X20DO6322.GetOutputAfterSet | PLC/Logical/Main/Modules/IOModule_X20DO6322.cpp:134-193 | after setOutput(n, v), getOutput(n) is v and every other channel reads as before |
| X20DO6322.GetIOStatusAfterSet | PLC/Logical/Main/Modules/IOModule_X20DO6322.cpp:134-211 | setting an output never changes any channel's status |
| X20DO6322.WithOutputIdempotent | PLC/Logical/Main/Modules/IOModule_X20DO6322.cpp:134-193 | setting an output to the value it already has leaves the image as it was |
| X20DO6322.CIOModuleX20DO6322.SetOutput | PLC/Logical/Main/Modules/IOModule_X20DO6322.cpp:134-165 | the module's image becomes WithOutput of the old image; a bad channel throws and changes nothing |
| Framework.WidthKind | PLC/Logical/Main/Framework/Framework.cpp:138-166 | each registerUInt8Value .. registerInt32Value registers exactly the bounds of the getter of that width |
| Framework.RegisteredBoundsMatchGetter | PLC/Logical/Main/Framework/Framework.cpp:138-166 | a value within the registered bounds reads back unchanged through the getter of its width, and no other value does |
| Framework.SetInGroup | PLC/Logical/Main/Framework/Framework.cpp:170-192 | a set in a null journal is refused; otherwise a failed lookup gives its error, an entry above JOURNAL_MAXSIZE gives INVALIDJOURNALADDRESS, and any other found entry gets the value's bytes at its address with the rest of the buffer kept; when a byte changed, the change is appended to a ring that is not full or counted as an overflow on a full one (WrittenData), and otherwise the ring and overflow counter stay as they were |
| Framework.CModule.constructor | PLC/Logical/Main/Framework/Framework.cpp:59-62 | a new module has its name, no journal and is not registering |
| Framework.CModule.SetJournal | PLC/Logical/Main/Framework/Framework.cpp:78-98 | null journal: INVALIDPARAM; already registering: JOURNALALREADYREGISTERING, nothing changes; otherwise the journal and group are adopted, the group is registered under the module's name, and the module is registering exactly when the hook succeeded |
| Framework.CModule.RegisterValue | PLC/Logical/Main/Framework/Framework.cpp:108-136 | without a journal JOURNALNOTSET, when not registering JOURNALISNOTREGISTERING; otherwise the value is added to the module's group as the journal's registry adds it |
| Framework.CModule.RegisterWidthValue | PLC/Logical/Main/Framework/Framework.cpp:138-166 | the same, with the bounds of the width |
| Framework.CModule.SetValue | PLC/Logical/Main/Framework/Framework.cpp:170-192 | setIntegerValue, setBoolValue and setDoubleValue write the value's bytes at the entry's address in the module's group; lookup errors, a missing journal and an address above JOURNAL_MAXSIZE are reported; a changed value is recorded in the ring, as an entry or as an overflow (WrittenData) |
| Framework.CModuleHandler.New | PLC/Logical/Main/Framework/Framework.cpp:345-351 | a null journal is refused with INVALIDPARAM; otherwise the handler starts with no modules |
| Framework.CModuleHandler.FindModule | PLC/Logical/Main/Framework/Framework.cpp:367-374 | the module filed under the name, or null exactly when there is none |
| Framework.CModuleHandler.RegisterModule | PLC/Logical/Main/Framework/Framework.cpp:376-389 | a null module is INVALIDPARAM and a taken name MODULEALREADYEXISTS, changing nothing; otherwise the module is filed under its name and then given the journal and group |
| Framework.AddStateMeans | PLC/Logical/Main/Framework/Framework.cpp:426-442 | addState refuses exactly a null state (INVALIDPARAM) and a taken name (STATEALREADYEXISTS); otherwise it adds the state, which becomes current when there was none, and keeps the table valid |
| Framework.AddStatesFirstIsCurrent | PLC/Logical/Main/Framework/Framework.cpp:426-442 | adding distinct states to an empty handler makes all of them states and the first one current |
| Framework.AddStateTwiceRefused | PLC/Logical/Main/Framework/Framework.cpp:426-442 | a second addState under the same name is refused |
| Framework.CStateHandler.New | PLC/Logical/Main/Framework/Framework.cpp:392-404 | a null journal or module handler is INVALIDPARAM; otherwise the handler's group is registered under its name, a refused registration refuses the handler, and the handler starts with no states and an empty signal handler |
| Framework.CStateHandler.FindState | PLC/Logical/Main/Framework/Framework.cpp:415-423 | the state under the name, or null exactly when there is none |
| Framework.CStateHandler.AddState | PLC/Logical/Main/Framework/Framework.cpp:426-442 | the handler's table becomes AddStateTo of the old table; on an error it is unchanged |
| Framework.CStateHandler.SetCurrentState | PLC/Logical/Main/Framework/Framework.cpp:444-451 | a null state is INVALIDPARAM and changes nothing; otherwise it becomes current |
| Framework.CStateHandler.FindModule | PLC/Logical/Main/Framework/Framework.cpp:461-465 | the module handler's findModule |
| Framework.CStateHandler.OnRegister | PLC/Logical/Main/Framework/Framework.cpp:478-482 | builds the instances of every registered signal; refused once built; on success the handler is no longer initializing |
| Framework.CStateHandler.RegisterSignal | PLC/Logical/Main/Framework/Framework.cpp:472-476 | a definition in the handler's signal handler, refused after onRegister and for a duplicate name |
| Framework.CStateHandler.ReleaseExpiredSignals | PLC/Logical/Main/Framework/Framework.cpp:588-591 | every definition, in name order, releases its expired finished instances up to the first one that fails |
| Framework.CStateHandler.GetIntegerValue | PLC/Logical/Main/Framework/Framework.cpp:548-586 | the journal's getter in the handler's group: an unknown group or entry, or one of another type, is passed on as its error; otherwise the result is the entry's stored int64 under the width's range check (JOURNALVALUEOUTSIDEOFRANGE outside it), and an Ok value lies within the width |
| Framework.CEnvironment.New | PLC/Logical/Main/Framework/Framework.cpp:223-228 | a null state handler is INVALIDPARAM; otherwise the environment starts with no next state |
| Framework.CEnvironment.SetNextState | PLC/Logical/Main/Framework/Framework.cpp:241-248 | a name that is not a state of the handler throws STATENOTFOUND and changes nothing; otherwise it is the next state |
| Framework.CEnvironment.FindModule | PLC/Logical/Main/Framework/Framework.cpp:250-260 | the module under the name; a missing one is null, or MODULENOTFOUND when the caller demands it |
| Framework.CEnvironment.CheckSignal | PLC/Logical/Main/Framework/Framework.cpp:262-270 | the signal handler's checkSignal: COULDNOTCHECKSIGNAL while initializing and SIGNALDEFINITIONNOTFOUND for an unknown name, with no definition changed; otherwise it is the named definition's checkSignal and no other definition changes |
| Framework.CEnvironment.GetIntegerValue | PLC/Logical/Main/Framework/Framework.cpp:297-335 | getInt64Value .. getUint8Value: a lookup error is passed on; otherwise the value is the entry's stored int64 under the width's range check, and an Ok value lies within the width |
| Framework.CEnvironment.GetUint16Value | PLC/Logical/Main/Framework/Framework.cpp:327-330 | the corrected getUint16Value (Uint16Intended of the stored int64): a lookup error is passed on, a stored value outside 0..65535 gives JOURNALVALUEOUTSIDEOFRANGE, any other is returned unchanged |
| Framework.Uint16IntendedMeans | PLC/Logical/Main/Framework/Framework.cpp:327-330 | the intended getter returns exactly the stored values that fit a uint16, unchanged, and refuses the rest with JOURNALVALUEOUTSIDEOFRANGE |
| Framework.Uint16AsWrittenAgreesInRange | PLC/Logical/Main/Framework/Framework.cpp:327-330 | the two agree on values that fit a uint16 and on values outside the uint32 range |
| Framework.Uint16AsWrittenWraps | PLC/Logical/Main/Framework/Framework.cpp:327-330 | on every value from 2^16 to 2^32 - 1, the code as written returns the value modulo 2^16 where a range error is meant |
| Framework.Uint16AsWrittenExample | PLC/Logical/Main/Framework/Framework.cpp:327-330 | 70000 stored: 4464 as written, a range error intended |
| Framework.Uint16AsWritten | PLC/Logical/Main/Framework/Framework.cpp:327-330 | getUint16Value as written: the uint32 getter's range check, then the result cast to uint16; Uint16AsWrittenWraps and Uint16AsWrittenAgreesInRange state what it returns |
| Framework.Uint16Intended | PLC/Logical/Main/Framework/Framework.cpp:327-330 | the uint16 range check getUint16Value evidently means; Uint16IntendedMeans states what it accepts and returns |
| Application.NextAfterMeans | PLC/Logical/Main/Framework/Framework.cpp:241-248 | a state's setNextState calls succeed exactly when every name is a state, and then the last one wins; otherwise STATENOTFOUND |
| Application.RequestNextStates | PLC/Logical/Main/Framework/Framework.cpp:241-248 | the environment's next state after a sequence of setNextState calls is NextAfter of the old one; the first unknown name throws |
| Application.StepTableMeans | PLC/Logical/Main/Framework/Application.cpp:86-99 | a handler without a current state is left alone; with one, a failed Execute, an unknown name or no name at all (NEXTSTATEHASNOTBEENSET) fails the step, and otherwise the last name asked for becomes current |
| Application.StepTableKeepsCurrent | PLC/Logical/Main/Framework/Application.cpp:86-99 | a successful step leaves a current state, so the handler runs again next cycle |
| Application.RunCurrentState | PLC/Logical/Main/Framework/Application.cpp:86-99 | one handler's table after the step is StepTable of the old one; a failed step leaves it unchanged |
| Application.SteppedAllKeepsValid | PLC/Logical/Main/Framework/Application.cpp:83-108 | however the loop ends, every handler's table stays valid and keeps its states |
| Application.SteppedAllStopsAtFirstError | PLC/Logical/Main/Framework/Application.cpp:83-108 | the loop stops at the first handler whose step fails, with that step's error |
| Application.HandlersDistinct | PLC/Logical/Main/Framework/Application.cpp:143-149 | handlers filed under different names are different objects |
| Application.StepEach | PLC/Logical/Main/Framework/Application.cpp:83-108 | every handler, in name order, is stepped once up to the first failing one; the rest are untouched |
| Application.CApplication.constructor | PLC/Logical/Main/Framework/Application.cpp:42-45 | a new application has no state handlers |
| Application.CApplication.RegisterStateHandler | PLC/Logical/Main/Framework/Application.cpp:134-150 | a null handler is INVALIDPARAM, an empty or taken name INVALIDNAME; otherwise onRegister builds its signal instances and only on success is the handler filed, in name order |
| Application.CApplication.FileHandler | PLC/Logical/Main/Framework/Application.cpp:149 | the handler is inserted at its place in name order |
| Application.CApplication.FindSignalHandler | PLC/Logical/Main/Framework/Application.cpp:157-171 | the named handler's signal handler; otherwise null, or SIGNALHANDLERNOTFOUND when it must exist |
| Application.CApplication.HandleStates | PLC/Logical/Main/Framework/Application.cpp:83-108 | handleCyclic's loop: each handler in name order runs its current state once, and the first exception ends the cycle |
| Application.NextAfter | PLC/Logical/Main/Framework/Framework.cpp:241-248 | the environment's next state after a run of setNextState calls; NextAfterMeans states it |
| Application.StepTable | PLC/Logical/Main/Framework/Application.cpp:86-99 | one handler's step of handleCyclic as a value; StepTableMeans and StepTableKeepsCurrent state it |
| JournalData.PaddedData | PLC/Logical/Main/Framework/Journal.cpp:278-283 | the 8-byte ring payload starts with the source bytes and is zero after them |
| JournalData.Next | PLC/Logical/Main/Framework/Journal.cpp:304 | (i + 1) % size, a slot index again |
| JournalData.Count | PLC/Logical/Main/Framework/Journal.cpp:308-320 | the number of entries between tail and head, (head - tail - 1) mod size, below size |
| JournalData.Slot | PLC/Logical/Main/Framework/Journal.cpp:329-339 | the slot of the k-th oldest entry, (tail + 1 + k) mod size |
| JournalData.FullAndEmptyMeaning | PLC/Logical/Main/Framework/Journal.cpp:297-306 | the ring is full (head == tail) iff it holds size - 1 entries, and empty (head == tail + 1) iff it holds none |
| JournalData.ClearedIsEmpty | PLC/Logical/Main/Framework/Journal.cpp:290-295 | clearRingBuffer leaves an empty ring whatever the slots hold |
| JournalData.PushContents | PLC/Logical/Main/Framework/Journal.cpp:342-354 | on a ring that is not full, filling the head slot and advancing head appends the entry |
| JournalData.PopContents | PLC/Logical/Main/Framework/Journal.cpp:329-340 | on a ring that is not empty, the slot after the tail is the oldest entry, and advancing the tail removes it |
| JournalData.RingCapacity | PLC/Logical/Main/Framework/Journal.cpp:297-300 | a ring of size slots holds at most size - 1 entries, and exactly that many iff it is full |
| JournalData.BufferEntryCountAsWritten | PLC/Logical/Main/Framework/Journal.cpp:308-320 | as written, getBufferEntryCount reports the true count except on a full ring, where it reports one more |
| JournalData.EntryCountOverstatesFullRing | PLC/Logical/Main/Framework/Journal.cpp:308-320 | with two slots, one write after clearing fills the ring: the count as written says 2 while the ring holds 1 entry |
| JournalData.ReadError | PLC/Logical/Main/Framework/Journal.cpp:230-239 | readData may proceed iff the address and size are within JOURNAL_MAXSIZE and the range fits the buffer |
| JournalData.WriteError | PLC/Logical/Main/Framework/Journal.cpp:248-257 | writeData may proceed iff the address is within JOURNAL_MAXSIZE, the size within 8 bytes and the range fits the buffer |
| JournalData.JournalData.constructor | PLC/Logical/Main/Framework/Journal.cpp:199-221 | a zero-filled value buffer of the given size and an empty ring with no overflow |
| JournalData.JournalData.ClearRingBuffer | PLC/Logical/Main/Framework/Journal.cpp:290-295 | head 0, tail size - 1, no overflow, and no entries |
| JournalData.JournalData.RingBufferIsFull | PLC/Logical/Main/Framework/Journal.cpp:297-300 | true iff the ring holds size - 1 entries |
| JournalData.JournalData.RingBufferIsEmpty | PLC/Logical/Main/Framework/Journal.cpp:302-306 | true iff the ring holds no entries |
| JournalData.JournalData.GetBufferEntryCount | PLC/Logical/Main/Framework/Journal.cpp:308-320 | the corrected count: the number of entries the ring holds, full or not |
| JournalData.JournalData.PushRingBufferEntry | PLC/Logical/Main/Framework/Journal.cpp:342-354 | a full ring throws JOURNALRINGBUFFERISFULL and is unchanged; otherwise the entry is appended |
| JournalData.JournalData.PopRingBufferEntry | PLC/Logical/Main/Framework/Journal.cpp:329-340 | an empty ring throws JOURNALRINGBUFFERISEMPTY; otherwise the oldest entry is returned and removed |
| JournalData.JournalData.ReadData | PLC/Logical/Main/Framework/Journal.cpp:228-244 | the checks' error, or exactly the size bytes at the address |
| JournalData.JournalData.WriteData | PLC/Logical/Main/Framework/Journal.cpp:246-288 | the checks' error with nothing changed, or the bytes copied in; when some byte changed, an entry with the timestamp, the 16-bit IDs and the padded bytes is appended, or the overflow counter (modulo 2^32) counts it on a full ring; an unchanged value records nothing |
| JournalData.WrittenData | PLC/Logical/Main/Framework/Journal.cpp:246-288 | writeData's whole effect between two states: nothing changes on an error; otherwise the bytes are copied in and a changed value is appended to a ring that is not full or counted as an overflow on a full one (the predicate the journal's and the modules' set contracts pass on) |
| JournalData.JournalData.CopyIntoValues | PLC/Logical/Main/Framework/Journal.cpp:259-268 | the copy loop writes the source bytes and reports whether any byte differed |
| JournalData.JournalData.RecordChange | PLC/Logical/Main/Framework/Journal.cpp:270-287 | a change is appended to a ring that is not full, and counted as an overflow on a full one |
| JournalData.NewJournalData | PLC/Logical/Main/Framework/Journal.cpp:207-210 | a zero value-buffer size or ring size is INVALIDPARAM; otherwise an empty journal data object of those sizes |
| JournalData.EntryRecordFields | PLC/Logical/Main/Framework/Journal.cpp:1116-1119 | an entry's record decodes as the low 32 bits of its timestamp, its group ID, its entry ID and then its value bytes |
| JournalData.HistoryReplyFields | PLC/Logical/Main/Framework/Journal.cpp:1111-1122 | a history reply decodes as the entry count, the overflow counter and then the records |
| JournalData.HistoryRecordsConcat | PLC/Logical/Main/Framework/Journal.cpp:1114-1122 | the records of two runs of popped entries are the first run's records followed by the second's |
| JournalData.HistoryRecordAt | PLC/Logical/Main/Framework/Journal.cpp:1114-1122 | the k-th popped entry's record sits right after the records of the entries popped before it |
| JournalData.HistoryRecordsLength | PLC/Logical/Main/Framework/Journal.cpp:1116-1119 | with 8-byte value buffers every record is 16 bytes, so n entries take 16n bytes |
| JournalData.HistoryRecordsPrefix | PLC/Logical/Main/Framework/Journal.cpp:1114-1122 | the records of fewer entries are never longer |
| JournalData.AppendHistoryHeader | PLC/Logical/Main/Framework/Journal.cpp:1111-1112 | addUint32 of the count then of the overflow counter: both are appended iff 8 more bytes fit, else INVALIDPARAM |
| JournalData.AppendEntryRecord | PLC/Logical/Main/Framework/Journal.cpp:1116-1119 | the four adds of one entry append exactly its record iff the record fits, else INVALIDPARAM |
| JournalData.JournalData.SendOldestEntry | PLC/Logical/Main/Framework/Journal.cpp:1115-1121 | one turn of the loop: the oldest entry leaves the ring and its record is appended iff it fits |
| JournalData.JournalData.SendHistory | PLC/Logical/Main/Framework/Journal.cpp:1114-1122 | pops min(count, limit) entries oldest first and appends their records, succeeding iff they all fit; the rest of the ring stays |
| JournalData.JournalData.RetrieveHistory | PLC/Logical/Main/Framework/Journal.cpp:1111-1122 | appends the count modulo 2^32, the overflow counter and the records of min(count, limit) entries, succeeding iff the whole reply fits, else INVALIDPARAM |
| Journal.DataSize | PLC/Logical/Main/Framework/Journal.cpp:406-414 | an integer or double entry takes 8 bytes, a bool entry 1 |
| Journal.NameError | PLC/Logical/Main/Framework/Journal.cpp:359-366 | a name passes iff it is non-empty, at most 64 characters and only letters, digits and '_'; an empty name gets its own error |
| Journal.NewEntryDefinition | PLC/Logical/Main/Framework/Journal.cpp:356-414 | an entry definition is made iff its name is valid, its ID within the entry ID range and an integer's minimum not above its maximum; the errors in the source's order |
| Journal.NewGroup | PLC/Logical/Main/Framework/Journal.cpp:568-582 | a group is made iff its name is valid and its ID within the group ID range; it starts with no entries |
| Journal.InsertEntry | PLC/Logical/Main/Framework/Journal.cpp:608-614 | inserting into the ID-ordered entries adds exactly the one definition |
| Journal.InsertEntryKeepsWellFormed | PLC/Logical/Main/Framework/Journal.cpp:608-614 | inserting an entry with a fresh ID and name keeps the entries in ascending ID order with unique names |
| Journal.AddEntry | PLC/Logical/Main/Framework/Journal.cpp:598-615 | a second entry with the same ID or name is JOURNALENTRYALREADYREGISTERED; otherwise the group gains exactly the one entry and stays well formed |
| Journal.FindEntry | PLC/Logical/Main/Framework/Journal.cpp:633-644 | the entry with the ID, or JOURNALENTRYNOTFOUND exactly when there is none |
| Journal.FindEntryUnique | PLC/Logical/Main/Framework/Journal.cpp:633-644 | in a well-formed group the entry found is the unique one with that ID |
| Journal.Layout | PLC/Logical/Main/Framework/Journal.cpp:620-631 | calculateDataAddresses's loop as a value: one entry out per entry in, in order; LayoutAddresses and LayoutIsPacked state the addresses it assigns |
| Journal.LayoutAddresses | PLC/Logical/Main/Framework/Journal.cpp:620-631 | each entry's address is the base plus the sizes of the entries before it |
| Journal.LayoutIsPacked | PLC/Logical/Main/Framework/Journal.cpp:620-631 | the laid-out entries take disjoint ranges in ascending order within base .. base + total size, and nothing but their addresses changes |
| Journal.LayoutKeepsWellFormed | PLC/Logical/Main/Framework/Journal.cpp:620-631 | laying out keeps the order and the unique names |
| Journal.CalculateDataAddresses | PLC/Logical/Main/Framework/Journal.cpp:620-631 | the loop gives the layout and returns the total size |
| Journal.InsertGroup | PLC/Logical/Main/Framework/Journal.cpp:784-794 | inserting into the ID-ordered groups adds exactly the one group |
| Journal.InsertGroupKeepsWellFormed | PLC/Logical/Main/Framework/Journal.cpp:784-794 | inserting a group with a fresh ID and name keeps the groups in ascending ID order with unique names |
| Journal.AddGroup | PLC/Logical/Main/Framework/Journal.cpp:776-795 | a taken ID is DUPLICATEJOURNALGROUPID, a taken name DUPLICATEJOURNALGROUPNAME; otherwise exactly the new empty group is added, keeping the groups well formed |
| Journal.FindGroup | PLC/Logical/Main/Framework/Journal.cpp:797-807 | the group with the ID, or JOURNALGROUPIDNOTFOUND exactly when there is none |
| Journal.FindGroupByName | PLC/Logical/Main/Framework/Journal.cpp:810-821 | the group with the name, or JOURNALGROUPNAMENOTFOUND exactly when there is none |
| Journal.AddValue | PLC/Logical/Main/Framework/Journal.cpp:824-857 | an unknown group is JOURNALGROUPIDNOTFOUND and a bad definition its own error; otherwise only that group changes, gaining the entry as addEntry adds it |
| Journal.CalculateGroupAddresses | PLC/Logical/Main/Framework/Journal.cpp:860-880 | the group loop lays out each group's entries right after the previous group's and returns the total |
| Journal.LayoutGroupsShape | PLC/Logical/Main/Framework/Journal.cpp:860-880 | group i's entries are laid out from the total size of the groups before it |
| Journal.PreparedEntriesInBuffer | PLC/Logical/Main/Framework/Journal.cpp:860-894 | after prepareJournal every entry lies inside the current-value buffer, whose size is the total |
| Journal.LayoutGroupsKeepsWellFormed | PLC/Logical/Main/Framework/Journal.cpp:860-880 | laying out all groups keeps them well formed |
| Journal.Lookup | PLC/Logical/Main/Framework/Journal.cpp:647-706 | a typed access finds the group, then the entry, then checks its type: JOURNALGROUPIDNOTFOUND, JOURNALENTRYNOTFOUND or JOURNALENTRYTYPEMISMATCH otherwise |
| Journal.Narrow | PLC/Logical/Main/Framework/Journal.cpp:955-1047 | a narrowing getter returns the stored value iff it lies within the width's range, and otherwise throws JOURNALVALUEOUTSIDEOFRANGE |
| Journal.IntegerWriteReadBack | PLC/Logical/Main/Framework/Journal.cpp:444-455 | a value written through the integer setter reads back unchanged, and a narrowing getter accepts it iff it lies within that width |
| Journal.BoolByte | PLC/Logical/Main/Framework/Journal.cpp:536-546 | the bool setter's byte is non-zero exactly for true, and the getter reads back the same bool |
| Journal.PreparedInBuffer | PLC/Logical/Main/Framework/Journal.cpp:860-894 | after prepareJournal every entry of every group lies inside the buffer |
| Journal.LookupInBuffer | PLC/Logical/Main/Framework/Journal.cpp:647-706 | the definition a typed access finds in a prepared journal lies inside the buffer, with 1 byte for bools and 8 otherwise |
| Journal.CJournal.constructor | PLC/Logical/Main/Framework/Journal.cpp:763-770 | a new journal with a non-zero ring size is initializing, with that ring size, no groups and no value buffer yet |
| Journal.CJournal.RegisterGroup | PLC/Logical/Main/Framework/Journal.cpp:776-795 | refused once prepared (JOURNALISNOTINITIALIZING); otherwise the groups become AddGroup of the old ones, or stay on an error |
| Journal.CJournal.RegisterValue | PLC/Logical/Main/Framework/Journal.cpp:824-857 | refused once prepared; otherwise the groups become AddValue of the old ones, or stay on an error |
| Journal.CJournal.PrepareJournal | PLC/Logical/Main/Framework/Journal.cpp:860-894 | refused once prepared; otherwise the entries are laid out, an empty journal is EMPTYJOURNALNOTALLOWED, and a non-empty one gets a zero-filled buffer of the total size and an empty ring, and stops initializing |
| Journal.CJournal.SetValue | PLC/Logical/Main/Framework/Journal.cpp:898-925 | setIntegerValue, setBoolValue and setDoubleValue: lookup errors are passed on; an entry above JOURNAL_MAXSIZE gives INVALIDJOURNALADDRESS; any other found entry gets the value's bytes at its address, the rest of the buffer unchanged, and, when a byte changed, the entry stamped with the time is appended to a ring that is not full or counted as an overflow on a full one (WrittenData); with no byte changed the ring and overflow counter stay |
| Journal.CJournal.GetValue | PLC/Logical/Main/Framework/Journal.cpp:647-706 | the entry's bytes, 1 for bools and 8 otherwise; lookup errors are passed on |
| Journal.CJournal.GetIntegerValue | PLC/Logical/Main/Framework/Journal.cpp:946-1047 | the stored int64 with the width's range check; lookup errors are passed on |
| Journal.CJournal.GetBoolValue | PLC/Logical/Main/Framework/Journal.cpp:927-935 | true exactly when the entry's byte is non-zero |
| Journal.CJournal.RetrieveJournalHistory | PLC/Logical/Main/Framework/Journal.cpp:1104-1124 | appends the entry count (as uint32) and the overflow counter, then pops at most 64 entries oldest first, appending each one's timestamp (low 32 bits), group ID, entry ID and value bytes (8 for every entry writeData records); it succeeds exactly when the whole reply fits the response (else INVALIDPARAM), and then the rest of the ring is left |
| Signals.SizeInBytes | PLC/Logical/Main/Framework/SignalHandler.cpp:101-104 | a bool takes 1 byte, an int32 or uint32 4 and a double 8 |
| Signals.IntegerBytes | PLC/Logical/Main/Framework/SignalHandler.cpp:114-124 | writeIntegerToInstance fails exactly for a double definition (COULDNOTWRITEINTEGERTOPARAMETER) and for a value outside the int32 or uint32 range; otherwise it stores as many bytes as the definition takes |
| Signals.IntegerFromBytesAsWritten | PLC/Logical/Main/Framework/SignalHandler.cpp:232-241 | readIntegerFromInstance as written, reading a uint32 into an int32_t; it fails only for a double definition |
| Signals.IntegerFromBytes | PLC/Logical/Main/Framework/SignalHandler.cpp:128-141 | the corrected reader: a bool reads as 0 or 1, a uint32 as a value in 0 .. 2^32-1; only a double definition fails |
| Signals.IntegerRoundTrip | PLC/Logical/Main/Framework/SignalHandler.cpp:114-241 | every integer the store accepts reads back as itself, a bool as 0 or 1 |
| Signals.Int32Value | PLC/Logical/Main/Framework/SignalHandler.cpp:688-698 | the int32 getters return the value iff it lies in the int32 range, else VALUEISOUTSIDEOFINTEGER32RANGE |
| Signals.Uint32Value | PLC/Logical/Main/Framework/SignalHandler.cpp:700-709 | the uint32 getters return the value iff it lies in 0 .. 2^32-1, else VALUEISOUTSIDEOFUNSIGNEDINTEGER32RANGE |
| Signals.Uint32ReadBackAsWritten | PLC/Logical/Main/Framework/SignalHandler.cpp:218-241 | as written, setUint32Parameter(2^31) is accepted but reads back as -2^31, so getUint32Parameter throws; the corrected reader returns 2^31 |
| Signals.Uint32RoundTrip | PLC/Logical/Main/Framework/SignalHandler.cpp:218-241 | with the corrected reader every uint32 value stored reads back through getUint32Parameter unchanged |
| Signals.DefaultBytes | PLC/Logical/Main/Framework/SignalHandler.cpp:106-112 | the bytes a default writes are what writeIntegerToInstance stores for the default, and as many as the definition takes |
| Signals.Register | PLC/Logical/Main/Framework/SignalHandler.cpp:315-356 | registration fails after buildInstances (CANNOTREGISTERPARAMETER or CANNOTREGISTERRESULT), at an address other than the current memory size (SIGNALMEMORYALLOCATIONERROR), or for a taken name (DUPLICATESIGNALPARAMETERNAME or DUPLICATESIGNALRESULTNAME); otherwise it appends exactly the definition |
| Signals.RegisterKeepsLayout | PLC/Logical/Main/Framework/SignalHandler.cpp:315-356 | a registration keeps every definition inside the grown memory block, no two overlapping, with names unique per role |
| Signals.Find | PLC/Logical/Main/Framework/SignalHandler.cpp:423-434 | findParameter and findResult: the definition with the name and role, or SIGNALPARAMETERNOTFOUND or SIGNALRESULTNOTFOUND exactly when there is none |
| Signals.WriteDefaultsSlot | PLC/Logical/Main/Framework/SignalHandler.cpp:449-452 | after prepareSignal's default loops every definition's slot holds its default |
| Signals.WriteError | PLC/Logical/Main/Framework/SignalHandler.cpp:592-606 | writeData succeeds iff the size is 0 or the range lies inside the instance's block |
| Signals.ReadError | PLC/Logical/Main/Framework/SignalHandler.cpp:611-625 | readData succeeds iff the size is 0 or the range lies inside the instance's block |
| Signals.IdsOnce | PLC/Logical/Main/Framework/SignalHandler.cpp:402-421 | buildInstances creates each instance ID 1 .. queueSize exactly once |
| Signals.DistinctIsSubset | PLC/Logical/Main/Framework/SignalHandler.cpp:402-541 | the pools hold each built instance at most once exactly when their multiset is contained in the IDs built |
| Signals.BuiltDistinct | PLC/Logical/Main/Framework/SignalHandler.cpp:402-421 | after buildInstances every instance is unused, each once |
| Signals.PreparedKeepsMembers | PLC/Logical/Main/Framework/SignalHandler.cpp:436-445 | prepareSignal's move from the unused queue to the preparation map loses and duplicates no instance |
| Signals.TriggeredKeepsMembers | PLC/Logical/Main/Framework/SignalHandler.cpp:522-534 | finishPreparation's move to the active queue loses and duplicates no instance |
| Signals.CheckedKeepsMembers | PLC/Logical/Main/Framework/SignalHandler.cpp:461-474 | checkSignal's move from the active queue to the in-process map loses and duplicates no instance |
| Signals.FinishedKeepsMembers | PLC/Logical/Main/Framework/SignalHandler.cpp:480-502 | finishProcessing's move to the unused or the finished queue loses and duplicates no instance |
| Signals.ReleasedKeepsMembers | PLC/Logical/Main/Framework/SignalHandler.cpp:506-518 | releaseExpiredSignals's move of a finished instance to the unused queue loses and duplicates no instance |
| Signals.DroppedInstance | PLC/Logical/Main/Framework/SignalHandler.cpp:480-499 | when the lifetime check throws after the erase, the instance is in no pool any more: it is lost |
| Signals.Expired | PLC/Logical/Main/Framework/SignalHandler.cpp:876-893 | a trigger time in the future throws SIGNALTRIGGERTIMEISINFUTURE; otherwise the lifetime has expired iff more whole milliseconds than the lifetime have passed |
| Signals.StoreInteger | PLC/Logical/Main/Framework/SignalHandler.cpp:792-813 | setting a parameter or result keeps the block's size |
| Signals.StoreLoadInteger | PLC/Logical/Main/Framework/SignalHandler.cpp:642-760 | an integer set on a parameter or result reads back, a bool as 0 or 1 |
| Signals.StoreIntegerErrors | PLC/Logical/Main/Framework/SignalHandler.cpp:642-813 | a set fails exactly for an unknown name (SIGNALPARAMETERNOTFOUND or SIGNALRESULTNOTFOUND), a value outside the definition's range or a double definition |
| Signals.StoreLoadDouble | PLC/Logical/Main/Framework/SignalHandler.cpp:663-667 | a double set on a double definition reads back as the same bits |
| Signals.StoreKeepsOthers | PLC/Logical/Main/Framework/SignalHandler.cpp:642-813 | setting one parameter or result leaves every other definition's bytes as they were |
| Signals.FlagStores | PLC/Logical/Main/Framework/SignalHandler.cpp:493-536 | setting __active and __processed writes 1 to the byte the constructor reserved for each |
| Signals.CSignalDefinition.constructor | PLC/Logical/Main/Framework/SignalHandler.cpp:288-299 | a new definition has not built its instances, carries the name, queue size and lifetime, and holds the __active parameter and the __processed result in bytes 0 and 1 |
| Signals.CSignalDefinition.RegisterDefinition | PLC/Logical/Main/Framework/SignalHandler.cpp:315-356 | the definitions become Register of the old ones, the memory size grows by the definition's size, or nothing changes on an error |
| Signals.CSignalDefinition.AddDefinition | PLC/Logical/Main/Framework/SignalHandler.cpp:360-399 | the add helpers register at the current memory size: fails exactly after buildInstances or for a taken name, else appends the definition and grows the memory size |
| Signals.CSignalDefinition.BuildInstances | PLC/Logical/Main/Framework/SignalHandler.cpp:402-421 | a second call throws SIGNALINSTANCESALREADYBUILT and changes nothing; otherwise there are queueSize zeroed blocks, all unused, none triggered |
| Signals.CSignalDefinition.WriteData | PLC/Logical/Main/Framework/SignalHandler.cpp:592-609 | out-of-range writes throw SIGNALDATAWRITEOUTOFRANGE and change nothing; otherwise exactly the bytes at the offset of that instance's block change |
| Signals.CSignalDefinition.ReadData | PLC/Logical/Main/Framework/SignalHandler.cpp:611-628 | out-of-range reads throw SIGNALDATAREADOUTOFRANGE; otherwise the bytes at the offset |
| Signals.CSignalDefinition.PrepareSignal | PLC/Logical/Main/Framework/SignalHandler.cpp:436-458 | no instances throws SIGNALHASNOINSTANCES, an empty unused queue COULDNOTPREPARESIGNAL; otherwise the oldest unused instance moves to preparation with its timer reset and its block holding the defaults |
| Signals.CSignalDefinition.TriggerSignal | PLC/Logical/Main/Framework/SignalHandler.cpp:522-537 | only an instance in preparation is triggered (else SIGNALHASNOINSTANCES or SIGNALISNOTINPREPARATION, nothing changed): it moves to the back of the active queue, __active is set and the trigger time becomes now |
| Signals.CSignalDefinition.CheckSignal | PLC/Logical/Main/Framework/SignalHandler.cpp:461-477 | no instances throws; an empty active queue gives none; otherwise the oldest active instance moves to processing |
| Signals.CSignalDefinition.FinishProcessing | PLC/Logical/Main/Framework/SignalHandler.cpp:480-504 | only an instance in process is finished; __processed is set, and the instance is unused again with its timer reset if its lifetime expired, queued as finished if not, and dropped if its trigger time is in the future |
| Signals.CSignalDefinition.ReleaseExpiredSignals | PLC/Logical/Main/Framework/SignalHandler.cpp:506-520 | the pools and timers become those of the release loop, the blocks unchanged, and the count released is the loop's |
| Signals.CSignalDefinition.SetIntegerValue | PLC/Logical/Main/Framework/SignalHandler.cpp:642-661 | setBool/Int32/Uint32Parameter and Result: the instance's block becomes StoreInteger of the old one, or stays on the error |
| Signals.CSignalDefinition.GetIntegerValue | PLC/Logical/Main/Framework/SignalHandler.cpp:76-241 | reads LoadInteger of the instance's block |
| Signals.CSignalDefinition.GetBoolValue | PLC/Logical/Main/Framework/SignalHandler.cpp:680-686 | getBoolParameter and getBoolResult are true exactly for a non-zero stored value |
| Signals.CSignalDefinition.GetInt32Value | PLC/Logical/Main/Framework/SignalHandler.cpp:688-698 | getInt32Parameter and getInt32Result: the stored value under the int32 range check |
| Signals.CSignalDefinition.GetUint32Value | PLC/Logical/Main/Framework/SignalHandler.cpp:700-709 | getUint32Parameter and getUint32Result: the stored value read as unsigned under the uint32 range check |
| Signals.CSignalDefinition.SetDoubleValue | PLC/Logical/Main/Framework/SignalHandler.cpp:663-667 | setDoubleParameter and setDoubleResult: a double definition gets the 8 bytes of the bits, any other throws COULDNOTWRITEDOUBLETOPARAMETER |
| Signals.CSignalDefinition.GetDoubleValue | PLC/Logical/Main/Framework/SignalHandler.cpp:711-715 | getDoubleParameter and getDoubleResult: the stored 8 bytes of a double definition, else COULDNOTREADDOUBLEFROMPARAMETER |
| Signals.FillDefaults | PLC/Logical/Main/Framework/SignalHandler.cpp:449-452 | the default loops give WriteDefaults of the block |
| Signals.ReleaseAll | PLC/Logical/Main/Framework/SignalHandler.cpp:506-520 | the release loop keeps the number of trigger times |
| Signals.ReleaseFinished | PLC/Logical/Main/Framework/SignalHandler.cpp:506-520 | the while loop computes ReleaseAll |
| Signals.MovedFrontKeepsMembers | PLC/Logical/Main/Framework/SignalHandler.cpp:506-518 | moving the front of the finished queue to the unused queue keeps the multiset of all IDs |
| Signals.ReleaseAllMovesFront | PLC/Logical/Main/Framework/SignalHandler.cpp:506-518 | the released instances are the front of the finished queue, appended in order to the unused queue |
| Signals.ReleaseAllBound | PLC/Logical/Main/Framework/SignalHandler.cpp:506-518 | at most the whole finished queue is released |
| Signals.ReleaseAllExpired | PLC/Logical/Main/Framework/SignalHandler.cpp:506-518 | every released instance had expired when the loop reached it |
| Signals.ReleaseAllStops | PLC/Logical/Main/Framework/SignalHandler.cpp:506-518 | the loop stops at the first finished instance that has not expired, with the error if its trigger time is in the future, or at the end of the queue |
| Signals.ReleaseAllResets | PLC/Logical/Main/Framework/SignalHandler.cpp:506-518 | exactly the released instances have their timers reset |
| Signals.ResetTimesMeaning | PLC/Logical/Main/Framework/SignalHandler.cpp:516 | after the resets exactly the listed instances' timers are zero, the others unchanged |
| Signals.RequeueDistinct | PLC/Logical/Main/Framework/SignalHandler.cpp:495-501 | putting an instance that is in no pool back onto the unused or finished queue keeps every instance at most once |
| Signals.NewSignalDefinition | PLC/Logical/Main/Framework/SignalHandler.cpp:288-299 | a definition is made iff the queue size lies in SIGNALDEFINITION_MINQUEUESIZE .. SIGNALDEFINITION_MAXQUEUESIZE, else INVALIDSIGNALQUEUESIZE |
| Signals.LessTotal | PLC/Logical/Main/Framework/SignalHandler.cpp:908-925 | std::less on names orders any two different names |
| Signals.LessTransitive | PLC/Logical/Main/Framework/SignalHandler.cpp:908-925 | std::less on names is transitive |
| Signals.IndexOf | PLC/Logical/Main/Framework/SignalHandler.cpp:911-913 | map::find finds the name exactly when it is a key, at its index |
| Signals.InsertionPoint | PLC/Logical/Main/Framework/SignalHandler.cpp:918 | map::insert places a new key after every smaller key and before every other |
| Signals.InsertKeepsAscending | PLC/Logical/Main/Framework/SignalHandler.cpp:918 | inserting a new key at its insertion point keeps the keys in ascending order |
| Signals.BuildAll | PLC/Logical/Main/Framework/SignalHandler.cpp:964-976 | the handler's build loop builds every definition in name order until one already has instances, which throws SIGNALINSTANCESALREADYBUILT; later ones are untouched |
| Signals.ReleaseEach | PLC/Logical/Main/Framework/SignalHandler.cpp:978-982 | every definition's release runs in name order until one fails; later ones are untouched |
| Signals.CSignalHandler.constructor | PLC/Logical/Main/Framework/SignalHandler.cpp:896-901 | a new handler is initializing with no signal definitions |
| Signals.CSignalHandler.RegisterSignal | PLC/Logical/Main/Framework/SignalHandler.cpp:908-925 | refused after buildInstances (CANNOTREGISTERSIGNAL), a taken name is DUPLICATESIGNALDEFINITION, a bad queue size INVALIDSIGNALQUEUESIZE; otherwise the new definition is inserted at its place in name order |
| Signals.CSignalHandler.AddSignal | PLC/Logical/Main/Framework/SignalHandler.cpp:917-918 | a new definition is created and inserted in name order iff its queue size is valid |
| Signals.CSignalHandler.CheckSignal | PLC/Logical/Main/Framework/SignalHandler.cpp:928-943 | throws COULDNOTCHECKSIGNAL while initializing and SIGNALDEFINITIONNOTFOUND for an unknown name; otherwise it is that definition's checkSignal and no other changes |
| Signals.CSignalHandler.PrepareSignal | PLC/Logical/Main/Framework/SignalHandler.cpp:946-962 | throws COULDNOTPREPARESIGNAL while initializing and SIGNALDEFINITIONNOTFOUND for an unknown name; otherwise it is that definition's prepareSignal and no other changes |
| Signals.CSignalHandler.BuildInstances | PLC/Logical/Main/Framework/SignalHandler.cpp:964-976 | refused after the first call (CANNOTBUILDSIGNALINSTANCES); otherwise builds each definition in name order and stops initializing only if none had instances |
| Signals.CSignalHandler.ReleaseExpiredSignals | PLC/Logical/Main/Framework/SignalHandler.cpp:978-982 | each definition's release in name order, until one fails |
| Signals.CSignalHandler.Insert | PLC/Logical/Main/Framework/SignalHandler.cpp:918 | the definition is inserted at its insertion point by name, the others kept in order |
| TcpPacket.CopyInto | PLC/Logical/Main/Framework/TcpPacketHandler.cpp:73-80 | the copy loop puts the bytes at the offset and leaves the rest of the buffer as it was |
| TcpPacket.Appended | PLC/Logical/Main/Framework/TcpPacketHandler.cpp:63-86 | addPayload: a null or empty source adds nothing; a source that would take the payload past 256 KiB is INVALIDPARAM; otherwise the payload becomes the old bytes followed by the new ones and stays within 256 KiB |
| TcpPacket.HeaderRoundTrip | PLC/Logical/Main/Framework/TcpPacketHandler.cpp:167-182 | the outgoing header's 28 wire bytes decode back to the same header |
| TcpPacket.CTcpPacketResponse.constructor | PLC/Logical/Main/Framework/TcpPacketHandler.cpp:54-57 | a new response has a zero header and an empty payload |
| TcpPacket.CTcpPacketResponse.AddPayload | PLC/Logical/Main/Framework/TcpPacketHandler.cpp:63-86 | the payload changes exactly as Appended prescribes, or stays on INVALIDPARAM |
| TcpPacket.CTcpPacketResponse.AddUint8 | PLC/Logical/Main/Framework/TcpPacketHandler.cpp:89-92 | appends the one byte |
| TcpPacket.CTcpPacketResponse.AddUint16 | PLC/Logical/Main/Framework/TcpPacketHandler.cpp:94-97 | appends the two little-endian bytes |
| TcpPacket.CTcpPacketResponse.AddUint32 | PLC/Logical/Main/Framework/TcpPacketHandler.cpp:99-102 | appends the four little-endian bytes |
| TcpPacket.CTcpPacketResponse.AddInt8 | PLC/Logical/Main/Framework/TcpPacketHandler.cpp:104-107 | appends the two's-complement byte |
| TcpPacket.CTcpPacketResponse.AddInt16 | PLC/Logical/Main/Framework/TcpPacketHandler.cpp:109-112 | appends the two two's-complement bytes |
| TcpPacket.CTcpPacketResponse.AddInt32 | PLC/Logical/Main/Framework/TcpPacketHandler.cpp:114-117 | appends the four two's-complement bytes |
| TcpPacket.CTcpPacketResponse.AddDouble | PLC/Logical/Main/Framework/TcpPacketHandler.cpp:119-122 | appends the eight bytes of the double's bit pattern |
| TcpPacket.CTcpPacketResponse.AddString | PLC/Logical/Main/Framework/TcpPacketHandler.cpp:125-129 | appends the string's bytes, its length taken modulo 2^32 |
| TcpPacket.CTcpPacketResponse.SetErrorCode | PLC/Logical/Main/Framework/TcpPacketHandler.cpp:132-135 | only the error code changes, to the code's value |
| TcpPacket.CTcpPacketResponse.BeginResponse | PLC/Logical/Main/Framework/TcpPacketHandler.cpp:137-144 | the header takes the client, sequence and signature, the error code becomes 0 and the payload empty |
| TcpPacket.CTcpPacketResponse.ClearPayload | PLC/Logical/Main/Framework/TcpPacketHandler.cpp:184-187 | only the payload changes, to empty |
| TcpPacket.ReadUint8FromPayload | PLC/Logical/Main/Framework/TcpPacketHandler.cpp:199-207 | the byte at the offset iff the offset lies inside the 24 payload bytes, else INVALIDPAYLOADOFFSET |
| TcpPacket.ReadUint16FromPayload | PLC/Logical/Main/Framework/TcpPacketHandler.cpp:209-217 | the little-endian value of the two bytes at the offset iff both lie inside the payload, else INVALIDPAYLOADOFFSET |
| TcpPacket.ReadUint32FromPayload | PLC/Logical/Main/Framework/TcpPacketHandler.cpp:219-228 | the little-endian value of the four bytes at the offset iff all lie inside the payload, else INVALIDPAYLOADOFFSET |
| TcpPacket.WrappedOffsetPassesCheck | PLC/Logical/Main/Framework/TcpPacketHandler.cpp:213-224 | the guard as written, computed in 32 bits, lets offset 2^32-1 through although it is far past the payload |
| TcpPacket.CorrectedReadersRefuseWrappedOffset | PLC/Logical/Main/Framework/TcpPacketHandler.cpp:213-224 | every offset the wrapped guard gets wrong is refused by the corrected readers, and each such offset lies within 4 of 2^32 |
| TcpPacket.ParseEncode | PLC/Logical/Main/Framework/TcpPacketHandler.cpp:288-290 | a message's 44 bytes parse back to the same message |
| TcpPacket.EncodeParse | PLC/Logical/Main/Framework/TcpPacketHandler.cpp:288-290 | every 44 bytes are the encoding of the message parsed from them |
| TcpPacket.Dispatched | PLC/Logical/Main/Framework/TcpPacketHandler.cpp:278-318 | dispatching keeps the response payload within 256 KiB |
| TcpPacket.DispatchedMeans | PLC/Logical/Main/Framework/TcpPacketHandler.cpp:278-318 | a message of the wrong size is INVALIDPARAM; a message is ignored exactly when its signature or checksum is wrong or no handler is registered, and then the response is untouched; a handled message's response carries its client, sequence and signature, and the handler's bytes or, after a caught CException, its error code with an empty payload; only an exception other than CException escapes |
| TcpPacket.HandlePacketReturnAsWritten | PLC/Logical/Main/Framework/TcpPacketHandler.cpp:278-318 | as written, handlePacket returns true only for a handler that completed without overflowing the response |
| TcpPacket.CaughtFailureHasNoReturnValue | PLC/Logical/Main/Framework/TcpPacketHandler.cpp:309-315 | every request whose handler throws a CException reaches the end of handlePacket without a return value |
| TcpPacket.FailingHandlerExample | PLC/Logical/Main/Framework/TcpPacketHandler.cpp:309-315 | a concrete request whose handler throws INVALIDPARAM: no return value as written, an error response with the corrected registry |
| TcpPacket.CTcpPacketRegistry.constructor | PLC/Logical/Main/Framework/TcpPacketHandler.cpp:249-252 | a new registry has the signature, no checksum check and no handlers |
| TcpPacket.CTcpPacketRegistry.RegisterHandler | PLC/Logical/Main/Framework/TcpPacketHandler.cpp:258-269 | a command id already registered is PACKETHANDLERALREADYREGISTERED with nothing changed; otherwise exactly that handler is added |
| TcpPacket.CTcpPacketRegistry.HandlePacket | PLC/Logical/Main/Framework/TcpPacketHandler.cpp:278-318 | the result and the response are those of Dispatched on the registry's settings |
| TcpPacket.HeaderOf | PLC/Logical/Main/Framework/TcpPacketHandler.cpp:167-182 | the header built for a response carries its signature, client, sequence, status code and payload length; the payload checksum covers the payload (0 when empty), and the header checksum covers every byte before it |
| TcpPacket.HeaderDeterminedByFields | PLC/Logical/Main/Framework/TcpPacketHandler.cpp:167-182 | a header with those fields and checksums is exactly the one buildHeader produces |
| TcpPacket.RejectsOffsetAsWritten | PLC/Logical/Main/Framework/TcpPacketHandler.cpp:213-224 | the readers' guard as written, `nOffset + sizeof (T) > payload size` with the sum wrapping in 32 bits; WrappedOffsetPassesCheck and CorrectedReadersRefuseWrappedOffset state what it lets through |
| TcpPacket.ParseMessage | PLC/Logical/Main/Framework/Framework.hpp:216-223 | the fields of the 44-byte TcpIncomingMessage in declaration order, with a 24-byte payload; ParseEncode and EncodeParse state that it inverts EncodeMessage |
| TcpPacket.EncodeMessage | PLC/Logical/Main/Framework/Framework.hpp:216-223 | the 44 bytes of a message in TcpIncomingMessage's layout, little-endian; ParseEncode and EncodeParse state the round trips |
| TcpList.ListStateValue | PLC/Logical/Main/Framework/TcpListHandler.cpp:397 | a list status reply carries the list state's enum value, 0 exactly for a list in queue |
| TcpList.Walk | PLC/Logical/Main/Framework/TcpListHandler.cpp:590-622 | following next pointers from an entry meets only entries of the pool, at most as many as the steps allowed |
| TcpList.CycleEffectOf | PLC/Logical/Main/Framework/TcpListHandler.cpp:625-699 | handleCyclic's switch: an entry never moves back; it fails exactly when its handler throws during initial or cyclic execution, finishes exactly when cyclicExecution reports it finished, a finished entry moves the list on and a failed one drops the executing list |
| TcpList.ListById | PLC/Logical/Main/Framework/TcpListHandler.cpp:549-562 | getListByID as intended: list id when it has been begun, nullptr otherwise, and LISTDOESNOTEXIST exactly when the caller demands a list that is not there |
| TcpList.AsWrittenAgreesInRange | PLC/Logical/Main/Framework/TcpListHandler.cpp:549-562 | for an id of the pool the code as written answers as intended |
| TcpList.AsWrittenThrowsOutOfRange | PLC/Logical/Main/Framework/TcpListHandler.cpp:551-552 | for id 0 or an id past the pool the code as written throws std::out_of_range where nullptr or LISTDOESNOTEXIST is intended |
| TcpList.LinkedIn | PLC/Logical/Main/Framework/TcpListHandler.cpp:603-619 | storing the new entry behind the last one changes the entry pool at the new entry only, besides the last entry's link |
| TcpList.ChainLists | PLC/Logical/Main/Framework/TcpListHandler.cpp:461-476 | the constructor's first loop leaves list i with id i + 1, in queue, empty, linked to list i + 1, and the free chain starting at list 0 |
| TcpList.ChainEntries | PLC/Logical/Main/Framework/TcpListHandler.cpp:478-489 | the constructor's second loop leaves entry k cleared and linked to entry k + 1, and the free chain starting at entry 0 |
| TcpList.Initial | PLC/Logical/Main/Framework/TcpListHandler.cpp:452-491 | the constructor leaves pools of the given sizes with nothing in use |
| TcpList.BeginStep | PLC/Logical/Main/Framework/TcpListHandler.cpp:509-528 | beginList fails with TOOMANYOPENLISTS and changes nothing when no list is free; otherwise the next free list becomes the list being written, in creation and empty, and its id is returned |
| TcpList.FinishStep | PLC/Logical/Main/Framework/TcpListHandler.cpp:531-546 | finishList fails with NOTWRITINGTOANYLIST or LISTISEMPTY and changes nothing; otherwise the list being written becomes finished and nothing is written any more |
| TcpList.ExecuteStep | PLC/Logical/Main/Framework/TcpListHandler.cpp:564-581 | executeList succeeds iff the id names a finished list (else INVALIDLISTID or LISTISNOTFINISHED, and no list executes); the list then executes from its first entry |
| TcpList.AddStep | PLC/Logical/Main/Framework/TcpListHandler.cpp:590-622 | addCommandToCurrentList fails with NOLISTTOWRITETO or NOLISTENTRIESLEFT and changes nothing; otherwise the next free entry gets the handler, the payload, the next index in the list and a cleared context, and becomes the list's last entry |
| TcpList.CycleStep | PLC/Logical/Main/Framework/TcpListHandler.cpp:625-699 | handleCyclic changes nothing without an executing list, touches only lists, entries and the executing list, and can only drop the executing list; a handler that ran leaves the lifetime and signal slots its environment set in the entry (Handled, EnteredContextPersists) |
| TcpList.InitialConsistent | PLC/Logical/Main/Framework/TcpListHandler.cpp:452-491 | the constructor's pools satisfy the handler's invariant |
| TcpList.BeginKeepsConsistent | PLC/Logical/Main/Framework/TcpListHandler.cpp:509-528 | beginList keeps the invariant |
| TcpList.FinishKeepsConsistent | PLC/Logical/Main/Framework/TcpListHandler.cpp:531-546 | finishList keeps the invariant |
| TcpList.ExecuteKeepsConsistent | PLC/Logical/Main/Framework/TcpListHandler.cpp:564-581 | executeList keeps the invariant |
| TcpList.AddKeepsConsistent | PLC/Logical/Main/Framework/TcpListHandler.cpp:590-622 | addCommandToCurrentList keeps the invariant |
| TcpList.CycleKeepsConsistent | PLC/Logical/Main/Framework/TcpListHandler.cpp:625-699 | handleCyclic keeps the invariant |
| TcpList.CurrentEntryFits | PLC/Logical/Main/Framework/TcpListHandler.cpp:628-629 | the entry an executing list is at is one of that list's entries |
| TcpList.ListWalksItsEntries | PLC/Logical/Main/Framework/TcpListHandler.cpp:590-622 | following a begun list from its first entry visits exactly its entryCount entries in the order they were added, numbered 0, 1, ..., and then reaches nullptr |
| TcpList.AddAppendsToList | PLC/Logical/Main/Framework/TcpListHandler.cpp:614-618 | addCommandToCurrentList appends the new entry at the end of the list being written |
| TcpList.Handled | PLC/Logical/Main/Framework/TcpListHandler.cpp:645-676 | the entry's context after a cycle: the state handleCyclic sets, with the lifetime and signal slots the handler's environment left when a handler ran, and the context data untouched |
| TcpList.EnteredContextPersists | PLC/Logical/Main/Framework/TcpListHandler.cpp:645-650 | after the cycle that entered an entry, it is in cyclic execution and its context holds the slots and the lifetime enterExecution's environment set |
| TcpList.PreparedSlotSeenByCyclicExecution | PLC/Logical/Main/Framework/TcpListHandler.cpp:645-667 | a signal enterExecution prepared in a slot is in that slot of the context cyclicExecution's environment is built on in the next cycle |
| TcpList.EntryFinishesInFourCycles | PLC/Logical/Main/Framework/TcpListHandler.cpp:625-699 | an entry whose handler finishes at once takes four cycles: entered, executed once, finished, and the list moves to the next entry |
| TcpList.CurrentOfBegunList | PLC/Logical/Main/Framework/TcpListHandler.cpp:399-400 | the current entry of a begun list is its own, numbered by its position in the list |
| TcpList.StatusWords | PLC/Logical/Main/Framework/TcpListHandler.cpp:390-413 | the four status words are the list's id, state, entry count and current position, or four zeros without a list |
| TcpList.ListStatus | PLC/Logical/Main/Framework/TcpListHandler.cpp:390-413 | the status reply is four zeros exactly for a list that has not been begun; otherwise its id, state, entry count and the position of the entry being executed |
| TcpList.ListStatusOfIdZero | PLC/Logical/Main/Framework/TcpListHandler.cpp:392-393 | for list id 0 the intended reply is four zeros, while the code as written fails with std::out_of_range, which the packet registry does not catch |
| TcpList.CTcpListHandler.constructor | PLC/Logical/Main/Framework/TcpListHandler.cpp:452-491 | the handler starts in the initial state of the given pool sizes |
| TcpList.CTcpListHandler.BeginList | PLC/Logical/Main/Framework/TcpListHandler.cpp:509-528 | the result and new state are BeginStep's |
| TcpList.CTcpListHandler.FinishList | PLC/Logical/Main/Framework/TcpListHandler.cpp:531-546 | the result and new state are FinishStep's |
| TcpList.CTcpListHandler.ExecuteList | PLC/Logical/Main/Framework/TcpListHandler.cpp:564-581 | the result and new state are ExecuteStep's |
| TcpList.CTcpListHandler.GetListById | PLC/Logical/Main/Framework/TcpListHandler.cpp:549-562 | the answer is ListById on the list states |
| TcpList.CTcpListHandler.AddCommandToCurrentList | PLC/Logical/Main/Framework/TcpListHandler.cpp:590-622 | the result and new state are AddStep's |
| TcpList.CTcpListHandler.HandleCyclic | PLC/Logical/Main/Framework/TcpListHandler.cpp:625-699 | the new state is CycleStep's: the entry keeps what the handler's environment wrote to its context |
| TcpList.CTcpListHandler.BeginListCommand | PLC/Logical/Main/Framework/TcpListHandler.cpp:298-302 | the begin-list command answers the new list id, or fails with beginList's error |
| TcpList.CTcpListHandler.FinishListCommand | PLC/Logical/Main/Framework/TcpListHandler.cpp:329-335 | the finish-list command answers the finished list's id and entry count, or fails with finishList's error |
| TcpList.CTcpListHandler.ExecuteListCommand | PLC/Logical/Main/Framework/TcpListHandler.cpp:360-366 | the execute-list command executes the list named by the payload's first word and answers its entry count, or fails with executeList's error |
| TcpList.CTcpListHandler.ListStatusCommand | PLC/Logical/Main/Framework/TcpListHandler.cpp:390-413 | the list-status command answers ListStatus of the payload's first word |
| TcpList.CTcpListHandler.BufferedCommand | PLC/Logical/Main/Framework/TcpListHandler.cpp:433-437 | a buffered command appends itself to the list being written and answers its index in the list, or fails with addCommandToCurrentList's error |
| TcpList.RegisterDefaultCommands | PLC/Logical/Main/Framework/TcpListHandler.cpp:497-507 | the four list commands are registered iff none of their ids is already taken |
| TcpList.PayloadRead | PLC/Logical/Main/Framework/TcpListHandler.cpp:69-87 | readPayloadData: no bytes for a count of 0; INVALIDPAYLOADADDRESS for an address past the payload; INVALIDPAYLOADREADOPERATION for a count of the whole payload or a read past its end; otherwise exactly the bytes at the address |
| TcpList.CPayloadEnvironment.ReadPayloadData | PLC/Logical/Main/Framework/TcpListHandler.cpp:69-87 | the copy loop gives PayloadRead |
| TcpList.CPayloadEnvironment.ReadPayloadUint8 | PLC/Logical/Main/Framework/TcpListHandler.cpp:90-95 | the byte at the address iff it lies in the payload |
| TcpList.CPayloadEnvironment.ReadPayloadUint16 | PLC/Logical/Main/Framework/TcpListHandler.cpp:97-102 | the little-endian value of the two bytes at the address iff they lie in the payload |
| TcpList.CPayloadEnvironment.ReadPayloadUint32 | PLC/Logical/Main/Framework/TcpListHandler.cpp:104-109 | the little-endian value of the four bytes at the address iff they lie in the payload |
| TcpList.CPayloadEnvironment.ReadPayloadInt8 | PLC/Logical/Main/Framework/TcpListHandler.cpp:111-116 | the two's-complement value of the byte at the address iff it lies in the payload |
| TcpList.CPayloadEnvironment.ReadPayloadInt16 | PLC/Logical/Main/Framework/TcpListHandler.cpp:118-123 | the two's-complement value of the two bytes iff they lie in the payload |
| TcpList.CPayloadEnvironment.ReadPayloadInt32 | PLC/Logical/Main/Framework/TcpListHandler.cpp:125-131 | the two's-complement value of the four bytes iff they lie in the payload |
| TcpList.CPayloadEnvironment.ReadPayloadDouble | PLC/Logical/Main/Framework/TcpListHandler.cpp:133-139 | the eight bytes' bit pattern iff they lie in the payload |
| TcpList.CPayloadEnvironment.ReadPayloadFloat | PLC/Logical/Main/Framework/TcpListHandler.cpp:141-147 | the four bytes' bit pattern iff they lie in the payload |
| TcpList.CPayloadEnvironment.SetLifetimeInMilliseconds | PLC/Logical/Main/Framework/TcpListHandler.cpp:237-240 | only the context's lifetime changes |
| TcpList.CPayloadEnvironment.PrepareSignal | PLC/Logical/Main/Framework/TcpListHandler.cpp:242-257 | a slot past the slot count is INVALIDSIGNALSLOTINDEX, a taken slot PAYLOADSIGNALSLOTALREADYTAKEN, and nothing changes; otherwise the prepared instance lands in the slot, where getSignal finds it |
| TcpList.CPayloadEnvironment.GetSignal | PLC/Logical/Main/Framework/TcpListHandler.cpp:259-269 | the slot's instance; INVALIDSIGNALSLOTINDEX past the slot count, SIGNALSLOTISEMPTY for an empty slot the caller demands |
| TcpList.CPayloadEnvironment.SignalHasBeenProcessed | PLC/Logical/Main/Framework/TcpListHandler.cpp:271-275 | answers iff the slot holds an instance, with what that instance reports |
| TcpList.SignedFromBytes | PLC/Logical/Main/Framework/TcpListHandler.cpp:111-131 | the signed value of one, two or four little-endian bytes, which encode it back |
| TcpList.ListByIdAsWritten | PLC/Logical/Main/Framework/TcpListHandler.cpp:549-562 | getListByID as written: the `||` guard holds for every id, so id 0 and ids past the end reach vector::at and throw std::out_of_range; AsWrittenAgreesInRange states it agrees with ListById for ids in range |
| TcpList.ListStatusAsWritten | PLC/Logical/Main/Framework/TcpListHandler.cpp:390-413 | the list-status command with getListByID as written; ListStatusOfIdZero states where it departs from ListStatus |
| TcpServer.Queued | PLC/Logical/Main/Framework/TcpServer.cpp:347-376 | sendData of no bytes queues nothing; otherwise it succeeds exactly when canSendData holds, and then appends the bytes to the queue; the refusals are TCPSENDBUFFERSIZEEXCEEDED and TCPSENDBUFFERISFULL |
| TcpServer.QueuedFits | PLC/Logical/Main/Framework/TcpServer.cpp:358-376 | a queue that fits its send buffer still fits it after sendData |
| TcpServer.Respond | PLC/Logical/Main/Framework/TcpServer.cpp:405-411 | a handled message's answer is queued exactly when header and payload fit together; the only failures are the two send buffer errors; a queue within its buffer stays within it |
| TcpServer.RespondQueuesAnswer | PLC/Logical/Main/Framework/TcpServer.cpp:405-411 | a queued answer is the queue followed by the built header's bytes and the response's payload |
| TcpServer.Answer | PLC/Logical/Main/Framework/TcpServer.cpp:401-424 | one message of the receive loop: not handled leaves the queue as it was; handled queues header and payload; exceptions are a handler's out-of-range read or a send buffer error |
| TcpServer.AnswerQueuesAnswer | PLC/Logical/Main/Framework/TcpServer.cpp:401-424 | a handled message has its response's header and payload appended to the queue |
| TcpServer.Consume | PLC/Logical/Main/Framework/TcpServer.cpp:398-432 | the receive loop ends in RESETCONNECTION or ERROR, or throws only a handler's or sendData's exception |
| TcpServer.ConsumeOneMessage | PLC/Logical/Main/Framework/TcpServer.cpp:401-424 | on at least 44 bytes the loop answers the first message, and continues with the rest only when that message was handled |
| TcpServer.ResetOnlyOnWholeMessages | PLC/Logical/Main/Framework/TcpServer.cpp:426-432 | the loop reaches RESETCONNECTION only when the received bytes were a whole number of 44-byte messages |
| TcpServer.ConsumeExtendsQueue | PLC/Logical/Main/Framework/TcpServer.cpp:398-432 | the receive loop only appends to the queue and keeps it within the send buffer |
| TcpServer.OneRequestAnswered | PLC/Logical/Main/Framework/TcpServer.cpp:389-437 | one request whose handler completes, with room in the queue, is answered byte for byte and the receive block is re-armed |
| TcpServer.RecvCycle | PLC/Logical/Main/Framework/TcpServer.cpp:387-472 | the recv half changes neither send state nor buffer on the wire; only WAITINGFORDATA touches queue and response; a changed last error means the ERROR state with TcpRecv's status |
| TcpServer.SendCycle | PLC/Logical/Main/Framework/TcpServer.cpp:474-517 | the send half leaves the recv side alone; a waiting connection with queued bytes moves them onto the wire, empties the queue and starts SENDING |
| TcpServer.CycleKeepsConnection | PLC/Logical/Main/Framework/TcpServer.cpp:378-520 | a cycle keeps a connection in known states and within its buffers, and never throws UNKNOWNTCPRECVSTATE or UNKNOWNTCPSENDSTATE |
| TcpServer.RecvLoopKeepsConnection | PLC/Logical/Main/Framework/TcpServer.cpp:398-432 | the receive loop's share of that invariant |
| TcpServer.Initialized | PLC/Logical/Main/Framework/TcpServer.cpp:334-345 | initialize puts both sides in WAITINGFORDATA for the client with both send buffers empty |
| TcpServer.CTcpConnection.Conn | PLC/Logical/Main/Framework/TcpServer.cpp:303-327 | the connection's fields hold a state whose send buffers fit their memory size |
| TcpServer.CTcpConnection.constructor | PLC/Logical/Main/Framework/TcpServer.cpp:303-327 | a new connection is inactive on both sides with client 0, last error 0 and empty buffers |
| TcpServer.CTcpConnection.New | PLC/Logical/Main/Framework/TcpServer.cpp:303-327 | buffer sizes outside 1 KiB to 16 MiB are refused with INVALIDTCPBUFFERSIZE; otherwise a valid connection on the registry |
| TcpServer.CTcpConnection.Initialize | PLC/Logical/Main/Framework/TcpServer.cpp:334-345 | the new state is Initialized of the old one |
| TcpServer.CTcpConnection.CanSendData | PLC/Logical/Main/Framework/TcpServer.cpp:347-356 | true exactly when the bytes fit the buffer and fit behind the queued ones |
| TcpServer.CTcpConnection.SendData | PLC/Logical/Main/Framework/TcpServer.cpp:358-376 | throws exactly when canSendData is false, and the new queue is Queued of the old one |
| TcpServer.CTcpConnection.SendResponse | PLC/Logical/Main/Framework/TcpServer.cpp:405-411 | the new queue and result are Respond on the old state |
| TcpServer.CTcpConnection.HandleMessage | PLC/Logical/Main/Framework/TcpServer.cpp:403 | the registry's handlePacket into the connection's response, as the packet model dispatches it |
| TcpServer.CTcpConnection.AnswerMessage | PLC/Logical/Main/Framework/TcpServer.cpp:401-424 | the result, queue and response are Answer on the old state |
| TcpServer.CTcpConnection.ReceiveOne | PLC/Logical/Main/Framework/TcpServer.cpp:401-424 | the first message and the rest of the loop agree with Consume |
| TcpServer.CTcpConnection.ReceiveMessages | PLC/Logical/Main/Framework/TcpServer.cpp:398-432 | the receive loop's result, queue and response are Consume on the old state |
| TcpServer.CTcpConnection.HandleRecv | PLC/Logical/Main/Framework/TcpServer.cpp:387-472 | the result and new state are RecvCycle of the old state |
| TcpServer.CTcpConnection.HandleSend | PLC/Logical/Main/Framework/TcpServer.cpp:474-517 | the result and new state are SendCycle of the old state |
| TcpServer.CTcpConnection.HandleCyclic | PLC/Logical/Main/Framework/TcpServer.cpp:378-520 | the result and new state are the recv half and then, unless it threw, the send half |
| TcpServer.ServerTransition | PLC/Logical/Main/Framework/TcpServer.cpp:594-675 | handleServer's switch: a client is enabled only while LISTENING with a free connection and turned away only without one; only an unknown state throws; INACTIVE and ERROR do nothing; the last error changes only on entering ERROR |
| TcpServer.ServerNeverUnknown | PLC/Logical/Main/Framework/TcpServer.cpp:594-675 | from any state but UNKNOWN the switch neither throws nor reaches UNKNOWN |
| TcpServer.ServerRun | PLC/Logical/Main/Framework/TcpServer.cpp:594-675 | successive handleServer switches, each on that cycle's statuses and free connection, stopping at the first that throws; ServerRunNeverUnknown and ServerRunStaysStopped state what it guarantees |
| TcpServer.ServerRunNeverUnknown | PLC/Logical/Main/Framework/TcpServer.cpp:594-675 | over any number of cycles a server started in a known state never throws from its switch |
| TcpServer.ServerRunStaysStopped | PLC/Logical/Main/Framework/TcpServer.cpp:665-669 | a server in ERROR or INACTIVE stays there with its last error over any number of cycles |
| TcpServer.FullServerTurnsClientAway | PLC/Logical/Main/Framework/TcpServer.cpp:621-634 | a client that connects while every connection is in use is closed and the server goes to CLOSINGCONNECTION |
| TcpServer.MakeConnections | PLC/Logical/Main/Framework/TcpServer.cpp:531-533 | the constructor's loop makes maxConnections disjoint inactive connections of 1 KiB receive and 1 MiB send buffers |
| TcpServer.CycleOne | PLC/Logical/Main/Framework/TcpServer.cpp:677-678 | one connection's handleCyclic changes only that connection |
| TcpServer.CycleAll | PLC/Logical/Main/Framework/TcpServer.cpp:677-678 | the active connections cycle in order until one throws; the rest are not reached |
| TcpServer.CTcpServer.constructor | PLC/Logical/Main/Framework/TcpServer.cpp:525-539 | a new server is INACTIVE with no error, a fresh registry for the signature and maxConnections inactive connections |
| TcpServer.CTcpServer.StartServer | PLC/Logical/Main/Framework/TcpServer.cpp:558-564 | only an INACTIVE server starts, into INIT; otherwise SERVERISALREADYRUNNING and nothing changes |
| TcpServer.CTcpServer.StopServer | PLC/Logical/Main/Framework/TcpServer.cpp:566-572 | a running server becomes INACTIVE; stopping a stopped one throws SERVERISALREADYRUNNING |
| TcpServer.CTcpServer.EnableConnection | PLC/Logical/Main/Framework/TcpServer.cpp:575-591 | false with nothing changed when no connection is free; otherwise the first inactive connection is initialized for the client and becomes the last active one |
| TcpServer.CTcpServer.RegisterPacketHandler | PLC/Logical/Main/Framework/TcpServer.cpp:701-704 | registration on the server's registry: an id already registered is refused with PACKETHANDLERALREADYREGISTERED, otherwise the handler is added |
| TcpServer.CTcpServer.CycleConnections | PLC/Logical/Main/Framework/TcpServer.cpp:677-678 | the active connections come out as CycleAll describes, and none joins or leaves |
| TcpServer.CTcpServer.StepServer | PLC/Logical/Main/Framework/TcpServer.cpp:597-675 | the state, last error and connections after the switch are those ServerTransition prescribes, an enabled client on a newly active connection |
| TcpServer.CTcpServer.HandleServer | PLC/Logical/Main/Framework/TcpServer.cpp:594-683 | the switch as ServerTransition prescribes, then one cycle of every active connection in order until one throws |
| Axis.CanReference | PLC/Logical/Main/Modules/MappMotion_SingleAxis.cpp:323-330 | canReference: the axis is idle, powered and at standstill; StartReferenceMeans states that startReference succeeds exactly then (in the wrapper's or the simulated mode) |
| Axis.CanMoveAxis | PLC/Logical/Main/Modules/MappMotion_SingleAxis.cpp:372-379 | canMoveAxis: idle, powered, referenced and at standstill; CanMoveMeans relates it to canReference and MoveStepMeans states that a move is accepted only then |
| Axis.CanMoveMeans | PLC/Logical/Main/Modules/MappMotion_SingleAxis.cpp:323-330 | canMoveAxis holds exactly when canReference holds and the axis is homed; canReference exactly when idle, powered and at standstill |
| Axis.SetPowerMeans | PLC/Logical/Main/Modules/MappMotion_SingleAxis.cpp:300-321 | setPower on succeeds exactly when the block is ready to power on, and off exactly when the wrapper is idle; refusals are COULDNOTPOWERAXIS; success sets the power command and the SETTINGPOWERON or SETTINGPOWEROFF state and nothing else |
| Axis.StartReferenceMeans | PLC/Logical/Main/Modules/MappMotion_SingleAxis.cpp:332-354 | startReference succeeds exactly on an idle, powered axis at standstill, homing in the wrapper's mode or in direct mode on a simulated CPU; refusals are COULDNOTREFERENCEAXIS |
| Axis.PowerOnToReferenceMeans | PLC/Logical/Main/Modules/MappMotion_SingleAxis.cpp:362-370 | setPowerOnAndStartReference succeeds exactly when the block is ready to power on, sets the power command and enters SETTINGPOWERON_TO_REFERENCE; otherwise COULDNOTPOWERAXIS |
| Axis.MoveStepMeans | PLC/Logical/Main/Modules/MappMotion_SingleAxis.cpp:445-590 | a move of either axis type is accepted exactly when speed and acceleration are in range and the axis can move; INVALIDSPEEDVALUE, INVALIDACCELERATIONVALUE and COULDNOTMOVEAXIS come in that order; an accepted move enters its INIT state and stores its setpoint, touching nothing else |
| Axis.CycleKeepsSteadyStates | PLC/Logical/Main/Modules/MappMotion_SingleAxis.cpp:606-750 | handleCyclic leaves IDLE, ERROR and an unknown state as they are, taking over only the block's outputs |
| Axis.CycleErrorWins | PLC/Logical/Main/Modules/MappMotion_SingleAxis.cpp:606-750 | in every state that waits on the block, a block error leads to ERROR |
| Axis.CycleErrorCauses | PLC/Logical/Main/Modules/MappMotion_SingleAxis.cpp:623-645 | without a block error, ERROR is reached only from SETTINGPOWERON_TO_REFERENCE with a powered axis not at standstill |
| Axis.WaitingForMovementCycle | PLC/Logical/Main/Modules/MappMotion_SingleAxis.cpp:732-748 | in WAITINGFORMOVEMENT, in position gives IDLE and an error gives ERROR, both withdrawing the move commands |
| Axis.ReferencingCycle | PLC/Logical/Main/Modules/MappMotion_SingleAxis.cpp:654-666 | in REFERENCING, homed gives IDLE and an error gives ERROR, both withdrawing the home command |
| Axis.ResetErrorMeans | PLC/Logical/Main/Modules/MappMotion_SingleAxis.cpp:381-393 | resetError on a block in error powers off and asks for a reset, keeping the state; otherwise it powers on, clears the reset and enters SETTINGPOWERON |
| Axis.AbsoluteMoveCompletes | PLC/Logical/Main/Modules/MappMotion_SingleAxis.cpp:445-464 | an accepted absolute move, a cycle that hands it to the block and a cycle in position end in IDLE with the move commands withdrawn and the block holding the requested target, speed and acceleration |
| Axis.PowerOnToReferenceCycle | PLC/Logical/Main/Modules/MappMotion_SingleAxis.cpp:623-645 | after power-on to reference, a powered block at standstill starts homing, in the wrapper's mode unless the CPU is simulated |
| Axis.CMappMotionSingleAxis.CanReferenceNow | PLC/Logical/Main/Modules/MappMotion_SingleAxis.cpp:323-330 | canReference on the wrapper's current data, CanReference of Data() |
| Axis.CMappMotionSingleAxis.CanMoveAxisNow | PLC/Logical/Main/Modules/MappMotion_SingleAxis.cpp:372-379 | canMoveAxis on the wrapper's current data, CanMoveAxis of Data() |
| Axis.CMappMotionSingleAxis.constructor | PLC/Logical/Main/Modules/MappMotion_SingleAxis.cpp:214-235 | a new axis is IDLE with default homing, all commands off and every setpoint 0 |
| Axis.CMappMotionSingleAxis.New | PLC/Logical/Main/Modules/MappMotion_SingleAxis.cpp:214-235 | an axis without a link to the axis object is refused with INVALIDAXISLINK |
| Axis.CMappMotionSingleAxis.SetPower | PLC/Logical/Main/Modules/MappMotion_SingleAxis.cpp:300-321 | the result and new state are SetPowerStep of the old state; a refusal changes nothing |
| Axis.CMappMotionSingleAxis.StartReference | PLC/Logical/Main/Modules/MappMotion_SingleAxis.cpp:332-354 | the result and new state are StartReferenceStep of the old state |
| Axis.CMappMotionSingleAxis.SetHomingMode | PLC/Logical/Main/Modules/MappMotion_SingleAxis.cpp:356-360 | the wrapper's homing mode and the block's homing parameter become the mode, nothing else changes |
| Axis.CMappMotionSingleAxis.SetPowerOnAndStartReference | PLC/Logical/Main/Modules/MappMotion_SingleAxis.cpp:362-370 | the result and new state are PowerOnToReferenceStep of the old state |
| Axis.CMappMotionSingleAxis.ResetError | PLC/Logical/Main/Modules/MappMotion_SingleAxis.cpp:381-393 | the new state is ResetErrorStep of the old one |
| Axis.CMappMotionSingleAxis.MoveAxisReset | PLC/Logical/Main/Modules/MappMotion_SingleAxis.cpp:395-400 | the three move commands are withdrawn and nothing else changes |
| Axis.CMappMotionSingleAxis.MoveAxis | PLC/Logical/Main/Modules/MappMotion_SingleAxis.cpp:445-590 | the result and new state are MoveStep of the old state for the axis's type |
| Axis.CMappMotionSingleAxis.HandleCyclic | PLC/Logical/Main/Modules/MappMotion_SingleAxis.cpp:606-750 | the new state is CycleStep of the old state on the block's outputs |
| Axis.SetPowerStep | PLC/Logical/Main/Modules/MappMotion_SingleAxis.cpp:300-321 | setPower as a value; SetPowerMeans states it |
| Axis.StartReferenceStep | PLC/Logical/Main/Modules/MappMotion_SingleAxis.cpp:332-354 | startReference as a value; StartReferenceMeans states it |
| Axis.PowerOnToReferenceStep | PLC/Logical/Main/Modules/MappMotion_SingleAxis.cpp:362-370 | setPowerOnAndStartReference as a value; PowerOnToReferenceMeans states it |
| Axis.ResetErrorStep | PLC/Logical/Main/Modules/MappMotion_SingleAxis.cpp:381-393 | resetError as a value; ResetErrorMeans states it |
| Axis.MoveStep | PLC/Logical/Main/Modules/MappMotion_SingleAxis.cpp:445-590 | the three move requests of both axis types as a value; MoveStepMeans states them |
| Axis.CycleStep | PLC/Logical/Main/Modules/MappMotion_SingleAxis.cpp:606-750 | handleCyclic's state machine as a value; CycleKeepsSteadyStates, CycleErrorWins, CycleErrorCauses, ReferencingCycle, WaitingForMovementCycle and PowerOnToReferenceCycle state it |
| Door.Tof | PLC/Logical/Main/CustomStatemachineDoor.cpp:104-105 | the off-delay timer: Q follows IN at once while IN is high, stays high after IN fell until PT has run out, and is low from then on |
| Door.SetRelease | PLC/Logical/Main/CustomStatemachineDoor.cpp:65 | setOutput(1, v) on output module 114KF24 makes the release v and leaves the timer alone |
| Door.InitMeans | PLC/Logical/Main/CustomStatemachineDoor.cpp:58-76 | init switches the release off; a door closed on safety inputs 3 and 4 moves to locked_waitforrelease, an open one stays in init |
| Door.ReleaseMeans | PLC/Logical/Main/CustomStatemachineDoor.cpp:99-108 | the button or a releasedoor signal releases the lock, starts the 10000 ms hold and moves to unlocked_closed, finishing the signal when there is one |
| Door.LockDoorMeans | PLC/Logical/Main/CustomStatemachineDoor.cpp:110-157 | lockdoor with doorstate moves to locked_closed from either locked state when no release is asked for; without doorstate it moves to locked_waitforrelease; the signal is finished and the outputs are untouched |
| Door.UnlockedClosedMeans | PLC/Logical/Main/CustomStatemachineDoor.cpp:171-203 | unlocked_closed: safety input 3 low moves to unlocked_open; otherwise the release stays on while the timer holds and goes off, moving to locked_waitforrelease, once it has run out |
| Door.UnlockedOpenMeans | PLC/Logical/Main/CustomStatemachineDoor.cpp:216-241 | unlocked_open (corrected): a door closed on both contacts moves to locked_waitforrelease, an open one stays; the release is on exactly while the timer holds and the door is open |
| Door.DoorStepRequestsStates | PLC/Logical/Main/CustomStatemachineDoor.cpp:50-241 | every state requests at least one next state, and only states the door handler adds |
| Door.DoorTableStep | PLC/Logical/Main/CustomStatemachineDoor.cpp:247-268 | on the door handler's table the state step never fails and moves to the state the Execute named last |
| Door.LockedMeansReleaseOff | PLC/Logical/Main/CustomStatemachineDoor.cpp:50-241 | a door that ends a cycle in a locked state has its release off, whichever state it came from |
| Door.UnlockedOpenAsWrittenLeavesReleaseOn | PLC/Logical/Main/CustomStatemachineDoor.cpp:216-241 | as written, a door closed while the hold timer is on reaches locked_waitforrelease with the release still on |
| Door.CDoor.constructor | PLC/Logical/Main/CustomStatemachineDoor.cpp:100-105 | the door starts with the timer block fbDelayUnlockDoor zeroed, as a global is, and the image of output module 114KF24 |
| Door.CDoor.Init | PLC/Logical/Main/CustomStatemachineDoor.cpp:58-76 | the requests, outputs, timer and finished signals are InitStep of the old data |
| Door.CDoor.LockedWaitForRelease | PLC/Logical/Main/CustomStatemachineDoor.cpp:88-127 | the requests, outputs, timer and finished signals are LockedWaitForReleaseStep of the old data |
| Door.CDoor.LockedClosed | PLC/Logical/Main/CustomStatemachineDoor.cpp:139-159 | the requests, outputs and finished signals are LockedClosedStep of the old data |
| Door.CDoor.UnlockedClosed | PLC/Logical/Main/CustomStatemachineDoor.cpp:171-203 | the requests, outputs, timer and finished signals are UnlockedClosedStep of the old data |
| Door.CDoor.UnlockedOpen | PLC/Logical/Main/CustomStatemachineDoor.cpp:216-241 | the requests, outputs and timer are UnlockedOpenStep of the old data: the code with the release switched off when the door closes |
| Door.InitStep | PLC/Logical/Main/CustomStatemachineDoor.cpp:58-76 | init's Execute as a value; InitMeans states it |
| Door.LockedWaitForReleaseStep | PLC/Logical/Main/CustomStatemachineDoor.cpp:88-127 | locked_waitforrelease's Execute as a value; ReleaseMeans and LockDoorMeans state it |
| Door.LockedClosedStep | PLC/Logical/Main/CustomStatemachineDoor.cpp:139-159 | locked_closed's Execute as a value; LockDoorMeans states it |
| Door.UnlockedClosedStep | PLC/Logical/Main/CustomStatemachineDoor.cpp:171-203 | unlocked_closed's Execute as a value; UnlockedClosedMeans states it |
| Door.UnlockedOpenStepAsWritten | PLC/Logical/Main/CustomStatemachineDoor.cpp:216-241 | unlocked_open as written: the release follows the timer even as the door closes; UnlockedOpenAsWrittenLeavesReleaseOn states the consequence |
| Door.UnlockedOpenStep | PLC/Logical/Main/CustomStatemachineDoor.cpp:216-241 | unlocked_open corrected to switch the release off when the door closes; UnlockedOpenMeans and LockedMeansReleaseOff state it |
| Door.DoorStep | PLC/Logical/Main/CustomStatemachineDoor.cpp:50-241 | the Execute of the named door state; DoorStepRequestsStates and DoorTableStep state what every state does to the handler |
| Heater.EnableAll | PLC/Logical/Main/CustomStatemachineHeater.cpp:188-194 | the error exit and the enabling states set the Enable of all three blocks to one value, touching the flags and the relay not |
| Heater.SetRelay | PLC/Logical/Main/CustomStatemachineHeater.cpp:704 | setOutput(3, v) on 114KF28: the relay output becomes v |
| Heater.WaitForInitStep | PLC/Logical/Main/CustomStatemachineHeater.cpp:54-198 | wait_for_init sets at least one next state, and only states of the heater |
| Heater.InitStep | PLC/Logical/Main/CustomStatemachineHeater.cpp:210-306 | init sets at least one next state, and only states of the heater |
| Heater.IdleDisabledStep | PLC/Logical/Main/CustomStatemachineHeater.cpp:318-492 | idle_disabled sets at least one next state, and only states of the heater |
| Heater.UpdateParametersStep | PLC/Logical/Main/CustomStatemachineHeater.cpp:504-594 | update_parameters sets at least one next state, and only states of the heater |
| Heater.WaitForParameterUpdateStep | PLC/Logical/Main/CustomStatemachineHeater.cpp:606-642 | wait_for_parameter_update sets at least one next state, and only states of the heater |
| Heater.HeatingControlEnabledStep | PLC/Logical/Main/CustomStatemachineHeater.cpp:655-721 | heating_control_enabled sets at least one next state, and only states of the heater |
| Heater.TuneControlParametersStep | PLC/Logical/Main/CustomStatemachineHeater.cpp:733-789 | tune_control_parameters (corrected) sets at least one next state, and only states of the heater |
| Heater.WaitForTuningStep | PLC/Logical/Main/CustomStatemachineHeater.cpp:801-857 | wait_for_tuning sets at least one next state, and only states of the heater |
| Heater.ErrorStep | PLC/Logical/Main/CustomStatemachineHeater.cpp:869-889 | error sets exactly one next state of the heater |
| Heater.HeaterStep | PLC/Logical/Main/CustomStatemachineHeater.cpp:902-910 | the Execute of every state the heater handler adds sets a next state among the heater's |
| Heater.WaitForInitMovesWhenAllInit | PLC/Logical/Main/CustomStatemachineHeater.cpp:168-186 | wait_for_init moves to init exactly when healthy, no parameter signal waits and all four isinit flags are set, and then clears all four |
| Heater.WaitForInitRecordsPid | PLC/Logical/Main/CustomStatemachineHeater.cpp:73-104 | a healthy wait_for_init seeing a PID signal with isinit sets the PID flag, finishes the signal and stays |
| Heater.WaitForInitKeepsFlags | PLC/Logical/Main/CustomStatemachineHeater.cpp:54-198 | a set PID flag stays set while wait_for_init stays; only the move to init clears it |
| Heater.UnhealthyGoesToError | PLC/Logical/Main/CustomStatemachineHeater.cpp:188-194 | in every state but error, a failed health check (a block error, an analog status other than 0, input 6 not 0) disables the blocks and moves to error; error stays in error |
| Heater.IdleDisabledMeans | PLC/Logical/Main/CustomStatemachineHeater.cpp:342-475 | idle_disabled, healthy: a PID, tuner or PWM signal without isinit leads to update_parameters; an enable signal alone leads to heating_control_enabled with the blocks enabled |
| Heater.DisableMeans | PLC/Logical/Main/CustomStatemachineHeater.cpp:674-679 | heating_control_enabled, healthy: a disable signal clears the enabled flag, disables the controller and goes to idle_disabled |
| Heater.WaitForTuningMeans | PLC/Logical/Main/CustomStatemachineHeater.cpp:820-841 | wait_for_tuning, healthy: finished tuning asks all three blocks for an update; an abort stops the tuner, disables the blocks and goes idle; otherwise it keeps tuning with the relay on the PWM output |
| Heater.RelayFollowsPwm | PLC/Logical/Main/CustomStatemachineHeater.cpp:700-706 | heating_control_enabled, healthy, without a signal: the relay output is the PWM block's output and the enabled flag is set |
| Heater.InitMeans | PLC/Logical/Main/CustomStatemachineHeater.cpp:210-306 | init, healthy: all three blocks enabled and asked for an update, the enabled flag cleared, the next state wait_for_parameter_update |
| Heater.UpdateParametersMeans | PLC/Logical/Main/CustomStatemachineHeater.cpp:504-594 | update_parameters, healthy: all three blocks asked for an update; PWM block and tuner enabled; the controller's Enable left as it was |
| Heater.WaitForParameterUpdateMeans | PLC/Logical/Main/CustomStatemachineHeater.cpp:606-642 | wait_for_parameter_update goes idle exactly when healthy with all three UpdateDone, then withdraws every Update and Enable; otherwise a healthy wait changes nothing |
| Heater.ParameterUpdateReturnsToIdle | PLC/Logical/Main/CustomStatemachineHeater.cpp:342-642 | a parameter update from idle_disabled through update_parameters and wait_for_parameter_update returns to idle_disabled with every block disabled and no update pending |
| Heater.ErrorMeans | PLC/Logical/Main/CustomStatemachineHeater.cpp:878-885 | error returns to init once healthy and stays otherwise, changing no data |
| Heater.HeaterTableStep | PLC/Logical/Main/CustomStatemachineHeater.cpp:902-910 | on the heater handler's table the state step never fails and moves to the state Execute named last |
| Heater.TunePendingAsWrittenThrows | PLC/Logical/Main/CustomStatemachineHeater.cpp:748-778 | as written, tune_control_parameters with the tuner's update pending sets no next state, so the state handler throws NEXTSTATEHASNOTBEENSET |
| Heater.TunePendingStays | PLC/Logical/Main/CustomStatemachineHeater.cpp:748-778 | corrected, a pending update keeps the machine in tune_control_parameters with the tuner untouched |
| Heater.MinPulseWidthAsWritten | PLC/Logical/Main/CustomStatemachineHeater.cpp:278 | 1/nMaxFrequency in C++ integer division: 0 for every frequency above 1, and undefined for 0 |
| Heater.MinPulseWidth | PLC/Logical/Main/CustomStatemachineHeater.cpp:278 | the intended period of the maximum frequency: its product with the frequency is 1, and it is undefined for 0 |
| Heater.MinPulseWidthExample | PLC/Logical/Main/CustomStatemachineHeater.cpp:278 | at 5 Hz the code as written gives 0 s where 0.2 s is intended |
| Heater.CHeater.constructor | PLC/Logical/Main/CustomStatemachineHeater.cpp:895-900 | blocks and journal flags start cleared, on the relay module |
| Heater.CHeater.DisableAll | PLC/Logical/Main/CustomStatemachineHeater.cpp:188-194 | the Enable of all three blocks is cleared and nothing else changes |
| Heater.CHeater.WaitForInit | PLC/Logical/Main/CustomStatemachineHeater.cpp:54-198 | the requests, data and finished signals are WaitForInitStep of the old data |
| Heater.CHeater.Init | PLC/Logical/Main/CustomStatemachineHeater.cpp:210-306 | the requests, data and finished signals are InitStep of the old data |
| Heater.CHeater.IdleDisabled | PLC/Logical/Main/CustomStatemachineHeater.cpp:318-492 | the requests, data and finished signals are IdleDisabledStep of the old data |
| Heater.CHeater.UpdateParameters | PLC/Logical/Main/CustomStatemachineHeater.cpp:504-594 | the requests, data and finished signals are UpdateParametersStep of the old data |
| Heater.CHeater.WaitForParameterUpdate | PLC/Logical/Main/CustomStatemachineHeater.cpp:606-642 | the requests, data and finished signals are WaitForParameterUpdateStep of the old data |
| Heater.CHeater.HeatingControlEnabled | PLC/Logical/Main/CustomStatemachineHeater.cpp:655-721 | the requests, data and finished signals are HeatingControlEnabledStep of the old data |
| Heater.CHeater.TuneControlParameters | PLC/Logical/Main/CustomStatemachineHeater.cpp:733-789 | the requests, data and finished signals are TuneControlParametersStep of the old data: the code with a pending update staying in the state |
| Heater.CHeater.WaitForTuning | PLC/Logical/Main/CustomStatemachineHeater.cpp:801-857 | the requests, data and finished signals are WaitForTuningStep of the old data |
| Heater.CHeater.Error | PLC/Logical/Main/CustomStatemachineHeater.cpp:869-889 | the requests and data are ErrorStep of the old data |
| Heater.Healthy | PLC/Logical/Main/CustomStatemachineHeater.cpp:69-70 | the check every heater state makes first: no block error, I/O status 0 on temperature channel 2 and input 6 of 113KF18 at 0; UnhealthyGoesToError states what a failed check leads to |
| Heater.TuneControlParametersStepAsWritten | PLC/Logical/Main/CustomStatemachineHeater.cpp:733-789 | tune_control_parameters as written, setting no next state while the tuner's update is pending; TunePendingAsWrittenThrows states the consequence |
| Bytes.EncodeLE | PLC/Logical/Main/Framework/Journal.cpp:444-455 | the n bytes an integer occupies in memory on the little-endian controller: exactly n of them |
| Bytes.DecodeLE | PLC/Logical/Main/Framework/Journal.cpp:444-455 | the unsigned value n little-endian bytes hold is below 256^n |
| Bytes.DecodeEncode | PLC/Logical/Main/Framework/Journal.cpp:444-455 | reading back the n bytes written for a value below 256^n gives the value |
| Bytes.EncodeDecode | PLC/Logical/Main/Framework/Journal.cpp:444-455 | writing back the value read from n bytes gives the same bytes |
| Bytes.ToInt32 | PLC/Logical/Main/Framework/SignalHandler.cpp:176-189 | a 32-bit pattern read as int32_t: congruent to the pattern modulo 2^32, and non-negative exactly when the pattern is at most 2^31 - 1 |
| Bytes.FromInt32 | PLC/Logical/Main/Framework/SignalHandler.cpp:176-177 | the pattern of an int32_t reads back as the same int32_t |
| Bytes.ToInt16 | PLC/Logical/Main/Modules/IOModule_X20AI4622.cpp:272-284 | a uint16_t stored into an int16_t: congruent modulo 2^16, non-negative exactly when at most 32767 |
| Bytes.Uint16Of | PLC/Logical/Main/Modules/IOModule_X20AI4622.cpp:313-323 | the conversion of an integer to uint16_t: congruent to it modulo 2^16 |
| Bytes.Int16ThroughUint16 | PLC/Logical/Main/Modules/IOModule_X20AI4622.cpp:313-323 | an int16_t passed through a uint16_t parameter into an int16_t comes back unchanged |
| Bytes.ToInt64 | PLC/Logical/Main/Framework/Journal.cpp:444-450 | a 64-bit pattern read as int64_t is congruent to it modulo 2^64 |
| Bytes.FromInt64 | PLC/Logical/Main/Framework/Journal.cpp:452-455 | the pattern of an int64_t reads back as the same int64_t |
| Bytes.EncodeInt64 | PLC/Logical/Main/Framework/Journal.cpp:452-455 | the memory of an int64_t is 8 bytes |
| Bytes.Int64RoundTrip | PLC/Logical/Main/Framework/Journal.cpp:444-455 | an int64_t written as 8 bytes and read back is the same value |
| Bytes.EncodeUint16 | PLC/Logical/Main/Framework/TcpPacketHandler.cpp:94-97 | the two bytes addUint16 copies hold the value little-endian |
| Bytes.EncodeUint32 | PLC/Logical/Main/Framework/TcpPacketHandler.cpp:99-102 | the four bytes addUint32 copies hold the value little-endian |
| Bytes.EncodeDecodeUint32 | PLC/Logical/Main/Framework/TcpPacketHandler.cpp:219-228 | four bytes read as a uint32_t and written back are the same four bytes |
| Bytes.EncodeSigned | PLC/Logical/Main/Framework/SignalHandler.cpp:170-189 | the n-byte two's-complement pattern of a value in range is n bytes |
| Bytes.DecodeSigned | PLC/Logical/Main/Framework/SignalHandler.cpp:180-189 | the signed value of n bytes lies in the n-byte signed range |
| Bytes.SignedRoundTrip | PLC/Logical/Main/Framework/SignalHandler.cpp:170-189 | a value in the n-byte signed range written and read back is unchanged |
| Bytes.Splice | PLC/Logical/Main/Framework/Journal.cpp:246-268 | copying bytes in at an address puts them there and leaves every other byte as it was |
| Bytes.SpliceKeepsDisjoint | PLC/Logical/Main/Framework/SignalHandler.cpp:592-609 | writing one range leaves every range disjoint from it unchanged |
| Wrappers.ErrorValue | PLC/Logical/Main/Framework/Framework.hpp:67-185 | the eErrorCode number of every framework code, sent as a TCP response's status word: each is between 1 and 118, so a status of 0 means success |

## Where the model follows the code over its comments

- The heater's health check wants digital input 6 to read 0, although the
  comment there reads "1 = OK" (CustomStatemachineHeater.cpp:188-194).
  `Heater.Healthy` follows the code.
- The heater's update_parameters state never sets the controller's enable
  (CustomStatemachineHeater.cpp:504-594). `Heater.UpdateParametersMeans`
  leaves it as it was.
- The heater never finishes its enable, disable and abort signals. When
  several wait_for_init signals are taken in one cycle, only the first is
  finished (CustomStatemachineHeater.cpp:54-198, 318-492, 655-721).
- unlocked_closed's comment names locked_closed as the next state, but the
  code requests locked_waitforrelease (CustomStatemachineDoor.cpp:171-203).
- stopServer on an inactive server throws SERVERISALREADYRUNNING
  (TcpServer.cpp:566-572).
- locked_waitforrelease calls checkSignal for both releasedoor and
  lockdoor before it branches (CustomStatemachineDoor.cpp:96-110). When
  the release branch is taken, a lockdoor instance taken from the queue
  in the same cycle is never finished. `Door.LockedWaitForReleaseStep`
  takes both checked signals as inputs of the cycle and, in the release
  branch, finishes only the releasedoor signal.

## Left out

- Journal.CJournal.constructor: requires a non-zero ring size, where the
  source throws INVALIDPARAM. A Dafny constructor cannot fail; the
  argument check itself is `JournalData.NewJournalData`.
- Journal.CJournal.RetrieveJournalHistory: requires prepareJournal to have
  run. Before that the source's ring has size 0 and it computes `% 0`. The
  count it sends is the corrected count (see the Journal.cpp:308-320
  finding), not getBufferEntryCount as written, which reports one more for
  a full ring. When a piece of the reply does not fit, the contract states
  the INVALIDPARAM error but not how many entries were already popped.
- JournalData.JournalData.RetrieveHistory, JournalData.JournalData.SendHistory
  and JournalData.JournalData.SendOldestEntry: on INVALIDPARAM the contract
  does not state which entries were popped or what part of the reply was
  appended.
- Signals.Less: signal and state names are modelled as character
  sequences compared by character code. std::less on std::string compares
  bytes, which gives the same order for ASCII names.
- Null-pointer INVALIDPARAM checks are not modelled, because Dafny
  references here are never null. This covers the constructors of
  CSignalHandler, CTcpListHandler, CPayloadEnvironment and CTcpConnection,
  the pointer parameters of the readers and writers, and the response
  argument of retrieveJournalHistory (Journal.cpp:1106-1107).
- Floating point is not modelled. Doubles and floats appear only as their
  raw bits (journal double values, signal double parameters, payload
  reads). Their ranges, the journal's quantization, setFloat*/getFloat*,
  the analog voltage/current scaling and the axis's position and velocity
  getters are left out. The axis's move ranges are compared as `real`.
- readContext*/writeContext* (TcpListHandler.cpp:154-235) have empty
  bodies in the source, so there is no behaviour to model.
- The list entries' packet handlers (enterExecution and cyclicExecution,
  such as those of CustomTcpDefinition.cpp) are not modelled. Each call
  enters `TcpList.CycleStep` as a `CallOutcome`: whether the handler threw
  or finished, and the context its environment holds afterwards. It must
  have the context's fixed number of signal slots.
- The TCP function blocks (CTcpServerImpl/CTcpConnectionImpl,
  TcpServer.cpp:50-300) are not modelled. Their status, received byte
  counts and done flags enter as parameters.
- clientConnected is not modelled: it only throws NOTIMPLEMENTED. The
  function-block and registry getters are not modelled either.
- CRC32 (Utils.hpp) is not part of this model. It enters as the parameter
  `crc`.
- The MpAxisBasic, MTBasics PID/tuner/PWM and TOF blocks are not modelled.
  Their outputs enter as inputs to each step, TOF's as the flag `expired`.
- The heater's control values are not modelled: getInputVoltageInVolt,
  the PIDParameters copies, and the journal registerDoubleValue /
  registerIntegerValue calls. Only the flags and enables they sit beside
  are modelled.
- The door and heater handlers' signal registration (queue sizes,
  lifetimes, parameter lists) in their constructors is modelled only as
  the state sets `Door.DOOR_STATES` and `Heater.HEATER_STATES`.
- JSON status output (writeStatusToTCPResponse,
  writeVariableToTCPResponse, the journal's JSON schema) is not modelled:
  it is serialization glue.
- File I/O, YAML/XML parsing and logging in GenerateIOmap.py are not
  modelled. The parsed catalog and topology are sequences.
- Entry-point and registration glue (Cyclic.cpp, CustomApplication.cpp)
  is not modelled; its other state machines and I/O modules are not part
  of this model.
- The releaseExpiredSignals call inside Application's handleCyclic loop is
  not part of `Application.CApplication.HandleStates`.
  `Framework.CStateHandler.ReleaseExpiredSignals` models that call alone.

## Findings

| source | as written | input that shows it | evidently intended | confidence | as-written member | corrected member |
|---|---|---|---|---|---|---|
| PLC/Logical/Main/Framework/SignalHandler.cpp:222-241 | a Uint32 parameter is stored and read back through an int32_t | setUint32Parameter(2147483648) reads back as -2147483648, so getUint32Parameter throws | every uint32 value reads back unchanged | high, not executed | Signals.IntegerFromBytesAsWritten, Signals.Uint32ReadBackAsWritten | Signals.IntegerFromBytes, Signals.Uint32RoundTrip |
| PLC/Logical/Main/Framework/SystemInfo.cpp:40-46 | the constructor stores the register as the start value, but the previous-register field stays 0 | constructed at register 2^32 - 16, read after 32 µs: the clock reports 2^64 - 2^32 + 32 µs | the previous-register field starts at the start value, so the first wrap is counted | medium, not executed | SystemTime.ConstructedAsWritten, SystemTime.MissedFirstWrap | SystemTime.Constructed |
| PLC/Logical/Main/Framework/Journal.cpp:308-320 | getBufferEntryCount returns the ring size when head == tail | a 2-slot ring after one write is full with one entry, and reports 2; retrieveJournalHistory (Journal.cpp:1111) sends that count | the count is the number of entries the ring holds | high, not executed | JournalData.BufferEntryCountAsWritten, JournalData.EntryCountOverstatesFullRing | JournalData.JournalData.GetBufferEntryCount |
| PLC/Logical/Main/Framework/Framework.cpp:327-330 | getUint16Value calls getUint32Value | a stored 70000 comes back as 4464 | values outside the uint16 range throw JOURNALVALUEOUTSIDEOFRANGE | high, not executed | Framework.Uint16AsWritten, Framework.Uint16AsWrittenExample | Framework.Uint16Intended, Framework.CEnvironment.GetUint16Value |
| PLC/Logical/Main/Framework/TcpListHandler.cpp:551 | the guard `(nListID > 0) \|\| (nListID <= size)` is always true | the list status of id 0 calls `at(0xFFFFFFFF)`, which throws std::out_of_range | ids outside 1..n give no list, and the status of id 0 is four zeros | high, not executed | TcpList.ListByIdAsWritten, TcpList.AsWrittenThrowsOutOfRange | TcpList.ListById, TcpList.ListStatusOfIdZero |
| PLC/Logical/Main/Framework/TcpPacketHandler.cpp:309-320 | the catch block of handlePacket falls off the end without a return | a registered handler for command 1 that throws INVALIDPARAM | handlePacket returns true after recording the error code | medium, not executed | TcpPacket.HandlePacketReturnAsWritten, TcpPacket.CaughtFailureHasNoReturnValue | TcpPacket.Dispatched, TcpPacket.FailingHandlerExample |
| PLC/Logical/Main/Framework/TcpPacketHandler.cpp:209-228 | the offset check `nOffset + sizeof (T) > 24` is computed in 32 bits | offset 0xFFFFFFFF wraps to 1 and passes | offsets past the payload throw INVALIDPAYLOADOFFSET | medium, not executed | TcpPacket.RejectsOffsetAsWritten, TcpPacket.WrappedOffsetPassesCheck | TcpPacket.ReadUint16FromPayload, TcpPacket.CorrectedReadersRefuseWrappedOffset |
| PLC/Logical/Main/CustomStatemachineDoor.cpp:216-241 | unlocked_open goes to locked_waitforrelease without switching the release output off | the door is closed, both safety inputs true, while the hold timer still runs | a locked door has its release output off | medium, not executed | Door.UnlockedOpenStepAsWritten, Door.UnlockedOpenAsWrittenLeavesReleaseOn | Door.UnlockedOpenStep, Door.LockedMeansReleaseOff |
| PLC/Logical/Main/CustomStatemachineHeater.cpp:748-778 | tune_control_parameters sets no next state while the tuner update is pending | tuner update set and UpdateDone not yet set: the step throws NEXTSTATEHASNOTBEENSET | the state waits in tune_control_parameters | medium, not executed | Heater.TuneControlParametersStepAsWritten, Heater.TunePendingAsWrittenThrows | Heater.TuneControlParametersStep, Heater.TunePendingStays |
| PLC/Logical/Main/CustomStatemachineHeater.cpp:278 | the PWM minimum pulse width is `1 / frequency` in integer arithmetic | 5 Hz gives 0 s | 1 / frequency in real arithmetic, 0.2 s at 5 Hz | medium, not executed | Heater.MinPulseWidthAsWritten, Heater.MinPulseWidthExample | Heater.MinPulseWidth |
