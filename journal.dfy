/**
 * The journal registry (Journal.cpp:356-1124): entry definitions, groups,
 * the layout of all entries in the current-value buffer, and CJournal with
 * its typed setters and range-checked getters.
 *
 * The source keeps each group's entries in std::maps keyed by ID and by
 * name, and the groups in std::maps keyed by ID and by name. Here a group's
 * entries and the journal's groups are sequences kept in ascending ID order
 * (the iteration order of the ID maps) with unique names.
 */
module Journal {
  import opened Wrappers
  import opened Bytes
  import opened JournalData
  import TcpPacket

  const JOURNAL_MINENTRYID: nat := 1
  const JOURNAL_MAXENTRYID: nat := 32767
  const JOURNAL_MINGROUPID: nat := 1
  const JOURNAL_MAXGROUPID: nat := 32767
  const JOURNAL_MAXNAMELENGTH: nat := 64
  const JOURNAL_HISTORYBATCH: nat := 64

  /** The three kinds of entry definition; a double's limits are not modelled. */
  datatype EntryKind = IntegerKind(minimum: int64, maximum: int64) | BoolKind | DoubleKind

  /** getDataSize of each definition class. */
  function DataSize(kind: EntryKind): (n: nat)
    ensures 1 <= n <= JOURNAL_MAXENTRYSIZE
    ensures n == 1 <==> kind.BoolKind?
  {
    match kind
    case IntegerKind(_, _) => 8
    case BoolKind => 1
    case DoubleKind => 8
  }

  datatype EntryDefinition = EntryDefinition(groupId: uint32, entryId: uint32, name: string, kind: EntryKind, address: nat)

  datatype Group = Group(groupId: uint32, name: string, entries: seq<EntryDefinition>)

  // ---------------------------------------------------------------------
  // Names and IDs
  // ---------------------------------------------------------------------

  predicate NameChar(ch: char)
  {
    ('A' <= ch <= 'Z') || ('a' <= ch <= 'z') || ('0' <= ch <= '9') || ch == '_'
  }

  /** Non-empty, at most 64 characters, only [A-Za-z0-9_]. */
  predicate ValidName(name: string)
  {
    0 < |name| <= JOURNAL_MAXNAMELENGTH && forall i :: 0 <= i < |name| ==> NameChar(name[i])
  }

  /** The name checks shared by entry definitions and groups, in the order the source makes them. */
  function NameError(name: string, empty: ErrorCode, invalid: ErrorCode): (e: Option<ErrorCode>)
    ensures e.None? <==> ValidName(name)
    ensures e.Some? ==> (e.value == empty <==> name == []) || empty == invalid
    ensures e.Some? ==> e.value == empty || e.value == invalid
  {
    if name == [] then Some(empty)
    else if |name| > JOURNAL_MAXNAMELENGTH then Some(invalid)
    else if exists i :: 0 <= i < |name| && !NameChar(name[i]) then Some(invalid)
    else None
  }

  /** The CJournalEntry*Definition constructors (Journal.cpp:356-410, 460-464, 520-523). */
  function NewEntryDefinition(groupId: uint32, entryId: uint32, name: string, kind: EntryKind): (r: Result<EntryDefinition>)
    ensures r.Ok? <==> (ValidName(name) && JOURNAL_MINENTRYID <= entryId <= JOURNAL_MAXENTRYID
      && (kind.IntegerKind? ==> kind.minimum <= kind.maximum))
    ensures r.Ok? ==> r.value == EntryDefinition(groupId, entryId, name, kind, 0)
    ensures r.Err? && name == [] ==> r.error == EmptyJournalEntryName
    ensures r.Err? && ValidName(name) && JOURNAL_MINENTRYID <= entryId <= JOURNAL_MAXENTRYID ==> r.error == InvalidParam
  {
    var e := NameError(name, EmptyJournalEntryName, InvalidJournalEntryName);
    if e.Some? then Err(e.value)
    else if entryId < JOURNAL_MINENTRYID || entryId > JOURNAL_MAXENTRYID then Err(InvalidJournalEntryId)
    else if kind.IntegerKind? && kind.minimum > kind.maximum then Err(InvalidParam)
    else Ok(EntryDefinition(groupId, entryId, name, kind, 0))
  }

  /** The CJournalGroup constructor (Journal.cpp:568-582). */
  function NewGroup(groupId: uint32, name: string): (r: Result<Group>)
    ensures r.Ok? <==> ValidName(name) && JOURNAL_MINGROUPID <= groupId <= JOURNAL_MAXGROUPID
    ensures r.Ok? ==> r.value == Group(groupId, name, [])
    ensures r.Err? && name == [] ==> r.error == EmptyJournalGroupName
    ensures r.Err? && ValidName(name) ==> r.error == InvalidJournalGroupId
  {
    var e := NameError(name, EmptyJournalGroupName, InvalidJournalGroupName);
    if e.Some? then Err(e.value)
    else if groupId < JOURNAL_MINGROUPID || groupId > JOURNAL_MAXGROUPID then Err(InvalidJournalGroupId)
    else Ok(Group(groupId, name, []))
  }

  // ---------------------------------------------------------------------
  // A group's entries
  // ---------------------------------------------------------------------

  /** The ID map iterates in ascending ID order; the name map keeps names unique. */
  predicate EntriesWellFormed(es: seq<EntryDefinition>)
  {
    (forall i, j :: 0 <= i < j < |es| ==> es[i].entryId < es[j].entryId)
    && (forall i, j :: 0 <= i < j < |es| ==> es[i].name != es[j].name)
  }

  predicate HasEntryId(es: seq<EntryDefinition>, entryId: uint32)
  {
    exists i :: 0 <= i < |es| && es[i].entryId == entryId
  }

  predicate HasEntryName(es: seq<EntryDefinition>, name: string)
  {
    exists i :: 0 <= i < |es| && es[i].name == name
  }

  /** Insert into the ascending-ID sequence at the position std::map would give. */
  function InsertEntry(es: seq<EntryDefinition>, d: EntryDefinition): (r: seq<EntryDefinition>)
    ensures multiset(r) == multiset(es) + multiset{d}
    ensures |r| == |es| + 1
    decreases |es|
  {
    if es == [] then [d]
    else if d.entryId < es[0].entryId then [d] + es
    else
      assert es == [es[0]] + es[1..];
      [es[0]] + InsertEntry(es[1..], d)
  }

  /** Inserting an entry with a fresh ID and a fresh name keeps the order and the unique names. */
  lemma {:induction false} InsertEntryKeepsWellFormed(es: seq<EntryDefinition>, d: EntryDefinition)
    requires EntriesWellFormed(es) && !HasEntryId(es, d.entryId) && !HasEntryName(es, d.name)
    ensures EntriesWellFormed(InsertEntry(es, d))
    decreases |es|
  {
    if es == [] {
    } else if d.entryId < es[0].entryId {
      InsertEntryFront(es, d);
    } else {
      assert !HasEntryId(es[1..], d.entryId) && !HasEntryName(es[1..], d.name) by {
        forall i | 0 <= i < |es| - 1
          ensures es[1..][i].entryId != d.entryId && es[1..][i].name != d.name
        {
          assert es[1..][i] == es[i + 1];
        }
      }
      InsertEntryKeepsWellFormed(es[1..], d);
      InsertEntryBehind(es, d, InsertEntry(es[1..], d));
    }
  }

  lemma InsertEntryFront(es: seq<EntryDefinition>, d: EntryDefinition)
    requires es != [] && d.entryId < es[0].entryId
    ensures EntriesWellFormed(es) && !HasEntryName(es, d.name) ==> EntriesWellFormed([d] + es)
  {
    if EntriesWellFormed(es) && !HasEntryName(es, d.name) {
      var r := [d] + es;
      forall i, j | 0 <= i < j < |r|
        ensures r[i].entryId < r[j].entryId && r[i].name != r[j].name
      {
        if i == 0 {
          assert r[j] == es[j - 1];
          if j > 1 {
            assert es[0].entryId < es[j - 1].entryId;
          }
        }
      }
    }
  }

  lemma InsertEntryBehind(es: seq<EntryDefinition>, d: EntryDefinition, rest: seq<EntryDefinition>)
    requires es != [] && d.entryId >= es[0].entryId
    requires multiset(rest) == multiset(es[1..]) + multiset{d}
    requires EntriesWellFormed(es) && !HasEntryId(es, d.entryId) && !HasEntryName(es, d.name)
    requires EntriesWellFormed(rest)
    ensures EntriesWellFormed([es[0]] + rest)
  {
    var r := [es[0]] + rest;
    forall i, j | 0 <= i < j < |r|
      ensures r[i].entryId < r[j].entryId && r[i].name != r[j].name
    {
      if i == 0 {
        assert r[j] == rest[j - 1];
        assert rest[j - 1] in multiset(rest);
        if rest[j - 1] != d {
          assert rest[j - 1] in es[1..];
          var k :| 0 <= k < |es| - 1 && es[1..][k] == rest[j - 1];
          assert es[k + 1] == rest[j - 1];
        }
      }
    }
  }

  /** addEntry (Journal.cpp:598-615): a second entry with the same ID or name is rejected. */
  function AddEntry(g: Group, d: EntryDefinition): (r: Result<Group>)
    ensures r.Err? <==> HasEntryId(g.entries, d.entryId) || HasEntryName(g.entries, d.name)
    ensures r.Err? ==> r.error == JournalEntryAlreadyRegistered
    ensures r.Ok? ==> (r.value.groupId == g.groupId && r.value.name == g.name
      && multiset(r.value.entries) == multiset(g.entries) + multiset{d})
    ensures r.Ok? && EntriesWellFormed(g.entries) ==> EntriesWellFormed(r.value.entries)
  {
    if HasEntryId(g.entries, d.entryId) then Err(JournalEntryAlreadyRegistered)
    else if HasEntryName(g.entries, d.name) then Err(JournalEntryAlreadyRegistered)
    else
      if EntriesWellFormed(g.entries) then InsertEntryKeepsWellFormed(g.entries, d); Ok(g.(entries := InsertEntry(g.entries, d)))
      else Ok(g.(entries := InsertEntry(g.entries, d)))
  }

  /** findEntryByID with bMustExist (Journal.cpp:633-644). */
  function FindEntry(es: seq<EntryDefinition>, entryId: uint32): (r: Result<EntryDefinition>)
    ensures r.Ok? <==> HasEntryId(es, entryId)
    ensures r.Ok? ==> r.value in es && r.value.entryId == entryId
    ensures r.Err? ==> r.error == JournalEntryNotFound
  {
    if es == [] then Err(JournalEntryNotFound)
    else if es[0].entryId == entryId then Ok(es[0])
    else
      var r := FindEntry(es[1..], entryId);
      assert HasEntryId(es, entryId) <==> HasEntryId(es[1..], entryId) by {
        if HasEntryId(es, entryId) {
          var i :| 0 <= i < |es| && es[i].entryId == entryId;
          assert es[1..][i - 1] == es[i];
        }
        if HasEntryId(es[1..], entryId) {
          var i :| 0 <= i < |es| - 1 && es[1..][i].entryId == entryId;
          assert es[i + 1] == es[1..][i];
        }
      }
      r
  }

  /** In a well-formed group, the entry found is the unique one with that ID. */
  lemma FindEntryUnique(es: seq<EntryDefinition>, i: nat)
    requires EntriesWellFormed(es) && i < |es|
    ensures FindEntry(es, es[i].entryId) == Ok(es[i])
  {
    var r := FindEntry(es, es[i].entryId);
    var k :| 0 <= k < |es| && es[k] == r.value;
    assert es[k].entryId == es[i].entryId;
  }

  // ---------------------------------------------------------------------
  // Data addresses
  // ---------------------------------------------------------------------

  /** The bytes taken by the entries, in order. */
  function SizeSum(es: seq<EntryDefinition>): nat
    decreases |es|
  {
    if es == [] then 0 else SizeSum(es[..|es| - 1]) + DataSize(es[|es| - 1].kind)
  }

  /** The entries with the addresses calculateDataAddresses gives them: consecutive from base, in order. */
  function Layout(es: seq<EntryDefinition>, base: nat): (r: seq<EntryDefinition>)
    ensures |r| == |es|
    decreases |es|
  {
    if es == [] then []
    else
      var init := es[..|es| - 1];
      Layout(init, base) + [es[|es| - 1].(address := base + SizeSum(init))]
  }

  lemma {:induction false} LayoutAddresses(es: seq<EntryDefinition>, base: nat)
    ensures forall i :: 0 <= i < |es| ==> Layout(es, base)[i] == es[i].(address := base + SizeSum(es[..i]))
    decreases |es|
  {
    if es != [] {
      var init := es[..|es| - 1];
      LayoutAddresses(init, base);
      forall i | 0 <= i < |es|
        ensures Layout(es, base)[i] == es[i].(address := base + SizeSum(es[..i]))
      {
        if i < |init| {
          assert init[..i] == es[..i];
        }
      }
    }
  }

  lemma {:induction false} SizeSumMonotone(es: seq<EntryDefinition>, i: nat, j: nat)
    requires i <= j <= |es|
    ensures SizeSum(es[..i]) <= SizeSum(es[..j])
    decreases j - i
  {
    if i < j {
      SizeSumMonotone(es, i, j - 1);
      assert es[..j][..j - 1] == es[..j - 1];
    }
  }

  lemma SizeSumStep(es: seq<EntryDefinition>, i: nat)
    requires i < |es|
    ensures SizeSum(es[..i + 1]) == SizeSum(es[..i]) + DataSize(es[i].kind)
  {
    assert es[..i + 1][..i] == es[..i];
  }

  /**
   * The laid-out entries occupy disjoint ranges in ascending order, all
   * within base .. base + SizeSum(es); the layout changes nothing but the
   * addresses.
   */
  lemma LayoutIsPacked(es: seq<EntryDefinition>, base: nat)
    ensures forall i :: 0 <= i < |es| ==> Layout(es, base)[i].(address := 0) == es[i].(address := 0)
    ensures forall i :: 0 <= i < |es| ==>
      base <= Layout(es, base)[i].address && Layout(es, base)[i].address + DataSize(es[i].kind) <= base + SizeSum(es)
    ensures forall i, j :: 0 <= i < j < |es| ==>
      Layout(es, base)[i].address + DataSize(es[i].kind) <= Layout(es, base)[j].address
  {
    LayoutAddresses(es, base);
    assert es[..|es|] == es;
    forall i | 0 <= i < |es|
      ensures Layout(es, base)[i].address + DataSize(es[i].kind) <= base + SizeSum(es)
    {
      SizeSumStep(es, i);
      SizeSumMonotone(es, i + 1, |es|);
    }
    forall i, j | 0 <= i < j < |es|
      ensures Layout(es, base)[i].address + DataSize(es[i].kind) <= Layout(es, base)[j].address
    {
      SizeSumStep(es, i);
      SizeSumMonotone(es, i + 1, j);
    }
  }

  lemma LayoutKeepsWellFormed(es: seq<EntryDefinition>, base: nat)
    requires EntriesWellFormed(es)
    ensures EntriesWellFormed(Layout(es, base))
  {
    LayoutAddresses(es, base);
  }

  /** calculateDataAddresses (Journal.cpp:620-631). */
  method CalculateDataAddresses(es: seq<EntryDefinition>, base: nat) returns (placed: seq<EntryDefinition>, size: nat)
    ensures placed == Layout(es, base)
    ensures size == SizeSum(es)
  {
    placed := [];
    size := 0;
    var i := 0;
    while i < |es|
      invariant 0 <= i <= |es|
      invariant placed == Layout(es[..i], base)
      invariant size == SizeSum(es[..i])
    {
      assert es[..i + 1][..i] == es[..i];
      placed := placed + [es[i].(address := base + size)];
      size := size + DataSize(es[i].kind);
      i := i + 1;
    }
    assert es[..i] == es;
  }

  // ---------------------------------------------------------------------
  // The journal's groups
  // ---------------------------------------------------------------------

  /** Groups in ascending ID order with unique names, each with well-formed entries. */
  predicate GroupsWellFormed(gs: seq<Group>)
  {
    (forall i, j :: 0 <= i < j < |gs| ==> gs[i].groupId < gs[j].groupId)
    && (forall i, j :: 0 <= i < j < |gs| ==> gs[i].name != gs[j].name)
    && (forall i :: 0 <= i < |gs| ==> EntriesWellFormed(gs[i].entries))
  }

  predicate HasGroupId(gs: seq<Group>, groupId: uint32)
  {
    exists i :: 0 <= i < |gs| && gs[i].groupId == groupId
  }

  predicate HasGroupName(gs: seq<Group>, name: string)
  {
    exists i :: 0 <= i < |gs| && gs[i].name == name
  }

  function InsertGroup(gs: seq<Group>, g: Group): (r: seq<Group>)
    ensures multiset(r) == multiset(gs) + multiset{g}
    ensures |r| == |gs| + 1
    decreases |gs|
  {
    if gs == [] then [g]
    else if g.groupId < gs[0].groupId then [g] + gs
    else
      assert gs == [gs[0]] + gs[1..];
      [gs[0]] + InsertGroup(gs[1..], g)
  }

  /** Inserting a group with a fresh ID and a fresh name keeps the order and the unique names. */
  lemma {:induction false} InsertGroupKeepsWellFormed(gs: seq<Group>, g: Group)
    requires GroupsWellFormed(gs) && EntriesWellFormed(g.entries) && !HasGroupId(gs, g.groupId) && !HasGroupName(gs, g.name)
    ensures GroupsWellFormed(InsertGroup(gs, g))
    decreases |gs|
  {
    if gs == [] {
    } else if g.groupId < gs[0].groupId {
      InsertGroupFront(gs, g);
    } else {
      assert GroupsWellFormed(gs[1..]) by {
        forall i | 0 <= i < |gs| - 1
          ensures EntriesWellFormed(gs[1..][i].entries)
        {
          assert gs[1..][i] == gs[i + 1];
        }
      }
      assert !HasGroupId(gs[1..], g.groupId) && !HasGroupName(gs[1..], g.name) by {
        forall i | 0 <= i < |gs| - 1
          ensures gs[1..][i].groupId != g.groupId && gs[1..][i].name != g.name
        {
          assert gs[1..][i] == gs[i + 1];
        }
      }
      InsertGroupKeepsWellFormed(gs[1..], g);
      InsertGroupBehind(gs, g, InsertGroup(gs[1..], g));
    }
  }

  lemma InsertGroupFront(gs: seq<Group>, g: Group)
    requires gs != [] && g.groupId < gs[0].groupId
    ensures GroupsWellFormed(gs) && EntriesWellFormed(g.entries) && !HasGroupName(gs, g.name) ==> GroupsWellFormed([g] + gs)
  {
    if GroupsWellFormed(gs) && EntriesWellFormed(g.entries) && !HasGroupName(gs, g.name) {
      var r := [g] + gs;
      forall i, j | 0 <= i < j < |r|
        ensures r[i].groupId < r[j].groupId && r[i].name != r[j].name
      {
        if i == 0 {
          assert r[j] == gs[j - 1];
          if j > 1 {
            assert gs[0].groupId < gs[j - 1].groupId;
          }
        }
      }
      forall i | 0 <= i < |r|
        ensures EntriesWellFormed(r[i].entries)
      {
        if i > 0 {
          assert r[i] == gs[i - 1];
        }
      }
    }
  }

  lemma InsertGroupBehind(gs: seq<Group>, g: Group, rest: seq<Group>)
    requires gs != [] && g.groupId >= gs[0].groupId
    requires multiset(rest) == multiset(gs[1..]) + multiset{g}
    requires GroupsWellFormed(gs) && EntriesWellFormed(g.entries) && !HasGroupId(gs, g.groupId) && !HasGroupName(gs, g.name)
    requires GroupsWellFormed(rest)
    ensures GroupsWellFormed([gs[0]] + rest)
  {
    var r := [gs[0]] + rest;
    forall i, j | 0 <= i < j < |r|
      ensures r[i].groupId < r[j].groupId && r[i].name != r[j].name
    {
      if i == 0 {
        assert r[j] == rest[j - 1];
        assert rest[j - 1] in multiset(rest);
        if rest[j - 1] != g {
          assert rest[j - 1] in gs[1..];
          var k :| 0 <= k < |gs| - 1 && gs[1..][k] == rest[j - 1];
          assert gs[k + 1] == rest[j - 1];
        }
      }
    }
    forall i | 0 <= i < |r|
      ensures EntriesWellFormed(r[i].entries)
    {
      if i > 0 {
        assert r[i] == rest[i - 1];
      }
    }
  }

  /** registerGroup after its initializing check (Journal.cpp:776-795). */
  function AddGroup(gs: seq<Group>, groupId: uint32, name: string): (r: Result<seq<Group>>)
    ensures r.Ok? <==> !HasGroupId(gs, groupId) && !HasGroupName(gs, name) && NewGroup(groupId, name).Ok?
    ensures HasGroupId(gs, groupId) ==> r == Err(DuplicateJournalGroupId)
    ensures !HasGroupId(gs, groupId) && HasGroupName(gs, name) ==> r == Err(DuplicateJournalGroupName)
    ensures r.Ok? ==> multiset(r.value) == multiset(gs) + multiset{Group(groupId, name, [])}
    ensures r.Ok? && GroupsWellFormed(gs) ==> GroupsWellFormed(r.value)
  {
    if HasGroupId(gs, groupId) then Err(DuplicateJournalGroupId)
    else if HasGroupName(gs, name) then Err(DuplicateJournalGroupName)
    else
      var g :- NewGroup(groupId, name);
      if GroupsWellFormed(gs) then InsertGroupKeepsWellFormed(gs, g); Ok(InsertGroup(gs, g))
      else Ok(InsertGroup(gs, g))
  }

  /** The index of a group in the ID map; findGroupByID with bMustExist (Journal.cpp:797-807). */
  function FindGroup(gs: seq<Group>, groupId: uint32): (r: Result<nat>)
    ensures r.Ok? <==> HasGroupId(gs, groupId)
    ensures r.Ok? ==> r.value < |gs| && gs[r.value].groupId == groupId
    ensures r.Err? ==> r.error == JournalGroupIdNotFound
    decreases |gs|
  {
    if gs == [] then Err(JournalGroupIdNotFound)
    else if gs[0].groupId == groupId then Ok(0)
    else
      var r := FindGroup(gs[1..], groupId);
      assert HasGroupId(gs, groupId) <==> HasGroupId(gs[1..], groupId) by {
        if HasGroupId(gs, groupId) {
          var i :| 0 <= i < |gs| && gs[i].groupId == groupId;
          assert gs[1..][i - 1] == gs[i];
        }
        if HasGroupId(gs[1..], groupId) {
          var i :| 0 <= i < |gs| - 1 && gs[1..][i].groupId == groupId;
          assert gs[i + 1] == gs[1..][i];
        }
      }
      if r.Ok? then Ok(r.value + 1) else r
  }

  /** findGroupByName with bMustExist (Journal.cpp:810-821). */
  function FindGroupByName(gs: seq<Group>, name: string): (r: Result<Group>)
    ensures r.Ok? <==> HasGroupName(gs, name)
    ensures r.Ok? ==> r.value in gs && r.value.name == name
    ensures r.Err? ==> r.error == JournalGroupNameNotFound
    decreases |gs|
  {
    if gs == [] then Err(JournalGroupNameNotFound)
    else if gs[0].name == name then Ok(gs[0])
    else
      var r := FindGroupByName(gs[1..], name);
      assert HasGroupName(gs, name) <==> HasGroupName(gs[1..], name) by {
        if HasGroupName(gs, name) {
          var i :| 0 <= i < |gs| && gs[i].name == name;
          assert gs[1..][i - 1] == gs[i];
        }
        if HasGroupName(gs[1..], name) {
          var i :| 0 <= i < |gs| - 1 && gs[1..][i].name == name;
          assert gs[i + 1] == gs[1..][i];
        }
      }
      r
  }

  /** register{Integer,Bool,Double}Value after the initializing check (Journal.cpp:824-857). */
  function AddValue(gs: seq<Group>, groupId: uint32, entryId: uint32, name: string, kind: EntryKind): (r: Result<seq<Group>>)
    ensures !HasGroupId(gs, groupId) ==> r == Err(JournalGroupIdNotFound)
    ensures HasGroupId(gs, groupId) && NewEntryDefinition(groupId, entryId, name, kind).Err? ==>
      r == Err(NewEntryDefinition(groupId, entryId, name, kind).error)
    ensures r.Ok? ==> (|r.value| == |gs|
      && var k := FindGroup(gs, groupId).value;
      (forall i :: 0 <= i < |gs| && i != k ==> r.value[i] == gs[i])
      && AddEntry(gs[k], EntryDefinition(groupId, entryId, name, kind, 0)) == Ok(r.value[k]))
    ensures r.Ok? && GroupsWellFormed(gs) ==> GroupsWellFormed(r.value)
  {
    var k :- FindGroup(gs, groupId);
    var d :- NewEntryDefinition(groupId, entryId, name, kind);
    var g :- AddEntry(gs[k], d);
    AddValueKeepsWellFormed(gs, k, g);
    Ok(gs[k := g])
  }

  lemma AddValueKeepsWellFormed(gs: seq<Group>, k: nat, g: Group)
    requires k < |gs| && g.groupId == gs[k].groupId && g.name == gs[k].name
    requires EntriesWellFormed(gs[k].entries) ==> EntriesWellFormed(g.entries)
    ensures GroupsWellFormed(gs) ==> GroupsWellFormed(gs[k := g])
  {
  }

  /** The data size of all groups' entries, groups in ascending ID order. */
  function TotalSize(gs: seq<Group>): nat
    decreases |gs|
  {
    if gs == [] then 0 else TotalSize(gs[..|gs| - 1]) + SizeSum(gs[|gs| - 1].entries)
  }

  /** The groups with their entries laid out as prepareJournal does: each group right after the previous one. */
  function LayoutGroups(gs: seq<Group>): (r: seq<Group>)
    ensures |r| == |gs|
    decreases |gs|
  {
    if gs == [] then []
    else
      var init := gs[..|gs| - 1];
      var g := gs[|gs| - 1];
      LayoutGroups(init) + [g.(entries := Layout(g.entries, TotalSize(init)))]
  }

  /** The address loop of prepareJournal: each group's entries laid out right after the previous group's. */
  method CalculateGroupAddresses(gs: seq<Group>) returns (placed: seq<Group>, offset: nat)
    ensures placed == LayoutGroups(gs) && offset == TotalSize(gs)
  {
    placed, offset := [], 0;
    var i := 0;
    while i < |gs|
      invariant 0 <= i <= |gs|
      invariant placed == LayoutGroups(gs[..i])
      invariant offset == TotalSize(gs[..i])
    {
      assert gs[..i + 1][..i] == gs[..i];
      var es, size := CalculateDataAddresses(gs[i].entries, offset);
      placed := placed + [gs[i].(entries := es)];
      offset := offset + size;
      i := i + 1;
    }
    assert gs[..i] == gs;
  }

  lemma {:induction false} LayoutGroupsShape(gs: seq<Group>)
    ensures forall i :: 0 <= i < |gs| ==>
      LayoutGroups(gs)[i] == gs[i].(entries := Layout(gs[i].entries, TotalSize(gs[..i])))
    decreases |gs|
  {
    if gs != [] {
      var init := gs[..|gs| - 1];
      LayoutGroupsShape(init);
      forall i | 0 <= i < |gs|
        ensures LayoutGroups(gs)[i] == gs[i].(entries := Layout(gs[i].entries, TotalSize(gs[..i])))
      {
        if i < |init| {
          assert init[..i] == gs[..i];
        }
      }
    }
  }

  lemma {:induction false} TotalSizeMonotone(gs: seq<Group>, i: nat, j: nat)
    requires i <= j <= |gs|
    ensures TotalSize(gs[..i]) <= TotalSize(gs[..j])
    decreases j - i
  {
    if i < j {
      TotalSizeMonotone(gs, i, j - 1);
      assert gs[..j][..j - 1] == gs[..j - 1];
    }
  }

  /**
   * After prepareJournal every entry of every group lies inside the
   * current-value buffer, whose size is the total.
   */
  lemma PreparedEntriesInBuffer(gs: seq<Group>, i: nat, j: nat)
    requires i < |gs| && j < |gs[i].entries|
    ensures |LayoutGroups(gs)[i].entries| == |gs[i].entries|
    ensures LayoutGroups(gs)[i].entries[j].address + DataSize(gs[i].entries[j].kind) <= TotalSize(gs)
    ensures LayoutGroups(gs)[i].entries[j].(address := 0) == gs[i].entries[j].(address := 0)
  {
    LayoutGroupsShape(gs);
    LayoutIsPacked(gs[i].entries, TotalSize(gs[..i]));
    assert gs[..i + 1][..i] == gs[..i];
    TotalSizeMonotone(gs, i + 1, |gs|);
    assert gs[..|gs|] == gs;
  }

  lemma LayoutGroupsKeepsWellFormed(gs: seq<Group>)
    requires GroupsWellFormed(gs)
    ensures GroupsWellFormed(LayoutGroups(gs))
  {
    LayoutGroupsShape(gs);
    forall i | 0 <= i < |gs|
      ensures EntriesWellFormed(LayoutGroups(gs)[i].entries)
    {
      LayoutKeepsWellFormed(gs[i].entries, TotalSize(gs[..i]));
    }
  }

  // ---------------------------------------------------------------------
  // Typed access
  // ---------------------------------------------------------------------

  datatype ValueType = IntegerValue | BoolValue | DoubleValue

  function TypeOf(kind: EntryKind): ValueType
  {
    match kind
    case IntegerKind(_, _) => IntegerValue
    case BoolKind => BoolValue
    case DoubleKind => DoubleValue
  }

  /** The definition a typed get or set uses: group, then entry, then the dynamic_cast (Journal.cpp:647-706, 898-953). */
  function Lookup(gs: seq<Group>, groupId: uint32, entryId: uint32, want: ValueType): (r: Result<EntryDefinition>)
    ensures !HasGroupId(gs, groupId) ==> r == Err(JournalGroupIdNotFound)
    ensures r.Ok? ==> ((exists i :: 0 <= i < |gs| && gs[i].groupId == groupId && r.value in gs[i].entries)
      && r.value.entryId == entryId && TypeOf(r.value.kind) == want)
    ensures r.Err? ==> r.error in {JournalGroupIdNotFound, JournalEntryNotFound, JournalEntryTypeMismatch}
  {
    var k :- FindGroup(gs, groupId);
    var d :- FindEntry(gs[k].entries, entryId);
    if TypeOf(d.kind) != want then Err(JournalEntryTypeMismatch) else Ok(d)
  }

  /** The int64 bounds of each range-checked getter (Journal.cpp:955-1047). */
  datatype IntegerWidth = Int64Width | Int32Width | Int16Width | Int8Width | Uint64Width | Uint32Width | Uint16Width | Uint8Width

  function WidthMin(w: IntegerWidth): int
  {
    match w
    case Int64Width => INT64_MIN
    case Int32Width => INT32_MIN
    case Int16Width => INT16_MIN
    case Int8Width => INT8_MIN
    case _ => 0
  }

  function WidthMax(w: IntegerWidth): int
  {
    match w
    case Int64Width => INT64_MAX
    case Int32Width => INT32_MAX
    case Int16Width => INT16_MAX
    case Int8Width => INT8_MAX
    case Uint64Width => UINT64_LIMIT - 1
    case Uint32Width => UINT32_LIMIT - 1
    case Uint16Width => UINT16_LIMIT - 1
    case Uint8Width => UINT8_LIMIT - 1
  }

  /** The range check of a narrowing getter. */
  function Narrow(v: int64, w: IntegerWidth): (r: Result<int>)
    ensures r.Ok? <==> WidthMin(w) <= v <= WidthMax(w)
    ensures r.Ok? ==> r.value == v
    ensures r.Err? ==> r.error == JournalValueOutsideOfRange
  {
    if v < WidthMin(w) || v > WidthMax(w) then Err(JournalValueOutsideOfRange) else Ok(v)
  }

  /** A value stored through the integer setter reads back unchanged through any getter whose range holds it. */
  lemma IntegerWriteReadBack(buffer: seq<byte>, address: nat, v: int64, w: IntegerWidth)
    requires address + 8 <= |buffer|
    ensures DecodeInt64(Splice(buffer, address, EncodeInt64(v))[address..address + 8]) == v
    ensures Narrow(DecodeInt64(Splice(buffer, address, EncodeInt64(v))[address..address + 8]), w).Ok?
      <==> WidthMin(w) <= v <= WidthMax(w)
  {
    Int64RoundTrip(v);
  }

  /** The byte a bool setter stores, and the bool the getter reads back. */
  function BoolByte(b: bool): (r: byte)
    ensures (r != 0) == b
  {
    if b then 1 else 0
  }

  /** Every entry of every group lies inside a buffer of `size` bytes. */
  predicate InBuffer(gs: seq<Group>, size: nat)
  {
    forall i, j :: 0 <= i < |gs| && 0 <= j < |gs[i].entries| ==>
      gs[i].entries[j].address + DataSize(gs[i].entries[j].kind) <= size
  }

  /** After prepareJournal every entry lies inside the current-value buffer, whose size is the total. */
  lemma PreparedInBuffer(gs: seq<Group>)
    ensures InBuffer(LayoutGroups(gs), TotalSize(gs))
  {
    forall i, j | 0 <= i < |gs| && 0 <= j < |LayoutGroups(gs)[i].entries|
      ensures LayoutGroups(gs)[i].entries[j].address + DataSize(LayoutGroups(gs)[i].entries[j].kind) <= TotalSize(gs)
    {
      LayoutGroupsShape(gs);
      PreparedEntriesInBuffer(gs, i, j);
    }
  }

  /** The definition a typed access finds in a prepared journal lies inside the buffer. */
  lemma LookupInBuffer(gs: seq<Group>, size: nat, groupId: uint32, entryId: uint32, want: ValueType)
    requires InBuffer(gs, size) && Lookup(gs, groupId, entryId, want).Ok?
    ensures Lookup(gs, groupId, entryId, want).value.address + DataSize(Lookup(gs, groupId, entryId, want).value.kind) <= size
    ensures DataSize(Lookup(gs, groupId, entryId, want).value.kind) == (if want == BoolValue then 1 else 8)
  {
    var d := Lookup(gs, groupId, entryId, want).value;
    var i :| 0 <= i < |gs| && gs[i].groupId == groupId && d in gs[i].entries;
    var j :| 0 <= j < |gs[i].entries| && gs[i].entries[j] == d;
  }

  class CJournal {
    var initializing: bool
    var ringSize: nat
    var groups: seq<Group>
    /** The JournalData built by prepareJournal; null while registering. */
    var data: JournalData?

    ghost predicate Valid()
      reads this, data
    {
      ringSize > 0
      && GroupsWellFormed(groups)
      && (initializing <==> data == null)
      && (data != null ==> data.Valid() && InBuffer(groups, data.values.Length))
    }

    /** CJournal (Journal.cpp:763-770) for a non-zero ring size. */
    constructor (ringBufferSize: nat)
      requires ringBufferSize > 0
      ensures Valid() && initializing && ringSize == ringBufferSize && groups == [] && data == null
    {
      initializing := true;
      ringSize := ringBufferSize;
      groups := [];
      data := null;
    }

    method RegisterGroup(groupId: uint32, name: string) returns (r: Result<()>)
      requires Valid()
      modifies this
      ensures Valid() && initializing == old(initializing) && data == old(data) && ringSize == old(ringSize)
      ensures !old(initializing) ==> r == Err(JournalIsNotInitializing) && groups == old(groups)
      ensures old(initializing) && AddGroup(old(groups), groupId, name).Err? ==>
        r == Err(AddGroup(old(groups), groupId, name).error) && groups == old(groups)
      ensures old(initializing) && AddGroup(old(groups), groupId, name).Ok? ==>
        r.Ok? && groups == AddGroup(old(groups), groupId, name).value
    {
      if !initializing {
        return Err(JournalIsNotInitializing);
      }
      var added := AddGroup(groups, groupId, name);
      if added.Err? {
        return Err(added.error);
      }
      groups := added.value;
      r := Ok(());
    }

    /** registerIntegerValue, registerBoolValue and registerDoubleValue. */
    method RegisterValue(name: string, groupId: uint32, entryId: uint32, kind: EntryKind) returns (r: Result<()>)
      requires Valid()
      modifies this
      ensures Valid() && initializing == old(initializing) && data == old(data) && ringSize == old(ringSize)
      ensures !old(initializing) ==> r == Err(JournalIsNotInitializing) && groups == old(groups)
      ensures old(initializing) && AddValue(old(groups), groupId, entryId, name, kind).Err? ==>
        r == Err(AddValue(old(groups), groupId, entryId, name, kind).error) && groups == old(groups)
      ensures old(initializing) && AddValue(old(groups), groupId, entryId, name, kind).Ok? ==>
        r.Ok? && groups == AddValue(old(groups), groupId, entryId, name, kind).value
    {
      if !initializing {
        return Err(JournalIsNotInitializing);
      }
      var added := AddValue(groups, groupId, entryId, name, kind);
      if added.Err? {
        return Err(added.error);
      }
      groups := added.value;
      r := Ok(());
    }

    /**
     * prepareJournal (Journal.cpp:860-894): lay out all entries, then build
     * the zero-filled buffer of the total size and the ring. The addresses
     * are assigned before the empty-journal check, as in the source.
     */
    method PrepareJournal(filler: RingEntry) returns (r: Result<()>)
      requires Valid()
      modifies this
      ensures Valid() && ringSize == old(ringSize)
      ensures !old(initializing) ==> r == Err(JournalIsNotInitializing) && groups == old(groups) && data == old(data)
      ensures old(initializing) ==> groups == LayoutGroups(old(groups))
      ensures old(initializing) && TotalSize(old(groups)) == 0 ==> r == Err(EmptyJournalNotAllowed) && initializing
      ensures old(initializing) && TotalSize(old(groups)) > 0 ==> (r.Ok? && !initializing && fresh(data)
        && data.values[..] == seq(TotalSize(old(groups)), _ => 0) && data.ring.Length == ringSize && data.Entries() == [])
    {
      if !initializing {
        return Err(JournalIsNotInitializing);
      }
      var placed, offset := CalculateGroupAddresses(groups);
      LayoutGroupsKeepsWellFormed(groups);
      PreparedInBuffer(groups);
      groups := placed;
      if offset == 0 {
        return Err(EmptyJournalNotAllowed);
      }
      data := new JournalData(offset, ringSize, filler);
      initializing := false;
      r := Ok(());
    }

    /**
     * setIntegerValue, setBoolValue and setDoubleValue: write the value's
     * bytes (8 for integers and doubles, 1 for bools) through writeData.
     */
    method SetValue(groupId: uint32, entryId: uint32, want: ValueType, bytes: seq<byte>, timestamp: uint64) returns (r: Result<()>)
      requires Valid()
      requires |bytes| == (if want == BoolValue then 1 else 8)
      modifies if data == null then {} else {data, data.values, data.ring}
      ensures Valid() && unchanged(this)
      ensures Lookup(groups, groupId, entryId, want).Err? ==> r == Err(Lookup(groups, groupId, entryId, want).error)
      ensures Lookup(groups, groupId, entryId, want).Ok? && data == null ==> r == Err(JournalDataBufferOverrun)
      ensures Lookup(groups, groupId, entryId, want).Ok? && data != null && data.values.Length <= JOURNAL_MAXSIZE ==>
        r.Ok? && data.values[..] == Splice(old(data.values[..]), Lookup(groups, groupId, entryId, want).value.address, bytes)
      ensures Lookup(groups, groupId, entryId, want).Ok? && data != null ==> (
        var a := Lookup(groups, groupId, entryId, want).value.address;
        a + |bytes| <= data.values.Length
        && (a > JOURNAL_MAXSIZE ==> r == Err(InvalidJournalAddress))
        && (a <= JOURNAL_MAXSIZE ==> r.Ok?)
        && WrittenData(data, a, groupId, entryId, bytes, timestamp, r))
    {
      var d := Lookup(groups, groupId, entryId, want);
      if d.Err? {
        return Err(d.error);
      }
      if data == null {
        return Err(JournalDataBufferOverrun);
      }
      LookupInBuffer(groups, data.values.Length, groupId, entryId, want);
      var a := d.value.address;
      assert a + |bytes| <= data.values.Length;
      assert WriteError(a, |bytes|, data.values.Length).None? <==> a <= JOURNAL_MAXSIZE;
      r := data.WriteData(a, groupId, entryId, bytes, timestamp);
    }

    /** The bytes a typed get reads (readValue of each definition class). */
    method GetValue(groupId: uint32, entryId: uint32, want: ValueType) returns (r: Result<seq<byte>>)
      requires Valid()
      ensures Lookup(groups, groupId, entryId, want).Err? ==> r == Err(Lookup(groups, groupId, entryId, want).error)
      ensures Lookup(groups, groupId, entryId, want).Ok? && data == null ==> r == Err(JournalDataBufferOverrun)
      ensures Lookup(groups, groupId, entryId, want).Ok? && data != null && data.values.Length <= JOURNAL_MAXSIZE ==> (
        var d := Lookup(groups, groupId, entryId, want).value;
        d.address + DataSize(d.kind) <= data.values.Length && r == Ok(data.values[d.address..d.address + DataSize(d.kind)]))
      ensures r.Ok? ==> |r.value| == (if want == BoolValue then 1 else 8)
    {
      var d := Lookup(groups, groupId, entryId, want);
      if d.Err? {
        return Err(d.error);
      }
      if data == null {
        return Err(JournalDataBufferOverrun);
      }
      LookupInBuffer(groups, data.values.Length, groupId, entryId, want);
      r := data.ReadData(d.value.address, DataSize(d.value.kind));
    }

    /** getInt64Value and the range-checked getInt32/16/8 and getUint64/32/16/8Value. */
    method GetIntegerValue(groupId: uint32, entryId: uint32, w: IntegerWidth) returns (r: Result<int>)
      requires Valid()
      ensures Lookup(groups, groupId, entryId, IntegerValue).Err? ==> r == Err(Lookup(groups, groupId, entryId, IntegerValue).error)
      ensures Lookup(groups, groupId, entryId, IntegerValue).Ok? && data != null && data.values.Length <= JOURNAL_MAXSIZE ==> (
        var d := Lookup(groups, groupId, entryId, IntegerValue).value;
        d.address + 8 <= data.values.Length && r == Narrow(DecodeInt64(data.values[d.address..d.address + 8]), w))
      ensures r.Ok? ==> WidthMin(w) <= r.value <= WidthMax(w)
    {
      var bytes :- GetValue(groupId, entryId, IntegerValue);
      r := Narrow(DecodeInt64(bytes), w);
    }

    method GetBoolValue(groupId: uint32, entryId: uint32) returns (r: Result<bool>)
      requires Valid()
      ensures Lookup(groups, groupId, entryId, BoolValue).Err? ==> r == Err(Lookup(groups, groupId, entryId, BoolValue).error)
      ensures Lookup(groups, groupId, entryId, BoolValue).Ok? && data != null && data.values.Length <= JOURNAL_MAXSIZE ==> (
        var d := Lookup(groups, groupId, entryId, BoolValue).value;
        d.address < data.values.Length && r == Ok(data.values[d.address] != 0))
    {
      var bytes :- GetValue(groupId, entryId, BoolValue);
      r := Ok(bytes[0] != 0);
    }

    /**
     * retrieveJournalHistory (Journal.cpp:1104-1124): appends to the response
     * the entry count and the overflow counter, then pops at most 64 entries,
     * oldest first, appending each one's record. The reply is all appended
     * or the first piece that does not fit fails with INVALIDPARAM.
     * Before prepareJournal the source's ring has size 0 and computes `% 0`.
     */
    method RetrieveJournalHistory(response: TcpPacket.CTcpPacketResponse) returns (r: Result<()>)
      requires Valid() && !initializing && response.Valid()
      modifies data, response`currentSize, response.payload
      ensures Valid() && data == old(data) && data.ring == old(data.ring) && data.values == old(data.values)
      ensures data.overflow == old(data.overflow) && response.Valid()
      ensures var entries := old(data.Entries());
        var n := if |entries| < JOURNAL_HISTORYBATCH then |entries| else JOURNAL_HISTORYBATCH;
        var reply := HistoryReply(|entries| % UINT32_LIMIT, old(data.overflow), entries[..n]);
        && (r.Ok? <==> |old(response.Contents())| + |reply| <= TcpPacket.MAX_RESPONSE_SIZE)
        && (r.Ok? ==> response.Contents() == old(response.Contents()) + reply && data.Entries() == entries[n..])
        && (r.Err? ==> r.error == InvalidParam)
    {
      var journalData := data;
      r := journalData.RetrieveHistory(response, JOURNAL_HISTORYBATCH);
    }
  }


}
