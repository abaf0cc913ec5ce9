/**
 * The offline I/O-map generator (GenerateIOmap.py).
 *
 * The script reads a catalog of I/O module types (module type name ->
 * ordered fields with their IEC scalar type) and the hardware topology (the
 * ordered list of modules, each with a name and a type). It writes three
 * files: the STRUCT type declarations, the global variable declarations and
 * the VAR_CONFIG address bindings. Reading YAML/XML and writing files are
 * not modelled; the parsed inputs are sequences and each output file is the
 * sequence of the lines written to it, every line ending in a newline.
 */
module IOMap {
  import opened Wrappers

  /** One catalog field: a variable name and its IEC scalar type. */
  datatype Field = Field(variable: string, scalarType: string)

  /** One catalog entry: a module type name and its fields in catalog order. */
  datatype CatalogEntry = CatalogEntry(typeName: string, fields: seq<Field>)

  /** One module of the hardware tree. */
  datatype HardwareModule = HardwareModule(name: string, typeName: string)

  /** The three generated files, each as its sequence of lines. */
  datatype Output = Output(typeFile: seq<string>, variableFile: seq<string>, ioMapFile: seq<string>)

  // ---------------------------------------------------------------------
  // Name sanitizing and prefixes
  // ---------------------------------------------------------------------

  /** `s.replace('-', '_')`. */
  function Sanitize(s: string): (r: string)
    ensures |r| == |s|
    ensures forall i :: 0 <= i < |s| ==> r[i] != '-'
    ensures forall i :: 0 <= i < |s| && s[i] != '-' ==> r[i] == s[i]
    ensures forall i :: 0 <= i < |s| && s[i] == '-' ==> r[i] == '_'
  {
    if s == [] then [] else [if s[0] == '-' then '_' else s[0]] + Sanitize(s[1..])
  }

  predicate StartsWith(s: string, prefix: string)
  {
    |prefix| <= |s| && s[..|prefix|] == prefix
  }

  // ---------------------------------------------------------------------
  // Global.typ: one STRUCT per catalog entry
  // ---------------------------------------------------------------------

  function StructName(typeName: string): string
  {
    Sanitize(typeName) + "_TYP"
  }

  function FieldLine(f: Field): string
  {
    f.variable + " : " + f.scalarType + ";\n"
  }

  function FieldLines(fields: seq<Field>): (r: seq<string>)
    ensures |r| == |fields|
    ensures forall i :: 0 <= i < |fields| ==> r[i] == FieldLine(fields[i])
  {
    if fields == [] then [] else [FieldLine(fields[0])] + FieldLines(fields[1..])
  }

  function StructHeader(e: CatalogEntry): string
  {
    StructName(e.typeName) + " : STRUCT\n"
  }

  /** The lines written for one catalog entry (GenerateIOmap.py:22-36). */
  function StructBlock(e: CatalogEntry): seq<string>
  {
    [StructHeader(e)] + FieldLines(e.fields) + ["END_STRUCT;\n"]
  }

  function StructBlocks(catalog: seq<CatalogEntry>): seq<string>
  {
    if catalog == [] then [] else StructBlock(catalog[0]) + StructBlocks(catalog[1..])
  }

  function TypeFile(catalog: seq<CatalogEntry>): seq<string>
  {
    ["TYPE\n"] + StructBlocks(catalog) + ["END_TYPE\n"]
  }

  // ---------------------------------------------------------------------
  // Hardware filter
  // ---------------------------------------------------------------------

  /** The three nested prefix tests of GenerateIOmap.py:48-50. */
  predicate IsIOModule(typeName: string)
  {
    if StartsWith(typeName, "X20") then
      if !StartsWith(typeName, "X20TB") then !StartsWith(typeName, "X20BM") else false
    else false
  }

  /** The modules of the hardware tree that get a mapping, in tree order. */
  function SelectModules(tree: seq<HardwareModule>): seq<HardwareModule>
  {
    if tree == [] then []
    else (if IsIOModule(tree[0].typeName) then [tree[0]] else []) + SelectModules(tree[1..])
  }

  // ---------------------------------------------------------------------
  // Address tags and binding lines
  // ---------------------------------------------------------------------

  /** The if/elif chain of GenerateIOmap.py:83-92. */
  function AddressTag(scalarType: string): string
  {
    if scalarType == "BOOL" then "%IX"
    else if scalarType == "SINT" || scalarType == "USINT" then "%IB"
    else if scalarType == "INT" || scalarType == "UINT" then "%IW"
    else if scalarType == "DINT" || scalarType == "UDINT" then "%ID"
    else ""
  }

  /** The bit width of an IEC elementary integer type; 0 for other types. */
  function ScalarWidth(scalarType: string): nat
  {
    match scalarType
    case "BOOL" => 1
    case "SINT" => 8
    case "USINT" => 8
    case "INT" => 16
    case "UINT" => 16
    case "DINT" => 32
    case "UDINT" => 32
    case _ => 0
  }

  /** The IEC 61131-3 location size prefix for an input of the given width. */
  function InputLocationPrefix(width: nat): string
  {
    match width
    case 1 => "%IX"
    case 8 => "%IB"
    case 16 => "%IW"
    case 32 => "%ID"
    case _ => ""
  }

  function BindingLine(moduleName: string, f: Field): string
  {
    "::IOMapping_" + moduleName + "." + f.variable + " AT " + AddressTag(f.scalarType)
      + ".\"" + moduleName + "\"." + f.variable + ";\n"
  }

  function BindingLines(moduleName: string, fields: seq<Field>): (r: seq<string>)
    ensures |r| == |fields|
    ensures forall i :: 0 <= i < |fields| ==> r[i] == BindingLine(moduleName, fields[i])
  {
    if fields == [] then [] else [BindingLine(moduleName, fields[0])] + BindingLines(moduleName, fields[1..])
  }

  /** The first catalog entry whose type name equals typeName (the loop with `break`). */
  function FindCatalogEntry(catalog: seq<CatalogEntry>, typeName: string): (r: Option<CatalogEntry>)
    ensures r.None? <==> forall k :: 0 <= k < |catalog| ==> catalog[k].typeName != typeName
    ensures r.Some? ==> r.value.typeName == typeName
    ensures r.Some? ==> exists k :: (0 <= k < |catalog| && catalog[k] == r.value
      && forall j :: 0 <= j < k ==> catalog[j].typeName != typeName)
  {
    if catalog == [] then None
    else if catalog[0].typeName == typeName then Some(catalog[0])
    else
      var r := FindCatalogEntry(catalog[1..], typeName);
      if r.Some? then
        ghost var k :| 0 <= k < |catalog[1..]| && catalog[1..][k] == r.value
          && forall j :: 0 <= j < k ==> catalog[1..][j].typeName != typeName;
        assert catalog[k + 1] == r.value;
        r
      else r
  }

  /** The VAR_CONFIG block written for one selected module (GenerateIOmap.py:75-97). */
  function VarConfigBlock(m: HardwareModule, catalog: seq<CatalogEntry>): seq<string>
  {
    var bindings := match FindCatalogEntry(catalog, m.typeName)
      case Some(e) => BindingLines(m.name, e.fields)
      case None => [];
    ["VAR_CONFIG\n"] + bindings + ["END_VAR\n"]
  }

  function IoMapFile(modules: seq<HardwareModule>, catalog: seq<CatalogEntry>): seq<string>
  {
    if modules == [] then [] else VarConfigBlock(modules[0], catalog) + IoMapFile(modules[1..], catalog)
  }

  // ---------------------------------------------------------------------
  // Global.var
  // ---------------------------------------------------------------------

  function VariableLine(m: HardwareModule): string
  {
    "IOMapping_" + m.name + " : " + StructName(m.typeName) + ";\n"
  }

  function VariableLines(modules: seq<HardwareModule>): seq<string>
  {
    if modules == [] then [] else [VariableLine(modules[0])] + VariableLines(modules[1..])
  }

  function VariableFile(modules: seq<HardwareModule>): seq<string>
  {
    ["(*SCRIPT GENERATED VARIABLES*)\n", "VAR\n"] + VariableLines(modules)
      + ["END_VAR\n", "(***************************)\n"]
  }

  /** One run of the script. */
  function Generate(catalog: seq<CatalogEntry>, tree: seq<HardwareModule>): Output
  {
    var selected := SelectModules(tree);
    Output(TypeFile(catalog), VariableFile(selected), IoMapFile(selected, catalog))
  }

  // ---------------------------------------------------------------------
  // Properties
  // ---------------------------------------------------------------------

  /** A STRUCT block: header with the sanitized name, the fields in order, the terminator. */
  lemma StructBlockLayout(e: CatalogEntry)
    ensures |StructBlock(e)| == |e.fields| + 2
    ensures StructBlock(e)[0] == Sanitize(e.typeName) + "_TYP : STRUCT\n"
    ensures forall i :: 0 <= i < |e.fields| ==>
      StructBlock(e)[i + 1] == e.fields[i].variable + " : " + e.fields[i].scalarType + ";\n"
    ensures StructBlock(e)[|e.fields| + 1] == "END_STRUCT;\n"
    ensures '-' !in StructName(e.typeName)
  {
  }

  /** The STRUCT blocks follow the catalog order: the blocks of a + b are those of a, then those of b. */
  lemma {:induction false} StructBlocksAppend(a: seq<CatalogEntry>, b: seq<CatalogEntry>)
    ensures StructBlocks(a + b) == StructBlocks(a) + StructBlocks(b)
  {
    if a == [] {
      assert a + b == b;
    } else {
      assert (a + b)[1..] == a[1..] + b;
      StructBlocksAppend(a[1..], b);
    }
  }

  /** Every catalog entry's STRUCT header appears in the type file. */
  lemma {:induction false} StructHeaderDeclared(catalog: seq<CatalogEntry>, e: CatalogEntry)
    requires e in catalog
    ensures StructHeader(e) in TypeFile(catalog)
  {
    StructHeaderInBlocks(catalog, e);
  }

  lemma {:induction false} StructHeaderInBlocks(catalog: seq<CatalogEntry>, e: CatalogEntry)
    requires e in catalog
    ensures StructHeader(e) in StructBlocks(catalog)
  {
    if catalog[0] == e {
      assert StructBlocks(catalog)[0] == StructHeader(e);
    } else {
      StructHeaderInBlocks(catalog[1..], e);
      assert StructBlocks(catalog) == StructBlock(catalog[0]) + StructBlocks(catalog[1..]);
    }
  }

  /** A module is selected iff its type starts with X20 and with neither X20TB nor X20BM. */
  lemma IsIOModulePrefixes(t: string)
    ensures IsIOModule(t) <==>
      (|t| >= 3 && t[..3] == "X20")
      && !(|t| >= 5 && t[..5] == "X20TB")
      && !(|t| >= 5 && t[..5] == "X20BM")
  {
  }

  lemma {:induction false} SelectModulesMembers(tree: seq<HardwareModule>, m: HardwareModule)
    ensures m in SelectModules(tree) <==> m in tree && IsIOModule(m.typeName)
  {
    if tree != [] {
      SelectModulesMembers(tree[1..], m);
      assert tree == [tree[0]] + tree[1..];
    }
  }

  /** Selection keeps the tree order: it distributes over concatenation. */
  lemma {:induction false} SelectModulesAppend(a: seq<HardwareModule>, b: seq<HardwareModule>)
    ensures SelectModules(a + b) == SelectModules(a) + SelectModules(b)
  {
    if a == [] {
      assert a + b == b;
    } else {
      assert (a + b)[1..] == a[1..] + b;
      SelectModulesAppend(a[1..], b);
    }
  }

  /** Terminal blocks, bus modules and non-X20 modules are dropped. */
  lemma SelectModulesExamples()
    ensures SelectModules([HardwareModule("114KF24", "X20DO6322")]) == [HardwareModule("114KF24", "X20DO6322")]
    ensures SelectModules([HardwareModule("T1", "X20TB12")]) == []
    ensures SelectModules([HardwareModule("B1", "X20BM11")]) == []
    ensures SelectModules([HardwareModule("P1", "X67DM9321")]) == []
  {
    assert "X20DO6322"[..3] == "X20";
    assert "X20DO6322"[..5] == "X20DO";
    assert "X67DM9321"[..3] == "X67";
    assert "X20TB12"[..5] == "X20TB";
    assert "X20BM11"[..5] == "X20BM";
  }

  /** The tag table agrees with the IEC location prefix of the type's bit width. */
  lemma AddressTagMatchesWidth(t: string)
    ensures AddressTag(t) == InputLocationPrefix(ScalarWidth(t))
    ensures AddressTag(t) in {"%IX", "%IB", "%IW", "%ID", ""}
    ensures AddressTag(t) == "" <==> t !in {"BOOL", "SINT", "USINT", "INT", "UINT", "DINT", "UDINT"}
  {
  }

  /** The VAR_CONFIG block of a module whose type is in the catalog: one binding per field, in order. */
  lemma VarConfigBlockKnown(m: HardwareModule, catalog: seq<CatalogEntry>, e: CatalogEntry)
    requires FindCatalogEntry(catalog, m.typeName) == Some(e)
    ensures |VarConfigBlock(m, catalog)| == |e.fields| + 2
    ensures VarConfigBlock(m, catalog)[0] == "VAR_CONFIG\n"
    ensures forall i :: 0 <= i < |e.fields| ==> (VarConfigBlock(m, catalog)[i + 1] ==
      "::IOMapping_" + m.name + "." + e.fields[i].variable + " AT " + AddressTag(e.fields[i].scalarType)
        + ".\"" + m.name + "\"." + e.fields[i].variable + ";\n")
    ensures VarConfigBlock(m, catalog)[|e.fields| + 1] == "END_VAR\n"
  {
  }

  /** A module whose type is not in the catalog still gets an (empty) VAR_CONFIG block. */
  lemma VarConfigBlockUnknown(m: HardwareModule, catalog: seq<CatalogEntry>)
    requires forall k :: 0 <= k < |catalog| ==> catalog[k].typeName != m.typeName
    ensures VarConfigBlock(m, catalog) == ["VAR_CONFIG\n", "END_VAR\n"]
  {
  }

  /** Only the first catalog entry with the module's type is used; later duplicates are ignored. */
  lemma {:induction false} FirstEntryWins(m: HardwareModule, before: seq<CatalogEntry>, e: CatalogEntry, after: seq<CatalogEntry>)
    requires e.typeName == m.typeName
    requires forall k :: 0 <= k < |before| ==> before[k].typeName != m.typeName
    ensures VarConfigBlock(m, before + [e] + after) == ["VAR_CONFIG\n"] + BindingLines(m.name, e.fields) + ["END_VAR\n"]
  {
    FirstEntryFound(before, e, after, m.typeName);
  }

  lemma {:induction false} FirstEntryFound(before: seq<CatalogEntry>, e: CatalogEntry, after: seq<CatalogEntry>, t: string)
    requires e.typeName == t
    requires forall k :: 0 <= k < |before| ==> before[k].typeName != t
    ensures FindCatalogEntry(before + [e] + after, t) == Some(e)
  {
    if before == [] {
      assert (before + [e] + after)[0] == e;
    } else {
      assert (before + [e] + after)[1..] == before[1..] + [e] + after;
      FirstEntryFound(before[1..], e, after, t);
    }
  }

  /** The binding file holds one block per selected module, in order. */
  lemma {:induction false} IoMapFileAppend(a: seq<HardwareModule>, b: seq<HardwareModule>, catalog: seq<CatalogEntry>)
    ensures IoMapFile(a + b, catalog) == IoMapFile(a, catalog) + IoMapFile(b, catalog)
  {
    if a == [] {
      assert a + b == b;
    } else {
      assert (a + b)[1..] == a[1..] + b;
      IoMapFileAppend(a[1..], b, catalog);
    }
  }

  /** One variable line per selected module, in order, naming the sanitized type. */
  lemma {:induction false} VariableLinesLayout(modules: seq<HardwareModule>)
    ensures |VariableLines(modules)| == |modules|
    ensures forall i :: 0 <= i < |modules| ==> (VariableLines(modules)[i] ==
      "IOMapping_" + modules[i].name + " : " + Sanitize(modules[i].typeName) + "_TYP;\n")
  {
    if modules != [] {
      VariableLinesLayout(modules[1..]);
    }
  }

  /**
   * Every mapping variable whose type is in the catalog refers to a STRUCT the
   * type file declares; a module of unknown type is still declared (with an
   * undeclared type name) and still gets an empty VAR_CONFIG block.
   */
  lemma GeneratedFilesConsistent(catalog: seq<CatalogEntry>, tree: seq<HardwareModule>, m: HardwareModule)
    requires m in tree && IsIOModule(m.typeName)
    ensures VariableLine(m) in Generate(catalog, tree).variableFile
    ensures FindCatalogEntry(catalog, m.typeName).Some? ==>
      StructHeader(FindCatalogEntry(catalog, m.typeName).value) in Generate(catalog, tree).typeFile
      && StructHeader(FindCatalogEntry(catalog, m.typeName).value) == StructName(m.typeName) + " : STRUCT\n"
  {
    SelectModulesMembers(tree, m);
    var selected := SelectModules(tree);
    VariableLinesLayout(selected);
    var i :| 0 <= i < |selected| && selected[i] == m;
    assert VariableFile(selected)[i + 2] == VariableLine(m);
    var found := FindCatalogEntry(catalog, m.typeName);
    if found.Some? {
      StructHeaderDeclared(catalog, found.value);
    }
  }
}
