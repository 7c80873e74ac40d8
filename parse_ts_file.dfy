/** `parseTsFile` (src/parsers/parse-ts-file.js): the exports table and the
    import list of one TypeScript file. */
module ParseTsFile {
  import opened Base
  import opened OrderedMap
  import opened Data
  import opened TsAst
  import Check

  /** TypeScript lines start at 0; recorded lines start at 1. */
  function Line(posLine: nat): int {
    posLine + 1
  }

  /** `export type Q = import("…").Q`: an alias that only forwards the type
      of the same name from another module. */
  predicate ForwardsImportedType(aliasName: Identifier, aliasedType: TypeNode) {
    aliasedType.ImportTypeNode? && aliasedType.qualifier.Some?
    && aliasedType.qualifier.value.QualifierIdentifier?
    && aliasedType.qualifier.value.escapedText == aliasName.escapedText
  }

  /** What one `push(val, node, pos, isPrivate)` sets. */
  function Record(name: string, posLine: nat, isPrivate: bool): (Key, ExportData) {
    (Name(name), ExportData(Line(posLine), isPrivate))
  }

  /** Every record is under a name, at a line of at least 1, with the given
      `isPrivate`. */
  ghost predicate UniformRecords(ps: seq<(Key, ExportData)>, isPrivate: bool) {
    forall i :: 0 <= i < |ps| ==> ps[i].0.Name? && ps[i].1.line >= 1 && ps[i].1.isPrivate == isPrivate
  }

  /** The records of a variable statement's declarators: identifiers only. */
  function DeclaratorRecords(ds: seq<VariableDeclaration>, isPrivate: bool): (r: seq<(Key, ExportData)>)
    ensures |r| <= |ds|
    ensures UniformRecords(r, isPrivate)
  {
    if ds == [] then []
    else
      var d := ds[|ds| - 1];
      var init := DeclaratorRecords(ds[..|ds| - 1], isPrivate);
      if d.name.BindingIdentifier? then init + [Record(d.name.escapedText, d.posLine, isPrivate)] else init
  }

  /** Without destructuring, every declarator is recorded, in order, under
      its name at its own line. */
  lemma {:induction false} IdentifierDeclaratorsRecorded(ds: seq<VariableDeclaration>, isPrivate: bool)
    requires forall i :: 0 <= i < |ds| ==> ds[i].name.BindingIdentifier?
    ensures |DeclaratorRecords(ds, isPrivate)| == |ds|
    ensures forall i :: 0 <= i < |ds| ==>
      DeclaratorRecords(ds, isPrivate)[i] == Record(ds[i].name.escapedText, ds[i].posLine, isPrivate)
  {
    if ds != [] {
      var init := ds[..|ds| - 1];
      IdentifierDeclaratorsRecorded(init, isPrivate);
      assert forall i :: 0 <= i < |init| ==> init[i] == ds[i];
    }
  }

  /** One declarator: an identifier is recorded under its name at the
      declarator's own line; a destructuring pattern records nothing. */
  lemma DeclaratorRecordsSingle(d: VariableDeclaration, isPrivate: bool)
    ensures DeclaratorRecords([d], isPrivate)
      == if d.name.BindingIdentifier? then [Record(d.name.escapedText, d.posLine, isPrivate)] else []
  {
    assert [d][..0] == [];
  }

  /** Declarators are visited in order: the records of a concatenation are
      the concatenated records. */
  lemma {:induction false} DeclaratorRecordsAppend(a: seq<VariableDeclaration>, b: seq<VariableDeclaration>, isPrivate: bool)
    ensures DeclaratorRecords(a + b, isPrivate) == DeclaratorRecords(a, isPrivate) + DeclaratorRecords(b, isPrivate)
  {
    if b == [] {
      assert a + b == a;
    } else {
      var init := b[..|b| - 1];
      DeclaratorRecordsAppend(a, init, isPrivate);
      assert (a + b)[..|a + b| - 1] == a + init;
      assert (a + b)[|a + b| - 1] == b[|b| - 1];
    }
  }

  /** A destructuring declarator anywhere in the list is skipped. */
  lemma DestructuringSkipped(a: seq<VariableDeclaration>, posLine: nat, b: seq<VariableDeclaration>, isPrivate: bool)
    ensures DeclaratorRecords(a + [VariableDeclaration(BindingPattern, posLine)] + b, isPrivate)
      == DeclaratorRecords(a + b, isPrivate)
  {
    var d := VariableDeclaration(BindingPattern, posLine);
    DeclaratorRecordsAppend(a + [d], b, isPrivate);
    DeclaratorRecordsAppend(a, [d], isPrivate);
    DeclaratorRecordsSingle(d, isPrivate);
    DeclaratorRecordsAppend(a, b, isPrivate);
  }

  /** A record is made exactly for each identifier declarator. */
  lemma {:induction false} DeclaratorRecordsMembers(ds: seq<VariableDeclaration>, isPrivate: bool, p: (Key, ExportData))
    ensures p in DeclaratorRecords(ds, isPrivate) <==>
      exists i :: 0 <= i < |ds| && ds[i].name.BindingIdentifier? && p == Record(ds[i].name.escapedText, ds[i].posLine, isPrivate)
  {
    if ds != [] {
      var init := ds[..|ds| - 1];
      DeclaratorRecordsMembers(init, isPrivate, p);
      if exists i :: 0 <= i < |init| && init[i].name.BindingIdentifier? && p == Record(init[i].name.escapedText, init[i].posLine, isPrivate) {
        var i :| 0 <= i < |init| && init[i].name.BindingIdentifier? && p == Record(init[i].name.escapedText, init[i].posLine, isPrivate);
        assert ds[i] == init[i];
      }
      if exists i :: 0 <= i < |ds| && ds[i].name.BindingIdentifier? && p == Record(ds[i].name.escapedText, ds[i].posLine, isPrivate) {
        var i :| 0 <= i < |ds| && ds[i].name.BindingIdentifier? && p == Record(ds[i].name.escapedText, ds[i].posLine, isPrivate);
        if i < |init| {
          assert init[i] == ds[i];
        }
      }
    }
  }

  /** The records of `export { … }`: every specifier, under its exported name. */
  function SpecifierRecords(es: seq<ExportSpecifier>, isPrivate: bool): (r: seq<(Key, ExportData)>)
    ensures |r| == |es|
    ensures forall i :: 0 <= i < |es| ==> r[i] == Record(es[i].name, es[i].posLine, isPrivate)
    ensures UniformRecords(r, isPrivate)
  {
    if es == [] then []
    else
      var e := es[|es| - 1];
      SpecifierRecords(es[..|es| - 1], isPrivate) + [Record(e.name, e.posLine, isPrivate)]
  }

  /** An export declaration that records its specifiers: a named clause and
      no module specifier. */
  predicate RecordsSpecifiers(clause: Option<ExportClause>, from: Option<string>) {
    clause.Some? && clause.value.NamedExports? && from.None?
  }

  /** The `push` calls one statement makes, in order. */
  function StatementRecords(st: Statement): (r: seq<(Key, ExportData)>)
    ensures !IsExported(st) ==> r == []
    ensures UniformRecords(r, st.isPrivate)
  {
    if !IsExported(st) then []
    else
      match st.node
      case NamedDeclaration(_, name) =>
        if name.Some? then [Record(name.value.escapedText, name.value.posLine, st.isPrivate)] else []
      case TypeAliasDeclaration(aliasName, aliasedType) =>
        if ForwardsImportedType(aliasName, aliasedType) then []
        else [Record(aliasName.escapedText, aliasName.posLine, st.isPrivate)]
      case VariableStatement(ds) => DeclaratorRecords(ds, st.isPrivate)
      case ExportDeclaration(clause, from) =>
        if RecordsSpecifiers(clause, from) then SpecifierRecords(clause.value.elements, st.isPrivate) else []
      case _ => []
  }

  /** The `push` calls of the whole file, in statement order. */
  function AllRecords(sts: seq<Statement>): seq<(Key, ExportData)> {
    if sts == [] then []
    else AllRecords(sts[..|sts| - 1]) + StatementRecords(sts[|sts| - 1])
  }

  /** The map `extractExports` returns. */
  function Exports(sts: seq<Statement>): ExportsData {
    SetAll([], AllRecords(sts))
  }

  /** The imports of a named-imports list, one per element. */
  function ElementImports(fileDirname: string, from: string, es: seq<ImportSpecifier>): (r: seq<ImportData>)
    ensures |r| == |es|
    ensures forall i :: 0 <= i < |es| ==>
      r[i] == ImportData(fileDirname, from, false, es[i].propertyName.Some?, es[i].name)
  {
    if es == [] then []
    else
      var e := es[|es| - 1];
      ElementImports(fileDirname, from, es[..|es| - 1]) + [ImportData(fileDirname, from, false, e.propertyName.Some?, e.name)]
  }

  /** The imports of one clause: the default binding first, then the named
      elements; a namespace import adds nothing. */
  function ClauseImports(fileDirname: string, from: string, clause: ImportClause): seq<ImportData> {
    (if clause.name.Some? then [ImportData(fileDirname, from, true, false, clause.name.value)] else [])
    + (if clause.namedBindings.Some? && clause.namedBindings.value.NamedImports?
       then ElementImports(fileDirname, from, clause.namedBindings.value.elements)
       else [])
  }

  /** The imports of one statement: only import declarations with a clause
      and a string-literal module specifier contribute. */
  function StatementImports(fileDirname: string, st: Statement): seq<ImportData> {
    match st.node
    case ImportDeclaration(Some(clause), Some(from)) => ClauseImports(fileDirname, from, clause)
    case _ => []
  }

  /** The list `extractImports` returns. */
  function Imports(fileDirname: string, sts: seq<Statement>): seq<ImportData> {
    if sts == [] then []
    else Imports(fileDirname, sts[..|sts| - 1]) + StatementImports(fileDirname, sts[|sts| - 1])
  }

  /** What `parseTsFile` returns for a parsed file whose directory is `fileDirname`. */
  function Parsed(fileDirname: string, sts: seq<Statement>): ParseFileReturn {
    ParseFileReturn(Exports(sts), Imports(fileDirname, sts))
  }

  /** `extractExports`. */
  method ExtractExports(statements: seq<Statement>) returns (exports: ExportsData)
    ensures exports == Exports(statements)
  {
    exports := [];
    for i := 0 to |statements|
      invariant exports == SetAll([], AllRecords(statements[..i]))
    {
      assert statements[..i + 1][..i] == statements[..i];
      SetAllAppend([], AllRecords(statements[..i]), StatementRecords(statements[i]));
      exports := PushStatement(exports, statements[i]);
    }
    assert statements[..|statements|] == statements;
  }

  /** The body of `extractExports`' loop: the `push` calls of one statement. */
  method PushStatement(exports: ExportsData, statement: Statement) returns (r: ExportsData)
    ensures r == SetAll(exports, StatementRecords(statement))
  {
    r := exports;
    if !IsExported(statement) {
      assert StatementRecords(statement) == [];
      return;
    }
    var isPrivate := statement.isPrivate;
    match statement.node
    case NamedDeclaration(_, name) =>
      if name.Some? {
        var p := Record(name.value.escapedText, name.value.posLine, isPrivate);
        assert StatementRecords(statement) == [p];
        SetAllSingle(exports, p);
        r := Push(r, name.value.escapedText, name.value.posLine, isPrivate);
      } else {
        assert StatementRecords(statement) == [];
      }
    case TypeAliasDeclaration(aliasName, aliasedType) =>
      if !ForwardsImportedType(aliasName, aliasedType) {
        var p := Record(aliasName.escapedText, aliasName.posLine, isPrivate);
        assert StatementRecords(statement) == [p];
        SetAllSingle(exports, p);
        r := Push(r, aliasName.escapedText, aliasName.posLine, isPrivate);
      } else {
        assert StatementRecords(statement) == [];
      }
    case VariableStatement(declarations) =>
      assert StatementRecords(statement) == DeclaratorRecords(declarations, isPrivate);
      r := PushDeclarators(r, declarations, isPrivate);
    case ExportDeclaration(clause, from) =>
      if clause.Some? && clause.value.NamedExports? && from.None? {
        assert StatementRecords(statement) == SpecifierRecords(clause.value.elements, isPrivate);
        r := PushSpecifiers(r, clause.value.elements, isPrivate);
      } else {
        assert StatementRecords(statement) == [];
      }
    case _ =>
      assert StatementRecords(statement) == [];
  }

  /** The loop over a variable statement's declarators. */
  method PushDeclarators(exports: ExportsData, declarations: seq<VariableDeclaration>, isPrivate: bool) returns (r: ExportsData)
    ensures r == SetAll(exports, DeclaratorRecords(declarations, isPrivate))
  {
    r := exports;
    for j := 0 to |declarations|
      invariant r == SetAll(exports, DeclaratorRecords(declarations[..j], isPrivate))
    {
      var declaration := declarations[j];
      assert declarations[..j + 1][..j] == declarations[..j];
      assert declarations[..j + 1][j] == declaration;
      if declaration.name.BindingIdentifier? {
        var p := Record(declaration.name.escapedText, declaration.posLine, isPrivate);
        assert DeclaratorRecords(declarations[..j + 1], isPrivate) == DeclaratorRecords(declarations[..j], isPrivate) + [p];
        SetAllAppend(exports, DeclaratorRecords(declarations[..j], isPrivate), [p]);
        SetAllSingle(r, p);
        r := Push(r, declaration.name.escapedText, declaration.posLine, isPrivate);
      } else {
        assert DeclaratorRecords(declarations[..j + 1], isPrivate) == DeclaratorRecords(declarations[..j], isPrivate);
      }
    }
    assert declarations[..|declarations|] == declarations;
  }

  /** The loop over the specifiers of `export { … }`. */
  method PushSpecifiers(exports: ExportsData, elements: seq<ExportSpecifier>, isPrivate: bool) returns (r: ExportsData)
    ensures r == SetAll(exports, SpecifierRecords(elements, isPrivate))
  {
    r := exports;
    for j := 0 to |elements|
      invariant r == SetAll(exports, SpecifierRecords(elements[..j], isPrivate))
    {
      var element := elements[j];
      assert elements[..j + 1][..j] == elements[..j];
      var p := Record(element.name, element.posLine, isPrivate);
      assert elements[..j + 1][j] == element;
      assert SpecifierRecords(elements[..j + 1], isPrivate) == SpecifierRecords(elements[..j], isPrivate) + [p];
      SetAllAppend(exports, SpecifierRecords(elements[..j], isPrivate), [p]);
      SetAllSingle(r, p);
      r := Push(r, element.name, element.posLine, isPrivate);
    }
    assert elements[..|elements|] == elements;
  }

  /** The `push` closure: sets `val` to its line and `isPrivate`. */
  method Push(exports: ExportsData, val: string, posLine: nat, isPrivate: bool) returns (r: ExportsData)
    ensures r == Set(exports, Record(val, posLine, isPrivate).0, Record(val, posLine, isPrivate).1)
  {
    var line := posLine + 1;
    r := Set(exports, Name(val), ExportData(line, isPrivate));
  }

  /** `extractImports`. */
  method ExtractImports(fileDirname: string, statements: seq<Statement>) returns (imports: seq<ImportData>)
    ensures imports == Imports(fileDirname, statements)
  {
    imports := [];
    for i := 0 to |statements|
      invariant imports == Imports(fileDirname, statements[..i])
    {
      assert statements[..i + 1][..i] == statements[..i];
      imports := PushImports(imports, fileDirname, statements[i]);
    }
    assert statements[..|statements|] == statements;
  }

  /** The body of `extractImports`' loop for one statement. */
  method PushImports(imports: seq<ImportData>, fileDirname: string, statement: Statement) returns (r: seq<ImportData>)
    ensures r == imports + StatementImports(fileDirname, statement)
  {
    r := imports;
    if !statement.node.ImportDeclaration? {
      return;
    }
    var importClause := statement.node.importClause;
    var moduleSpecifier := statement.node.moduleSpecifier;
    if importClause.None? {
      return;
    }
    if moduleSpecifier.None? {
      return;
    }
    var from := moduleSpecifier.value;
    var clause := importClause.value;
    if clause.name.Some? {
      r := r + [ImportData(fileDirname, from, true, false, clause.name.value)];
    }
    ghost var withDefault := r;
    if clause.namedBindings.Some? && clause.namedBindings.value.NamedImports? {
      r := PushElementImports(r, fileDirname, from, clause.namedBindings.value.elements);
    }
    assert r == withDefault + (if clause.namedBindings.Some? && clause.namedBindings.value.NamedImports?
       then ElementImports(fileDirname, from, clause.namedBindings.value.elements)
       else []);
  }

  /** The loop over the named elements of one clause. */
  method PushElementImports(imports: seq<ImportData>, fileDirname: string, from: string, elements: seq<ImportSpecifier>)
    returns (r: seq<ImportData>)
    ensures r == imports + ElementImports(fileDirname, from, elements)
  {
    r := imports;
    for j := 0 to |elements|
      invariant r == imports + ElementImports(fileDirname, from, elements[..j])
    {
      var element := elements[j];
      ElementImportsSnoc(fileDirname, from, elements, j);
      r := r + [ImportData(fileDirname, from, false, element.propertyName.Some?, element.name)];
    }
    assert elements[..|elements|] == elements;
  }

  lemma ElementImportsSnoc(fileDirname: string, from: string, es: seq<ImportSpecifier>, j: int)
    requires 0 <= j < |es|
    ensures ElementImports(fileDirname, from, es[..j + 1])
      == ElementImports(fileDirname, from, es[..j]) + [ImportData(fileDirname, from, false, es[j].propertyName.Some?, es[j].name)]
  {
    assert es[..j + 1][..j] == es[..j];
  }

  /** `parseTsFile`, once the file is parsed. */
  method ParseTsFile(fileDirname: string, statements: seq<Statement>) returns (r: ParseFileReturn)
    ensures r == Parsed(fileDirname, statements)
  {
    var exports := ExtractExports(statements);
    var imports := ExtractImports(fileDirname, statements);
    r := ParseFileReturn(exports, imports);
  }

  /** The map `extractExports` returns: distinct names, in the order they are
      first recorded, each with its last record. */
  lemma ExportsMeaning(sts: seq<Statement>)
    ensures DistinctKeys(Exports(sts))
    ensures Keys(Exports(sts)) == Dedup(Keys(AllRecords(sts)))
    ensures forall k :: Get(Exports(sts), k) == LastValue(AllRecords(sts), k)
  {
    SetAllFromEmpty(AllRecords(sts));
  }

  lemma {:induction false} AllRecordsAppend(a: seq<Statement>, b: seq<Statement>)
    ensures AllRecords(a + b) == AllRecords(a) + AllRecords(b)
  {
    if b == [] {
      assert a + b == a;
    } else {
      var init, last := b[..|b| - 1], b[|b| - 1];
      assert (a + b)[..|a + b| - 1] == a + init;
      assert (a + b)[|a + b| - 1] == last;
      var r := StatementRecords(last);
      assert AllRecords(a + b) == AllRecords(a + init) + r;
      assert AllRecords(b) == AllRecords(init) + r;
      AllRecordsAppend(a, init);
      ConcatAssoc(AllRecords(a), AllRecords(init), r);
    }
  }

  /** Last write wins: a name recorded in a later part of the file takes that
      part's record; otherwise it keeps the earlier part's. */
  lemma ExportsAppend(a: seq<Statement>, b: seq<Statement>, k: Key)
    ensures Get(Exports(a + b), k) == if Get(Exports(b), k).Some? then Get(Exports(b), k) else Get(Exports(a), k)
  {
    AllRecordsAppend(a, b);
    ExportsMeaning(a + b);
    ExportsMeaning(a);
    ExportsMeaning(b);
    LastValueAppend(AllRecords(a), AllRecords(b), k);
  }

  /** A statement that records nothing leaves the file's map as it was. */
  lemma SilentStatement(a: seq<Statement>, st: Statement, b: seq<Statement>)
    requires StatementRecords(st) == []
    ensures Exports(a + [st] + b) == Exports(a + b)
  {
    assert [st][..0] == [];
    assert AllRecords([st]) == AllRecords([]) + StatementRecords(st);
    AllRecordsAppend(a, [st]);
    var x := AllRecords(a);
    assert x + [] == x;
    AllRecordsAppend(a + [st], b);
    AllRecordsAppend(a, b);
  }

  lemma {:induction false} AllRecordsFrom(sts: seq<Statement>, p: (Key, ExportData))
    requires p in AllRecords(sts)
    ensures exists i :: 0 <= i < |sts| && p in StatementRecords(sts[i])
  {
    var init := sts[..|sts| - 1];
    if p in AllRecords(init) {
      AllRecordsFrom(init, p);
      var i :| 0 <= i < |init| && p in StatementRecords(init[i]);
      assert init[i] == sts[i];
    } else {
      assert p in StatementRecords(sts[|sts| - 1]);
    }
  }

  /** Every entry of the map is under a name, at a line of at least 1, and
      comes from one exported statement whose `isPrivate` it carries. */
  lemma ExportsRecordExportedStatements(sts: seq<Statement>, k: Key, d: ExportData)
    requires Get(Exports(sts), k) == Some(d)
    ensures k.Name? && d.line >= 1
    ensures exists i :: 0 <= i < |sts| && IsExported(sts[i]) && d.isPrivate == sts[i].isPrivate
  {
    ExportsMeaning(sts);
    LastValueSome(AllRecords(sts), k);
    AllRecordsFrom(sts, (k, d));
    var i :| 0 <= i < |sts| && (k, d) in StatementRecords(sts[i]);
    var r := StatementRecords(sts[i]);
    var j :| 0 <= j < |r| && r[j] == (k, d);
    assert UniformRecords(r, sts[i].isPrivate);
  }

  lemma {:induction false} ImportsAppend(fileDirname: string, a: seq<Statement>, b: seq<Statement>)
    ensures Imports(fileDirname, a + b) == Imports(fileDirname, a) + Imports(fileDirname, b)
  {
    if b == [] {
      assert a + b == a;
    } else {
      var init, last := b[..|b| - 1], b[|b| - 1];
      assert (a + b)[..|a + b| - 1] == a + init;
      assert (a + b)[|a + b| - 1] == last;
      var r := StatementImports(fileDirname, last);
      assert Imports(fileDirname, a + b) == Imports(fileDirname, a + init) + r;
      assert Imports(fileDirname, b) == Imports(fileDirname, init) + r;
      ImportsAppend(fileDirname, a, init);
      ConcatAssoc(Imports(fileDirname, a), Imports(fileDirname, init), r);
    }
  }

  /** `import { n } from "…"` (with a clause and a string-literal module
      specifier), neither default nor renamed. */
  ghost predicate PlainlyImports(st: Statement, n: string) {
    st.node.ImportDeclaration? && st.node.importClause.Some? && st.node.moduleSpecifier.Some?
    && var bindings := st.node.importClause.value.namedBindings;
    bindings.Some? && bindings.value.NamedImports? && ImportSpecifier(None, n) in bindings.value.elements
  }

  lemma ElementExemptions(fileDirname: string, from: string, es: seq<ImportSpecifier>, n: string)
    ensures n in Check.LocalImportsToIgnore(ElementImports(fileDirname, from, es)) <==> ImportSpecifier(None, n) in es
  {
    var r := ElementImports(fileDirname, from, es);
    if n in Check.LocalImportsToIgnore(r) {
      var i :| 0 <= i < |r| && Check.IsPlainNamed(r[i]) && r[i].name == n;
      assert es[i] == ImportSpecifier(None, n);
    }
    if ImportSpecifier(None, n) in es {
      var i :| 0 <= i < |es| && es[i] == ImportSpecifier(None, n);
      assert Check.IsPlainNamed(r[i]) && r[i].name == n;
    }
  }

  lemma StatementExemptions(fileDirname: string, st: Statement, n: string)
    ensures n in Check.LocalImportsToIgnore(StatementImports(fileDirname, st)) <==> PlainlyImports(st, n)
  {
    match st.node
    case ImportDeclaration(Some(clause), Some(from)) =>
      var default := if clause.name.Some? then [ImportData(fileDirname, from, true, false, clause.name.value)] else [];
      var named := if clause.namedBindings.Some? && clause.namedBindings.value.NamedImports?
        then ElementImports(fileDirname, from, clause.namedBindings.value.elements) else [];
      Check.LocalImportsAppend(default, named);
      if clause.namedBindings.Some? && clause.namedBindings.value.NamedImports? {
        ElementExemptions(fileDirname, from, clause.namedBindings.value.elements, n);
      }
    case _ =>
  }

  /** Which names a TypeScript file's imports exempt in `check`: exactly those
      it imports verbatim with `import { n } from "…"`, in any statement. */
  lemma {:induction false} ExemptedNames(fileDirname: string, sts: seq<Statement>, n: string)
    ensures n in Check.LocalImportsToIgnore(Imports(fileDirname, sts)) <==> exists i :: 0 <= i < |sts| && PlainlyImports(sts[i], n)
  {
    if sts != [] {
      var init := sts[..|sts| - 1];
      var last := sts[|sts| - 1];
      ExemptedNames(fileDirname, init, n);
      Check.LocalImportsAppend(Imports(fileDirname, init), StatementImports(fileDirname, last));
      StatementExemptions(fileDirname, last, n);
      if exists i :: 0 <= i < |sts| && PlainlyImports(sts[i], n) {
        var i :| 0 <= i < |sts| && PlainlyImports(sts[i], n);
        if i < |init| {
          assert init[i] == sts[i];
        }
      }
      if exists i :: 0 <= i < |init| && PlainlyImports(init[i], n) {
        var i :| 0 <= i < |init| && PlainlyImports(init[i], n);
        assert init[i] == sts[i];
      }
    }
  }

  /** Exported named declarations, including `export default function g`,
      are recorded under their name at the name's line; nameless ones and
      unexported ones record nothing. */
  lemma NamedDeclarationForms(k: DeclarationKind, name: Identifier, exported: bool, isPrivate: bool, line: nat)
    ensures StatementRecords(Statement(NamedDeclaration(k, Some(name)), true, isPrivate, line))
      == [Record(name.escapedText, name.posLine, isPrivate)]
    ensures StatementRecords(Statement(NamedDeclaration(k, None), exported, isPrivate, line)) == []
    ensures StatementRecords(Statement(NamedDeclaration(k, Some(name)), false, isPrivate, line)) == []
  {
  }

  /** An exported type alias is recorded under its name at the name's line
      unless it forwards the imported type of the same name, which records
      nothing. */
  lemma TypeAliasForms(aliasName: Identifier, aliasedType: TypeNode, isPrivate: bool, line: nat)
    ensures ForwardsImportedType(aliasName, aliasedType) ==>
      StatementRecords(Statement(TypeAliasDeclaration(aliasName, aliasedType), true, isPrivate, line)) == []
    ensures !ForwardsImportedType(aliasName, aliasedType) ==>
      StatementRecords(Statement(TypeAliasDeclaration(aliasName, aliasedType), true, isPrivate, line))
        == [Record(aliasName.escapedText, aliasName.posLine, isPrivate)]
  {
  }

  /** `export type Q = import("…").R` forwards exactly when `R` is a plain
      identifier spelled as `Q`. */
  lemma ForwardingAliases(q: string, posLine: nat, r: string)
    ensures ForwardsImportedType(Identifier(q, posLine), ImportTypeNode(Some(QualifierIdentifier(r)))) <==> r == q
    ensures !ForwardsImportedType(Identifier(q, posLine), ImportTypeNode(Some(QualifiedName)))
    ensures !ForwardsImportedType(Identifier(q, posLine), ImportTypeNode(None))
    ensures !ForwardsImportedType(Identifier(q, posLine), OtherTypeNode)
  {
  }

  /** An exported variable statement records its declarators' records. */
  lemma VariableForms(ds: seq<VariableDeclaration>, isPrivate: bool, line: nat)
    ensures StatementRecords(Statement(VariableStatement(ds), true, isPrivate, line)) == DeclaratorRecords(ds, isPrivate)
  {
  }

  /** An export declaration records its specifiers only with a named clause
      and no `from`; `export … from`, `export *` and `export * as ns` record
      nothing, and neither does an import or a statement of any other kind. */
  lemma ExportDeclarationForms(clause: Option<ExportClause>, from: string, es: seq<ExportSpecifier>, n: string,
                               exported: bool, isPrivate: bool, line: nat, kind: int, importClause: Option<ImportClause>, m: Option<string>)
    ensures StatementRecords(Statement(ExportDeclaration(Some(NamedExports(es)), None), exported, isPrivate, line))
      == SpecifierRecords(es, isPrivate)
    ensures StatementRecords(Statement(ExportDeclaration(clause, Some(from)), exported, isPrivate, line)) == []
    ensures StatementRecords(Statement(ExportDeclaration(None, m), exported, isPrivate, line)) == []
    ensures StatementRecords(Statement(ExportDeclaration(Some(NamespaceExport(n)), m), exported, isPrivate, line)) == []
    ensures StatementRecords(Statement(OtherStatement(kind), exported, isPrivate, line)) == []
    ensures StatementRecords(Statement(ImportDeclaration(importClause, m), exported, isPrivate, line)) == []
  {
  }
}
