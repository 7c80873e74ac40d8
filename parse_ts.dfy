/** `parseTs` (src/parse-ts.js), the first-generation TypeScript parser: a map
    from each exported name to the line of the statement that exports it.
    Names a file imports with `import { … }` are never recorded, because under
    `--isolatedModules` a module has to re-export the bindings it imports. */
module ParseTs {
  import opened Base
  import opened OrderedMap
  import opened Data
  import opened TsAst

  type Pushes = seq<(Key, LineData)>

  /** The members of `ts.SyntaxKind` as (name, value) pairs in declaration
      order. The enum's reverse-mapping entries are not listed: their values
      are strings, so they never equal a kind number. */
  type SyntaxKinds = seq<(string, int)>

  /** `getNodeName(kind)`: the first member whose value is `kind`, or the
      number when there is none. */
  function NodeNameOf(kinds: SyntaxKinds, kind: int): (r: NodeName)
    ensures r.KindNumber? <==> forall i :: 0 <= i < |kinds| ==> kinds[i].1 != kind
    ensures r.KindNumber? ==> r.kind == kind
    ensures r.KindName? ==>
      exists i :: 0 <= i < |kinds| && kinds[i] == (r.name, kind) && (forall j :: 0 <= j < i ==> kinds[j].1 != kind)
  {
    if kinds == [] then KindNumber(kind)
    else if kinds[0].1 == kind then KindName(kinds[0].0)
    else
      var r := NodeNameOf(kinds[1..], kind);
      assert forall i :: 1 <= i < |kinds| ==> kinds[1..][i - 1] == kinds[i];
      if r.KindName? then
        var i :| 0 <= i < |kinds[1..]| && kinds[1..][i] == (r.name, kind) && (forall j :: 0 <= j < i ==> kinds[1..][j].1 != kind);
        assert kinds[i + 1] == (r.name, kind);
        r
      else r
  }

  /** `getNodeName`'s loop over `Object.keys(ts.SyntaxKind)`. */
  method GetNodeName(kinds: SyntaxKinds, kind: int) returns (r: NodeName)
    ensures r == NodeNameOf(kinds, kind)
  {
    for i := 0 to |kinds|
      invariant NodeNameOf(kinds[i..], kind) == NodeNameOf(kinds, kind)
    {
      if kinds[i].1 == kind {
        return KindName(kinds[i].0);
      }
      assert kinds[i..][1..] == kinds[i + 1..];
    }
    return KindNumber(kind);
  }

  /** The name pass 1 sets aside for one import specifier: the imported name
      of `a as b`, the name of a plain `a`. */
  function ImportedName(e: ImportSpecifier): string {
    if e.propertyName.Some? then e.propertyName.value else e.name
  }

  /** The `{ … }` bindings of an import declaration: an import without a
      clause, with only a default binding, or with `* as ns` has none. */
  function NamedElements(st: Statement): seq<ImportSpecifier> {
    match st.node
    case ImportDeclaration(Some(ImportClause(_, Some(NamedImports(elements)))), _) => elements
    case _ => []
  }

  /** `st` sets `n` aside in pass 1. */
  ghost predicate SetsAside(st: Statement, n: string) {
    exists j :: 0 <= j < |NamedElements(st)| && ImportedName(NamedElements(st)[j]) == n
  }

  function ElementNames(es: seq<ImportSpecifier>): (r: set<string>)
    ensures forall n :: n in r <==> exists j :: 0 <= j < |es| && ImportedName(es[j]) == n
  {
    if es == [] then {}
    else
      assert forall j :: 0 <= j < |es| - 1 ==> es[..|es| - 1][j] == es[j];
      ElementNames(es[..|es| - 1]) + {ImportedName(es[|es| - 1])}
  }

  /** `ignoredExportsOfImports` after pass 1: the names some import
      statement of the file sets aside, wherever it stands. */
  function Ignored(sts: seq<Statement>): (r: set<string>)
    ensures forall n :: n in r <==> exists i :: 0 <= i < |sts| && SetsAside(sts[i], n)
  {
    if sts == [] then {}
    else
      assert forall i :: 0 <= i < |sts| - 1 ==> sts[..|sts| - 1][i] == sts[i];
      Ignored(sts[..|sts| - 1]) + ElementNames(NamedElements(sts[|sts| - 1]))
  }

  /** The ignored names; `undefined` is never among them. */
  predicate IsIgnored(val: Key, ignored: set<string>) {
    val.Name? && val.name in ignored
  }

  /** Every push is at the statement's line and none is of an ignored name. */
  ghost predicate FromStatement(ps: Pushes, st: Statement, ignored: set<string>) {
    forall i :: 0 <= i < |ps| ==> ps[i].1 == LineData(st.posLine + 1) && !IsIgnored(ps[i].0, ignored)
  }

  /** `push(val, statement)`: an ignored name is dropped; the line is that
      of the statement's position, counted from 1. */
  function Push(val: Key, st: Statement, ignored: set<string>): (r: Pushes)
    ensures FromStatement(r, st, ignored)
    ensures r == [] <==> IsIgnored(val, ignored)
  {
    if IsIgnored(val, ignored) then [] else [(val, LineData(st.posLine + 1))]
  }

  /** The key `declaration.name.escapedText` reads: a destructuring pattern
      has no `escapedText`, so it records `undefined`. */
  function DeclaratorKey(d: VariableDeclaration): (k: Key)
    ensures k.Name? <==> d.name.BindingIdentifier?
  {
    if d.name.BindingIdentifier? then Name(d.name.escapedText) else Undefined
  }

  function DeclaratorPushes(ds: seq<VariableDeclaration>, st: Statement, ignored: set<string>): (r: Pushes)
    ensures FromStatement(r, st, ignored)
  {
    if ds == [] then []
    else DeclaratorPushes(ds[..|ds| - 1], st, ignored) + Push(DeclaratorKey(ds[|ds| - 1]), st, ignored)
  }

  function ElementPushes(es: seq<ExportSpecifier>, st: Statement, ignored: set<string>): (r: Pushes)
    ensures FromStatement(r, st, ignored)
  {
    if es == [] then []
    else ElementPushes(es[..|es| - 1], st, ignored) + Push(Name(es[|es| - 1].name), st, ignored)
  }

  /** Every declarator whose key is not ignored is pushed at the statement's line, and nothing else is. */
  lemma {:induction false} DeclaratorPushesMembers(xs: seq<VariableDeclaration>, st: Statement, ignored: set<string>, p: (Key, LineData))
    ensures p in DeclaratorPushes(xs, st, ignored) <==>
      exists i :: 0 <= i < |xs| && !IsIgnored(DeclaratorKey(xs[i]), ignored) && p == (DeclaratorKey(xs[i]), LineData(st.posLine + 1))
  {
    if xs != [] {
      var init, last := xs[..|xs| - 1], xs[|xs| - 1];
      DeclaratorPushesMembers(init, st, ignored, p);
      if exists i :: 0 <= i < |init| && !IsIgnored(DeclaratorKey(init[i]), ignored) && p == (DeclaratorKey(init[i]), LineData(st.posLine + 1)) {
        var i :| 0 <= i < |init| && !IsIgnored(DeclaratorKey(init[i]), ignored) && p == (DeclaratorKey(init[i]), LineData(st.posLine + 1));
        assert xs[i] == init[i];
      }
      if exists i :: 0 <= i < |xs| && !IsIgnored(DeclaratorKey(xs[i]), ignored) && p == (DeclaratorKey(xs[i]), LineData(st.posLine + 1)) {
        var i :| 0 <= i < |xs| && !IsIgnored(DeclaratorKey(xs[i]), ignored) && p == (DeclaratorKey(xs[i]), LineData(st.posLine + 1));
        if i < |init| {
          assert init[i] == xs[i];
        }
      }
    }
  }

  /** Declarators are pushed in order: the pushes of a concatenation are the concatenated pushes. */
  lemma {:induction false} DeclaratorPushesAppend(a: seq<VariableDeclaration>, b: seq<VariableDeclaration>, st: Statement, ignored: set<string>)
    ensures DeclaratorPushes(a + b, st, ignored) == DeclaratorPushes(a, st, ignored) + DeclaratorPushes(b, st, ignored)
  {
    if b == [] {
      assert a + b == a;
    } else {
      var init := b[..|b| - 1];
      DeclaratorPushesAppend(a, init, st, ignored);
      assert (a + b)[..|a + b| - 1] == a + init;
      assert (a + b)[|a + b| - 1] == b[|b| - 1];
    }
  }

  /** One declarator pushes its key unless it is ignored. */
  lemma DeclaratorPushesSingle(x: VariableDeclaration, st: Statement, ignored: set<string>)
    ensures DeclaratorPushes([x], st, ignored) == Push(DeclaratorKey(x), st, ignored)
  {
    assert [x][..0] == [];
  }

  /** Every element of `export { … }` whose name is not ignored is pushed at the statement's line, and nothing else is. */
  lemma {:induction false} ElementPushesMembers(xs: seq<ExportSpecifier>, st: Statement, ignored: set<string>, p: (Key, LineData))
    ensures p in ElementPushes(xs, st, ignored) <==>
      exists i :: 0 <= i < |xs| && !IsIgnored(Name(xs[i].name), ignored) && p == (Name(xs[i].name), LineData(st.posLine + 1))
  {
    if xs != [] {
      var init, last := xs[..|xs| - 1], xs[|xs| - 1];
      ElementPushesMembers(init, st, ignored, p);
      if exists i :: 0 <= i < |init| && !IsIgnored(Name(init[i].name), ignored) && p == (Name(init[i].name), LineData(st.posLine + 1)) {
        var i :| 0 <= i < |init| && !IsIgnored(Name(init[i].name), ignored) && p == (Name(init[i].name), LineData(st.posLine + 1));
        assert xs[i] == init[i];
      }
      if exists i :: 0 <= i < |xs| && !IsIgnored(Name(xs[i].name), ignored) && p == (Name(xs[i].name), LineData(st.posLine + 1)) {
        var i :| 0 <= i < |xs| && !IsIgnored(Name(xs[i].name), ignored) && p == (Name(xs[i].name), LineData(st.posLine + 1));
        if i < |init| {
          assert init[i] == xs[i];
        }
      }
    }
  }

  /** Elements are pushed in order: the pushes of a concatenation are the concatenated pushes. */
  lemma {:induction false} ElementPushesAppend(a: seq<ExportSpecifier>, b: seq<ExportSpecifier>, st: Statement, ignored: set<string>)
    ensures ElementPushes(a + b, st, ignored) == ElementPushes(a, st, ignored) + ElementPushes(b, st, ignored)
  {
    if b == [] {
      assert a + b == a;
    } else {
      var init := b[..|b| - 1];
      ElementPushesAppend(a, init, st, ignored);
      assert (a + b)[..|a + b| - 1] == a + init;
      assert (a + b)[|a + b| - 1] == b[|b| - 1];
    }
  }

  /** One element pushes its name unless it is ignored. */
  lemma ElementPushesSingle(x: ExportSpecifier, st: Statement, ignored: set<string>)
    ensures ElementPushes([x], st, ignored) == Push(Name(x.name), st, ignored)
  {
    assert [x][..0] == [];
  }

  /** The pushes of one statement in pass 2, or what it throws. Statements
      that are not exported are filtered out before the `switch`. For an
      exported import declaration the thrown name is that of the
      `ImportDeclaration` kind: the model assumes the `kinds` table lists
      that kind under this name, as `ts.SyntaxKind` does. */
  function StatementPushes(st: Statement, ignored: set<string>, kinds: SyntaxKinds): (r: Result<Pushes>)
    ensures !IsExported(st) ==> r == Ok([])
    ensures r.Ok? ==> FromStatement(r.value, st, ignored)
  {
    if !IsExported(st) then Ok([])
    else
      match st.node
      case NamedDeclaration(_, name) =>
        if name.None? then Err(ReadOfUndefined("escapedText")) else Ok(Push(Name(name.value.escapedText), st, ignored))
      case TypeAliasDeclaration(aliasName, _) => Ok(Push(Name(aliasName.escapedText), st, ignored))
      case VariableStatement(ds) => Ok(DeclaratorPushes(ds, st, ignored))
      case ExportDeclaration(clause, moduleSpecifier) =>
        if clause.Some? && clause.value.NamedExports? && moduleSpecifier.None? then
          Ok(ElementPushes(clause.value.elements, st, ignored))
        else Ok([])
      case ImportDeclaration(_, _) => Err(UnsupportedStatementKind(KindName("ImportDeclaration")))
      case OtherStatement(k) => Err(UnsupportedStatementKind(NodeNameOf(kinds, k)))
  }

  function OfStatement(ignored: set<string>, kinds: SyntaxKinds): Statement -> Result<Pushes> {
    st => StatementPushes(st, ignored, kinds)
  }

  /** All pushes of pass 2, or the first error thrown. */
  function AllPushes(sts: seq<Statement>, kinds: SyntaxKinds): Result<Pushes> {
    Collect(sts, OfStatement(Ignored(sts), kinds))
  }

  /** What `parseTs` returns or throws for the parsed statements. */
  function Exports(sts: seq<Statement>, kinds: SyntaxKinds): Result<LinesData> {
    Apply([], AllPushes(sts, kinds))
  }

  /** The `push` closure. */
  method PushOne(exportsData: LinesData, ignored: set<string>, val: Key, st: Statement) returns (r: LinesData)
    ensures r == SetAll(exportsData, Push(val, st, ignored))
  {
    if val.Name? && val.name in ignored {
      assert Push(val, st, ignored) == [];
      return exportsData;
    }
    assert Push(val, st, ignored) == [(val, LineData(st.posLine + 1))];
    SetAllSingle(exportsData, (val, LineData(st.posLine + 1)));
    return Set(exportsData, val, LineData(st.posLine + 1));
  }

  /** `parseTs`, once the file is parsed. */
  method ParseTs(statements: seq<Statement>, kinds: SyntaxKinds) returns (r: Result<LinesData>)
    ensures r == Exports(statements, kinds)
  {
    var ignored := CollectIgnored(statements);
    r := PushExported(statements, ignored, kinds);
  }

  /** Pass 2: the exported statements in order. */
  method PushExported(statements: seq<Statement>, ignored: set<string>, kinds: SyntaxKinds) returns (r: Result<LinesData>)
    ensures r == Apply([], Collect(statements, OfStatement(ignored, kinds)))
  {
    var f := OfStatement(ignored, kinds);
    var exportsData: LinesData := [];
    for i := 0 to |statements|
      invariant Collect(statements[..i], f).Ok?
      invariant exportsData == SetAll([], Collect(statements[..i], f).value)
    {
      assert statements[..i + 1][..i] == statements[..i];
      var step := PushStatement(exportsData, ignored, kinds, statements[i]);
      if step.Err? {
        CollectPrefixError(statements, f, i + 1);
        return Err(step.error);
      }
      SetAllAppend([], Collect(statements[..i], f).value, f(statements[i]).value);
      exportsData := step.value;
    }
    assert statements[..|statements|] == statements;
    return Ok(exportsData);
  }

  /** Pass 1: the names of every `import { … }` in the file. */
  method CollectIgnored(statements: seq<Statement>) returns (ignored: set<string>)
    ensures ignored == Ignored(statements)
  {
    ignored := {};
    for i := 0 to |statements|
      invariant ignored == Ignored(statements[..i])
    {
      var statement := statements[i];
      IgnoredSnoc(statements, i);
      if statement.node.ImportDeclaration? && statement.node.importClause.Some?
        && statement.node.importClause.value.namedBindings.Some?
        && statement.node.importClause.value.namedBindings.value.NamedImports?
      {
        ignored := AddElementNames(ignored, statement.node.importClause.value.namedBindings.value.elements);
      }
    }
    assert statements[..|statements|] == statements;
  }

  /** The `forEach` over one import's named elements. */
  method AddElementNames(ignored: set<string>, elements: seq<ImportSpecifier>) returns (r: set<string>)
    ensures r == ignored + ElementNames(elements)
  {
    r := ignored;
    for j := 0 to |elements|
      invariant r == ignored + ElementNames(elements[..j])
    {
      ElementNamesSnoc(elements, j);
      if elements[j].propertyName.Some? {
        r := r + {elements[j].propertyName.value};
      } else {
        r := r + {elements[j].name};
      }
    }
    assert elements[..|elements|] == elements;
  }

  lemma IgnoredSnoc(sts: seq<Statement>, i: int)
    requires 0 <= i < |sts|
    ensures Ignored(sts[..i + 1]) == Ignored(sts[..i]) + ElementNames(NamedElements(sts[i]))
  {
    assert sts[..i + 1][..i] == sts[..i];
  }

  lemma ElementNamesSnoc(es: seq<ImportSpecifier>, j: int)
    requires 0 <= j < |es|
    ensures ElementNames(es[..j + 1]) == ElementNames(es[..j]) + {ImportedName(es[j])}
  {
    assert es[..j + 1][..j] == es[..j];
  }

  /** The `switch` of pass 2 for one statement. */
  method PushStatement(exportsData: LinesData, ignored: set<string>, kinds: SyntaxKinds, statement: Statement)
    returns (r: Result<LinesData>)
    ensures r == Apply(exportsData, StatementPushes(statement, ignored, kinds))
  {
    if !IsExported(statement) {
      return Ok(exportsData);
    }
    match statement.node
    case NamedDeclaration(_, name) =>
      if name.None? {
        return Err(ReadOfUndefined("escapedText"));
      }
      assert StatementPushes(statement, ignored, kinds) == Ok(Push(Name(name.value.escapedText), statement, ignored));
      var m := PushOne(exportsData, ignored, Name(name.value.escapedText), statement);
      r := Ok(m);
    case TypeAliasDeclaration(aliasName, _) =>
      assert StatementPushes(statement, ignored, kinds) == Ok(Push(Name(aliasName.escapedText), statement, ignored));
      var m := PushOne(exportsData, ignored, Name(aliasName.escapedText), statement);
      r := Ok(m);
    case VariableStatement(declarations) =>
      assert StatementPushes(statement, ignored, kinds) == Ok(DeclaratorPushes(declarations, statement, ignored));
      var m := PushDeclarators(exportsData, ignored, declarations, statement);
      r := Ok(m);
    case ExportDeclaration(clause, moduleSpecifier) =>
      if clause.Some? && clause.value.NamedExports? && moduleSpecifier.None? {
        assert StatementPushes(statement, ignored, kinds) == Ok(ElementPushes(clause.value.elements, statement, ignored));
        var m := PushElements(exportsData, ignored, clause.value.elements, statement);
        r := Ok(m);
      } else {
        assert StatementPushes(statement, ignored, kinds) == Ok([]);
        r := Ok(exportsData);
      }
    case ImportDeclaration(_, _) =>
      r := Err(UnsupportedStatementKind(KindName("ImportDeclaration")));
    case OtherStatement(k) =>
      var name := GetNodeName(kinds, k);
      assert StatementPushes(statement, ignored, kinds) == Err(UnsupportedStatementKind(name));
      r := Err(UnsupportedStatementKind(name));
  }

  method PushDeclarators(exportsData: LinesData, ignored: set<string>, declarations: seq<VariableDeclaration>, statement: Statement)
    returns (r: LinesData)
    ensures r == SetAll(exportsData, DeclaratorPushes(declarations, statement, ignored))
  {
    r := exportsData;
    for j := 0 to |declarations|
      invariant r == SetAll(exportsData, DeclaratorPushes(declarations[..j], statement, ignored))
    {
      assert declarations[..j + 1][..j] == declarations[..j];
      assert DeclaratorPushes(declarations[..j + 1], statement, ignored)
        == DeclaratorPushes(declarations[..j], statement, ignored) + Push(DeclaratorKey(declarations[j]), statement, ignored);
      r := PushOne(r, ignored, DeclaratorKey(declarations[j]), statement);
      SetAllAppend(exportsData, DeclaratorPushes(declarations[..j], statement, ignored), Push(DeclaratorKey(declarations[j]), statement, ignored));
    }
    assert declarations[..|declarations|] == declarations;
  }

  method PushElements(exportsData: LinesData, ignored: set<string>, elements: seq<ExportSpecifier>, statement: Statement)
    returns (r: LinesData)
    ensures r == SetAll(exportsData, ElementPushes(elements, statement, ignored))
  {
    r := exportsData;
    for j := 0 to |elements|
      invariant r == SetAll(exportsData, ElementPushes(elements[..j], statement, ignored))
    {
      assert elements[..j + 1][..j] == elements[..j];
      assert ElementPushes(elements[..j + 1], statement, ignored)
        == ElementPushes(elements[..j], statement, ignored) + Push(Name(elements[j].name), statement, ignored);
      r := PushOne(r, ignored, Name(elements[j].name), statement);
      SetAllAppend(exportsData, ElementPushes(elements[..j], statement, ignored), Push(Name(elements[j].name), statement, ignored));
    }
    assert elements[..|elements|] == elements;
  }

  /** When nothing throws: distinct names in order of first push, each with
      the line of its last push. */
  lemma ExportsMeaning(sts: seq<Statement>, kinds: SyntaxKinds)
    requires Exports(sts, kinds).Ok?
    ensures DistinctKeys(Exports(sts, kinds).value)
    ensures Keys(Exports(sts, kinds).value) == Dedup(Keys(AllPushes(sts, kinds).value))
    ensures forall k :: Get(Exports(sts, kinds).value, k) == LastValue(AllPushes(sts, kinds).value, k)
  {
    SetAllFromEmpty(AllPushes(sts, kinds).value);
  }

  /** `parseTs` throws exactly when an exported statement throws, with the
      error of the first one. */
  lemma ExportsError(sts: seq<Statement>, kinds: SyntaxKinds)
    ensures Exports(sts, kinds).Err? <==>
      exists i :: 0 <= i < |sts| && StatementPushes(sts[i], Ignored(sts), kinds).Err?
    ensures Exports(sts, kinds).Err? ==>
      exists i :: 0 <= i < |sts| && StatementPushes(sts[i], Ignored(sts), kinds) == Err(Exports(sts, kinds).error)
        && (forall j :: 0 <= j < i ==> StatementPushes(sts[j], Ignored(sts), kinds).Ok?)
  {
    CollectError(sts, OfStatement(Ignored(sts), kinds));
  }

  /** A name any `import { … }` of the file brings in — before or after the
      export — is never in the result. */
  lemma ImportedNamesNeverExported(sts: seq<Statement>, kinds: SyntaxKinds, i: int, n: string)
    requires 0 <= i < |sts| && SetsAside(sts[i], n)
    requires Exports(sts, kinds).Ok?
    ensures Name(n) !in Keys(Exports(sts, kinds).value)
  {
    var all := AllPushes(sts, kinds).value;
    var ignored := Ignored(sts);
    assert n in ignored;
    forall y | y in all ensures y.0 != Name(n) {
      NotPushed(sts, kinds, y, n);
    }
    SetAllFromEmpty(all);
    AppendNewMembers([], Keys(all), Name(n));
  }

  lemma NotPushed(sts: seq<Statement>, kinds: SyntaxKinds, y: (Key, LineData), n: string)
    requires AllPushes(sts, kinds).Ok? && y in AllPushes(sts, kinds).value
    requires n in Ignored(sts)
    ensures y.0 != Name(n)
  {
    var f := OfStatement(Ignored(sts), kinds);
    CollectMembers(sts, f, y);
    var s :| 0 <= s < |sts| && f(sts[s]).Ok? && y in f(sts[s]).value;
    var ps := StatementPushes(sts[s], Ignored(sts), kinds).value;
    assert f(sts[s]).value == ps;
    var t :| 0 <= t < |ps| && ps[t] == y;
    assert !IsIgnored(ps[t].0, Ignored(sts));
  }

  /** An exported named declaration or type alias pushes its name at the
      statement's line, counted from 1, unless an import sets it aside. */
  lemma ExportedDeclarationForms(k: DeclarationKind, id: Identifier, t: TypeNode, isPrivate: bool, line: nat, ignored: set<string>, kinds: SyntaxKinds)
    ensures StatementPushes(Statement(NamedDeclaration(k, Some(id)), true, isPrivate, line), ignored, kinds)
      == Ok(if id.escapedText in ignored then [] else [(Name(id.escapedText), LineData(line + 1))])
    ensures StatementPushes(Statement(TypeAliasDeclaration(id, t), true, isPrivate, line), ignored, kinds)
      == Ok(if id.escapedText in ignored then [] else [(Name(id.escapedText), LineData(line + 1))])
  {
  }

  /** An exported variable statement pushes the key of every declarator in
      order, each at the statement's line, leaving out ignored names. */
  lemma ExportedVariableForms(ds: seq<VariableDeclaration>, isPrivate: bool, line: nat, ignored: set<string>, kinds: SyntaxKinds, p: (Key, LineData))
    ensures StatementPushes(Statement(VariableStatement(ds), true, isPrivate, line), ignored, kinds).Ok?
    ensures p in StatementPushes(Statement(VariableStatement(ds), true, isPrivate, line), ignored, kinds).value <==>
      exists i :: 0 <= i < |ds| && !IsIgnored(DeclaratorKey(ds[i]), ignored) && p == (DeclaratorKey(ds[i]), LineData(line + 1))
  {
    DeclaratorPushesMembers(ds, Statement(VariableStatement(ds), true, isPrivate, line), ignored, p);
  }

  /** `export { … }` without a module specifier pushes the name of every
      element at the statement's line, leaving out ignored names; with a
      module specifier, or as `export *`, it pushes nothing. */
  lemma ExportDeclarationForms(es: seq<ExportSpecifier>, c: Option<ExportClause>, s: string, m: bool, isPrivate: bool, line: nat, ignored: set<string>, kinds: SyntaxKinds, p: (Key, LineData))
    ensures StatementPushes(Statement(ExportDeclaration(Some(NamedExports(es)), None), m, isPrivate, line), ignored, kinds).Ok?
    ensures p in StatementPushes(Statement(ExportDeclaration(Some(NamedExports(es)), None), m, isPrivate, line), ignored, kinds).value <==>
      exists i :: 0 <= i < |es| && !IsIgnored(Name(es[i].name), ignored) && p == (Name(es[i].name), LineData(line + 1))
    ensures StatementPushes(Statement(ExportDeclaration(c, Some(s)), m, isPrivate, line), ignored, kinds) == Ok([])
    ensures StatementPushes(Statement(ExportDeclaration(None, None), m, isPrivate, line), ignored, kinds) == Ok([])
  {
    ElementPushesMembers(es, Statement(ExportDeclaration(Some(NamedExports(es)), None), m, isPrivate, line), ignored, p);
  }

  /** Statements that record nothing, and destructuring, which records
      `undefined`. */
  lemma SilentForms(es: seq<ExportSpecifier>, s: string, line: nat, isPrivate: bool, kinds: SyntaxKinds)
    ensures StatementPushes(Statement(ExportDeclaration(Some(NamedExports(es)), Some(s)), false, isPrivate, line), {}, kinds) == Ok([])
    ensures StatementPushes(Statement(ExportDeclaration(None, Some(s)), false, isPrivate, line), {}, kinds) == Ok([])
    ensures StatementPushes(Statement(VariableStatement([VariableDeclaration(BindingPattern, 0)]), true, isPrivate, line), {}, kinds)
      == Ok([(Undefined, LineData(line + 1))])
  {
    var st := Statement(VariableStatement([VariableDeclaration(BindingPattern, 0)]), true, isPrivate, line);
    var ds := [VariableDeclaration(BindingPattern, 0)];
    assert ds[..0] == [];
    assert DeclaratorKey(ds[0]) == Undefined;
    assert Push(Undefined, st, {}) == [(Undefined, LineData(line + 1))];
    assert DeclaratorPushes(ds, st, {}) == DeclaratorPushes([], st, {}) + Push(Undefined, st, {});
    assert DeclaratorPushes(ds, st, {}) == [(Undefined, LineData(line + 1))];
    assert IsExported(st);
    assert st.node == VariableStatement(ds);
    assert StatementPushes(st, {}, kinds) == Ok(DeclaratorPushes(ds, st, {}));
  }

  /** A declaration without a name (`export default class {}`) throws. */
  lemma NamelessDeclarationThrows(k: DeclarationKind, line: nat, isPrivate: bool, kinds: SyntaxKinds)
    ensures StatementPushes(Statement(NamedDeclaration(k, None), true, isPrivate, line), {}, kinds)
      == Err(ReadOfUndefined("escapedText"))
  {
  }

  lemma NamelessDeclarationMessage()
    ensures Message(ReadOfUndefined("escapedText")) == "Cannot read properties of undefined (reading 'escapedText')"
  {
  }

  /** An exported statement of any other kind throws with the kind's name. */
  lemma OtherKindThrows(line: nat, isPrivate: bool, kinds: SyntaxKinds, kind: int)
    ensures StatementPushes(Statement(OtherStatement(kind), true, isPrivate, line), {}, kinds)
      == Err(UnsupportedStatementKind(NodeNameOf(kinds, kind)))
  {
  }

  lemma OtherKindName()
    ensures NodeNameOf([("ModuleDeclaration", 267)], 267) == KindName("ModuleDeclaration")
  {
  }

  lemma OtherKindMessage()
    ensures Message(UnsupportedStatementKind(KindName("ModuleDeclaration"))) == "statement of kind ModuleDeclaration isn't supported"
  {
  }
}
