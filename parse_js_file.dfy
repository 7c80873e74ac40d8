/** `parseJsFile` (src/parsers/parse-js-file.js): the exports table and the
    import list of one JavaScript (Flow) module parsed by Babel. */
module ParseJsFile {
  import opened Base
  import opened OrderedMap
  import opened Data
  import opened Strings
  import opened BabelAst
  import Check

  type Records = seq<(Key, ExportData)>

  /** Whether some comment contains `@private`. */
  function AnyPrivate(cs: seq<string>): (r: bool)
    ensures r <==> exists i :: 0 <= i < |cs| && Contains(cs[i], "@private")
  {
    if cs == [] then false
    else
      assert forall i :: 1 <= i < |cs| ==> cs[1..][i - 1] == cs[i];
      Contains(cs[0], "@private") || AnyPrivate(cs[1..])
  }

  /** `hasPrivateJsDoc`: the statement carries comments and one of them
      contains `@private` somewhere — not necessarily as a JSDoc tag. */
  function HasPrivateJsDoc(comments: Option<seq<string>>): (r: bool)
    ensures r <==> comments.Some? && exists i, j :: 0 <= i < |comments.value| && OccursAt(comments.value[i], "@private", j)
  {
    if comments.None? then false
    else
      var cs := comments.value;
      forall i | 0 <= i < |cs| ensures Contains(cs[i], "@private") <==> exists j :: OccursAt(cs[i], "@private", j) {
        ContainsIff(cs[i], "@private");
      }
      AnyPrivate(cs)
  }

  /** One `push(val, node, isPrivate)`: throws when the node has no location,
      otherwise sets `val` to the node's start line. */
  function Record(val: Key, loc: Option<nat>, isPrivate: bool): (r: Result<Records>)
    ensures r.Err? <==> loc.None?
    ensures r.Err? ==> r.error == NodeHasNoLocation
    ensures r.Ok? ==> r.value == [(val, ExportData(loc.value, isPrivate))]
  {
    if loc.None? then Err(NodeHasNoLocation) else Ok([(val, ExportData(loc.value, isPrivate))])
  }

  /** Every record carries the same `isPrivate`. */
  ghost predicate UniformRecords(ps: Records, isPrivate: bool) {
    forall i :: 0 <= i < |ps| ==> ps[i].1.isPrivate == isPrivate
  }

  lemma {:induction false} CollectUniform<T>(xs: seq<T>, f: T -> Result<Records>, isPrivate: bool)
    requires forall i :: 0 <= i < |xs| ==> f(xs[i]).Ok? ==> UniformRecords(f(xs[i]).value, isPrivate)
    ensures Collect(xs, f).Ok? ==> UniformRecords(Collect(xs, f).value, isPrivate)
  {
    if xs != [] {
      var init := xs[..|xs| - 1];
      assert forall i :: 0 <= i < |init| ==> init[i] == xs[i];
      CollectUniform(init, f, isPrivate);
    }
  }

  /** A variable declarator: an identifier is recorded under its name at the
      declarator's start line, which must exist; a pattern records nothing. */
  function DeclaratorRecord(d: VariableDeclarator, isPrivate: bool): (r: Result<Records>)
    ensures r.Err? <==> d.id.IdentifierPattern? && d.loc.None?
    ensures r.Err? ==> r.error == NodeHasNoLocation
    ensures r.Ok? ==> r.value == if d.id.IdentifierPattern? then [(Name(d.id.name), ExportData(d.loc.value, isPrivate))] else []
    ensures r.Ok? ==> UniformRecords(r.value, isPrivate)
  {
    if d.id.IdentifierPattern? then Record(Name(d.id.name), d.loc, isPrivate) else Ok([])
  }

  function OfDeclarator(isPrivate: bool): VariableDeclarator -> Result<Records> {
    d => DeclaratorRecord(d, isPrivate)
  }

  /** A specifier of `export { … }`: skipped after `from`, recorded under the
      exported name at its own line otherwise; the other specifier kinds throw. */
  function SpecifierRecord(sp: ExportSpecifierNode, source: Option<string>, isPrivate: bool): (r: Result<Records>)
    ensures r.Ok? ==> UniformRecords(r.value, isPrivate)
  {
    match sp
    case ExportSpecifier(_, exported) =>
      if source.Some? then Ok([]) else Record(NameKey(exported), exported.loc, isPrivate)
    case ExportDefaultSpecifier(_) => Err(TodoSpecifier("ExportDefaultSpecifier"))
    case ExportNamespaceSpecifier(_) => Err(TodoSpecifier("ExportNamespaceSpecifier"))
  }

  function OfSpecifier(source: Option<string>, isPrivate: bool): ExportSpecifierNode -> Result<Records> {
    sp => SpecifierRecord(sp, source, isPrivate)
  }

  /** The `push` calls for the declaration after `export` / `export default`. */
  function DeclarationRecords(d: Declaration, isPrivate: bool): (r: Result<Records>)
    ensures r.Ok? ==> UniformRecords(r.value, isPrivate)
  {
    match d
    case VariableDeclaration(ds) =>
      CollectUniform(ds, OfDeclarator(isPrivate), isPrivate);
      Collect(ds, OfDeclarator(isPrivate))
    case FunctionDeclaration(id, loc) => if id.None? then Ok([]) else Record(Name(id.value), loc, isPrivate)
    case ClassDeclaration(id, loc) => if id.None? then Err(ReadOfNull("name")) else Record(Name(id.value), loc, isPrivate)
    case TypeAlias(id, loc) => Record(Name(id), loc, isPrivate)
    case InterfaceDeclaration(id, loc) => Record(Name(id), loc, isPrivate)
    case OtherDeclaration(t, _) => Err(UnsupportedNodeType(t))
  }

  /** The `push` calls one top-level statement makes: only named and default
      export declarations are examined. */
  function StatementRecords(st: Statement): (r: Result<Records>)
    ensures !(st.ExportNamedDeclaration? || st.ExportDefaultDeclaration?) ==> r == Ok([])
    ensures (st.ExportNamedDeclaration? || st.ExportDefaultDeclaration?) && r.Ok? ==>
      UniformRecords(r.value, HasPrivateJsDoc(st.leadingComments))
  {
    match st
    case ExportNamedDeclaration(declaration, specifiers, source, comments) =>
      var isPrivate := HasPrivateJsDoc(comments);
      if declaration.None? then
        CollectUniform(specifiers, OfSpecifier(source, isPrivate), isPrivate);
        Collect(specifiers, OfSpecifier(source, isPrivate))
      else DeclarationRecords(declaration.value, isPrivate)
    case ExportDefaultDeclaration(declaration, comments) =>
      DeclarationRecords(declaration, HasPrivateJsDoc(comments))
    case _ => Ok([])
  }

  /** The `push` calls of the whole file, or the first error thrown. */
  function AllRecords(sts: seq<Statement>): Result<Records> {
    Collect(sts, StatementRecords)
  }

  /** What `extractExports` returns or throws. */
  function Exports(sts: seq<Statement>): Result<ExportsData> {
    Apply([], AllRecords(sts))
  }

  /** The import of one specifier; a namespace import gives none. */
  function SpecifierImports(fileDirname: string, from: string, sp: ImportSpecifierNode): seq<ImportData> {
    match sp
    case ImportDefaultSpecifier(local) => [ImportData(fileDirname, from, true, false, local)]
    case ImportSpecifier(imported, local) => [ImportData(fileDirname, from, false, NameKey(imported) != Name(local), local)]
    case ImportNamespaceSpecifier(_) => []
  }

  function AllSpecifierImports(fileDirname: string, from: string, sps: seq<ImportSpecifierNode>): seq<ImportData> {
    if sps == [] then []
    else AllSpecifierImports(fileDirname, from, sps[..|sps| - 1]) + SpecifierImports(fileDirname, from, sps[|sps| - 1])
  }

  function StatementImports(fileDirname: string, st: Statement): seq<ImportData> {
    if st.ImportDeclaration? then AllSpecifierImports(fileDirname, st.importSource, st.importSpecifiers) else []
  }

  /** The list `extractImports` returns. */
  function Imports(fileDirname: string, sts: seq<Statement>): seq<ImportData> {
    if sts == [] then []
    else Imports(fileDirname, sts[..|sts| - 1]) + StatementImports(fileDirname, sts[|sts| - 1])
  }

  /** One more import specifier appends its import. */
  lemma AllSpecifierImportsSnoc(fileDirname: string, from: string, sps: seq<ImportSpecifierNode>, sp: ImportSpecifierNode)
    ensures AllSpecifierImports(fileDirname, from, sps + [sp]) == AllSpecifierImports(fileDirname, from, sps) + SpecifierImports(fileDirname, from, sp)
  {
    assert (sps + [sp])[..|sps|] == sps;
  }

  /** One more statement appends its imports. */
  lemma ImportsSnoc(fileDirname: string, sts: seq<Statement>, st: Statement)
    ensures Imports(fileDirname, sts + [st]) == Imports(fileDirname, sts) + StatementImports(fileDirname, st)
  {
    assert (sts + [st])[..|sts|] == sts;
  }

  /** What `parseJsFile` returns or throws for a parsed file in `fileDirname`:
      the exports are extracted first, so their error wins. */
  function Parsed(fileDirname: string, sts: seq<Statement>): Result<ParseFileReturn> {
    var exports :- Exports(sts);
    Ok(ParseFileReturn(exports, Imports(fileDirname, sts)))
  }

  /** The `push` closure. */
  method Push(exports: ExportsData, val: Key, loc: Option<nat>, isPrivate: bool) returns (r: Result<ExportsData>)
    ensures r == Apply(exports, Record(val, loc, isPrivate))
  {
    if loc.None? {
      return Err(NodeHasNoLocation);
    }
    r := Ok(Set(exports, val, ExportData(loc.value, isPrivate)));
    SetAllSingle(exports, (val, ExportData(loc.value, isPrivate)));
  }

  /** `extractExports`. */
  method ExtractExports(body: seq<Statement>) returns (r: Result<ExportsData>)
    ensures r == Exports(body)
  {
    var exports: ExportsData := [];
    for i := 0 to |body|
      invariant AllRecords(body[..i]).Ok?
      invariant exports == SetAll([], AllRecords(body[..i]).value)
    {
      assert body[..i + 1][..i] == body[..i];
      var step := PushStatement(exports, body[i]);
      if step.Err? {
        CollectPrefixError(body, StatementRecords, i + 1);
        return Err(step.error);
      }
      SetAllAppend([], AllRecords(body[..i]).value, StatementRecords(body[i]).value);
      exports := step.value;
    }
    assert body[..|body|] == body;
    return Ok(exports);
  }

  /** The body of `extractExports`' loop for one statement. */
  method PushStatement(exports: ExportsData, node: Statement) returns (r: Result<ExportsData>)
    ensures r == Apply(exports, StatementRecords(node))
  {
    if !node.ExportNamedDeclaration? && !node.ExportDefaultDeclaration? {
      return Ok(exports);
    }
    var declaration := if node.ExportNamedDeclaration? then node.declaration else Some(node.defaultDeclaration);
    var isPrivate := HasPrivateJsDoc(node.leadingComments);
    if declaration.None? {
      r := PushSpecifiers(exports, node.specifiers, node.source, isPrivate);
    } else {
      r := PushDeclaration(exports, declaration.value, isPrivate);
    }
  }

  /** The loop over the specifiers of `export { … }`. */
  method PushSpecifiers(exports: ExportsData, specifiers: seq<ExportSpecifierNode>, source: Option<string>, isPrivate: bool)
    returns (r: Result<ExportsData>)
    ensures r == Apply(exports, Collect(specifiers, OfSpecifier(source, isPrivate)))
  {
    var f := OfSpecifier(source, isPrivate);
    var current := exports;
    for j := 0 to |specifiers|
      invariant Collect(specifiers[..j], f).Ok?
      invariant current == SetAll(exports, Collect(specifiers[..j], f).value)
    {
      var specifier := specifiers[j];
      assert specifiers[..j + 1][..j] == specifiers[..j];
      var step: Result<ExportsData>;
      if specifier.ExportSpecifier? {
        if source.Some? {
          step := Ok(current);
        } else {
          step := Push(current, NameKey(specifier.exported), specifier.exported.loc, isPrivate);
        }
      } else if specifier.ExportDefaultSpecifier? {
        step := Err(TodoSpecifier("ExportDefaultSpecifier"));
      } else {
        step := Err(TodoSpecifier("ExportNamespaceSpecifier"));
      }
      assert step == Apply(current, f(specifier));
      if step.Err? {
        CollectPrefixError(specifiers, f, j + 1);
        return Err(step.error);
      }
      SetAllAppend(exports, Collect(specifiers[..j], f).value, f(specifier).value);
      current := step.value;
    }
    assert specifiers[..|specifiers|] == specifiers;
    return Ok(current);
  }

  /** The branches on the declaration after `export` / `export default`. */
  method PushDeclaration(exports: ExportsData, declaration: Declaration, isPrivate: bool) returns (r: Result<ExportsData>)
    ensures r == Apply(exports, DeclarationRecords(declaration, isPrivate))
  {
    match declaration
    case VariableDeclaration(declarations) =>
      r := PushDeclarators(exports, declarations, isPrivate);
    case FunctionDeclaration(id, loc) =>
      if id.Some? {
        r := Push(exports, Name(id.value), loc, isPrivate);
      } else {
        r := Ok(exports);
      }
    case ClassDeclaration(id, loc) =>
      if id.None? {
        return Err(ReadOfNull("name"));
      }
      r := Push(exports, Name(id.value), loc, isPrivate);
    case TypeAlias(id, loc) =>
      r := Push(exports, Name(id), loc, isPrivate);
    case InterfaceDeclaration(id, loc) =>
      r := Push(exports, Name(id), loc, isPrivate);
    case OtherDeclaration(t, _) =>
      r := Err(UnsupportedNodeType(t));
  }

  /** The `forEach` over a variable declaration's declarators. */
  method PushDeclarators(exports: ExportsData, declarations: seq<VariableDeclarator>, isPrivate: bool) returns (r: Result<ExportsData>)
    ensures r == Apply(exports, Collect(declarations, OfDeclarator(isPrivate)))
  {
    var f := OfDeclarator(isPrivate);
    var current := exports;
    for j := 0 to |declarations|
      invariant Collect(declarations[..j], f).Ok?
      invariant current == SetAll(exports, Collect(declarations[..j], f).value)
    {
      var declaration := declarations[j];
      assert declarations[..j + 1][..j] == declarations[..j];
      var step: Result<ExportsData>;
      if declaration.id.IdentifierPattern? {
        step := Push(current, Name(declaration.id.name), declaration.loc, isPrivate);
      } else {
        step := Ok(current);
      }
      assert step == Apply(current, f(declaration));
      if step.Err? {
        CollectPrefixError(declarations, f, j + 1);
        return Err(step.error);
      }
      SetAllAppend(exports, Collect(declarations[..j], f).value, f(declaration).value);
      current := step.value;
    }
    assert declarations[..|declarations|] == declarations;
    return Ok(current);
  }

  /** `extractImports`. */
  method ExtractImports(fileDirname: string, body: seq<Statement>) returns (imports: seq<ImportData>)
    ensures imports == Imports(fileDirname, body)
  {
    imports := [];
    for i := 0 to |body|
      invariant imports == Imports(fileDirname, body[..i])
    {
      var statement := body[i];
      assert body[..i + 1] == body[..i] + [statement];
      ImportsSnoc(fileDirname, body[..i], statement);
      if !statement.ImportDeclaration? {
        continue;
      }
      imports := PushSpecifierImports(imports, fileDirname, statement.importSource, statement.importSpecifiers);
    }
    assert body[..|body|] == body;
  }

  /** The loop over one import declaration's specifiers. */
  method PushSpecifierImports(imports: seq<ImportData>, fileDirname: string, from: string, specifiers: seq<ImportSpecifierNode>)
    returns (r: seq<ImportData>)
    ensures r == imports + AllSpecifierImports(fileDirname, from, specifiers)
  {
    r := imports;
    for j := 0 to |specifiers|
      invariant r == imports + AllSpecifierImports(fileDirname, from, specifiers[..j])
    {
      var specifier := specifiers[j];
      assert specifiers[..j + 1] == specifiers[..j] + [specifier];
      AllSpecifierImportsSnoc(fileDirname, from, specifiers[..j], specifier);
      match specifier
      case ImportDefaultSpecifier(local) =>
        r := r + [ImportData(fileDirname, from, true, false, local)];
      case ImportSpecifier(imported, local) =>
        r := r + [ImportData(fileDirname, from, false, NameKey(imported) != Name(local), local)];
      case ImportNamespaceSpecifier(_) =>
    }
    assert specifiers[..|specifiers|] == specifiers;
  }

  /** `parseJsFile`, once the file is parsed. */
  method ParseJsFile(fileDirname: string, body: seq<Statement>) returns (r: Result<ParseFileReturn>)
    ensures r == Parsed(fileDirname, body)
  {
    var exports := ExtractExports(body);
    if exports.Err? {
      return Err(exports.error);
    }
    var imports := ExtractImports(fileDirname, body);
    return Ok(ParseFileReturn(exports.value, imports));
  }

  /** The map `extractExports` returns when nothing throws: distinct names,
      in the order first recorded, each with its last record. */
  lemma ExportsMeaning(sts: seq<Statement>)
    requires Exports(sts).Ok?
    ensures DistinctKeys(Exports(sts).value)
    ensures Keys(Exports(sts).value) == Dedup(Keys(AllRecords(sts).value))
    ensures forall k :: Get(Exports(sts).value, k) == LastValue(AllRecords(sts).value, k)
  {
    SetAllFromEmpty(AllRecords(sts).value);
  }

  /** `extractExports` throws exactly when some statement throws, and then
      with the error of the first such statement. */
  lemma ExportsError(sts: seq<Statement>)
    ensures Exports(sts).Err? <==> exists i :: 0 <= i < |sts| && StatementRecords(sts[i]).Err?
    ensures Exports(sts).Err? ==>
      exists i :: 0 <= i < |sts| && StatementRecords(sts[i]) == Err(Exports(sts).error)
        && (forall j :: 0 <= j < i ==> StatementRecords(sts[j]).Ok?)
  {
    CollectError(sts, StatementRecords);
  }

  /** A named function, class, type alias or interface is recorded under
      its id at the declaration's start line, and throws when the
      declaration has no location; a nameless function records nothing, a
      nameless class throws reading `name`, any other node type throws. */
  lemma DeclarationForms(id: string, loc: Option<nat>, isPrivate: bool, t: string)
    ensures DeclarationRecords(FunctionDeclaration(Some(id), loc), isPrivate) == Record(Name(id), loc, isPrivate)
    ensures DeclarationRecords(ClassDeclaration(Some(id), loc), isPrivate) == Record(Name(id), loc, isPrivate)
    ensures DeclarationRecords(TypeAlias(id, loc), isPrivate) == Record(Name(id), loc, isPrivate)
    ensures DeclarationRecords(InterfaceDeclaration(id, loc), isPrivate) == Record(Name(id), loc, isPrivate)
    ensures DeclarationRecords(FunctionDeclaration(None, loc), isPrivate) == Ok([])
    ensures DeclarationRecords(ClassDeclaration(None, loc), isPrivate) == Err(ReadOfNull("name"))
    ensures DeclarationRecords(OtherDeclaration(t, loc), isPrivate) == Err(UnsupportedNodeType(t))
  {
  }

  /** `export const …, …`: throws exactly when an identifier declarator has
      no location, with "Node has no location"; otherwise records exactly the
      identifier declarators, each under its name at its start line. */
  lemma VariableDeclarationForms(ds: seq<VariableDeclarator>, isPrivate: bool, p: (Key, ExportData))
    ensures DeclarationRecords(VariableDeclaration(ds), isPrivate).Err? <==>
      exists i :: 0 <= i < |ds| && ds[i].id.IdentifierPattern? && ds[i].loc.None?
    ensures DeclarationRecords(VariableDeclaration(ds), isPrivate).Err? ==>
      DeclarationRecords(VariableDeclaration(ds), isPrivate).error == NodeHasNoLocation
    ensures DeclarationRecords(VariableDeclaration(ds), isPrivate).Ok? ==>
      (p in DeclarationRecords(VariableDeclaration(ds), isPrivate).value <==>
        exists i :: 0 <= i < |ds| && ds[i].id.IdentifierPattern? && ds[i].loc.Some?
          && p == (Name(ds[i].id.name), ExportData(ds[i].loc.value, isPrivate)))
  {
    var f := OfDeclarator(isPrivate);
    assert forall i :: 0 <= i < |ds| ==> f(ds[i]) == DeclaratorRecord(ds[i], isPrivate);
    CollectError(ds, f);
    if Collect(ds, f).Ok? {
      CollectMembers(ds, f, p);
    }
  }

  /** The declarators of one statement are visited in order. */
  lemma VariableDeclarationOrder(a: seq<VariableDeclarator>, b: seq<VariableDeclarator>, isPrivate: bool)
    requires DeclarationRecords(VariableDeclaration(a), isPrivate).Ok? && DeclarationRecords(VariableDeclaration(b), isPrivate).Ok?
    ensures DeclarationRecords(VariableDeclaration(a + b), isPrivate)
      == Ok(DeclarationRecords(VariableDeclaration(a), isPrivate).value + DeclarationRecords(VariableDeclaration(b), isPrivate).value)
  {
    CollectAppend(a, b, OfDeclarator(isPrivate));
  }

  /** Statements that record nothing: `export * from`, re-exports with
      `from`, anonymous default functions. */
  lemma SilentForms(a: ModuleExportName, b: ModuleExportName, s: string, loc: Option<nat>, comments: Option<seq<string>>)
    ensures StatementRecords(ExportAllDeclaration(s)) == Ok([])
    ensures StatementRecords(ExportNamedDeclaration(None, [ExportSpecifier(a, b)], Some(s), comments)) == Ok([])
    ensures StatementRecords(ExportDefaultDeclaration(FunctionDeclaration(None, loc), comments)) == Ok([])
  {
    CollectSingle(ExportSpecifier(a, b), OfSpecifier(Some(s), HasPrivateJsDoc(comments)));
  }

  /** `export { local as exported }` without `from` records the exported
      name at the exported node's line; a string-literal name is recorded
      under `undefined`. */
  lemma SpecifierForm(local: ModuleExportName, exported: ModuleExportName, comments: Option<seq<string>>)
    requires exported.loc.Some?
    ensures StatementRecords(ExportNamedDeclaration(None, [ExportSpecifier(local, exported)], None, comments))
      == Ok([(NameKey(exported), ExportData(exported.loc.value, HasPrivateJsDoc(comments)))])
  {
    CollectSingle(ExportSpecifier(local, exported), OfSpecifier(None, HasPrivateJsDoc(comments)));
  }

  /** The forms that throw: the two proposal specifiers (with or without
      `from`), a class without a name, any other declaration type, and a
      node without location. */
  lemma ThrowingForms(e: ModuleExportName, source: Option<string>, comments: Option<seq<string>>, loc: Option<nat>, t: string)
    ensures StatementRecords(ExportNamedDeclaration(None, [ExportDefaultSpecifier(e)], source, comments))
      == Err(TodoSpecifier("ExportDefaultSpecifier"))
    ensures StatementRecords(ExportNamedDeclaration(None, [ExportNamespaceSpecifier(e)], source, comments))
      == Err(TodoSpecifier("ExportNamespaceSpecifier"))
    ensures StatementRecords(ExportDefaultDeclaration(ClassDeclaration(None, loc), comments)) == Err(ReadOfNull("name"))
    ensures StatementRecords(ExportDefaultDeclaration(OtherDeclaration(t, loc), comments)) == Err(UnsupportedNodeType(t))
    ensures StatementRecords(ExportNamedDeclaration(Some(FunctionDeclaration(Some("f"), None)), [], None, comments))
      == Err(NodeHasNoLocation)
  {
    CollectSingle(ExportDefaultSpecifier(e), OfSpecifier(source, HasPrivateJsDoc(comments)));
    CollectSingle(ExportNamespaceSpecifier(e), OfSpecifier(source, HasPrivateJsDoc(comments)));
  }

  /** `import { n }` or `import { n as n }`: the identifier `n` imported under
      its own name. */
  ghost predicate PlainSpecifier(sp: ImportSpecifierNode, n: string) {
    sp.ImportSpecifier? && sp.local == n && NameKey(sp.imported) == Name(n)
  }

  /** An import statement with such a specifier. */
  ghost predicate PlainlyImports(st: Statement, n: string) {
    st.ImportDeclaration? && exists j :: 0 <= j < |st.importSpecifiers| && PlainSpecifier(st.importSpecifiers[j], n)
  }

  lemma SpecifierExemption(fileDirname: string, from: string, sp: ImportSpecifierNode, n: string)
    ensures n in Check.LocalImportsToIgnore(SpecifierImports(fileDirname, from, sp)) <==> PlainSpecifier(sp, n)
  {
  }

  lemma {:induction false} SpecifierExemptions(fileDirname: string, from: string, sps: seq<ImportSpecifierNode>, n: string)
    ensures n in Check.LocalImportsToIgnore(AllSpecifierImports(fileDirname, from, sps)) <==>
      exists j :: 0 <= j < |sps| && PlainSpecifier(sps[j], n)
  {
    if sps != [] {
      var init, last := sps[..|sps| - 1], sps[|sps| - 1];
      SpecifierExemptions(fileDirname, from, init, n);
      Check.LocalImportsAppend(AllSpecifierImports(fileDirname, from, init), SpecifierImports(fileDirname, from, last));
      SpecifierExemption(fileDirname, from, last, n);
      assert forall j :: 0 <= j < |init| ==> init[j] == sps[j];
      if PlainSpecifier(last, n) {
        assert PlainSpecifier(sps[|sps| - 1], n);
      }
    }
  }

  lemma StatementExemption(fileDirname: string, st: Statement, n: string)
    ensures n in Check.LocalImportsToIgnore(StatementImports(fileDirname, st)) <==> PlainlyImports(st, n)
  {
    if st.ImportDeclaration? {
      SpecifierExemptions(fileDirname, st.importSource, st.importSpecifiers, n);
    }
  }

  /** Which names a JavaScript file's imports exempt in `check`: exactly
      those some import statement imports under their own name. */
  lemma {:induction false} ExemptedNames(fileDirname: string, sts: seq<Statement>, n: string)
    ensures n in Check.LocalImportsToIgnore(Imports(fileDirname, sts)) <==> exists i :: 0 <= i < |sts| && PlainlyImports(sts[i], n)
  {
    if sts != [] {
      var init, last := sts[..|sts| - 1], sts[|sts| - 1];
      ExemptedNames(fileDirname, init, n);
      assert Imports(fileDirname, sts) == Imports(fileDirname, init) + StatementImports(fileDirname, last);
      Check.LocalImportsAppend(Imports(fileDirname, init), StatementImports(fileDirname, last));
      StatementExemption(fileDirname, last, n);
      assert forall i :: 0 <= i < |init| ==> init[i] == sts[i];
      if PlainlyImports(last, n) {
        assert PlainlyImports(sts[|sts| - 1], n);
      }
    }
  }
}
