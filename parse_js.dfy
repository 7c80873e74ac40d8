/** `parseJs` (src/parse-js.js), the first-generation JavaScript parser: a map
    from each name a named export declaration introduces to its line. It
    walks the `export … ` declarations twice: first the re-exports under a new
    name (`export { a as b }`), then the exported declarations. Default
    exports, `export *` and imports are not looked at. */
module ParseJs {
  import opened Base
  import opened OrderedMap
  import opened Data
  import opened BabelAst

  type Pushes = seq<(Key, LineData)>

  /** `push(val, node)`: the line is `node.loc.start.line`; a node without a
      location makes that read throw. */
  function Push(val: Key, loc: Option<nat>): (r: Result<Pushes>)
    ensures r.Err? <==> loc.None?
    ensures r.Err? ==> r.error == ReadOfNull("start")
    ensures r.Ok? ==> r.value == [(val, LineData(loc.value))]
  {
    if loc.None? then Err(ReadOfNull("start")) else Ok([(val, LineData(loc.value))])
  }

  /** The `{ … }` export declarations, those pass 1 walks. */
  predicate IsSpecifierExport(st: Statement) {
    st.ExportNamedDeclaration? && st.declaration.None?
  }

  /** `node.local.name !== node.exported.name`: renamed specifiers pass; the
      two proposal specifiers have no `local`, so reading its `name` throws. */
  function IsRenamed(sp: ExportSpecifierNode): (r: Result<bool>)
    ensures r.Err? <==> !sp.ExportSpecifier?
  {
    if sp.ExportSpecifier? then Ok(NameKey(sp.local) != NameKey(sp.exported))
    else Err(ReadOfUndefined("name"))
  }

  /** The `filter` over one declaration's specifiers, which runs over all of
      them before any is pushed. */
  function Renamed(sps: seq<ExportSpecifierNode>): (r: Result<seq<ModuleExportName>>)
    ensures r.Err? <==> exists j :: 0 <= j < |sps| && !sps[j].ExportSpecifier?
    ensures r.Err? ==> r.error == ReadOfUndefined("name")
  {
    if sps == [] then Ok([])
    else
      var last := sps[|sps| - 1];
      assert forall j :: 0 <= j < |sps| - 1 ==> sps[..|sps| - 1][j] == sps[j];
      var init :- Renamed(sps[..|sps| - 1]);
      var keep :- IsRenamed(last);
      Ok(if keep then init + [last.exported] else init)
  }

  /** The `switch (node.type)` of pass 1 for one exported name. */
  function ExportedPushes(e: ModuleExportName): (r: Result<Pushes>)
    ensures e.StringLiteral? ==> r == Err(UnsupportedNodeType("StringLiteral"))
  {
    match e
    case Identifier(name, loc) => Push(Name(name), loc)
    case StringLiteral(_, _) => Err(UnsupportedNodeType("StringLiteral"))
  }

  /** Pass 1 for one statement. */
  function SpecifierPushes(st: Statement): (r: Result<Pushes>)
    ensures !IsSpecifierExport(st) ==> r == Ok([])
  {
    if !IsSpecifierExport(st) then Ok([])
    else
      var exported :- Renamed(st.specifiers);
      Collect(exported, ExportedPushes)
  }

  /** The key `node.id.name` reads for a declarator: a pattern has no `name`. */
  function PatternKey(p: Pattern): (k: Key)
    ensures k.Name? <==> p.IdentifierPattern?
  {
    if p.IdentifierPattern? then Name(p.name) else Undefined
  }

  function DeclaratorPushes(d: VariableDeclarator): Result<Pushes> {
    Push(PatternKey(d.id), d.loc)
  }

  /** The `switch (node.type)` of pass 2: functions and classes without an
      `id` make `id.name` throw; other node types are refused. */
  function DeclarationPushes(d: Declaration): (r: Result<Pushes>)
    ensures d.OtherDeclaration? ==> r == Err(UnsupportedNodeType(d.nodeType))
  {
    match d
    case VariableDeclaration(ds) => Collect(ds, DeclaratorPushes)
    case FunctionDeclaration(id, loc) => if id.None? then Err(ReadOfNull("name")) else Push(Name(id.value), loc)
    case ClassDeclaration(id, loc) => if id.None? then Err(ReadOfNull("name")) else Push(Name(id.value), loc)
    case TypeAlias(id, loc) => Push(Name(id), loc)
    case InterfaceDeclaration(id, loc) => Push(Name(id), loc)
    case OtherDeclaration(t, _) => Err(UnsupportedNodeType(t))
  }

  /** Pass 2 for one statement. */
  function DeclarationStatementPushes(st: Statement): (r: Result<Pushes>)
    ensures !(st.ExportNamedDeclaration? && st.declaration.Some?) ==> r == Ok([])
  {
    if st.ExportNamedDeclaration? && st.declaration.Some? then DeclarationPushes(st.declaration.value) else Ok([])
  }

  /** What `parseJs` returns or throws: pass 1 over every statement, then
      pass 2; a pass-1 error comes first whatever the statements' order. */
  function Exports(sts: seq<Statement>): Result<LinesData> {
    var first :- Collect(sts, SpecifierPushes);
    var second :- Collect(sts, DeclarationStatementPushes);
    Ok(SetAll([], first + second))
  }

  /** The `push` closure. */
  method PushOne(exportsData: LinesData, val: Key, loc: Option<nat>) returns (r: Result<LinesData>)
    ensures r == Apply(exportsData, Push(val, loc))
  {
    if loc.None? {
      return Err(ReadOfNull("start"));
    }
    SetAllSingle(exportsData, (val, LineData(loc.value)));
    return Ok(Set(exportsData, val, LineData(loc.value)));
  }

  /** `parseJs`, once the file is parsed. */
  method ParseJs(body: seq<Statement>) returns (r: Result<LinesData>)
    ensures r == Exports(body)
  {
    var first := PassOne(body);
    if first.Err? {
      return first;
    }
    r := PassTwo(body, first.value);
    if r.Ok? {
      SetAllAppend([], Collect(body, SpecifierPushes).value, Collect(body, DeclarationStatementPushes).value);
    }
  }

  /** Pass 1: the `export { … }` declarations. */
  method PassOne(body: seq<Statement>) returns (r: Result<LinesData>)
    ensures r == Apply([], Collect(body, SpecifierPushes))
  {
    var exportsData: LinesData := [];
    for i := 0 to |body|
      invariant Collect(body[..i], SpecifierPushes).Ok?
      invariant exportsData == SetAll([], Collect(body[..i], SpecifierPushes).value)
    {
      assert body[..i + 1][..i] == body[..i];
      var step := PushSpecifiers(exportsData, body[i]);
      if step.Err? {
        CollectPrefixError(body, SpecifierPushes, i + 1);
        return Err(step.error);
      }
      SetAllAppend([], Collect(body[..i], SpecifierPushes).value, SpecifierPushes(body[i]).value);
      exportsData := step.value;
    }
    assert body[..|body|] == body;
    return Ok(exportsData);
  }

  /** The `filter` over one declaration's specifiers. */
  method FilterRenamed(specifiers: seq<ExportSpecifierNode>) returns (r: Result<seq<ModuleExportName>>)
    ensures r == Renamed(specifiers)
  {
    var kept: seq<ModuleExportName> := [];
    for j := 0 to |specifiers|
      invariant Renamed(specifiers[..j]) == Ok(kept)
    {
      assert specifiers[..j + 1][..j] == specifiers[..j];
      var specifier := specifiers[j];
      if !specifier.ExportSpecifier? {
        RenamedPrefixError(specifiers, j + 1);
        return Err(ReadOfUndefined("name"));
      }
      if NameKey(specifier.local) != NameKey(specifier.exported) {
        kept := kept + [specifier.exported];
      }
    }
    assert specifiers[..|specifiers|] == specifiers;
    return Ok(kept);
  }

  /** The filter keeps exactly the exported names of the renamed specifiers. */
  lemma {:induction false} RenamedMembers(sps: seq<ExportSpecifierNode>, e: ModuleExportName)
    requires Renamed(sps).Ok?
    ensures e in Renamed(sps).value <==>
      exists j :: 0 <= j < |sps| && sps[j].ExportSpecifier? && sps[j].exported == e && NameKey(sps[j].local) != NameKey(e)
  {
    if sps != [] {
      var init := sps[..|sps| - 1];
      RenamedMembers(init, e);
      assert forall j :: 0 <= j < |init| ==> init[j] == sps[j];
      var last := sps[|sps| - 1];
      if last.exported == e && NameKey(last.local) != NameKey(e) {
        assert sps[|sps| - 1].exported == e;
      }
    }
  }

  lemma {:induction false} RenamedPrefixError(sps: seq<ExportSpecifierNode>, j: nat)
    requires j <= |sps| && Renamed(sps[..j]).Err?
    ensures Renamed(sps) == Renamed(sps[..j])
    decreases |sps| - j
  {
    if j < |sps| {
      assert sps[..j + 1][..j] == sps[..j];
      RenamedPrefixError(sps, j + 1);
    } else {
      assert sps[..j] == sps;
    }
  }

  /** Pass 1 for one statement: the filter, then the `forEach`. */
  method PushSpecifiers(exportsData: LinesData, st: Statement) returns (r: Result<LinesData>)
    ensures r == Apply(exportsData, SpecifierPushes(st))
  {
    if !IsSpecifierExport(st) {
      return Ok(exportsData);
    }
    var exported := FilterRenamed(st.specifiers);
    if exported.Err? {
      return Err(exported.error);
    }
    var names := exported.value;
    var current := exportsData;
    for j := 0 to |names|
      invariant Collect(names[..j], ExportedPushes).Ok?
      invariant current == SetAll(exportsData, Collect(names[..j], ExportedPushes).value)
    {
      assert names[..j + 1][..j] == names[..j];
      var step: Result<LinesData>;
      match names[j] {
        case Identifier(name, loc) =>
          step := PushOne(current, Name(name), loc);
        case StringLiteral(_, _) =>
          step := Err(UnsupportedNodeType("StringLiteral"));
      }
      if step.Err? {
        CollectPrefixError(names, ExportedPushes, j + 1);
        return Err(step.error);
      }
      SetAllAppend(exportsData, Collect(names[..j], ExportedPushes).value, ExportedPushes(names[j]).value);
      current := step.value;
    }
    assert names[..|names|] == names;
    return Ok(current);
  }

  /** Pass 2: the exported declarations, into the map pass 1 left. */
  method PassTwo(body: seq<Statement>, start: LinesData) returns (r: Result<LinesData>)
    ensures r == Apply(start, Collect(body, DeclarationStatementPushes))
  {
    var exportsData := start;
    for i := 0 to |body|
      invariant Collect(body[..i], DeclarationStatementPushes).Ok?
      invariant exportsData == SetAll(start, Collect(body[..i], DeclarationStatementPushes).value)
    {
      assert body[..i + 1][..i] == body[..i];
      var step: Result<LinesData>;
      if body[i].ExportNamedDeclaration? && body[i].declaration.Some? {
        step := PushDeclaration(exportsData, body[i].declaration.value);
      } else {
        step := Ok(exportsData);
      }
      if step.Err? {
        CollectPrefixError(body, DeclarationStatementPushes, i + 1);
        return Err(step.error);
      }
      SetAllAppend(start, Collect(body[..i], DeclarationStatementPushes).value, DeclarationStatementPushes(body[i]).value);
      exportsData := step.value;
    }
    assert body[..|body|] == body;
    return Ok(exportsData);
  }

  /** The `switch` of pass 2. */
  method PushDeclaration(exportsData: LinesData, node: Declaration) returns (r: Result<LinesData>)
    ensures r == Apply(exportsData, DeclarationPushes(node))
  {
    match node
    case VariableDeclaration(declarations) =>
      var current := exportsData;
      for j := 0 to |declarations|
        invariant Collect(declarations[..j], DeclaratorPushes).Ok?
        invariant current == SetAll(exportsData, Collect(declarations[..j], DeclaratorPushes).value)
      {
        assert declarations[..j + 1][..j] == declarations[..j];
        var step := PushOne(current, PatternKey(declarations[j].id), declarations[j].loc);
        if step.Err? {
          CollectPrefixError(declarations, DeclaratorPushes, j + 1);
          return Err(step.error);
        }
        SetAllAppend(exportsData, Collect(declarations[..j], DeclaratorPushes).value, DeclaratorPushes(declarations[j]).value);
        current := step.value;
      }
      assert declarations[..|declarations|] == declarations;
      return Ok(current);
    case FunctionDeclaration(id, loc) =>
      if id.None? {
        return Err(ReadOfNull("name"));
      }
      r := PushOne(exportsData, Name(id.value), loc);
    case ClassDeclaration(id, loc) =>
      if id.None? {
        return Err(ReadOfNull("name"));
      }
      r := PushOne(exportsData, Name(id.value), loc);
    case TypeAlias(id, loc) =>
      r := PushOne(exportsData, Name(id), loc);
    case InterfaceDeclaration(id, loc) =>
      r := PushOne(exportsData, Name(id), loc);
    case OtherDeclaration(t, _) =>
      r := Err(UnsupportedNodeType(t));
  }

  /** When nothing throws: each name once, placed where it was first pushed,
      holding the line of its last push — a name that both passes record holds
      the line of its declaration. */
  lemma ExportsMeaning(sts: seq<Statement>, k: Key)
    requires Exports(sts).Ok?
    ensures DistinctKeys(Exports(sts).value)
    ensures Keys(Exports(sts).value) ==
      Dedup(Keys(Collect(sts, SpecifierPushes).value + Collect(sts, DeclarationStatementPushes).value))
    ensures Get(Exports(sts).value, k) ==
      if LastValue(Collect(sts, DeclarationStatementPushes).value, k).Some?
      then LastValue(Collect(sts, DeclarationStatementPushes).value, k)
      else LastValue(Collect(sts, SpecifierPushes).value, k)
  {
    var first, second := Collect(sts, SpecifierPushes).value, Collect(sts, DeclarationStatementPushes).value;
    SetAllFromEmpty(first + second);
    LastValueAppend(first, second, k);
  }

  /** The error `parseJs` throws: the first of pass 1 if pass 1 throws,
      otherwise the first of pass 2. */
  lemma ExportsError(sts: seq<Statement>)
    ensures Collect(sts, SpecifierPushes).Err? ==> Exports(sts) == Err(Collect(sts, SpecifierPushes).error)
    ensures Collect(sts, SpecifierPushes).Err? ==>
      exists i :: 0 <= i < |sts| && SpecifierPushes(sts[i]) == Err(Exports(sts).error)
        && forall j :: 0 <= j < i ==> SpecifierPushes(sts[j]).Ok?
    ensures Collect(sts, SpecifierPushes).Ok? && Exports(sts).Err? ==>
      exists i :: 0 <= i < |sts| && DeclarationStatementPushes(sts[i]) == Err(Exports(sts).error)
        && forall j :: 0 <= j < i ==> DeclarationStatementPushes(sts[j]).Ok?
    ensures Exports(sts).Err? <==>
      exists i :: 0 <= i < |sts| && (SpecifierPushes(sts[i]).Err? || DeclarationStatementPushes(sts[i]).Err?)
  {
    CollectError(sts, SpecifierPushes);
    CollectError(sts, DeclarationStatementPushes);
  }

  /** An exported function, class, type alias or interface pushes its name
      at its own line, and a missing location makes that read throw; a
      function or class without a name throws when its name is read. */
  lemma DeclarationForms(d: Declaration, id: string, loc: Option<nat>, sps: seq<ExportSpecifierNode>, source: Option<string>, comments: Option<seq<string>>)
    ensures DeclarationStatementPushes(ExportNamedDeclaration(Some(d), sps, source, comments)) == DeclarationPushes(d)
    ensures DeclarationPushes(FunctionDeclaration(Some(id), loc)) == if loc.Some? then Ok([(Name(id), LineData(loc.value))]) else Err(ReadOfNull("start"))
    ensures DeclarationPushes(ClassDeclaration(Some(id), loc)) == if loc.Some? then Ok([(Name(id), LineData(loc.value))]) else Err(ReadOfNull("start"))
    ensures DeclarationPushes(TypeAlias(id, loc)) == if loc.Some? then Ok([(Name(id), LineData(loc.value))]) else Err(ReadOfNull("start"))
    ensures DeclarationPushes(InterfaceDeclaration(id, loc)) == if loc.Some? then Ok([(Name(id), LineData(loc.value))]) else Err(ReadOfNull("start"))
    ensures DeclarationPushes(FunctionDeclaration(None, loc)) == Err(ReadOfNull("name"))
    ensures DeclarationPushes(ClassDeclaration(None, loc)) == Err(ReadOfNull("name"))
  {
  }

  /** `export const …, …`: throws exactly when a declarator has no location;
      otherwise pushes every declarator under `PatternKey` at its own line. */
  lemma VariableDeclarationForms(ds: seq<VariableDeclarator>, p: (Key, LineData))
    ensures DeclarationPushes(VariableDeclaration(ds)).Err? <==> exists i :: 0 <= i < |ds| && ds[i].loc.None?
    ensures DeclarationPushes(VariableDeclaration(ds)).Err? ==> DeclarationPushes(VariableDeclaration(ds)).error == ReadOfNull("start")
    ensures DeclarationPushes(VariableDeclaration(ds)).Ok? ==>
      (p in DeclarationPushes(VariableDeclaration(ds)).value <==>
        exists i :: 0 <= i < |ds| && ds[i].loc.Some? && p == (PatternKey(ds[i].id), LineData(ds[i].loc.value)))
  {
    assert forall i :: 0 <= i < |ds| ==> (DeclaratorPushes(ds[i]).Err? <==> ds[i].loc.None?);
    CollectError(ds, DeclaratorPushes);
    if Collect(ds, DeclaratorPushes).Ok? {
      CollectMembers(ds, DeclaratorPushes, p);
    }
  }

  /** The declarators of one statement are pushed in order. */
  lemma VariableDeclarationOrder(a: seq<VariableDeclarator>, b: seq<VariableDeclarator>)
    requires DeclarationPushes(VariableDeclaration(a)).Ok? && DeclarationPushes(VariableDeclaration(b)).Ok?
    ensures DeclarationPushes(VariableDeclaration(a + b))
      == Ok(DeclarationPushes(VariableDeclaration(a)).value + DeclarationPushes(VariableDeclaration(b)).value)
  {
    CollectAppend(a, b, DeclaratorPushes);
  }

  /** `export { a }`, `export { a as a }` and a default export record
      nothing. */
  lemma SilentForms(a: string, loc: Option<nat>, source: Option<string>, comments: Option<seq<string>>, d: Declaration)
    ensures SpecifierPushes(ExportNamedDeclaration(None, [ExportSpecifier(Identifier(a, loc), Identifier(a, loc))], source, comments)) == Ok([])
    ensures SpecifierPushes(ExportDefaultDeclaration(d, comments)) == Ok([])
    ensures DeclarationStatementPushes(ExportDefaultDeclaration(d, comments)) == Ok([])
  {
    var sps := [ExportSpecifier(Identifier(a, loc), Identifier(a, loc))];
    assert sps[..0] == [];
    assert Renamed(sps) == Ok([]);
  }

  /** `export { a as b }` records `b` at `b`'s line, with or without `from`. */
  lemma RenamedForm(a: string, b: string, line: nat, source: Option<string>, comments: Option<seq<string>>)
    requires a != b
    ensures SpecifierPushes(ExportNamedDeclaration(None, [ExportSpecifier(Identifier(a, None), Identifier(b, Some(line)))], source, comments))
      == Ok([(Name(b), LineData(line))])
  {
    var sps := [ExportSpecifier(Identifier(a, None), Identifier(b, Some(line)))];
    assert sps[..0] == [];
    assert IsRenamed(sps[0]) == Ok(true);
    assert Renamed(sps) == Ok([] + [Identifier(b, Some(line))]);
    CollectSingle(Identifier(b, Some(line)), ExportedPushes);
  }

  /** The forms that throw in pass 1 and in pass 2. */
  lemma ThrowingForms(e: ModuleExportName, source: Option<string>, comments: Option<seq<string>>, loc: Option<nat>)
    ensures SpecifierPushes(ExportNamedDeclaration(None, [ExportDefaultSpecifier(e)], source, comments)) == Err(ReadOfUndefined("name"))
    ensures DeclarationStatementPushes(ExportNamedDeclaration(Some(ClassDeclaration(None, loc)), [], source, comments)) == Err(ReadOfNull("name"))
    ensures DeclarationStatementPushes(ExportNamedDeclaration(Some(FunctionDeclaration(Some("f"), None)), [], source, comments)) == Err(ReadOfNull("start"))
  {
    assert [ExportDefaultSpecifier(e)][..0] == [];
  }
}
