/** The fixture module `src/__fixtures__/sanity-js.js`, as the Babel parser
    hands it to `parseJsFile`, and the imports and exports the adapter
    extracts from it. */
module SanityJs {
  import opened Base
  import opened OrderedMap
  import opened Data
  import opened Strings
  import opened BabelAst
  import opened ParseJsFile

  const From := "./non-exist-files"

  /** The text of the JSDoc block above `export var variable`. */
  const TypeDoc := "*\n * @type {number}\n "

  /** The text of the JSDoc block above `export var private_variable`. */
  const PrivateDoc := "*\n * @type {number}\n * @private\n "

  /** The fourteen top-level statements of the fixture, in order, each with
      the 1-based line its nodes start on. */
  const S0 := ImportDeclaration(From, [ImportDefaultSpecifier("DEF"), ImportSpecifier(Identifier("X", Some(1)), "X"),
                                       ImportSpecifier(Identifier("Y", Some(1)), "Y"), ImportSpecifier(Identifier("Z", Some(1)), "ZZZ")])
  const S1 := ExportNamedDeclaration(Some(FunctionDeclaration(Some("fun"), Some(3))), [], None, None)
  const S2 := ExportDefaultDeclaration(FunctionDeclaration(Some("fun_default"), Some(5)), None)
  const S3 := ExportNamedDeclaration(Some(VariableDeclaration([VariableDeclarator(IdentifierPattern("variable"), Some(10))])), [], None, Some([TypeDoc]))
  const S4 := ExportNamedDeclaration(None, [ExportSpecifier(Identifier("variable", Some(12)), Identifier("variable2", Some(12)))], None, None)
  const S5 := ExportNamedDeclaration(Some(VariableDeclaration([VariableDeclarator(IdentifierPattern("private_variable"), Some(18))])), [], None, Some([PrivateDoc]))
  const S6 := ExportNamedDeclaration(Some(TypeAlias("Type", Some(20))), [], None, None)
  const S7 := ExportNamedDeclaration(Some(InterfaceDeclaration("Interface", Some(22))), [], None, None)
  const S8 := ExportAllDeclaration("Blah")
  const S9 := ExportNamedDeclaration(None, [ExportSpecifier(Identifier("X", Some(27)), Identifier("X", Some(27)))], None, None)
  const S10 := OtherStatement("VariableDeclaration")
  const S11 := ImportDeclaration(From, [ImportSpecifier(Identifier("ImportedType", Some(31)), "ImportedType")])
  const S12 := ExportNamedDeclaration(None, [ExportSpecifier(Identifier("ImportedType", Some(32)), Identifier("ImportedType", Some(32)))], None, None)
  const S13 := ExportNamedDeclaration(None, [ExportSpecifier(Identifier("ExportedType", Some(34)), Identifier("ExportedType", Some(34)))], Some(From), None)

  const Body: seq<Statement> := [S0, S1, S2, S3, S4, S5, S6, S7, S8, S9, S10, S11, S12, S13]

  /** The exports map the fixture test expects, entry by entry in
      insertion order. */
  const E0 := (Name("fun"), ExportData(3, false))
  const E1 := (Name("fun_default"), ExportData(5, false))
  const E2 := (Name("variable"), ExportData(10, false))
  const E3 := (Name("variable2"), ExportData(12, false))
  const E4 := (Name("private_variable"), ExportData(18, true))
  const E5 := (Name("Type"), ExportData(20, false))
  const E6 := (Name("Interface"), ExportData(22, false))
  const E7 := (Name("X"), ExportData(27, false))
  const E8 := (Name("ImportedType"), ExportData(32, false))

  const ExpectedExports: ExportsData := [E0, E1, E2, E3, E4, E5, E6, E7, E8]

  /** The first JSDoc block does not mention `@private`. */
  lemma TypeDocPublic()
    ensures !HasPrivateJsDoc(Some([TypeDoc]))
  {
    forall j ensures !OccursAt(TypeDoc, "@private", j) {
      if 0 <= j && j + 8 <= |TypeDoc| {
        assert TypeDoc[j..j + 8][0] == TypeDoc[j] && TypeDoc[j..j + 8][1] == TypeDoc[j + 1];
        assert TypeDoc[j] != '@' || TypeDoc[j + 1] != 'p';
      }
    }
  }

  /** The second JSDoc block does. */
  lemma PrivateDocPrivate()
    ensures HasPrivateJsDoc(Some([PrivateDoc]))
  {
    assert PrivateDoc == "*\n * @type {number}\n * " + "@private" + "\n ";
    ContainsInside("*\n * @type {number}\n * ", "@private", "\n ");
    ContainsIff(PrivateDoc, "@private");
    var j :| OccursAt(PrivateDoc, "@private", j);
    assert OccursAt([PrivateDoc][0], "@private", j);
  }

  /** The declarations after `export` and `export default` are recorded at
      their own lines, with the privacy of their comments. */
  lemma FunctionsRecorded()
    ensures StatementRecords(S1) == Ok([E0])
    ensures StatementRecords(S2) == Ok([E1])
  {
  }

  /** `export var variable` carries the first block, so its declaration
      is recorded as public. */
  lemma VariablePublic()
    ensures StatementRecords(S3) == DeclarationRecords(VariableDeclaration([VariableDeclarator(IdentifierPattern("variable"), Some(10))]), false)
  {
    TypeDocPublic();
  }

  lemma VariableRecorded()
    ensures StatementRecords(S3) == Ok([E2])
  {
    var d := VariableDeclarator(IdentifierPattern("variable"), Some(10));
    VariablePublic();
    assert DeclarationRecords(VariableDeclaration([d]), false) == Collect([d], OfDeclarator(false));
    CollectSingle(d, OfDeclarator(false));
  }

  /** `export var private_variable` carries the second block. */
  lemma VariablePrivate()
    ensures StatementRecords(S5) == DeclarationRecords(VariableDeclaration([VariableDeclarator(IdentifierPattern("private_variable"), Some(18))]), true)
  {
    PrivateDocPrivate();
  }

  lemma PrivateVariableRecorded()
    ensures StatementRecords(S5) == Ok([E4])
  {
    var d := VariableDeclarator(IdentifierPattern("private_variable"), Some(18));
    VariablePrivate();
    assert DeclarationRecords(VariableDeclaration([d]), true) == Collect([d], OfDeclarator(true));
    CollectSingle(d, OfDeclarator(true));
  }

  lemma TypesRecorded()
    ensures StatementRecords(S6) == Ok([E5])
    ensures StatementRecords(S7) == Ok([E6])
  {
  }

  /** Each specifier of a local `export { … }` is recorded under its
      exported name; the one after `from` is skipped. */
  lemma SpecifiersRecorded()
    ensures StatementRecords(S4) == Ok([E3])
    ensures StatementRecords(S9) == Ok([E7])
    ensures StatementRecords(S12) == Ok([E8])
    ensures StatementRecords(S13) == Ok([])
  {
    CollectSingle(S4.specifiers[0], OfSpecifier(None, false));
    CollectSingle(S9.specifiers[0], OfSpecifier(None, false));
    CollectSingle(S12.specifiers[0], OfSpecifier(None, false));
    CollectSingle(S13.specifiers[0], OfSpecifier(Some(From), false));
  }

  /** Imports, `export *` and the unexported variable record nothing. */
  lemma OthersSilent()
    ensures StatementRecords(S0) == Ok([])
    ensures StatementRecords(S8) == Ok([])
    ensures StatementRecords(S10) == Ok([])
    ensures StatementRecords(S11) == Ok([])
  {
  }

  /** The `push` calls of the first eight statements. */
  lemma FirstStatementsRecords()
    ensures Collect([S0] + [S1] + [S2] + [S3] + [S4] + [S5] + [S6] + [S7], StatementRecords) == Ok([] + [E0] + [E1] + [E2] + [E3] + [E4] + [E5] + [E6])
  {
    FunctionsRecorded();
    VariableRecorded();
    PrivateVariableRecorded();
    TypesRecorded();
    SpecifiersRecorded();
    OthersSilent();
    CollectSingle(S0, StatementRecords);
    CollectSnoc([S0], S1, StatementRecords);
    CollectSnoc([S0] + [S1], S2, StatementRecords);
    CollectSnoc([S0] + [S1] + [S2], S3, StatementRecords);
    CollectSnoc([S0] + [S1] + [S2] + [S3], S4, StatementRecords);
    CollectSnoc([S0] + [S1] + [S2] + [S3] + [S4], S5, StatementRecords);
    CollectSnoc([S0] + [S1] + [S2] + [S3] + [S4] + [S5], S6, StatementRecords);
    CollectSnoc([S0] + [S1] + [S2] + [S3] + [S4] + [S5] + [S6], S7, StatementRecords);
  }

  /** The `push` calls of the whole fixture, in order. */
  lemma AllStatementsRecords()
    ensures Collect([S0] + [S1] + [S2] + [S3] + [S4] + [S5] + [S6] + [S7] + [S8] + [S9] + [S10] + [S11] + [S12] + [S13], StatementRecords) == Ok([] + [E0] + [E1] + [E2] + [E3] + [E4] + [E5] + [E6] + [] + [E7] + [] + [] + [E8] + [])
  {
    FirstStatementsRecords();
    SpecifiersRecorded();
    OthersSilent();
    CollectSnoc([S0] + [S1] + [S2] + [S3] + [S4] + [S5] + [S6] + [S7], S8, StatementRecords);
    CollectSnoc([S0] + [S1] + [S2] + [S3] + [S4] + [S5] + [S6] + [S7] + [S8], S9, StatementRecords);
    CollectSnoc([S0] + [S1] + [S2] + [S3] + [S4] + [S5] + [S6] + [S7] + [S8] + [S9], S10, StatementRecords);
    CollectSnoc([S0] + [S1] + [S2] + [S3] + [S4] + [S5] + [S6] + [S7] + [S8] + [S9] + [S10], S11, StatementRecords);
    CollectSnoc([S0] + [S1] + [S2] + [S3] + [S4] + [S5] + [S6] + [S7] + [S8] + [S9] + [S10] + [S11], S12, StatementRecords);
    CollectSnoc([S0] + [S1] + [S2] + [S3] + [S4] + [S5] + [S6] + [S7] + [S8] + [S9] + [S10] + [S11] + [S12], S13, StatementRecords);
  }

  /** The concatenations above are the fixture and the expected table. */
  lemma FixtureShape()
    ensures [S0] + [S1] + [S2] + [S3] + [S4] + [S5] + [S6] + [S7] + [S8] + [S9] + [S10] + [S11] + [S12] + [S13] == Body
    ensures [] + [E0] + [E1] + [E2] + [E3] + [E4] + [E5] + [E6] + [] + [E7] + [] + [] + [E8] + [] == ExpectedExports
  {
  }

  /** The `push` calls of the whole fixture are the expected entries. */
  lemma FixtureRecords()
    ensures AllRecords(Body) == Ok(ExpectedExports)
  {
    AllStatementsRecords();
    FixtureShape();
  }

  /** The expected table names no export twice. */
  lemma ExpectedDistinct()
    ensures DistinctKeys([] + ExpectedExports)
  {
    assert [] + ExpectedExports == ExpectedExports;
  }

  /** The exports of the fixture are exactly those the test lists, in
      order: `export *`, `export type { … } from` and the unexported
      variable leave no entry. */
  lemma FixtureExports()
    ensures Exports(Body) == Ok(ExpectedExports)
  {
    FixtureRecords();
    ExpectedDistinct();
    SetAllFresh([], ExpectedExports);
    assert [] + ExpectedExports == ExpectedExports;
  }

  /** The import list the fixture test expects for a file in `fileDirname`. */
  function ExpectedImports(fileDirname: string): seq<ImportData> {
    [ImportData(fileDirname, From, true, false, "DEF"),
     ImportData(fileDirname, From, false, false, "X"),
     ImportData(fileDirname, From, false, false, "Y"),
     ImportData(fileDirname, From, false, true, "ZZZ"),
     ImportData(fileDirname, From, false, false, "ImportedType")]
  }

  /** The first import declaration gives one import per specifier, in
      order; only `Z as ZZZ` is renamed. */
  lemma FirstImports(fileDirname: string)
    ensures StatementImports(fileDirname, S0) == [] + [ImportData(fileDirname, From, true, false, "DEF")] + [ImportData(fileDirname, From, false, false, "X")] + [ImportData(fileDirname, From, false, false, "Y")] + [ImportData(fileDirname, From, false, true, "ZZZ")]
  {
    AllSpecifierImportsSnoc(fileDirname, From, [], ImportDefaultSpecifier("DEF"));
    AllSpecifierImportsSnoc(fileDirname, From, [ImportDefaultSpecifier("DEF")], ImportSpecifier(Identifier("X", Some(1)), "X"));
    AllSpecifierImportsSnoc(fileDirname, From, [ImportDefaultSpecifier("DEF")] + [ImportSpecifier(Identifier("X", Some(1)), "X")], ImportSpecifier(Identifier("Y", Some(1)), "Y"));
    AllSpecifierImportsSnoc(fileDirname, From, [ImportDefaultSpecifier("DEF")] + [ImportSpecifier(Identifier("X", Some(1)), "X")] + [ImportSpecifier(Identifier("Y", Some(1)), "Y")], ImportSpecifier(Identifier("Z", Some(1)), "ZZZ"));
    assert [ImportDefaultSpecifier("DEF")] + [ImportSpecifier(Identifier("X", Some(1)), "X")] + [ImportSpecifier(Identifier("Y", Some(1)), "Y")] + [ImportSpecifier(Identifier("Z", Some(1)), "ZZZ")] == S0.importSpecifiers;
  }

  /** The second one, `import type { ImportedType }`, gives one more. */
  lemma LastImports(fileDirname: string)
    ensures StatementImports(fileDirname, S11) == [ImportData(fileDirname, From, false, false, "ImportedType")]
  {
    AllSpecifierImportsSnoc(fileDirname, From, [], S11.importSpecifiers[0]);
    assert [] + [S11.importSpecifiers[0]] == S11.importSpecifiers;
  }

  /** The imports of the fixture, in source order. */
  lemma FixtureImports(fileDirname: string)
    ensures Imports(fileDirname, Body) == ExpectedImports(fileDirname)
  {
    FirstImports(fileDirname);
    LastImports(fileDirname);
    ImportsSnoc(fileDirname, [], S0);
    ImportsSnoc(fileDirname, [S0], S1);
    ImportsSnoc(fileDirname, [S0] + [S1], S2);
    ImportsSnoc(fileDirname, [S0] + [S1] + [S2], S3);
    ImportsSnoc(fileDirname, [S0] + [S1] + [S2] + [S3], S4);
    ImportsSnoc(fileDirname, [S0] + [S1] + [S2] + [S3] + [S4], S5);
    ImportsSnoc(fileDirname, [S0] + [S1] + [S2] + [S3] + [S4] + [S5], S6);
    ImportsSnoc(fileDirname, [S0] + [S1] + [S2] + [S3] + [S4] + [S5] + [S6], S7);
    ImportsSnoc(fileDirname, [S0] + [S1] + [S2] + [S3] + [S4] + [S5] + [S6] + [S7], S8);
    ImportsSnoc(fileDirname, [S0] + [S1] + [S2] + [S3] + [S4] + [S5] + [S6] + [S7] + [S8], S9);
    ImportsSnoc(fileDirname, [S0] + [S1] + [S2] + [S3] + [S4] + [S5] + [S6] + [S7] + [S8] + [S9], S10);
    ImportsSnoc(fileDirname, [S0] + [S1] + [S2] + [S3] + [S4] + [S5] + [S6] + [S7] + [S8] + [S9] + [S10], S11);
    ImportsSnoc(fileDirname, [S0] + [S1] + [S2] + [S3] + [S4] + [S5] + [S6] + [S7] + [S8] + [S9] + [S10] + [S11], S12);
    ImportsSnoc(fileDirname, [S0] + [S1] + [S2] + [S3] + [S4] + [S5] + [S6] + [S7] + [S8] + [S9] + [S10] + [S11] + [S12], S13);
    FixtureShape();
  }
}
