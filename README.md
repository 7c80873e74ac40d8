# no-export-duplications, modelled in Dafny

`no-export-duplications` is a linter. It finds exported names that are
declared in more than one source file of a JavaScript, Flow or TypeScript
project, so that re-exporting modules and barrel files do not hide two
different things under one name.

The repository holds two generations of the same pipeline, and both are
modelled here.

- **The current pipeline.**
  - `analyze` (`src/linters/analyze.js`) globs the project and drops the uris
    `filterUri` rejects (`src/parsers/filter-uri.js`).
  - It hands each remaining file to a per-dialect adapter: `parseJsFile` for
    `.js`/`.mjs` (Babel) and `parseTsFile` for `.ts`/`.tsx` (TypeScript).
  - Each adapter returns the file's exports table (name, line, `isPrivate`)
    and its import list.
  - `analyze` registers every file's result under its uri, once.
  - `check` (`src/linters/check.js`) folds the registered files into a map
    from each duplicated name to the `{ uri, line }` of each occurrence.
  - A name the file imports verbatim (`import { X }`, neither default nor
    renamed) is treated as forwarding and is not counted. Neither is a
    whitelisted name.
- **The first-generation pipeline.**
  - `main` (`src/index.js`) with its parsers `parseJs` (`src/parse-js.js`) and
    `parseTs` (`src/parse-ts.js`) does the same in one pass.
  - It has a whitelist but no import exemption in the tally.
  - `parseTs` itself drops every name a file imports with `import { … }`.

Modules and their roles:

- `OrderedMap`: a JavaScript `Map`, as an insertion-ordered association list.
  Setting a present key replaces its value where it stands.
- `Base`: `Result`/`Option`, the thrown errors with their messages, and
  `Collect`. `Collect` models the "loop that pushes, unless something throws
  first" shape used by every parser.
- `BabelAst` / `TsAst`: the syntax-tree shapes the adapters read. These are
  the inputs; the model does no parsing.
- `Data`: the records the files exchange (`ExportData`, `ImportData`,
  `ParseFileReturn`, …).

Each imperative loop of the source is a `method` with loop invariants. Its
`ensures` ties the result to a specification function, and lemmas state what
the source promises about that function: last write wins, names in
first-recorded order, the first error wins, which names are exempted, and
which files are registered.

These collaborators are parameters:

- `analyze`'s collaborators are fields of `Analyze.Host`: glob matching
  (`minimatch`), the file system (`fs.readFileSync`), `path.extname`,
  `path.dirname`, and the Babel and TypeScript parsers.
- The glob's result (`matches`) and the resolved `ignorepath` are passed in.
- TypeScript positions arrive already converted to 0-based line numbers.
- `ts.SyntaxKind` is passed in as a list of (name, value) pairs.

`SanityJs` states the repository's sanity fixture for the JavaScript adapter
(`src/__fixtures__/sanity-js.js`) as a Babel statement list. It proves that
the adapter's exports and imports are exactly those its test expects.

### Behaviour worth knowing

- **Registering a file twice.** `analyze` throws
  `"Cannot check the same file twice"`; the message does not name the uri
  (`Error.DuplicateFile`).
- **Forms `parseTsFile` records nothing for.** These forms do not throw;
  they record nothing and the run goes on:
  - exported statements of any other kind (`export namespace`,
    `export =`, …);
  - nameless declarations;
  - destructuring declarators;
  - `export { … } from`.

  The JavaScript adapter and both first-generation parsers throw for their
  unsupported forms, each with its own message.
- **Recorded lines.**
  - In the JavaScript adapter, the recorded line is the start line of the
    declaration or declarator node (the `function`/`class` keyword, or the
    declarator). For `export { … }` it is the line of the exported name.
  - In the TypeScript adapter, it is the line of the name's position for a
    named declaration, of the declarator for a variable, and of the element
    for an `export { … }` specifier.
- **Import records** hold the importing file's directory and the module
  specifier as written (`fileDirname`, `from`), not a resolved path.
- **The whitelist** becomes a `Set`, so its order and repetitions do not
  matter. The model keeps the list and tests membership.
- **Privacy in the JavaScript adapter.** A statement is private when any of
  its leading comments contains `@private` anywhere; it need not be a JSDoc
  tag. `check` does not read `isPrivate`.

## Model

| member | source | states |
|---|---|---|
| OrderedMap.Get | src/parsers/parse-ts-file.js:113-116 | `Map.get` is `undefined` exactly for an absent key; a found value is the one stored under that key |
| OrderedMap.Set | src/linters/check.js:47-54 | `Map.set` stores the value under the key, keeps a present key's position, appends a new key, leaves every other key's value alone and keeps keys distinct |
| OrderedMap.SetAll | src/parsers/parse-ts-file.js:113-116 | definition: the map after one `Map.set` per pair, in order; what it holds is stated by `OrderedMap.SetAllMeaning`, `OrderedMap.SetAllFromEmpty`, `OrderedMap.SetAllFresh` and `OrderedMap.LastValueAppend` |
| OrderedMap.SetAllMeaning | src/parsers/parse-ts-file.js:113-116 | after a series of `set` calls every key holds the value of the last call for it, keys stay in order of first insertion, and keys stay distinct |
| OrderedMap.SetAllFromEmpty | src/parsers/parse-ts-file.js:99-116 | a map filled from empty has the distinct keys in order of first call, each with the value of its last call |
| OrderedMap.SetNew | src/linters/analyze.js:36 | setting a key that is absent appends the pair at the end |
| OrderedMap.SetAllFresh | src/linters/analyze.js:36 | setting pairs whose keys are all new appends them in order |
| OrderedMap.LastValueAppend | src/parsers/parse-ts-file.js:113-116 | a later series of writes overrides an earlier one for every key it writes |
| Strings.ContainsIff | src/parsers/parse-js-file.js:193 | `includes` holds exactly when the substring occurs at some index |
| Strings.ContainsInside | src/parsers/parse-js-file.js:193 | a string containing `t` still contains it after text is added around it |
| Base.Collect | src/parsers/parse-js-file.js:129-181 | definition: the loop that pushes each element's results or stops at the first throw; its meaning is stated by `Base.CollectError`, `Base.CollectAppend` and `Base.CollectMembers` |
| Base.CollectError | src/parsers/parse-js-file.js:129-181 | a push-or-throw loop throws exactly when some element throws, and then throws the error of the first such element |
| Base.CollectAppend | src/parsers/parse-js-file.js:129-181 | when both halves succeed, the loop over two halves gives the first half's records followed by the second half's |
| Base.CollectMembers | src/parsers/parse-js-file.js:129-181 | every record the loop produces comes from one element, and every element's records are among the results |
| FilterUri.SomeMatchesIff | src/parsers/filter-uri.js:26 | `ignorepath.some(u => minimatch(uri, u))` holds exactly when some pattern matches the uri |
| FilterUri.FilterUri | src/parsers/filter-uri.js:13-30 | definition: a uri is kept unless a default rule or an `ignorepath` pattern rejects it, rule by rule in `FilterUri.FilterUriIff`. The first-generation `filterUri` (src/index.js:101-114) makes the same test: its `/\.d\.ts$/` and `/\.flow$/` tests are the `endsWith` suffix checks, so `Index` reuses this definition |
| FilterUri.FilterUriIff | src/parsers/filter-uri.js:13-30 | a uri is accepted exactly when none of the eight default rules and no `ignorepath` pattern excludes it |
| FilterUri.EmptyIgnorepathIgnoresMinimatch | src/parsers/filter-uri.js:14-29 | with no patterns the verdict is the default rules' alone, whatever the matcher does |
| FilterUri.MorePatternsExcludeMore | src/parsers/filter-uri.js:26 | adding patterns (before or after) never admits a uri that was rejected |
| FilterUri.ExcludesDirectories | src/parsers/filter-uri.js:21-24 | a uri containing `node_modules`, `flow-typed`, `/dist/` or `/build/` anywhere is rejected |
| FilterUri.ExcludesTestScripts | src/parsers/filter-uri.js:17-18 | `.test.`/`.spec.` scripts of the four script extensions are rejected, whatever the patterns |
| FilterUri.ExcludesDeclarationFiles | src/parsers/filter-uri.js:19-20 | `.d.ts` and `.flow` files are rejected, whatever the patterns |
| FilterUri.ExcludesIgnored | src/parsers/filter-uri.js:26 | a uri some `ignorepath` pattern matches is rejected |
| Check.LocalImportsToIgnore | src/linters/check.js:25-33 | a name is exempted exactly when some import of the file brings it in neither as default nor renamed |
| Check.LocalImportsAppend | src/linters/check.js:25-33 | the exemptions of two import lists together are the union of each list's |
| Check.DefaultAndRenamedExemptNothing | src/linters/check.js:27-31 | default and renamed imports add no exemption |
| Check.SecondSightingsMembers | src/linters/check.js:44-56 | a name is among the second-sighted names exactly when it is sighted at least twice |
| Check.FoldUsedExports | src/linters/check.js:44-47 | `usedExports` ends up holding each sighted name once, in order of first sighting, with its first occurrence |
| Check.FoldUsedKeys | src/linters/check.js:44-47 | the names in `usedExports` are distinct and are the sighted names in order of first sighting |
| Check.FoldUsedFirst | src/linters/check.js:44-47 | `usedExports` maps a name to its first occurrence, and holds no name that was never sighted |
| Check.FoldDuplications | src/linters/check.js:49-55 | `duplicationsExports` holds exactly the names sighted at least twice, each with all its occurrences in order, in order of second sighting |
| Check.StepDuplications | src/linters/check.js:44-56 | one sighting opens an entry on the second occurrence, appends on later ones, and touches no other name |
| Check.EntriesHaveTwoOccurrences | src/linters/check.js:52-54 | every reported entry lists at least two occurrences |
| Check.FileSightings | src/linters/check.js:35-42 | definition: one file's (name, `{ uri, line }`) pairs in map order, leaving out whitelisted and verbatim-imported names; characterised by `Check.FileSightingsOfKey` and computed by `Check.SightFile` |
| Check.Sightings | src/linters/check.js:24-42 | definition: every file's sightings, files in registration order; characterised by `Check.SightingsAreQualifying` |
| Check.Step | src/linters/check.js:44-56 | definition: one sighting is first seen, opens an entry, or appends to it; stated by `Check.StepDuplications` and computed by `Check.Sight` |
| Check.Fold | src/linters/check.js:24-58 | definition: the steps over all sightings from two empty maps; what the two maps hold is stated by `Check.FoldUsedExports` and `Check.FoldDuplications` |
| Check.Duplicates | src/linters/check.js:17-61 | definition: what `check` returns; its meaning is stated by `Check.DuplicatesMeaning` and `Check.DuplicatesInvariants`, and `Check.Check` is the loop that computes it |
| Check.Check | src/linters/check.js:17-61 | the loop computes the duplications map: distinct names, at least two occurrences each, no whitelisted name |
| Check.SightFile | src/linters/check.js:35-58 | one file's inner loop leaves the tables as the fold of everything sighted before followed by that file's non-skipped exports in map order |
| Check.SightExport | src/linters/check.js:36-57 | a whitelisted or verbatim-imported export leaves both tables as they were; any other is one first-seen/open/append step at its line |
| Check.Sight | src/linters/check.js:44-56 | the two tables after one sighting are one step of the fold |
| Check.DuplicatesInvariants | src/linters/check.js:18-56 | every result has distinct names, at least two occurrences per name and no whitelisted name |
| Check.WhitelistedNeverSighted | src/linters/check.js:18-36 | a whitelisted name is never sighted, in any file |
| Check.SkippedNeverSighted | src/linters/check.js:36-37 | a name skipped for a file (whitelisted or imported verbatim) contributes no occurrence from that file |
| Check.FileSightingsOfKey | src/linters/check.js:35-42 | one file contributes at most one occurrence of a name, at the line its exports table holds, unless the name is skipped |
| Check.SightingsAreQualifying | src/linters/check.js:24-42 | the sightings of a name, in order, are exactly one occurrence per file that exports it without exemption, files in registration order |
| Check.DuplicatesMeaning | src/linters/check.js:24-57 | a name is reported exactly when at least two files export it without exemption; its entry lists those files' `{ uri, line }` in registration order; names appear in order of second sighting |
| Check.ScenarioTwoDeclarations | src/linters/check.js:35-57 | two files each declaring `Config` give one entry with both occurrences in file order |
| Check.ScenarioForwarding | src/linters/check.js:25-56 | a file that imports `Shared` verbatim and re-exports it is not counted, so nothing is reported |
| Check.ScenarioRenamedImport | src/linters/check.js:25-56 | a renamed import exempts nothing, so the same two files report `Shared` |
| ParseTsFile.DeclaratorRecords | src/parsers/parse-ts-file.js:155-161 | at most one record per declarator, each named, with the statement's privacy at a line of at least 1 |
| ParseTsFile.DeclaratorRecordsSingle | src/parsers/parse-ts-file.js:157-159 | an identifier declarator is recorded under its name at its own line; a destructuring one records nothing |
| ParseTsFile.DeclaratorRecordsAppend | src/parsers/parse-ts-file.js:156 | declarators are recorded in order: a concatenated list records the first part's records, then the second's |
| ParseTsFile.DestructuringSkipped | src/parsers/parse-ts-file.js:157 | a destructuring declarator anywhere in a list changes nothing |
| ParseTsFile.DeclaratorRecordsMembers | src/parsers/parse-ts-file.js:155-161 | a record is made exactly for each identifier declarator, under its name at its own line |
| ParseTsFile.IdentifierDeclaratorsRecorded | src/parsers/parse-ts-file.js:155-161 | without destructuring every declarator is recorded, in order, under its name at its own line |
| ParseTsFile.SpecifierRecords | src/parsers/parse-ts-file.js:163-177 | every specifier of `export { … }` is recorded, in order, under its exported name at its own line |
| ParseTsFile.StatementRecords | src/parsers/parse-ts-file.js:119-127 | a statement that is not exported records nothing; the records of an exported one are named, at a line of at least 1, with its privacy |
| ParseTsFile.ElementImports | src/parsers/parse-ts-file.js:76-86 | each named import element gives one non-default import under its local name, renamed exactly when it has a property name |
| ParseTsFile.Exports | src/parsers/parse-ts-file.js:97-182 | definition: the map `extractExports` returns; its meaning is stated by `ParseTsFile.ExportsMeaning`, `ParseTsFile.ExportsAppend` and `ParseTsFile.ExportsRecordExportedStatements` |
| ParseTsFile.Imports | src/parsers/parse-ts-file.js:53-90 | definition: the list `extractImports` returns; stated by `ParseTsFile.ImportsAppend` and `ParseTsFile.ExemptedNames` |
| ParseTsFile.Parsed | src/parsers/parse-ts-file.js:15-22 | definition: what `parseTsFile` returns; computed by `ParseTsFile.ParseTsFile` |
| ParseTsFile.ExtractExports | src/parsers/parse-ts-file.js:97-182 | the loop computes the file's exports map from its statements |
| ParseTsFile.PushStatement | src/parsers/parse-ts-file.js:119-178 | one iteration sets that statement's records into the map |
| ParseTsFile.PushDeclarators | src/parsers/parse-ts-file.js:156-160 | the declarator loop sets the declarators' records in order |
| ParseTsFile.PushSpecifiers | src/parsers/parse-ts-file.js:174-176 | the specifier loop sets the specifiers' records in order |
| ParseTsFile.Push | src/parsers/parse-ts-file.js:107-117 | `push` sets the name to its 1-based line and privacy |
| ParseTsFile.ExtractImports | src/parsers/parse-ts-file.js:53-90 | the loop computes the file's import list |
| ParseTsFile.PushImports | src/parsers/parse-ts-file.js:57-87 | one iteration appends that statement's imports |
| ParseTsFile.PushElementImports | src/parsers/parse-ts-file.js:76-86 | appends one non-default import per named element, in order, renamed exactly when the element has a property name |
| ParseTsFile.ParseTsFile | src/parsers/parse-ts-file.js:15-22 | the result pairs the exports map and the import list of the same statements |
| ParseTsFile.ExportsMeaning | src/parsers/parse-ts-file.js:107-119 | the exports map has distinct names, in order of first record, each with its last record |
| ParseTsFile.AllRecordsAppend | src/parsers/parse-ts-file.js:119 | the records of two consecutive parts of a file are the first part's followed by the second's |
| ParseTsFile.ExportsAppend | src/parsers/parse-ts-file.js:113-119 | last write wins across parts of a file: a name a later part records takes that record |
| ParseTsFile.SilentStatement | src/parsers/parse-ts-file.js:121-124 | a statement that records nothing leaves the map as it would be without it |
| ParseTsFile.AllRecordsFrom | src/parsers/parse-ts-file.js:119-178 | every record comes from one statement of the file |
| ParseTsFile.ExportsRecordExportedStatements | src/parsers/parse-ts-file.js:107-127 | every entry of the map is named, at a line of at least 1, and carries the privacy of an exported statement |
| ParseTsFile.ImportsAppend | src/parsers/parse-ts-file.js:57-87 | the imports of two consecutive parts of a file are the first part's followed by the second's |
| ParseTsFile.ElementExemptions | src/parsers/parse-ts-file.js:76-86 | a named-imports list exempts `n` in `check` exactly when it contains a plain `n` |
| ParseTsFile.StatementExemptions | src/parsers/parse-ts-file.js:57-87 | a statement exempts `n` exactly when it is `import { n } from "…"` with a clause and a string-literal specifier |
| ParseTsFile.ExemptedNames | src/parsers/parse-ts-file.js:53-90 | a TypeScript file exempts exactly the names some statement imports verbatim |
| ParseTsFile.NamedDeclarationForms | src/parsers/parse-ts-file.js:121-138 | for every kind, name and line: an exported named class, enum, function or interface is recorded under its name at the name's line; a nameless or unexported one records nothing |
| ParseTsFile.TypeAliasForms | src/parsers/parse-ts-file.js:140-153 | for every alias: one that forwards the imported type of the same name records nothing; any other is recorded under its name at the name's line |
| ParseTsFile.ForwardingAliases | src/parsers/parse-ts-file.js:145-150 | `import("…").R` forwards for alias `Q` exactly when `R` is the identifier `Q`; a dotted qualifier, no qualifier or another type never forwards |
| ParseTsFile.VariableForms | src/parsers/parse-ts-file.js:155-161 | an exported variable statement records exactly its declarators' records |
| ParseTsFile.ExportDeclarationForms | src/parsers/parse-ts-file.js:163-177 | for all inputs: `export { … }` without `from` records its specifiers; `export … from`, `export *`, `export * as ns`, imports and any other statement kind record nothing |
| ParseJsFile.AnyPrivate | src/parsers/parse-js-file.js:193 | some comment contains `@private` exactly when the scan finds one |
| ParseJsFile.HasPrivateJsDoc | src/parsers/parse-js-file.js:192-194 | a statement is private exactly when it has comments and `@private` occurs at some index of one of them |
| ParseJsFile.Record | src/parsers/parse-js-file.js:118-127 | `push` throws "Node has no location" exactly when the node has no location, and otherwise records the node's start line and the privacy |
| ParseJsFile.DeclaratorRecord | src/parsers/parse-js-file.js:157-162 | an identifier declarator is recorded under its name at its start line, and throws "Node has no location" without one; a pattern records nothing |
| ParseJsFile.SpecifierRecord | src/parsers/parse-js-file.js:140-153 | every record of a specifier carries the statement's privacy |
| ParseJsFile.DeclarationRecords | src/parsers/parse-js-file.js:157-179 | every record of an exported declaration carries the statement's privacy |
| ParseJsFile.DeclarationForms | src/parsers/parse-js-file.js:163-179 | for every id and location: a named function, class, type alias or interface is recorded under its id at its start line (or throws without a location); a nameless function records nothing, a nameless class throws reading `name`, any other type throws "… isn't supported" |
| ParseJsFile.VariableDeclarationForms | src/parsers/parse-js-file.js:157-162 | a variable export throws exactly when an identifier declarator has no location; otherwise it records exactly its identifier declarators at their start lines |
| ParseJsFile.VariableDeclarationOrder | src/parsers/parse-js-file.js:158 | declarators are recorded in order |
| ParseJsFile.StatementRecords | src/parsers/parse-js-file.js:129-180 | statements other than named and default exports record nothing; the records of an export carry its privacy |
| ParseJsFile.Push | src/parsers/parse-js-file.js:118-127 | the closure sets the record into the map, or throws |
| ParseJsFile.Exports | src/parsers/parse-js-file.js:109-184 | definition: what `extractExports` returns or throws; its meaning is stated by `ParseJsFile.ExportsMeaning` and `ParseJsFile.ExportsError` |
| ParseJsFile.Imports | src/parsers/parse-js-file.js:66-101 | definition: the list `extractImports` returns; stated by `ParseJsFile.ExemptedNames` and computed by `ParseJsFile.ExtractImports` |
| ParseJsFile.Parsed | src/parsers/parse-js-file.js:15-22 | definition: what `parseJsFile` returns or throws, the exports error first; computed by `ParseJsFile.ParseJsFile` |
| ParseJsFile.ExtractExports | src/parsers/parse-js-file.js:109-184 | the loop computes the exports map, or the error the file throws |
| ParseJsFile.PushStatement | src/parsers/parse-js-file.js:129-180 | one iteration sets that statement's records, or throws its error |
| ParseJsFile.PushSpecifiers | src/parsers/parse-js-file.js:140-154 | the specifier loop sets the specifiers' records in order, or throws the first error |
| ParseJsFile.PushDeclaration | src/parsers/parse-js-file.js:157-179 | the declaration branches set the declaration's records, or throw |
| ParseJsFile.PushDeclarators | src/parsers/parse-js-file.js:158-162 | the `forEach` over declarators sets their records in order, or throws the first error |
| ParseJsFile.ExtractImports | src/parsers/parse-js-file.js:66-101 | the loop computes the file's import list |
| ParseJsFile.PushSpecifierImports | src/parsers/parse-js-file.js:74-97 | appends one import per default or named specifier, in order; a namespace specifier adds none |
| ParseJsFile.ParseJsFile | src/parsers/parse-js-file.js:15-22 | the result pairs the exports map and the import list, and an exports error wins |
| ParseJsFile.ExportsMeaning | src/parsers/parse-js-file.js:123-129 | when nothing throws, the map has distinct names, in order of first record, each with its last record |
| ParseJsFile.ExportsError | src/parsers/parse-js-file.js:119-179 | the file throws exactly when some statement throws, and then with the first such statement's error |
| ParseJsFile.SilentForms | src/parsers/parse-js-file.js:129-164 | `export * from`, `export { … } from`, for any module specifier, and anonymous default functions record nothing |
| ParseJsFile.SpecifierForm | src/parsers/parse-js-file.js:140-146 | `export { a as b }` records the exported name at the exported node's line with the statement's privacy |
| ParseJsFile.ThrowingForms | src/parsers/parse-js-file.js:119-179 | the two proposal specifiers, a nameless default class, any other declaration type and a node without location throw their messages |
| ParseJsFile.SpecifierExemption | src/parsers/parse-js-file.js:88-95 | one specifier exempts `n` exactly when it imports `n` under its own name |
| ParseJsFile.SpecifierExemptions | src/parsers/parse-js-file.js:75-97 | a specifier list exempts `n` exactly when one of its specifiers imports `n` under its own name |
| ParseJsFile.StatementExemption | src/parsers/parse-js-file.js:70-97 | a statement exempts `n` exactly when it is an import declaration with such a specifier |
| ParseJsFile.ExemptedNames | src/parsers/parse-js-file.js:66-101 | a JavaScript file exempts exactly the names some import statement imports under their own name |
| SanityJs.TypeDocPublic | src/__fixtures__/sanity-js.js:7-9 | the `@type {number}` comment does not make `variable` private |
| SanityJs.PrivateDocPrivate | src/__fixtures__/sanity-js.js:14-17 | the comment with `@private` makes `private_variable` private |
| SanityJs.FunctionsRecorded | src/__fixtures__/sanity-js.js:3-5 | `fun` and the default `fun_default` are recorded at lines 3 and 5 |
| SanityJs.VariablePublic | src/__fixtures__/sanity-js.js:7-10 | the `variable` statement's records are those of a public declaration |
| SanityJs.VariableRecorded | src/__fixtures__/sanity-js.js:7-10 | `variable` is recorded at line 10 as public |
| SanityJs.VariablePrivate | src/__fixtures__/sanity-js.js:14-18 | the `private_variable` statement's records are those of a private declaration |
| SanityJs.PrivateVariableRecorded | src/__fixtures__/sanity-js.js:14-18 | `private_variable` is recorded at line 18 as private |
| SanityJs.TypesRecorded | src/__fixtures__/sanity-js.js:20-22 | the Flow type alias and interface are recorded at lines 20 and 22 |
| SanityJs.SpecifiersRecorded | src/__fixtures__/sanity-js.js:12-34 | the three `export { … }` statements record their exported names; the one with `from` records nothing |
| SanityJs.OthersSilent | src/__fixtures__/sanity-js.js:1-31 | imports, `export *` and a plain declaration record nothing |
| SanityJs.FirstStatementsRecords | src/__fixtures__/sanity-js.js:1-22 | the first eight statements record the first seven expected entries in order |
| SanityJs.AllStatementsRecords | src/__fixtures__/sanity-js.js:1-34 | all fourteen statements record the nine expected entries in order |
| SanityJs.FixtureShape | src/__fixtures__/sanity-js.js:1-34 | the statement chain is the fixture's body and the record chain the expected table |
| SanityJs.FixtureRecords | src/parsers/parse-js-file.test.js:58-71 | the fixture's records are exactly the expected ones |
| SanityJs.ExpectedDistinct | src/parsers/parse-js-file.test.js:58-71 | the expected table has no name twice |
| SanityJs.FixtureExports | src/parsers/parse-js-file.test.js:58-71 | the adapter's exports for the fixture are exactly the table the test expects |
| SanityJs.FirstImports | src/__fixtures__/sanity-js.js:1 | the first import gives the default `DEF`, the plain `X` and `Y`, and the renamed `ZZZ` |
| SanityJs.LastImports | src/__fixtures__/sanity-js.js:31 | the type import gives the plain `ImportedType` |
| SanityJs.FixtureImports | src/parsers/parse-js-file.test.js:20-56 | the adapter's imports for the fixture are exactly the five the test expects, in order |
| Analyze.DialectOf | src/linters/analyze.js:43-53 | `.js`/`.mjs` select the JavaScript adapter and `.ts`/`.tsx` the TypeScript one, exactly |
| Analyze.GlobPattern | src/linters/analyze.js:20 | the glob starts with the root, adds `/` only when missing, and ends with the four-extension pattern |
| Analyze.Accepted | src/linters/analyze.js:39 | the accepted uris are exactly the matches `filterUri` accepts |
| Analyze.FileData | src/linters/analyze.js:40-53 | a successful read and parse yields data exactly when an adapter is selected |
| Analyze.Dispatched | src/linters/analyze.js:39-53 | the dispatched uris are exactly those an adapter is selected for |
| Analyze.Registry.constructor | src/linters/analyze.js:24 | the registry starts empty |
| Analyze.Registry.Push | src/linters/analyze.js:31-37 | a registered uri throws "Cannot check the same file twice" and leaves the map unchanged; a new one is appended with its data |
| Analyze.FilterMatches | src/linters/analyze.js:39 | the filter computes the accepted uris in order |
| Analyze.ReadAndParse | src/linters/analyze.js:40-60 | one file is read, dispatched and parsed, or its error is passed on |
| Analyze.Register | src/linters/analyze.js:31-37 | definition: `push(uri, data)` throws for a registered uri and sets a new one; stated by `Analyze.Registry.Push` and `Analyze.RepeatedFileThrows` |
| Analyze.Step | src/linters/analyze.js:39-60 | definition: one uri is read, handed to the adapter its extension selects, and registered; a uri no adapter is selected for registers nothing; stated by `Analyze.CutShort` and `Analyze.AnalyzeAllMeaning` |
| Analyze.AnalyzeAll | src/linters/analyze.js:39-61 | definition: the `forEach` over the accepted uris; its meaning is stated by `Analyze.AnalyzeAllMeaning`, `Analyze.AnalyzeAllOk` and `Analyze.AnalyzeAllShape` |
| Analyze.Analyzed | src/linters/analyze.js:18-65 | definition: what `analyze` returns or throws for the glob's matches; stated by `Analyze.AnalyzedMeaning` and computed by `Analyze.Analyze` |
| Analyze.Analyze | src/linters/analyze.js:18-65 | the loop computes what `analyze` returns or throws |
| Analyze.CutShort | src/linters/analyze.js:54-60 | once a file throws, the whole run throws that error |
| Analyze.AnalyzeAllMeaning | src/linters/analyze.js:31-64 | the run succeeds exactly when every file is read and parsed and no dispatched uri repeats; then the map holds the dispatched uris in order, each with its own data |
| Analyze.AnalyzeAllOk | src/linters/analyze.js:31-64 | the run succeeds exactly when every file is read and parsed and no dispatched uri repeats |
| Analyze.AnalyzeAllShape | src/linters/analyze.js:31-64 | a successful run holds the dispatched uris in order, none twice, each with its own data |
| Analyze.AnalyzedMeaning | src/linters/analyze.js:39-64 | a successful result registers exactly the matched uris the filter accepts and an adapter is selected for, none twice |
| Analyze.RepeatedFileThrows | src/linters/analyze.js:32-34 | a dispatched uri matched twice makes the run throw |
| Analyze.DispatchedKeepsOrder | src/linters/analyze.js:39-64 | a dispatched uri matched twice repeats among the dispatched uris |
| ParseTs.NodeNameOf | src/parse-ts.js:119-127 | the kind's name is the first member with that value, or the number when no member has it |
| ParseTs.GetNodeName | src/parse-ts.js:119-127 | the loop over the enum's keys computes that name |
| ParseTs.ElementNames | src/parse-ts.js:52-58 | a name is set aside exactly when an element imports it (its original name when renamed) |
| ParseTs.Ignored | src/parse-ts.js:45-61 | the ignored names are exactly those some import statement sets aside, wherever it stands |
| ParseTs.Push | src/parse-ts.js:28-39 | an ignored name records nothing; any other name is recorded at its statement's 1-based line |
| ParseTs.DeclaratorKey | src/parse-ts.js:87 | a declarator's key is a name exactly when it is an identifier; destructuring gives `undefined` |
| ParseTs.DeclaratorPushes | src/parse-ts.js:85-89 | every push is at the statement's line and of a name that is not ignored |
| ParseTs.DeclaratorPushesMembers | src/parse-ts.js:85-89 | exactly the declarators whose key is not ignored are pushed, under that key |
| ParseTs.DeclaratorPushesAppend | src/parse-ts.js:86 | declarators are pushed in order |
| ParseTs.DeclaratorPushesSingle | src/parse-ts.js:87 | one declarator pushes its key (`undefined` for destructuring) unless it is ignored |
| ParseTs.ElementPushes | src/parse-ts.js:98-100 | every push is at the statement's line and of a name that is not ignored |
| ParseTs.ElementPushesMembers | src/parse-ts.js:98-100 | exactly the elements whose name is not ignored are pushed, under that name |
| ParseTs.ElementPushesAppend | src/parse-ts.js:98 | elements are pushed in order |
| ParseTs.ElementPushesSingle | src/parse-ts.js:99 | one element pushes its name unless it is ignored |
| ParseTs.StatementPushes | src/parse-ts.js:76-107 | an unexported statement pushes nothing; an exported one pushes only unignored names at its line |
| ParseTs.PushOne | src/parse-ts.js:28-39 | the closure sets the push into the map |
| ParseTs.Exports | src/parse-ts.js:10-111 | definition: what `parseTs` returns or throws; its meaning is stated by `ParseTs.ExportsMeaning`, `ParseTs.ExportsError` and `ParseTs.ImportedNamesNeverExported` |
| ParseTs.ParseTs | src/parse-ts.js:10-111 | the two passes compute the exports map, or the error thrown |
| ParseTs.PushExported | src/parse-ts.js:63-108 | pass 2 sets every exported statement's pushes in order, or throws the first error |
| ParseTs.CollectIgnored | src/parse-ts.js:45-61 | pass 1 computes the ignored names |
| ParseTs.AddElementNames | src/parse-ts.js:52-58 | adds exactly the imported names of the elements: `a` for `a as b`, otherwise the element's name |
| ParseTs.PushStatement | src/parse-ts.js:76-107 | one statement's pushes are set into the map, or its error is thrown |
| ParseTs.PushDeclarators | src/parse-ts.js:86-88 | the declarator loop sets the declarators' pushes |
| ParseTs.PushElements | src/parse-ts.js:98-100 | the element loop sets the elements' pushes |
| ParseTs.ExportsMeaning | src/parse-ts.js:33-38 | when nothing throws, the map has distinct names, in order of first push, each with its last push's line |
| ParseTs.ExportsError | src/parse-ts.js:104-106 | the file throws exactly when an exported statement throws, with the first one's error |
| ParseTs.ImportedNamesNeverExported | src/parse-ts.js:29-61 | a name any `import { … }` of the file brings in is never in the result, whether imported before or after the export |
| ParseTs.NotPushed | src/parse-ts.js:29-31 | no push is of an ignored name |
| ParseTs.SilentForms | src/parse-ts.js:91-102 | re-exports with `from` and `export *` record nothing, for any module specifier; destructuring records `undefined` |
| ParseTs.ExportedDeclarationForms | src/parse-ts.js:77-83 | for every kind, name, alias and line: an exported declaration or type alias pushes its name at the statement's line + 1, unless an import sets the name aside |
| ParseTs.ExportedVariableForms | src/parse-ts.js:85-89 | for every declarator list: an exported variable statement pushes exactly the unignored declarator keys, each at the statement's line + 1 |
| ParseTs.ExportDeclarationForms | src/parse-ts.js:91-102 | `export { … }` without a module specifier pushes exactly the unignored element names at the statement's line + 1; with a module specifier, or without a clause, it pushes nothing |
| ParseTs.NamelessDeclarationThrows | src/parse-ts.js:82 | an exported declaration without a name throws reading `escapedText` of undefined |
| ParseTs.NamelessDeclarationMessage | src/parse-ts.js:82 | that error reads "Cannot read properties of undefined (reading 'escapedText')" |
| ParseTs.OtherKindThrows | src/parse-ts.js:104-106 | an exported statement of any other kind throws with the kind's name |
| ParseTs.OtherKindName | src/parse-ts.js:119-127 | kind 267 is named `ModuleDeclaration` when the enum lists it so |
| ParseTs.OtherKindMessage | src/parse-ts.js:106 | the error reads "statement of kind ModuleDeclaration isn't supported" |
| ParseJs.Push | src/parse-js.js:33-37 | `push` throws reading `start` of null exactly when the node has no location, and otherwise records its start line |
| ParseJs.IsRenamed | src/parse-js.js:52 | the renaming test throws exactly for the two proposal specifiers, which have no `local` |
| ParseJs.Renamed | src/parse-js.js:50-53 | the filter throws exactly when some specifier is a proposal specifier |
| ParseJs.RenamedMembers | src/parse-js.js:52-53 | the filter keeps exactly the exported names of specifiers whose local and exported names differ |
| ParseJs.RenamedPrefixError | src/parse-js.js:52 | once a specifier throws, the whole filter throws that error |
| ParseJs.ExportedPushes | src/parse-js.js:55-63 | a string-literal exported name is refused |
| ParseJs.SpecifierPushes | src/parse-js.js:46-65 | statements other than `export { … }` push nothing in pass 1 |
| ParseJs.PatternKey | src/parse-js.js:74 | a declarator's key is a name exactly when it is an identifier |
| ParseJs.DeclarationPushes | src/parse-js.js:72-90 | any other declaration type is refused with its type |
| ParseJs.DeclarationStatementPushes | src/parse-js.js:68-91 | only named exports with a declaration push in pass 2 |
| ParseJs.PushOne | src/parse-js.js:33-37 | the closure sets the push into the map, or throws |
| ParseJs.Exports | src/parse-js.js:23-94 | definition: what `parseJs` returns or throws; its meaning is stated by `ParseJs.ExportsMeaning` and `ParseJs.ExportsError` |
| ParseJs.ParseJs | src/parse-js.js:23-94 | the two passes compute the map, or the error thrown |
| ParseJs.PassOne | src/parse-js.js:46-65 | pass 1 sets the renamed specifiers' pushes, or throws the first error |
| ParseJs.FilterRenamed | src/parse-js.js:50-53 | the filter loop computes the renamed exported names |
| ParseJs.PushSpecifiers | src/parse-js.js:49-64 | one statement's pass-1 pushes are set, or its error is thrown |
| ParseJs.PassTwo | src/parse-js.js:68-91 | pass 2 sets the declarations' pushes into the map pass 1 left, or throws the first error |
| ParseJs.PushDeclaration | src/parse-js.js:72-90 | one declaration's pushes are set, or its error is thrown |
| ParseJs.ExportsMeaning | src/parse-js.js:46-91 | when nothing throws: each name once, where first pushed, with its last push's line, so a declaration overrides a renamed re-export |
| ParseJs.ExportsError | src/parse-js.js:46-91 | `parseJs` throws exactly when some statement throws in either pass; a pass-1 error wins and is the first failing statement's; otherwise it is the first failing statement's pass-2 error |
| ParseJs.SilentForms | src/parse-js.js:43-53 | `export { a }`, `export { a as a }` and default exports record nothing |
| ParseJs.DeclarationForms | src/parse-js.js:68-85 | pass 2 pushes a named declaration's result; a function, class, type alias or interface pushes its name at its own line, a missing location throws on `start`, and a nameless function or class throws on `name` |
| ParseJs.VariableDeclarationForms | src/parse-js.js:73-74 | for every declarator list: it throws exactly when a declarator has no location; otherwise it pushes exactly each declarator's key at its own line |
| ParseJs.VariableDeclarationOrder | src/parse-js.js:74 | declarators are pushed in order |
| ParseJs.RenamedForm | src/parse-js.js:52-58 | `export { a as b }` records `b` at `b`'s line, with or without `from` |
| ParseJs.ThrowingForms | src/parse-js.js:52-79 | a proposal specifier, a nameless class and a node without location throw their messages |
| Index.AsParseFileReturn | src/index.js:34-42 | a first-generation map reads as an exports table with the same names and lines, nothing private, and no imports |
| Index.AsFilesExports | src/index.js:55 | every parsed file keeps its uri and its converted table, in order |
| Index.FileLines | src/index.js:56-72 | a successful read and parse yields a map exactly when the extension selects a parser |
| Index.Tally.constructor | src/index.js:24-28 | the tally starts with no sightings and the given whitelist |
| Index.Tally.Push | src/index.js:34-53 | the tally gains each non-whitelisted entry of the file as a sighting, in map order |
| Index.Tally.Sight | src/index.js:38-51 | one sighting is added to the tables (third and later sightings as `{ uri, line }`, see Findings) |
| Index.ReadAndParse | src/index.js:56-76 | one file is read, dispatched and parsed, or its error is passed on |
| Index.Files | src/index.js:55-77 | definition: the parsed files in uri order, or the first error; stated by `Index.FilesCutShort` and `Index.FilesWellFormed` |
| Index.Duplications | src/index.js:34-53 | definition: the corrected tally, as `Check.Duplicates` over the converted tables; its meaning is stated by `Index.RanMeaning` |
| Index.Ran | src/index.js:22-77 | definition: the corrected report `main` computes, or the error that ends it; stated by `Index.RanMeaning` and computed by `Index.Run` |
| Index.Run | src/index.js:22-77 | the loop computes the corrected report (third and later sightings as `{ uri, line }`), or the error that ends the run; the uris pass `FilterUri.FilterUri`, the same test as `filterUri` at src/index.js:101-114 |
| Index.SightingsSnoc | src/index.js:55 | one more parsed file appends its sightings |
| Index.FilesCutShort | src/index.js:73-76 | once a file throws, the whole run throws that error |
| Index.FilesWellFormed | src/index.js:62-72 | every parsed map has distinct names |
| Index.LinesDistinct | src/index.js:62-72 | one parsed map has distinct names |
| Index.RanMeaning | src/index.js:34-77 | in the corrected report a name appears exactly when at least two parsed files export it and it is not whitelisted, with every such file's line in parse order |
| Index.StepAsWritten | src/index.js:43-51 | definition: `push` as written, where the third and later sightings append the bare uri; shown by `Index.ThirdSightingLosesLocation` |
| Index.FoldAsWritten | src/index.js:34-53 | definition: the as-written steps over all sightings; shown by `Index.ThirdSightingLosesLocation` |
| Index.Location | src/index.js:82-87 | definition: the location the report prints; a bare uri destructures to `undefined:undefined` |
| Index.ThirdSightingLosesLocation | src/index.js:44-45 | as written, a third file exporting `X` is reported as `undefined:undefined` |
| Index.ThirdSightingKeepsLocation | src/index.js:44-51 | corrected, the third file is reported with its uri and line like the first two |

## Left out

- Parsing itself is not modelled: Babel's `parse` and TypeScript's `createSourceFile` are inputs, and the model starts from their syntax trees. Babel's plugin list and the script kind are parser options.
- Globbing, `path.resolve` of the ignore patterns, `path.extname`, `path.dirname`, reading files and `minimatch` are inputs (the `Host` fields, `matches`, `ignorepath`). The model does not interpret glob syntax.
- Printing is not modelled: the `console` output, `process.exit(1)` and the `chalk` colouring of `main` (src/index.js:79-93), the development-only `console.error` of `analyze`, the unconditional one of `main`, and the `console.dir` of `parseTs` before it throws (src/parse-ts.js:105).
- The command-line front ends (`src/cli.js`, `bin/cli.js`, `src/cli/print.js`) only parse options and print; they are not part of this model.
- `src/parsers/ts-utils/has-private-js-doc-comment.js` is not modelled: a TypeScript statement's `isPrivate` is an input.
- `src/parsers/ts-utils/to-string.js` and the un-escaping of `escapedText` (a leading `___` for names that start with `__`) are not modelled. Names are taken as the parser spells them.
- ParseTs.NodeNameOf: the `SyntaxKind` enum's reverse-mapping entries are not listed, because their values are strings and never equal a kind number.
- Flow's `exportKind`/`importKind` (`export type { … }`, `import type { … }`) are not represented; the adapters treat those statements the same way either way.
- `src/linters/check.test.js`: its one test runs `analyze` and `check` on the fixture directory `prj-1-ts`, which is not part of this model, and is not restated. `Check.ScenarioTwoDeclarations`, `Check.ScenarioForwarding` and `Check.ScenarioRenamedImport` are worked examples of the rules in `src/linters/check.js`, not restatements of that test.
- `src/parsers/parse-ts-file.test.js` reads the fixture `src/__fixtures__/sanity-ts.ts`, which is not part of this model, so its expectations are not restated.
- Index.Tally.Sight: models the corrected `push`, which appends `data` for the third and later sightings; the code as written is `Index.StepAsWritten` (see Findings).
- Index.Run: computes the corrected report. `main` as written stores the bare uri from the third sighting on (src/index.js:45) and prints `undefined:undefined` for it; that fold is `Index.FoldAsWritten` (see Findings).
- Index.RanMeaning: states the corrected report. For `main` as written, "every such file's line" holds for the first two files only.
- Index.Duplications and Index.Ran: define the corrected report, not the one `main` prints as written.

## Findings

| source | as written | input that shows it | evidently intended | confidence | as-written member | corrected member |
|---|---|---|---|---|---|---|
| src/index.js:44-45 | a third or later sighting of a name pushes the bare `uri` string onto its list, where the first two are `{ uri, line }` records | three files `a.js`, `b.js`, `c.js` each exporting `X`: the report destructures `{ uri, line }` from `"c.js"` (src/index.js:84-86) and prints `undefined:undefined` for the third file | push `data`, as the second sighting does and as `check` does (src/linters/check.js:54) | not executed | Index.ThirdSightingLosesLocation | Index.ThirdSightingKeepsLocation |
