/** `analyze` (src/linters/analyze.js): parses every accepted source file once
    and collects what each file adapter returns, keyed by the file's uri.
    Globbing, `path.resolve` of the ignore patterns, reading files and the two
    parsers are collaborators the model receives in a `Host`. */
module Analyze {
  import opened Base
  import opened OrderedMap
  import opened Data
  import opened Strings
  import FilterUri
  import BabelAst
  import TsAst
  import ParseJsFile
  import ParseTsFile
  import Check

  /** The file adapter a file extension selects. */
  datatype Dialect = JsDialect | TsDialect

  /** The `switch (path.extname(uri))`: `.js` and `.mjs` go to the JavaScript
      adapter, `.ts` and `.tsx` to the TypeScript one, anything else to neither.
      The comparison is exact, so `.JS` selects nothing. */
  function DialectOf(ext: string): (d: Option<Dialect>)
    ensures d == Some(JsDialect) <==> ext in [".js", ".mjs"]
    ensures d == Some(TsDialect) <==> ext in [".ts", ".tsx"]
  {
    if ext == ".js" || ext == ".mjs" then Some(JsDialect)
    else if ext == ".ts" || ext == ".tsx" then Some(TsDialect)
    else None
  }

  /** What `analyze` calls out to: `minimatch`, `fs.readFileSync(uri).toString()`
      (which throws for a file it cannot read), `path.extname`, `path.dirname`,
      Babel's `parse` (which throws on a syntax error) and TypeScript's
      `createSourceFile` (which never throws), both given the code and the uri. */
  datatype Host = Host(
    minimatch: (string, string) -> bool,
    readFile: string -> Result<string>,
    extname: string -> string,
    dirname: string -> string,
    parseJs: (string, string) -> Result<seq<BabelAst.Statement>>,
    parseTs: (string, string) -> seq<TsAst.Statement>)

  /** The glob `analyze` hands to `glob.sync`: the root, a `/` unless the root
      already ends with one, and the pattern of the four script extensions.
      Globbing is a collaborator: the `matches` that `Analyzed` and `Analyze`
      receive are what `glob.sync(GlobPattern(rootUri))` returns. */
  function GlobPattern(rootUri: string): (p: string)
    ensures EndsWith(p, "/**/*.{js,mjs,ts,tsx}")
    ensures StartsWith(p, rootUri)
    ensures |p| == |rootUri| + (if EndsWith(rootUri, "/") then 0 else 1) + |"**/*.{js,mjs,ts,tsx}"|
  {
    var p := rootUri + (if EndsWith(rootUri, "/") then "" else "/") + "**/*.{js,mjs,ts,tsx}";
    assert p[..|rootUri|] == rootUri;
    assert p[|p| - |"/**/*.{js,mjs,ts,tsx}"|..] == "/**/*.{js,mjs,ts,tsx}";
    p
  }

  /** `matches.filter(filterUri.bind(undefined, ignorepath))`. */
  function Accepted(ignorepath: seq<string>, matches: seq<string>, minimatch: (string, string) -> bool): (r: seq<string>)
    ensures forall uri :: uri in r <==> uri in matches && FilterUri.FilterUri(ignorepath, uri, minimatch)
    ensures |r| <= |matches|
  {
    if matches == [] then []
    else
      var init := Accepted(ignorepath, matches[..|matches| - 1], minimatch);
      var last := matches[|matches| - 1];
      assert matches == matches[..|matches| - 1] + [last];
      if FilterUri.FilterUri(ignorepath, last, minimatch) then init + [last] else init
  }

  /** Reading and parsing one file, or the error either throws. `None` when
      the extension selects no adapter: the file is read and then skipped. */
  function FileData(host: Host, uri: string): (r: Result<Option<ParseFileReturn>>)
    ensures r.Ok? ==> (r.value.Some? <==> DialectOf(host.extname(uri)).Some?)
  {
    var code :- host.readFile(uri);
    match DialectOf(host.extname(uri))
    case None => Ok(None)
    case Some(JsDialect) =>
      var sts :- host.parseJs(code, uri);
      var data :- ParseJsFile.Parsed(host.dirname(uri), sts);
      Ok(Some(data))
    case Some(TsDialect) =>
      Ok(Some(ParseTsFile.Parsed(host.dirname(uri), host.parseTs(code, uri))))
  }

  /** `push(uri, exportsData)`: a uri already present throws, a new one is
      added. */
  function Register(m: Check.FilesExports, uri: string, data: ParseFileReturn): Result<Check.FilesExports> {
    if Get(m, uri).Some? then Err(DuplicateFile) else Ok(Set(m, uri, data))
  }

  /** The body of the `forEach` for one uri. */
  function Step(host: Host, m: Check.FilesExports, uri: string): Result<Check.FilesExports> {
    var data :- FileData(host, uri);
    if data.None? then Ok(m) else Register(m, uri, data.value)
  }

  /** The `forEach` over the accepted uris. */
  function AnalyzeAll(host: Host, uris: seq<string>): Result<Check.FilesExports> {
    if uris == [] then Ok([])
    else
      var m :- AnalyzeAll(host, uris[..|uris| - 1]);
      Step(host, m, uris[|uris| - 1])
  }

  /** What `analyze` returns or throws for the glob's `matches` and the
      resolved `ignorepath`. */
  function Analyzed(host: Host, ignorepath: seq<string>, matches: seq<string>): Result<Check.FilesExports> {
    AnalyzeAll(host, Accepted(ignorepath, matches, host.minimatch))
  }

  /** The uris an adapter is selected for, in order. */
  function Dispatched(host: Host, uris: seq<string>): (r: seq<string>)
    ensures forall uri :: uri in r <==> uri in uris && DialectOf(host.extname(uri)).Some?
  {
    if uris == [] then []
    else
      var init := Dispatched(host, uris[..|uris| - 1]);
      var last := uris[|uris| - 1];
      assert uris == uris[..|uris| - 1] + [last];
      if DialectOf(host.extname(last)).Some? then init + [last] else init
  }

  /** `filesExports`, the `Map` `analyze` fills. */
  class Registry {
    var filesExports: Check.FilesExports

    ghost predicate Valid()
      reads this
    {
      DistinctKeys(filesExports)
    }

    constructor()
      ensures filesExports == [] && Valid()
    {
      filesExports := [];
    }

    /** `push`: throws for a uri already registered and leaves the map as it
        was; otherwise appends the uri with its data. */
    method Push(uri: string, data: ParseFileReturn) returns (outcome: Outcome)
      requires Valid()
      modifies this
      ensures Valid()
      ensures outcome.Fail? <==> uri in Keys(old(filesExports))
      ensures outcome.Fail? ==> outcome.error == DuplicateFile && filesExports == old(filesExports)
      ensures outcome.Pass? ==> filesExports == old(filesExports) + [(uri, data)]
      ensures outcome == Pass <==> Register(old(filesExports), uri, data) == Ok(filesExports)
    {
      if Get(filesExports, uri).Some? {
        return Fail(DuplicateFile);
      }
      SetNew(filesExports, uri, data);
      filesExports := Set(filesExports, uri, data);
      return Pass;
    }
  }

  /** The filter: the accepted uris in their order. */
  method FilterMatches(ignorepath: seq<string>, matches: seq<string>, minimatch: (string, string) -> bool)
    returns (accepted: seq<string>)
    ensures accepted == Accepted(ignorepath, matches, minimatch)
  {
    accepted := [];
    for i := 0 to |matches|
      invariant accepted == Accepted(ignorepath, matches[..i], minimatch)
    {
      assert matches[..i + 1][..i] == matches[..i];
      if FilterUri.FilterUri(ignorepath, matches[i], minimatch) {
        accepted := accepted + [matches[i]];
      }
    }
    assert matches[..|matches|] == matches;
  }

  /** Reads and parses one file, as `FileData` states. */
  method ReadAndParse(host: Host, uri: string) returns (r: Result<Option<ParseFileReturn>>)
    ensures r == FileData(host, uri)
  {
    var code := host.readFile(uri);
    if code.Err? {
      return Err(code.error);
    }
    var dialect := DialectOf(host.extname(uri));
    if dialect == Some(JsDialect) {
      var sts := host.parseJs(code.value, uri);
      if sts.Err? {
        return Err(sts.error);
      }
      var data := ParseJsFile.ParseJsFile(host.dirname(uri), sts.value);
      if data.Err? {
        return Err(data.error);
      }
      return Ok(Some(data.value));
    } else if dialect == Some(TsDialect) {
      var data := ParseTsFile.ParseTsFile(host.dirname(uri), host.parseTs(code.value, uri));
      return Ok(Some(data));
    }
    return Ok(None);
  }

  /** `analyze`. */
  method Analyze(host: Host, ignorepath: seq<string>, matches: seq<string>) returns (r: Result<Check.FilesExports>)
    ensures r == Analyzed(host, ignorepath, matches)
  {
    var accepted := FilterMatches(ignorepath, matches, host.minimatch);
    var registry := new Registry();
    for i := 0 to |accepted|
      invariant registry.Valid()
      invariant AnalyzeAll(host, accepted[..i]) == Ok(registry.filesExports)
    {
      var uri := accepted[i];
      AnalyzeAllSnoc(host, accepted, i);
      var data := ReadAndParse(host, uri);
      if data.Err? {
        CutShort(host, accepted, i + 1);
        return Err(data.error);
      }
      if data.value.Some? {
        var outcome := registry.Push(uri, data.value.value);
        if outcome.Fail? {
          CutShort(host, accepted, i + 1);
          return Err(outcome.error);
        }
      }
    }
    assert accepted[..|accepted|] == accepted;
    return Ok(registry.filesExports);
  }

  /** One more uri runs one more `Step` on what the prefix registered. */
  lemma AnalyzeAllSnoc(host: Host, uris: seq<string>, i: int)
    requires 0 <= i < |uris| && AnalyzeAll(host, uris[..i]).Ok?
    ensures AnalyzeAll(host, uris[..i + 1]) == Step(host, AnalyzeAll(host, uris[..i]).value, uris[i])
  {
    assert uris[..i + 1][..i] == uris[..i];
  }

  /** Once a prefix of the uris throws, `analyze` throws the same error. */
  lemma {:induction false} CutShort(host: Host, uris: seq<string>, i: nat)
    requires i <= |uris| && AnalyzeAll(host, uris[..i]).Err?
    ensures AnalyzeAll(host, uris) == AnalyzeAll(host, uris[..i])
    decreases |uris| - i
  {
    if i < |uris| {
      assert uris[..i + 1][..i] == uris[..i];
      CutShort(host, uris, i + 1);
    } else {
      assert uris[..i] == uris;
    }
  }

  /** A successful run registers the dispatched uris in their order, each
      with its own data. */
  lemma {:induction false} AnalyzeAllShape(host: Host, uris: seq<string>)
    requires AnalyzeAll(host, uris).Ok?
    ensures var m := AnalyzeAll(host, uris).value;
      && DistinctKeys(m)
      && Keys(m) == Dispatched(host, uris)
      && (forall i :: 0 <= i < |m| ==> FileData(host, m[i].0) == Ok(Some(m[i].1)))
  {
    if uris != [] {
      var init, last := uris[..|uris| - 1], uris[|uris| - 1];
      AnalyzeAllShape(host, init);
      var m := AnalyzeAll(host, init).value;
      var data := FileData(host, last).value;
      if data.Some? {
        assert Dispatched(host, uris) == Dispatched(host, init) + [last];
        assert last !in Keys(m);
        SetNew(m, last, data.value);
        var m' := m + [(last, data.value)];
        assert Keys(m') == Keys(m) + [last];
        DistinctSnoc(Keys(m), last);
        assert forall i :: 0 <= i < |m| ==> m'[i] == m[i];
      } else {
        assert Dispatched(host, uris) == Dispatched(host, init);
      }
    }
  }

  /** `analyze` succeeds exactly when every file is read and parsed and no
      dispatched uri repeats. */
  lemma {:induction false} AnalyzeAllOk(host: Host, uris: seq<string>)
    ensures AnalyzeAll(host, uris).Ok? <==>
      (forall i :: 0 <= i < |uris| ==> FileData(host, uris[i]).Ok?) && Distinct(Dispatched(host, uris))
  {
    if uris != [] {
      var init, last := uris[..|uris| - 1], uris[|uris| - 1];
      AnalyzeAllOk(host, init);
      assert forall i :: 0 <= i < |init| ==> init[i] == uris[i];
      var d := Dispatched(host, init);
      if FileData(host, last).Ok? && FileData(host, last).value.Some? {
        assert Dispatched(host, uris) == d + [last];
        DistinctSnoc(d, last);
        if AnalyzeAll(host, init).Ok? {
          AnalyzeAllShape(host, init);
        }
      } else if FileData(host, last).Ok? {
        assert Dispatched(host, uris) == d;
      } else {
        assert !FileData(host, uris[|uris| - 1]).Ok?;
      }
    }
  }

  /** The registered files in full: `analyze` succeeds exactly when every
      accepted file is read and parsed and no dispatched uri repeats; then the
      map holds the dispatched uris in their order, each with its own data. */
  lemma AnalyzeAllMeaning(host: Host, uris: seq<string>)
    ensures AnalyzeAll(host, uris).Ok? <==>
      (forall i :: 0 <= i < |uris| ==> FileData(host, uris[i]).Ok?) && Distinct(Dispatched(host, uris))
    ensures AnalyzeAll(host, uris).Ok? ==>
      var m := AnalyzeAll(host, uris).value;
      && DistinctKeys(m)
      && Keys(m) == Dispatched(host, uris)
      && (forall i :: 0 <= i < |m| ==> FileData(host, m[i].0) == Ok(Some(m[i].1)))
  {
    AnalyzeAllOk(host, uris);
    if AnalyzeAll(host, uris).Ok? {
      AnalyzeAllShape(host, uris);
    }
  }

  /** What `analyze` returns: exactly the files the filter accepts and an
      adapter is selected for, none twice; a uri the filter rejects is never
      registered, whatever its contents. */
  lemma AnalyzedMeaning(host: Host, ignorepath: seq<string>, matches: seq<string>)
    requires Analyzed(host, ignorepath, matches).Ok?
    ensures var m := Analyzed(host, ignorepath, matches).value;
      && DistinctKeys(m)
      && Keys(m) == Dispatched(host, Accepted(ignorepath, matches, host.minimatch))
      && (forall uri :: uri in Keys(m) <==>
            uri in matches && FilterUri.FilterUri(ignorepath, uri, host.minimatch) && DialectOf(host.extname(uri)).Some?)
      && (forall i :: 0 <= i < |m| ==> FileData(host, m[i].0) == Ok(Some(m[i].1)))
  {
    AnalyzeAllMeaning(host, Accepted(ignorepath, matches, host.minimatch));
  }

  /** A file matched twice by the glob, and dispatched to an adapter, makes
      `analyze` throw "Cannot check the same file twice" unless an earlier
      file throws first. */
  lemma {:induction false} RepeatedFileThrows(host: Host, uris: seq<string>, i: int, j: int)
    requires 0 <= i < j < |uris| && uris[i] == uris[j]
    requires DialectOf(host.extname(uris[i])).Some?
    ensures AnalyzeAll(host, uris).Err?
  {
    AnalyzeAllMeaning(host, uris);
    if AnalyzeAll(host, uris).Ok? {
      DispatchedKeepsOrder(host, uris, i, j);
    }
  }

  lemma {:induction false} DispatchedKeepsOrder(host: Host, uris: seq<string>, i: int, j: int)
    requires 0 <= i < j < |uris| && uris[i] == uris[j]
    requires DialectOf(host.extname(uris[i])).Some?
    ensures !Distinct(Dispatched(host, uris))
  {
    var init, last := uris[..|uris| - 1], uris[|uris| - 1];
    var d := Dispatched(host, init);
    assert forall k :: 0 <= k < |init| ==> init[k] == uris[k];
    if j < |uris| - 1 {
      DispatchedKeepsOrder(host, init, i, j);
      if DialectOf(host.extname(last)).Some? {
        assert Dispatched(host, uris) == d + [last];
        DistinctSnoc(d, last);
      }
    } else {
      assert uris[i] in init;
      assert Dispatched(host, uris) == d + [last];
      DistinctSnoc(d, last);
    }
  }
}
