/** `main` (src/index.js), the first-generation detector: parse every accepted
    file with the first-generation parsers and tally the exported names across
    files in one pass. It is the later `check` without the import exemption
    and without privacy: a whitelisted name is skipped, any other name seen
    in two files is a duplication. */
module Index {
  import opened Base
  import opened OrderedMap
  import opened Data
  import BabelAst
  import TsAst
  import ParseJs
  import ParseTs
  import Check
  import Analyze

  /** One file's map as the later `check` reads it: no name is private, and
      the file imports nothing that could exempt a name. */
  function AsParseFileReturn(lines: LinesData): (r: ParseFileReturn)
    ensures |r.exports| == |lines| && r.imports == []
    ensures forall i :: 0 <= i < |lines| ==> r.exports[i] == (lines[i].0, ExportData(lines[i].1.line, false))
  {
    ParseFileReturn(seq(|lines|, i requires 0 <= i < |lines| => (lines[i].0, ExportData(lines[i].1.line, false))), [])
  }

  function AsFilesExports(files: seq<(string, LinesData)>): (r: Check.FilesExports)
    ensures |r| == |files|
    ensures forall f :: 0 <= f < |files| ==> r[f] == (files[f].0, AsParseFileReturn(files[f].1))
  {
    seq(|files|, f requires 0 <= f < |files| => (files[f].0, AsParseFileReturn(files[f].1)))
  }

  /** Reading and parsing one file with the first-generation parsers; `None`
      when the extension selects neither. */
  function FileLines(host: Analyze.Host, kinds: ParseTs.SyntaxKinds, uri: string): (r: Result<Option<LinesData>>)
    ensures r.Ok? ==> (r.value.Some? <==> Analyze.DialectOf(host.extname(uri)).Some?)
  {
    var code :- host.readFile(uri);
    match Analyze.DialectOf(host.extname(uri))
    case None => Ok(None)
    case Some(JsDialect) =>
      var sts :- host.parseJs(code, uri);
      var lines :- ParseJs.Exports(sts);
      Ok(Some(lines))
    case Some(TsDialect) =>
      var lines :- ParseTs.Exports(host.parseTs(code, uri), kinds);
      Ok(Some(lines))
  }

  /** The parsed files in order, or the first error thrown. */
  function Files(host: Analyze.Host, kinds: ParseTs.SyntaxKinds, uris: seq<string>): Result<seq<(string, LinesData)>> {
    if uris == [] then Ok([])
    else
      var files :- Files(host, kinds, uris[..|uris| - 1]);
      var uri := uris[|uris| - 1];
      var lines :- FileLines(host, kinds, uri);
      Ok(if lines.None? then files else files + [(uri, lines.value)])
  }

  /** The corrected report: the duplications `main` would report if the
      third and later sightings of a name were recorded like the first two.
      As written, `main` records those as the bare uri (see `StepAsWritten`). */
  function Duplications(files: seq<(string, LinesData)>, whitelist: seq<string>): Check.Duplications {
    Check.Duplicates(AsFilesExports(files), whitelist)
  }

  /** The corrected report `main` computes before printing, or the error
      that ends it. */
  function Ran(host: Analyze.Host, kinds: ParseTs.SyntaxKinds, ignorepath: seq<string>, whitelist: seq<string>, matches: seq<string>)
    : Result<Check.Duplications>
  {
    var files :- Files(host, kinds, Analyze.Accepted(ignorepath, matches, host.minimatch));
    Ok(Duplications(files, whitelist))
  }

  /** The two maps `push` fills, with the sightings seen so far. */
  class Tally {
    var usedExports: Entries<Key, Occurrence>
    var duplicationsExports: Check.Duplications
    const whitelist: seq<string>
    ghost var seen: seq<(Key, Occurrence)>

    ghost predicate Valid()
      reads this
    {
      Check.Tables(usedExports, duplicationsExports) == Check.Fold(seen)
    }

    constructor(whitelist: seq<string>)
      ensures Valid() && seen == [] && this.whitelist == whitelist
    {
      this.whitelist := whitelist;
      usedExports := [];
      duplicationsExports := [];
      seen := [];
    }

    /** `push(exportsData, uri)`: each entry not whitelisted is a sighting. */
    method Push(exportsData: LinesData, uri: string)
      requires Valid()
      modifies this
      ensures Valid()
      ensures seen == old(seen) + Check.FileSightings(uri, AsParseFileReturn(exportsData).exports, {}, whitelist)
    {
      ghost var exports := AsParseFileReturn(exportsData).exports;
      ghost var before := seen;
      for e := 0 to |exportsData|
        invariant Valid()
        invariant seen == before + Check.FileSightings(uri, exports[..e], {}, whitelist)
      {
        var (name, meta) := exportsData[e];
        Check.FileSightingsSnoc(uri, exports, e, {}, whitelist);
        if name.Name? && name.name in whitelist {
          continue;
        }
        Sight(name, Occurrence(uri, meta.line));
      }
      assert exports[..|exportsData|] == exports;
    }

    /** One sighting: first seen, second seen (open an entry), or later (append). */
    method Sight(name: Key, data: Occurrence)
      requires Valid()
      modifies this
      ensures Valid() && seen == old(seen) + [(name, data)]
    {
      var usedExport := Get(usedExports, name);
      if usedExport.None? {
        usedExports := Set(usedExports, name, data);
      } else {
        var duplicationsExport := Get(duplicationsExports, name);
        if duplicationsExport.None? {
          duplicationsExports := Set(duplicationsExports, name, [usedExport.value, data]);
        } else {
          duplicationsExports := Set(duplicationsExports, name, duplicationsExport.value + [data]);
        }
      }
      Check.FoldSnoc(seen, name, data);
      seen := seen + [(name, data)];
    }
  }

  /** Reads and parses one file, as `FileLines` states. */
  method ReadAndParse(host: Analyze.Host, kinds: ParseTs.SyntaxKinds, uri: string) returns (r: Result<Option<LinesData>>)
    ensures r == FileLines(host, kinds, uri)
  {
    var code := host.readFile(uri);
    if code.Err? {
      return Err(code.error);
    }
    var dialect := Analyze.DialectOf(host.extname(uri));
    if dialect == Some(Analyze.JsDialect) {
      var sts := host.parseJs(code.value, uri);
      if sts.Err? {
        return Err(sts.error);
      }
      var lines := ParseJs.ParseJs(sts.value);
      if lines.Err? {
        return Err(lines.error);
      }
      return Ok(Some(lines.value));
    } else if dialect == Some(Analyze.TsDialect) {
      var lines := ParseTs.ParseTs(host.parseTs(code.value, uri), kinds);
      if lines.Err? {
        return Err(lines.error);
      }
      return Ok(Some(lines.value));
    }
    return Ok(None);
  }

  /** `main` up to the report, with the corrected tally. */
  method Run(host: Analyze.Host, kinds: ParseTs.SyntaxKinds, ignorepath: seq<string>, whitelist: seq<string>, matches: seq<string>)
    returns (r: Result<Check.Duplications>)
    ensures r == Ran(host, kinds, ignorepath, whitelist, matches)
  {
    var accepted := Analyze.FilterMatches(ignorepath, matches, host.minimatch);
    var tally := new Tally(whitelist);
    for i := 0 to |accepted|
      invariant Files(host, kinds, accepted[..i]).Ok?
      invariant tally.Valid() && tally.whitelist == whitelist
      invariant tally.seen == Check.Sightings(AsFilesExports(Files(host, kinds, accepted[..i]).value), whitelist)
    {
      var uri := accepted[i];
      assert accepted[..i + 1][..i] == accepted[..i];
      var lines := ReadAndParse(host, kinds, uri);
      if lines.Err? {
        FilesCutShort(host, kinds, accepted, i + 1);
        return Err(lines.error);
      }
      if lines.value.Some? {
        var files := Files(host, kinds, accepted[..i]).value;
        SightingsSnoc(files, uri, lines.value.value, whitelist);
        tally.Push(lines.value.value, uri);
      }
    }
    assert accepted[..|accepted|] == accepted;
    return Ok(tally.duplicationsExports);
  }

  lemma SightingsSnoc(files: seq<(string, LinesData)>, uri: string, lines: LinesData, whitelist: seq<string>)
    ensures Check.Sightings(AsFilesExports(files + [(uri, lines)]), whitelist) ==
      Check.Sightings(AsFilesExports(files), whitelist) + Check.FileSightings(uri, AsParseFileReturn(lines).exports, {}, whitelist)
  {
    var all := AsFilesExports(files + [(uri, lines)]);
    assert all[..|files|] == AsFilesExports(files);
    assert Check.LocalImportsToIgnore([]) == {};
  }

  lemma {:induction false} FilesCutShort(host: Analyze.Host, kinds: ParseTs.SyntaxKinds, uris: seq<string>, i: nat)
    requires i <= |uris| && Files(host, kinds, uris[..i]).Err?
    ensures Files(host, kinds, uris) == Files(host, kinds, uris[..i])
    decreases |uris| - i
  {
    if i < |uris| {
      assert uris[..i + 1][..i] == uris[..i];
      FilesCutShort(host, kinds, uris, i + 1);
    } else {
      assert uris[..i] == uris;
    }
  }

  /** Every map a first-generation parser returns has distinct names. */
  lemma {:induction false} FilesWellFormed(host: Analyze.Host, kinds: ParseTs.SyntaxKinds, uris: seq<string>)
    requires Files(host, kinds, uris).Ok?
    ensures Check.WellFormed(AsFilesExports(Files(host, kinds, uris).value))
  {
    if uris != [] {
      var init, uri := uris[..|uris| - 1], uris[|uris| - 1];
      FilesWellFormed(host, kinds, init);
      var files := Files(host, kinds, init).value;
      var lines := FileLines(host, kinds, uri).value;
      if lines.Some? {
        LinesDistinct(host, kinds, uri);
        var all := AsFilesExports(files + [(uri, lines.value)]);
        forall f | 0 <= f < |all| ensures DistinctKeys(all[f].1.exports) {
          if f < |files| {
            assert all[f] == AsFilesExports(files)[f];
          } else {
            assert Keys(all[f].1.exports) == Keys(lines.value);
          }
        }
      }
    }
  }

  lemma LinesDistinct(host: Analyze.Host, kinds: ParseTs.SyntaxKinds, uri: string)
    requires FileLines(host, kinds, uri).Ok? && FileLines(host, kinds, uri).value.Some?
    ensures DistinctKeys(FileLines(host, kinds, uri).value.value)
  {
    var code := host.readFile(uri).value;
    if Analyze.DialectOf(host.extname(uri)) == Some(Analyze.JsDialect) {
      var sts := host.parseJs(code, uri).value;
      SetAllFromEmpty(Collect(sts, ParseJs.SpecifierPushes).value + Collect(sts, ParseJs.DeclarationStatementPushes).value);
    } else {
      ParseTs.ExportsMeaning(host.parseTs(code, uri), kinds);
    }
  }

  /** The corrected report: a name is
      reported exactly when at least two parsed files export it and it is not
      whitelisted, and its entry lists every such file with the line its
      parser recorded, in the order the files were parsed. */
  lemma RanMeaning(host: Analyze.Host, kinds: ParseTs.SyntaxKinds, ignorepath: seq<string>, whitelist: seq<string>, matches: seq<string>, k: Key)
    requires Ran(host, kinds, ignorepath, whitelist, matches).Ok?
    ensures var files := Files(host, kinds, Analyze.Accepted(ignorepath, matches, host.minimatch)).value;
      && DistinctKeys(Ran(host, kinds, ignorepath, whitelist, matches).value)
      && Get(Ran(host, kinds, ignorepath, whitelist, matches).value, k)
        == Check.Reported(Check.QualifyingOccurrences(AsFilesExports(files), whitelist, k))
  {
    var uris := Analyze.Accepted(ignorepath, matches, host.minimatch);
    FilesWellFormed(host, kinds, uris);
    Check.DuplicatesMeaning(AsFilesExports(Files(host, kinds, uris).value), whitelist);
  }

  /** An entry of `duplicationsExports` as `main` builds it: the first two
      sightings are `{ uri, line }` records, later ones the bare uri. */
  datatype Entry = Located(occurrence: Occurrence) | BareUri(uri: string)

  datatype TablesAsWritten = TablesAsWritten(usedExports: Entries<Key, Occurrence>, duplicationsExports: Entries<Key, seq<Entry>>)

  /** One sighting as `push` is written. */
  function StepAsWritten(t: TablesAsWritten, k: Key, data: Occurrence): TablesAsWritten {
    match Get(t.usedExports, k)
    case None => TablesAsWritten(Set(t.usedExports, k, data), t.duplicationsExports)
    case Some(usedExport) =>
      match Get(t.duplicationsExports, k)
      case None => TablesAsWritten(t.usedExports, Set(t.duplicationsExports, k, [Located(usedExport), Located(data)]))
      case Some(list) => TablesAsWritten(t.usedExports, Set(t.duplicationsExports, k, list + [BareUri(data.uri)]))
  }

  function FoldAsWritten(s: seq<(Key, Occurrence)>): TablesAsWritten {
    if s == [] then TablesAsWritten([], [])
    else StepAsWritten(FoldAsWritten(s[..|s| - 1]), s[|s| - 1].0, s[|s| - 1].1)
  }

  /** The location the report prints for an entry: destructuring `{ uri, line }`
      from a string yields `undefined` for both. */
  function Location(e: Entry): string {
    match e
    case Located(Occurrence(uri, line)) => uri + ":" + IntToString(line)
    case BareUri(_) => "undefined:undefined"
  }

  /** Three files exporting `X`: as written, the third file is reported as
      `undefined:undefined`. */
  lemma ThirdSightingLosesLocation()
    ensures var t := FoldAsWritten([(Name("X"), Occurrence("a.js", 1)), (Name("X"), Occurrence("b.js", 2)), (Name("X"), Occurrence("c.js", 3))]);
      && Get(t.duplicationsExports, Name("X"))
        == Some([Located(Occurrence("a.js", 1)), Located(Occurrence("b.js", 2)), BareUri("c.js")])
      && Location(Get(t.duplicationsExports, Name("X")).value[2]) == "undefined:undefined"
  {
    var x, a, b, c := Name("X"), Occurrence("a.js", 1), Occurrence("b.js", 2), Occurrence("c.js", 3);
    var s := [(x, a), (x, b), (x, c)];
    assert s[..2] == [(x, a), (x, b)];
    assert s[..2][..1] == [(x, a)];
    assert s[..2][..1][..0] == [];
    var t1 := FoldAsWritten(s[..2][..1]);
    assert t1 == StepAsWritten(TablesAsWritten([], []), x, a);
    assert t1 == TablesAsWritten([(x, a)], []);
    var t2 := FoldAsWritten(s[..2]);
    assert t2 == StepAsWritten(t1, x, b);
    assert t2 == TablesAsWritten([(x, a)], [(x, [Located(a), Located(b)])]);
    assert FoldAsWritten(s) == StepAsWritten(t2, x, c);
    assert Get(t2.usedExports, x) == Some(a);
    assert Get(t2.duplicationsExports, x) == Some([Located(a), Located(b)]);
    assert [Located(a), Located(b)] + [BareUri("c.js")] == [Located(a), Located(b), BareUri("c.js")];
    assert FoldAsWritten(s).duplicationsExports == [(x, [Located(a), Located(b), BareUri("c.js")])];
  }

  /** The same three files, corrected: the third is reported with its line
      like the first two. */
  lemma ThirdSightingKeepsLocation()
    ensures Get(Check.Fold([(Name("X"), Occurrence("a.js", 1)), (Name("X"), Occurrence("b.js", 2)), (Name("X"), Occurrence("c.js", 3))]).duplicationsExports, Name("X"))
      == Some([Occurrence("a.js", 1), Occurrence("b.js", 2), Occurrence("c.js", 3)])
  {
    var x, a, b, c := Name("X"), Occurrence("a.js", 1), Occurrence("b.js", 2), Occurrence("c.js", 3);
    var s := [(x, a), (x, b), (x, c)];
    assert s[..2] == [(x, a), (x, b)];
    assert s[..2][..1] == [(x, a)];
    assert s[..2][..1][..0] == [];
    var t1 := Check.Fold(s[..2][..1]);
    assert t1 == Check.Step(Check.Tables([], []), x, a);
    assert t1 == Check.Tables([(x, a)], []);
    var t2 := Check.Fold(s[..2]);
    assert t2 == Check.Step(t1, x, b);
    assert t2 == Check.Tables([(x, a)], [(x, [a, b])]);
    assert Check.Fold(s) == Check.Step(t2, x, c);
    assert Get(t2.usedExports, x) == Some(a);
    assert Get(t2.duplicationsExports, x) == Some([a, b]);
    assert [a, b] + [c] == [a, b, c];
    assert Check.Fold(s).duplicationsExports == [(x, [a, b, c])];
  }
}
