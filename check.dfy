/** `check` (src/linters/check.js): folds the per-file tables into the map of
    duplicated export names. */
module Check {
  import opened Base
  import opened OrderedMap
  import opened Data

  /** `Map<string, ParseFileReturn>`, in registration order. */
  type FilesExports = Entries<string, ParseFileReturn>

  /** The result: `Map<string, Data[]>`. */
  type Duplications = Entries<Key, seq<Occurrence>>

  /** The two maps `check` builds as it goes. */
  datatype Tables = Tables(usedExports: Entries<Key, Occurrence>, duplicationsExports: Duplications)

  /** An import that imports a name verbatim: neither default nor renamed. */
  predicate IsPlainNamed(i: ImportData) {
    !i.isDefault && !i.isRenamed
  }

  /** `localImportsToIgnore`: the names of a file's plain named imports. */
  function LocalImportsToIgnore(imports: seq<ImportData>): (ignore: set<string>)
    ensures forall n :: n in ignore <==> exists i :: 0 <= i < |imports| && IsPlainNamed(imports[i]) && imports[i].name == n
  {
    if imports == [] then {}
    else
      var last := imports[|imports| - 1];
      var init := LocalImportsToIgnore(imports[..|imports| - 1]);
      assert forall i :: 0 <= i < |imports| - 1 ==> imports[..|imports| - 1][i] == imports[i];
      if IsPlainNamed(last) then init + {last.name} else init
  }

  /** The two `continue`s: a whitelisted name, or a name the file imports
      verbatim. `undefined` is in neither set. */
  predicate Skipped(k: Key, whitelist: seq<string>, ignore: set<string>) {
    k.Name? && (k.name in whitelist || k.name in ignore)
  }

  /** The (name, occurrence) pairs that reach the first-seen/open/append logic
      while one file's exports are visited, in map order. */
  function FileSightings(uri: string, exports: ExportsData, ignore: set<string>, whitelist: seq<string>): seq<(Key, Occurrence)> {
    if exports == [] then []
    else
      var init := FileSightings(uri, exports[..|exports| - 1], ignore, whitelist);
      var (k, meta) := exports[|exports| - 1];
      if Skipped(k, whitelist, ignore) then init else init + [(k, Occurrence(uri, meta.line))]
  }

  /** All qualifying sightings, files in map order. */
  function Sightings(files: FilesExports, whitelist: seq<string>): seq<(Key, Occurrence)> {
    if files == [] then []
    else
      var (uri, fileExports) := files[|files| - 1];
      Sightings(files[..|files| - 1], whitelist)
        + FileSightings(uri, fileExports.exports, LocalImportsToIgnore(fileExports.imports), whitelist)
  }

  /** One sighting: first seen, second seen (open an entry), or later (append). */
  function Step(t: Tables, k: Key, data: Occurrence): Tables {
    match Get(t.usedExports, k)
    case None => Tables(Set(t.usedExports, k, data), t.duplicationsExports)
    case Some(usedExport) =>
      match Get(t.duplicationsExports, k)
      case None => Tables(t.usedExports, Set(t.duplicationsExports, k, [usedExport, data]))
      case Some(list) => Tables(t.usedExports, Set(t.duplicationsExports, k, list + [data]))
  }

  function Fold(s: seq<(Key, Occurrence)>): Tables {
    if s == [] then Tables([], [])
    else Step(Fold(s[..|s| - 1]), s[|s| - 1].0, s[|s| - 1].1)
  }

  /** What `check` returns. */
  function Duplicates(files: FilesExports, whitelist: seq<string>): Duplications {
    Fold(Sightings(files, whitelist)).duplicationsExports
  }

  /** The occurrences of `k` among the sightings, in order. */
  function OccurrencesOf(s: seq<(Key, Occurrence)>, k: Key): seq<Occurrence> {
    if s == [] then []
    else
      var init := OccurrencesOf(s[..|s| - 1], k);
      if s[|s| - 1].0 == k then init + [s[|s| - 1].1] else init
  }

  /** The names in the order in which each is sighted for the second time. */
  function SecondSightings(s: seq<(Key, Occurrence)>): seq<Key> {
    if s == [] then []
    else
      var init := s[..|s| - 1];
      var k := s[|s| - 1].0;
      if |OccurrencesOf(init, k)| == 1 then SecondSightings(init) + [k] else SecondSightings(init)
  }

  lemma {:induction false} SecondSightingsMembers(s: seq<(Key, Occurrence)>, k: Key)
    ensures k in SecondSightings(s) <==> |OccurrencesOf(s, k)| >= 2
  {
    if s != [] {
      SecondSightingsMembers(s[..|s| - 1], k);
    }
  }

  /** `usedExports` holds each name's first sighting, keys in order of first
      sighting. */
  lemma FoldUsedExports(s: seq<(Key, Occurrence)>)
    ensures DistinctKeys(Fold(s).usedExports)
    ensures Keys(Fold(s).usedExports) == Dedup(Keys(s))
    ensures forall k :: Get(Fold(s).usedExports, k) == if |OccurrencesOf(s, k)| >= 1 then Some(OccurrencesOf(s, k)[0]) else None
  {
    FoldUsedKeys(s);
    FoldUsedFirst(s);
  }

  /** The keys of `usedExports` are the sighted names without repetition. */
  lemma {:induction false} FoldUsedKeys(s: seq<(Key, Occurrence)>)
    ensures DistinctKeys(Fold(s).usedExports)
    ensures Keys(Fold(s).usedExports) == Dedup(Keys(s))
  {
    if s == [] {
      assert Keys(s) == [];
    } else {
      var init := s[..|s| - 1];
      var (k, data) := s[|s| - 1];
      FoldUsedKeys(init);
      assert Keys(s)[..|s| - 1] == Keys(init);
      AppendNewMembers([], Keys(init), k);
      var t := Fold(init);
      assert Fold(s) == Step(t, k, data);
      if Get(t.usedExports, k).None? {
        assert Fold(s).usedExports == Set(t.usedExports, k, data);
      } else {
        assert Fold(s).usedExports == t.usedExports;
      }
    }
  }

  /** `usedExports` maps each sighted name to its first occurrence. */
  lemma {:induction false} FoldUsedFirst(s: seq<(Key, Occurrence)>)
    ensures forall k :: Get(Fold(s).usedExports, k) == if |OccurrencesOf(s, k)| >= 1 then Some(OccurrencesOf(s, k)[0]) else None
  {
    if s != [] {
      var init := s[..|s| - 1];
      var (k, data) := s[|s| - 1];
      FoldUsedFirst(init);
      var t := Fold(init);
      assert Fold(s) == Step(t, k, data);
      forall k' ensures Get(Fold(s).usedExports, k') == if |OccurrencesOf(s, k')| >= 1 then Some(OccurrencesOf(s, k')[0]) else None {
        if k' != k {
          assert OccurrencesOf(s, k') == OccurrencesOf(init, k');
        } else {
          assert OccurrencesOf(s, k) == OccurrencesOf(init, k) + [data];
        }
      }
    }
  }

  /** `duplicationsExports` holds exactly the names sighted at least twice,
      each with all its sightings in order, keys in order of second sighting. */
  lemma {:induction false} FoldDuplications(s: seq<(Key, Occurrence)>)
    ensures DistinctKeys(Fold(s).duplicationsExports)
    ensures Keys(Fold(s).duplicationsExports) == SecondSightings(s)
    ensures forall k :: Get(Fold(s).duplicationsExports, k) == if |OccurrencesOf(s, k)| >= 2 then Some(OccurrencesOf(s, k)) else None
  {
    if s != [] {
      var init := s[..|s| - 1];
      var (k, data) := s[|s| - 1];
      FoldDuplications(init);
      FoldUsedExports(init);
      SecondSightingsMembers(init, k);
      var occ := OccurrencesOf(init, k);
      assert Fold(s) == Step(Fold(init), k, data);
      StepDuplications(Fold(init), k, data, occ);
      assert OccurrencesOf(s, k) == occ + [data];
      forall k' | k' != k ensures OccurrencesOf(s, k') == OccurrencesOf(init, k') {
      }
    }
  }

  /** One step of the fold, on the duplications table. */
  lemma StepDuplications(t: Tables, k: Key, data: Occurrence, occ: seq<Occurrence>)
    requires DistinctKeys(t.duplicationsExports)
    requires Get(t.usedExports, k) == if |occ| >= 1 then Some(occ[0]) else None
    requires Get(t.duplicationsExports, k) == if |occ| >= 2 then Some(occ) else None
    ensures DistinctKeys(Step(t, k, data).duplicationsExports)
    ensures Get(Step(t, k, data).duplicationsExports, k) == if |occ| >= 1 then Some(occ + [data]) else None
    ensures forall k' :: k' != k ==> Get(Step(t, k, data).duplicationsExports, k') == Get(t.duplicationsExports, k')
    ensures Keys(Step(t, k, data).duplicationsExports) == if |occ| == 1 then Keys(t.duplicationsExports) + [k] else Keys(t.duplicationsExports)
  {
    if |occ| == 0 {
      assert Step(t, k, data).duplicationsExports == t.duplicationsExports;
    } else if |occ| == 1 {
      assert [occ[0], data] == occ + [data];
      assert Step(t, k, data).duplicationsExports == Set(t.duplicationsExports, k, [occ[0], data]);
    } else {
      assert Step(t, k, data).duplicationsExports == Set(t.duplicationsExports, k, occ + [data]);
    }
  }

  /** Every entry of the result has at least two occurrences. */
  lemma EntriesHaveTwoOccurrences(s: seq<(Key, Occurrence)>)
    ensures forall i :: 0 <= i < |Fold(s).duplicationsExports| ==> |Fold(s).duplicationsExports[i].1| >= 2
  {
    var d := Fold(s).duplicationsExports;
    FoldDuplications(s);
    forall i | 0 <= i < |d| ensures |d[i].1| >= 2 {
      var k := d[i].0;
      assert Keys(d)[i] == k;
      assert DistinctKeys(d);
      EntryIsGet(d, i);
    }
  }

  lemma {:induction false} OccurrencesPrefix(s: seq<(Key, Occurrence)>, k: Key)
    ensures |OccurrencesOf(s, k)| <= |s|
  {
    if s != [] {
      OccurrencesPrefix(s[..|s| - 1], k);
    }
  }

  lemma {:induction false} OccurrencesNonEmpty(s: seq<(Key, Occurrence)>, k: Key)
    ensures |OccurrencesOf(s, k)| >= 1 <==> k in Keys(s)
  {
    if s != [] {
      OccurrencesNonEmpty(s[..|s| - 1], k);
      assert Keys(s) == Keys(s[..|s| - 1]) + [s[|s| - 1].0];
    }
  }

  /** With distinct keys, `Get` finds each entry. */
  lemma EntryIsGet<V>(m: Entries<Key, V>, i: int)
    requires DistinctKeys(m) && 0 <= i < |m|
    ensures Get(m, m[i].0) == Some(m[i].1)
  {
    assert Keys(m)[i] == m[i].0;
    var r := Get(m, m[i].0);
    var j :| 0 <= j < |m| && m[j] == (m[i].0, r.value);
    assert Keys(m)[i] == Keys(m)[j];
  }

  /** `check(filesExports, { whitelist })`. The input list is a value: it is
      only read. */
  method Check(filesExports: FilesExports, whitelist: seq<string>) returns (duplicationsExports: Duplications)
    ensures duplicationsExports == Duplicates(filesExports, whitelist)
    ensures DistinctKeys(duplicationsExports)
    ensures forall i :: 0 <= i < |duplicationsExports| ==> |duplicationsExports[i].1| >= 2
    ensures forall n :: n in whitelist ==> Name(n) !in Keys(duplicationsExports)
  {
    var usedExports: Entries<Key, Occurrence> := [];
    duplicationsExports := [];
    for f := 0 to |filesExports|
      invariant Tables(usedExports, duplicationsExports) == Fold(Sightings(filesExports[..f], whitelist))
    {
      var (uri, fileExports) := filesExports[f];
      SightingsSnoc(filesExports, f, whitelist);
      usedExports, duplicationsExports := SightFile(usedExports, duplicationsExports, uri, fileExports, whitelist,
        Sightings(filesExports[..f], whitelist));
    }
    assert filesExports[..|filesExports|] == filesExports;
    DuplicatesInvariants(filesExports, whitelist);
  }

  /** The inner loop of `check`, over one file's exports. */
  method SightFile(usedExports: Entries<Key, Occurrence>, duplicationsExports: Duplications, uri: string,
                   fileExports: ParseFileReturn, whitelist: seq<string>, ghost seen: seq<(Key, Occurrence)>)
    returns (usedExports': Entries<Key, Occurrence>, duplicationsExports': Duplications)
    requires Tables(usedExports, duplicationsExports) == Fold(seen)
    ensures Tables(usedExports', duplicationsExports') ==
      Fold(seen + FileSightings(uri, fileExports.exports, LocalImportsToIgnore(fileExports.imports), whitelist))
  {
    usedExports', duplicationsExports' := usedExports, duplicationsExports;
    var localImportsToIgnore := LocalImportsToIgnore(fileExports.imports);
    var exports := fileExports.exports;
    ghost var cur := seen;
    for e := 0 to |exports|
      invariant cur == seen + FileSightings(uri, exports[..e], localImportsToIgnore, whitelist)
      invariant Tables(usedExports', duplicationsExports') == Fold(cur)
    {
      var (exportName, meta) := exports[e];
      FileSightingsSnoc(uri, exports, e, localImportsToIgnore, whitelist);
      ghost var step := if Skipped(exportName, whitelist, localImportsToIgnore) then [] else [(exportName, Occurrence(uri, meta.line))];
      ConcatAssoc(seen, FileSightings(uri, exports[..e], localImportsToIgnore, whitelist), step);
      usedExports', duplicationsExports' := SightExport(usedExports', duplicationsExports', uri, exportName, meta,
        localImportsToIgnore, whitelist, cur);
      cur := cur + step;
    }
    assert exports[..|exports|] == exports;
  }

  /** The body of `check`'s inner loop, for one export of a file. */
  method SightExport(usedExports: Entries<Key, Occurrence>, duplicationsExports: Duplications, uri: string,
                     exportName: Key, meta: ExportData, localImportsToIgnore: set<string>, whitelist: seq<string>,
                     ghost seen: seq<(Key, Occurrence)>)
    returns (usedExports': Entries<Key, Occurrence>, duplicationsExports': Duplications)
    requires Tables(usedExports, duplicationsExports) == Fold(seen)
    ensures Tables(usedExports', duplicationsExports') ==
      Fold(seen + if Skipped(exportName, whitelist, localImportsToIgnore) then [] else [(exportName, Occurrence(uri, meta.line))])
  {
    usedExports', duplicationsExports' := usedExports, duplicationsExports;
    if exportName.Name? && exportName.name in whitelist {
      assert seen + [] == seen;
      return;
    }
    if exportName.Name? && exportName.name in localImportsToIgnore {
      assert seen + [] == seen;
      return;
    }
    var data := Occurrence(uri, meta.line);
    usedExports', duplicationsExports' := Sight(usedExports, duplicationsExports, exportName, data);
    FoldSnoc(seen, exportName, data);
  }

  /** The first-seen/open/append logic for one sighting. */
  method Sight(usedExports: Entries<Key, Occurrence>, duplicationsExports: Duplications, exportName: Key, data: Occurrence)
    returns (usedExports': Entries<Key, Occurrence>, duplicationsExports': Duplications)
    ensures Tables(usedExports', duplicationsExports') == Step(Tables(usedExports, duplicationsExports), exportName, data)
  {
    usedExports', duplicationsExports' := usedExports, duplicationsExports;
    var usedExport := Get(usedExports, exportName);
    if usedExport.None? {
      usedExports' := Set(usedExports, exportName, data);
    } else {
      var duplicationsExport := Get(duplicationsExports, exportName);
      if duplicationsExport.None? {
        duplicationsExports' := Set(duplicationsExports, exportName, [usedExport.value, data]);
      } else {
        duplicationsExports' := Set(duplicationsExports, exportName, duplicationsExport.value + [data]);
      }
    }
  }

  lemma FoldSnoc(s: seq<(Key, Occurrence)>, k: Key, data: Occurrence)
    ensures Fold(s + [(k, data)]) == Step(Fold(s), k, data)
  {
    assert (s + [(k, data)])[..|s|] == s;
  }

  lemma SightingsSnoc(files: FilesExports, f: int, whitelist: seq<string>)
    requires 0 <= f < |files|
    ensures Sightings(files[..f + 1], whitelist) == Sightings(files[..f], whitelist)
      + FileSightings(files[f].0, files[f].1.exports, LocalImportsToIgnore(files[f].1.imports), whitelist)
  {
    assert files[..f + 1][..f] == files[..f];
  }

  lemma FileSightingsSnoc(uri: string, exports: ExportsData, e: int, ignore: set<string>, whitelist: seq<string>)
    requires 0 <= e < |exports|
    ensures FileSightings(uri, exports[..e + 1], ignore, whitelist) ==
      FileSightings(uri, exports[..e], ignore, whitelist)
        + (if Skipped(exports[e].0, whitelist, ignore) then [] else [(exports[e].0, Occurrence(uri, exports[e].1.line))])
  {
    assert exports[..e + 1][..e] == exports[..e];
  }

  /** What every result of `check` satisfies: distinct names, at least two
      occurrences per name, and no whitelisted name. */
  lemma DuplicatesInvariants(files: FilesExports, whitelist: seq<string>)
    ensures DistinctKeys(Duplicates(files, whitelist))
    ensures forall i :: 0 <= i < |Duplicates(files, whitelist)| ==> |Duplicates(files, whitelist)[i].1| >= 2
    ensures forall n :: n in whitelist ==> Name(n) !in Keys(Duplicates(files, whitelist))
  {
    FoldDuplications(Sightings(files, whitelist));
    EntriesHaveTwoOccurrences(Sightings(files, whitelist));
    forall n | n in whitelist ensures Name(n) !in Keys(Duplicates(files, whitelist)) {
      WhitelistedNeverSighted(files, whitelist, n);
    }
  }

  /** A whitelisted name is never sighted. */
  lemma {:induction false} WhitelistedNeverSighted(files: FilesExports, whitelist: seq<string>, n: string)
    requires n in whitelist
    ensures OccurrencesOf(Sightings(files, whitelist), Name(n)) == []
  {
    if files != [] {
      var init := files[..|files| - 1];
      var (uri, fileExports) := files[|files| - 1];
      WhitelistedNeverSighted(init, whitelist, n);
      var ignore := LocalImportsToIgnore(fileExports.imports);
      OccurrencesAppend(Sightings(init, whitelist), FileSightings(uri, fileExports.exports, ignore, whitelist), Name(n));
      SkippedNeverSighted(uri, fileExports.exports, ignore, whitelist, Name(n));
    }
  }

  /** Independent of the fold: the sightings of `k` a file contributes, read
      off its exports map with `get`. */
  function FileOccurrence(uri: string, fileExports: ParseFileReturn, whitelist: seq<string>, k: Key): seq<Occurrence> {
    match Get(fileExports.exports, k)
    case None => []
    case Some(meta) =>
      if Skipped(k, whitelist, LocalImportsToIgnore(fileExports.imports)) then []
      else [Occurrence(uri, meta.line)]
  }

  /** For each file in order: one occurrence of `k` if the file exports `k`
      and neither the whitelist nor the file's own plain imports exempt it. */
  function QualifyingOccurrences(files: FilesExports, whitelist: seq<string>, k: Key): seq<Occurrence> {
    if files == [] then []
    else
      var (uri, fileExports) := files[|files| - 1];
      QualifyingOccurrences(files[..|files| - 1], whitelist, k) + FileOccurrence(uri, fileExports, whitelist, k)
  }

  /** A name's entry, given its qualifying occurrences. */
  function Reported(q: seq<Occurrence>): Option<seq<Occurrence>> {
    if |q| >= 2 then Some(q) else None
  }

  /** Every table a parser returns has distinct names, as any `Map` does. */
  ghost predicate WellFormed(files: FilesExports) {
    forall f :: 0 <= f < |files| ==> DistinctKeys(files[f].1.exports)
  }

  /** The result of `check`: a name is reported exactly when at least two
      files export it without exemption, and its entry lists those files'
      `{ uri, line }` in registration order; names are reported in the order
      in which their second sighting occurs. */
  lemma DuplicatesMeaning(files: FilesExports, whitelist: seq<string>)
    requires WellFormed(files)
    ensures DistinctKeys(Duplicates(files, whitelist))
    ensures forall k :: Get(Duplicates(files, whitelist), k) == Reported(QualifyingOccurrences(files, whitelist, k))
    ensures Keys(Duplicates(files, whitelist)) == SecondSightings(Sightings(files, whitelist))
  {
    FoldDuplications(Sightings(files, whitelist));
    forall k ensures OccurrencesOf(Sightings(files, whitelist), k) == QualifyingOccurrences(files, whitelist, k) {
      SightingsAreQualifying(files, whitelist, k);
    }
  }

  lemma {:induction false} SightingsAreQualifying(files: FilesExports, whitelist: seq<string>, k: Key)
    requires WellFormed(files)
    ensures OccurrencesOf(Sightings(files, whitelist), k) == QualifyingOccurrences(files, whitelist, k)
  {
    if files != [] {
      var init := files[..|files| - 1];
      var (uri, fileExports) := files[|files| - 1];
      assert WellFormed(init) by {
        forall f | 0 <= f < |init| ensures DistinctKeys(init[f].1.exports) {
          assert init[f] == files[f];
        }
      }
      SightingsAreQualifying(init, whitelist, k);
      var ignore := LocalImportsToIgnore(fileExports.imports);
      OccurrencesAppend(Sightings(init, whitelist), FileSightings(uri, fileExports.exports, ignore, whitelist), k);
      FileSightingsOfKey(uri, fileExports.exports, ignore, whitelist, k);
    }
  }

  lemma {:induction false} SkippedNeverSighted(uri: string, exports: ExportsData, ignore: set<string>, whitelist: seq<string>, k: Key)
    requires Skipped(k, whitelist, ignore)
    ensures OccurrencesOf(FileSightings(uri, exports, ignore, whitelist), k) == []
  {
    if exports != [] {
      var init := exports[..|exports| - 1];
      SkippedNeverSighted(uri, init, ignore, whitelist, k);
      var (k', meta) := exports[|exports| - 1];
      if !Skipped(k', whitelist, ignore) {
        OccurrencesAppend(FileSightings(uri, init, ignore, whitelist), [(k', Occurrence(uri, meta.line))], k);
      }
    }
  }

  /** One file's sightings of `k`: at most one, at the line its map holds. */
  lemma {:induction false} FileSightingsOfKey(uri: string, exports: ExportsData, ignore: set<string>, whitelist: seq<string>, k: Key)
    requires DistinctKeys(exports)
    ensures OccurrencesOf(FileSightings(uri, exports, ignore, whitelist), k) ==
      match Get(exports, k)
      case None => []
      case Some(meta) => if Skipped(k, whitelist, ignore) then [] else [Occurrence(uri, meta.line)]
  {
    if exports != [] {
      var init := exports[..|exports| - 1];
      var (k', meta) := exports[|exports| - 1];
      assert Keys(init) == Keys(exports)[..|exports| - 1];
      FileSightingsOfKey(uri, init, ignore, whitelist, k);
      GetLast(init, k', meta, k);
      assert exports == init + [(k', meta)];
      if !Skipped(k', whitelist, ignore) {
        OccurrencesAppend(FileSightings(uri, init, ignore, whitelist), [(k', Occurrence(uri, meta.line))], k);
      }
      if k' == k {
        assert Keys(exports)[|exports| - 1] == k;
        assert k !in Keys(init);
      }
    }
  }

  lemma GetLast<V>(init: Entries<Key, V>, k': Key, v: V, k: Key)
    ensures Get(init + [(k', v)], k) == if Get(init, k).Some? then Get(init, k) else if k' == k then Some(v) else None
  {
    if init != [] {
      assert (init + [(k', v)])[1..] == init[1..] + [(k', v)];
      GetLast(init[1..], k', v, k);
    }
  }

  lemma {:induction false} OccurrencesAppend(a: seq<(Key, Occurrence)>, b: seq<(Key, Occurrence)>, k: Key)
    ensures OccurrencesOf(a + b, k) == OccurrencesOf(a, k) + OccurrencesOf(b, k)
  {
    if b == [] {
      assert a + b == a;
    } else {
      assert (a + b)[..|a + b| - 1] == a + b[..|b| - 1];
      OccurrencesAppend(a, b[..|b| - 1], k);
    }
  }

  /** The exemptions of two import lists together are the union of each's. */
  lemma LocalImportsAppend(a: seq<ImportData>, b: seq<ImportData>)
    ensures LocalImportsToIgnore(a + b) == LocalImportsToIgnore(a) + LocalImportsToIgnore(b)
  {
    var all := a + b;
    forall n ensures n in LocalImportsToIgnore(all) <==> n in LocalImportsToIgnore(a) + LocalImportsToIgnore(b) {
      if n in LocalImportsToIgnore(all) {
        var i :| 0 <= i < |all| && IsPlainNamed(all[i]) && all[i].name == n;
        if i < |a| {
          assert all[i] == a[i];
        } else {
          assert all[i] == b[i - |a|];
        }
      }
      if n in LocalImportsToIgnore(a) {
        var i :| 0 <= i < |a| && IsPlainNamed(a[i]) && a[i].name == n;
        assert all[i] == a[i];
      }
      if n in LocalImportsToIgnore(b) {
        var i :| 0 <= i < |b| && IsPlainNamed(b[i]) && b[i].name == n;
        assert all[|a| + i] == b[i];
      }
    }
  }

  /** Default and renamed imports exempt nothing: adding them to a file's
      imports leaves its exemptions as they were. */
  lemma DefaultAndRenamedExemptNothing(imports: seq<ImportData>, extra: seq<ImportData>)
    requires forall i :: 0 <= i < |extra| ==> extra[i].isDefault || extra[i].isRenamed
    ensures LocalImportsToIgnore(imports + extra) == LocalImportsToIgnore(imports)
  {
    var all := imports + extra;
    forall n ensures n in LocalImportsToIgnore(all) <==> n in LocalImportsToIgnore(imports) {
      if n in LocalImportsToIgnore(all) {
        var i :| 0 <= i < |all| && IsPlainNamed(all[i]) && all[i].name == n;
        if i < |imports| {
          assert all[i] == imports[i];
        } else {
          assert false;
        }
      }
      if n in LocalImportsToIgnore(imports) {
        var i :| 0 <= i < |imports| && IsPlainNamed(imports[i]) && imports[i].name == n;
        assert all[i] == imports[i];
      }
    }
  }

  /** Two files both declaring `Config` at line 1, no whitelist: one entry
      with both occurrences, in file order. */
  lemma ScenarioTwoDeclarations()
    ensures Duplicates(
      [("F1", ParseFileReturn([(Name("Config"), ExportData(1, false))], [])),
       ("F2", ParseFileReturn([(Name("Config"), ExportData(1, false))], []))], [])
      == [(Name("Config"), [Occurrence("F1", 1), Occurrence("F2", 1)])]
  {
    var f := ParseFileReturn([(Name("Config"), ExportData(1, false))], []);
    var files := [("F1", f), ("F2", f)];
    assert LocalImportsToIgnore([]) == {};
    assert FileSightings("F1", f.exports, {}, []) == [(Name("Config"), Occurrence("F1", 1))];
    assert FileSightings("F2", f.exports, {}, []) == [(Name("Config"), Occurrence("F2", 1))];
    assert files[..1] == [("F1", f)];
    assert Sightings(files[..1], []) == [(Name("Config"), Occurrence("F1", 1))];
    var s := Sightings(files, []);
    assert s == [(Name("Config"), Occurrence("F1", 1)), (Name("Config"), Occurrence("F2", 1))];
    assert s[..1] == [(Name("Config"), Occurrence("F1", 1))];
    assert Fold(s[..1]) == Tables([(Name("Config"), Occurrence("F1", 1))], []);
  }

  /** A file that imports `Shared` verbatim and re-exports it is forwarding:
      with one real declaration elsewhere, nothing is reported. */
  lemma ScenarioForwarding()
    ensures Duplicates(
      [("F1", ParseFileReturn([(Name("Shared"), ExportData(1, false))], [ImportData("/p", "./lib", false, false, "Shared")])),
       ("F2", ParseFileReturn([(Name("Shared"), ExportData(1, false))], []))], [])
      == []
  {
    var imp := [ImportData("/p", "./lib", false, false, "Shared")];
    var f1 := ParseFileReturn([(Name("Shared"), ExportData(1, false))], imp);
    var f2 := ParseFileReturn([(Name("Shared"), ExportData(1, false))], []);
    var files := [("F1", f1), ("F2", f2)];
    assert IsPlainNamed(imp[0]);
    assert "Shared" in LocalImportsToIgnore(imp);
    assert FileSightings("F1", f1.exports, LocalImportsToIgnore(imp), []) == [];
    assert LocalImportsToIgnore([]) == {};
    assert FileSightings("F2", f2.exports, {}, []) == [(Name("Shared"), Occurrence("F2", 1))];
    assert files[..1] == [("F1", f1)];
    assert Sightings(files[..1], []) == [];
    var s := Sightings(files, []);
    assert s == [(Name("Shared"), Occurrence("F2", 1))];
    assert s[..0] == [];
  }

  /** The same files, but the import renames: a renamed import exempts
      nothing, so the name is reported. */
  lemma ScenarioRenamedImport()
    ensures Duplicates(
      [("F1", ParseFileReturn([(Name("Shared"), ExportData(1, false))], [ImportData("/p", "./lib", false, true, "Shared")])),
       ("F2", ParseFileReturn([(Name("Shared"), ExportData(1, false))], []))], [])
      == [(Name("Shared"), [Occurrence("F1", 1), Occurrence("F2", 1)])]
  {
    var imp := [ImportData("/p", "./lib", false, true, "Shared")];
    var f1 := ParseFileReturn([(Name("Shared"), ExportData(1, false))], imp);
    var f2 := ParseFileReturn([(Name("Shared"), ExportData(1, false))], []);
    var files := [("F1", f1), ("F2", f2)];
    DefaultAndRenamedExemptNothing([], imp);
    assert [] + imp == imp;
    assert LocalImportsToIgnore([]) == {};
    assert FileSightings("F1", f1.exports, {}, []) == [(Name("Shared"), Occurrence("F1", 1))];
    assert FileSightings("F2", f2.exports, {}, []) == [(Name("Shared"), Occurrence("F2", 1))];
    assert files[..1] == [("F1", f1)];
    assert Sightings(files[..1], []) == [(Name("Shared"), Occurrence("F1", 1))];
    var s := Sightings(files, []);
    assert s == [(Name("Shared"), Occurrence("F1", 1)), (Name("Shared"), Occurrence("F2", 1))];
    assert s[..1] == [(Name("Shared"), Occurrence("F1", 1))];
    assert Fold(s[..1]) == Tables([(Name("Shared"), Occurrence("F1", 1))], []);
  }
}
