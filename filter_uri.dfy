/** `filterUri` (src/parsers/filter-uri.js): which discovered files are analysed.
    `minimatch` is a parameter, an uninterpreted glob-matching predicate. */
module FilterUri {
  import opened Strings

  const ScriptExtensions: seq<string> := ["js", "mjs", "ts", "tsx"]

  /** `/\.<kind>\.(js|mjs|ts|tsx)$/.test(uri)` */
  predicate MatchesKindSuffix(uri: string, kind: string) {
    exists e :: e in ScriptExtensions && EndsWith(uri, "." + kind + "." + e)
  }

  /** `ignorepath.some(u => minimatch(uri, u))` */
  predicate SomeMatches(ignorepath: seq<string>, uri: string, minimatch: (string, string) -> bool)
    decreases |ignorepath|
  {
    |ignorepath| > 0 && (minimatch(uri, ignorepath[0]) || SomeMatches(ignorepath[1..], uri, minimatch))
  }

  /** The uris the defaults exclude, whatever `ignorepath` holds. */
  predicate ExcludedByDefault(uri: string) {
    || MatchesKindSuffix(uri, "test")
    || MatchesKindSuffix(uri, "spec")
    || EndsWith(uri, ".d.ts")
    || EndsWith(uri, ".flow")
    || Contains(uri, "node_modules")
    || Contains(uri, "flow-typed")
    || Contains(uri, "/dist/")
    || Contains(uri, "/build/")
  }

  /** `filterUri(ignorepath, uri)`: a uri no default rule and no pattern
      rejects. The first-generation `filterUri` of `src/index.js` makes the
      same test, with regular expressions for the two suffixes, and is
      modelled by this function too. */
  function FilterUri(ignorepath: seq<string>, uri: string, minimatch: (string, string) -> bool): bool {
    !(ExcludedByDefault(uri) || SomeMatches(ignorepath, uri, minimatch))
  }

  /** `some` finds a pattern exactly when one of them matches. */
  lemma {:induction false} SomeMatchesIff(ignorepath: seq<string>, uri: string, minimatch: (string, string) -> bool)
    ensures SomeMatches(ignorepath, uri, minimatch) <==> exists i :: 0 <= i < |ignorepath| && minimatch(uri, ignorepath[i])
    decreases |ignorepath|
  {
    if |ignorepath| > 0 {
      SomeMatchesIff(ignorepath[1..], uri, minimatch);
      if exists i :: 0 <= i < |ignorepath| && minimatch(uri, ignorepath[i]) {
        var i :| 0 <= i < |ignorepath| && minimatch(uri, ignorepath[i]);
        if i > 0 {
          assert minimatch(uri, ignorepath[1..][i - 1]);
        }
      }
    }
  }

  /** The filter accepts a uri exactly when no default rule and no
      `ignorepath` pattern excludes it. */
  lemma FilterUriIff(ignorepath: seq<string>, uri: string, minimatch: (string, string) -> bool)
    ensures FilterUri(ignorepath, uri, minimatch) <==>
      !ExcludedByDefault(uri) && !(exists i :: 0 <= i < |ignorepath| && minimatch(uri, ignorepath[i]))
  {
    SomeMatchesIff(ignorepath, uri, minimatch);
  }

  /** With no `ignorepath`, the verdict depends on the uri alone. */
  lemma EmptyIgnorepathIgnoresMinimatch(uri: string, m1: (string, string) -> bool, m2: (string, string) -> bool)
    ensures FilterUri([], uri, m1) == FilterUri([], uri, m2)
    ensures FilterUri([], uri, m1) == !ExcludedByDefault(uri)
  {
  }

  /** More patterns can only exclude more: a uri accepted with `more` added to
      `ignorepath` is accepted without them. */
  lemma {:induction false} MorePatternsExcludeMore(ignorepath: seq<string>, more: seq<string>, uri: string, minimatch: (string, string) -> bool)
    ensures FilterUri(ignorepath + more, uri, minimatch) ==> FilterUri(ignorepath, uri, minimatch)
    ensures FilterUri(more + ignorepath, uri, minimatch) ==> FilterUri(ignorepath, uri, minimatch)
  {
    SomeMatchesIff(ignorepath, uri, minimatch);
    SomeMatchesIff(ignorepath + more, uri, minimatch);
    SomeMatchesIff(more + ignorepath, uri, minimatch);
    if SomeMatches(ignorepath, uri, minimatch) {
      var i :| 0 <= i < |ignorepath| && minimatch(uri, ignorepath[i]);
      assert (ignorepath + more)[i] == ignorepath[i];
      assert (more + ignorepath)[|more| + i] == ignorepath[i];
    }
  }

  /** Every uri with a `node_modules`, `flow-typed`, `/dist/` or `/build/`
      segment anywhere is excluded. */
  lemma ExcludesDirectories(prefix: string, dir: string, rest: string, ignorepath: seq<string>, minimatch: (string, string) -> bool)
    requires dir in ["node_modules", "flow-typed", "/dist/", "/build/"]
    ensures !FilterUri(ignorepath, prefix + dir + rest, minimatch)
  {
    ContainsInside(prefix, dir, rest);
  }

  /** Test and spec scripts of the four script extensions are excluded. */
  lemma ExcludesTestScripts(stem: string, kind: string, e: string, ignorepath: seq<string>, minimatch: (string, string) -> bool)
    requires kind in ["test", "spec"] && e in ScriptExtensions
    ensures !FilterUri(ignorepath, stem + "." + kind + "." + e, minimatch)
  {
    var uri, suffix := stem + "." + kind + "." + e, "." + kind + "." + e;
    assert uri == stem + suffix;
    assert uri[|uri| - |suffix|..] == suffix;
    assert EndsWith(uri, suffix);
    assert MatchesKindSuffix(uri, kind);
    assert ExcludedByDefault(uri);
  }

  /** Declaration files and `.flow` files are excluded. */
  lemma ExcludesDeclarationFiles(stem: string, ignorepath: seq<string>, minimatch: (string, string) -> bool)
    ensures !FilterUri(ignorepath, stem + ".d.ts", minimatch)
    ensures !FilterUri(ignorepath, stem + ".flow", minimatch)
  {
    assert (stem + ".d.ts")[|stem|..] == ".d.ts";
    assert (stem + ".flow")[|stem|..] == ".flow";
  }

  /** A uri matched by an `ignorepath` pattern is excluded. */
  lemma ExcludesIgnored(ignorepath: seq<string>, i: int, uri: string, minimatch: (string, string) -> bool)
    requires 0 <= i < |ignorepath| && minimatch(uri, ignorepath[i])
    ensures !FilterUri(ignorepath, uri, minimatch)
  {
    SomeMatchesIff(ignorepath, uri, minimatch);
  }
}
