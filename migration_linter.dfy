/** The MigrationLinter object: its options, its counters, its two caches and its output. */
module Linter {
  import opened LinterTypes
  import opened IgnorePolicy
  import opened ErrorFormat
  import opened MigrationOrder
  import opened CacheStore
  import opened LintSpec

  /** Django's DEFAULT_DB_ALIAS. */
  const DefaultDbAlias := "default"

  /** The value of `option or default` for an optional string. */
  function OrDefault(option: Option<string>, default: string): string
  {
    if Truthy(option) then option.value else default
  }

  class MigrationLinter {
    const djangoPath: Option<string>
    const policy: Policy
    const database: string
    const cachePath: string
    const noCache: bool
    /** The old cache as loaded at construction; empty when the cache is not used. */
    const oldCache: map<string, Entry>
    /** The hex MD5 digest of a migration file's bytes. */
    const md5: seq<byte> -> string
    /** get_sql: the sqlmigrate output for (app label, name, database), split into lines. */
    const sqlmigrate: (string, string, string) -> seq<string>
    /** analyse_sql_statements. */
    const analyse: seq<string> -> Analysis

    var nbValid: nat
    var nbIgnored: nat
    var nbErroneous: nat
    var nbTotal: nat
    var newCache: map<string, Entry>
    /** Everything printed so far, one chunk per print call. */
    var output: seq<string>
    /** How often get_sql has been called. */
    ghost var sqlCalls: nat

    /** The counters agree: each linted migration was counted in exactly one of the three. */
    ghost predicate Valid()
      reads this
    {
      Balanced(State())
    }

    ghost function State(): LintState
      reads this
    {
      LintState(nbTotal, nbValid, nbIgnored, nbErroneous, newCache, output, sqlCalls)
    }

    ghost function Configuration(): Config
    {
      Config(policy, ShouldUseCache(), oldCache, database, md5, sqlmigrate, analyse)
    }

    /** should_use_cache: a project path was given and caching was not switched off. */
    function ShouldUseCache(): bool
    {
      Truthy(djangoPath) && !noCache
    }

    /** The store both caches are constructed on. */
    function StoreIdOf(): StoreId
      requires djangoPath.Some?
    {
      StoreId(djangoPath.value, database, cachePath)
    }

    /**
     * __init__: options default as `or` does, the counters start at zero, and when the cache
     * is used the old cache is what the store of (path, database, cache path) holds on disk.
     */
    constructor (
      path: Option<string>,
      ignoreNameContains: Option<string>,
      ignoreName: Option<seq<string>>,
      includeApps: Option<seq<string>>,
      excludeApps: Option<seq<string>>,
      database: Option<string>,
      cachePath: Option<string>,
      noCache: bool,
      defaultCachePath: string,
      disk: Disk,
      md5: seq<byte> -> string,
      sqlmigrate: (string, string, string) -> seq<string>,
      analyse: seq<string> -> Analysis)
      ensures this.djangoPath == path
      ensures this.policy == Policy(ignoreNameContains, if ignoreName.Some? then ignoreName.value else [], includeApps, excludeApps)
      ensures this.database == OrDefault(database, DefaultDbAlias)
      ensures this.cachePath == OrDefault(cachePath, defaultCachePath)
      ensures this.noCache == noCache
      ensures this.md5 == md5 && this.sqlmigrate == sqlmigrate && this.analyse == analyse
      ensures oldCache == if ShouldUseCache() then Load(disk, StoreIdOf()) else map[]
      ensures State() == Initial
    {
      this.djangoPath := path;
      this.policy := Policy(ignoreNameContains, if ignoreName.Some? then ignoreName.value else [], includeApps, excludeApps);
      this.database := OrDefault(database, DefaultDbAlias);
      this.cachePath := OrDefault(cachePath, defaultCachePath);
      this.noCache := noCache;
      this.md5 := md5;
      this.sqlmigrate := sqlmigrate;
      this.analyse := analyse;
      nbValid, nbIgnored, nbErroneous, nbTotal := 0, 0, 0, 0;
      newCache := map[];
      output := [];
      sqlCalls := 0;
      if Truthy(path) && !noCache {
        oldCache := Load(disk, StoreId(path.value, OrDefault(database, DefaultDbAlias), OrDefault(cachePath, defaultCachePath)));
      } else {
        oldCache := map[];
      }
    }

    /**
     * has_errors. With the counters balanced, it holds exactly when some linted migration
     * was counted neither valid nor ignored.
     */
    predicate HasErrors()
      reads this
      ensures Valid() ==> (HasErrors() <==> nbValid + nbIgnored < nbTotal)
    {
      nbErroneous > 0
    }

    /** print_errors: the lines it prints, built piece by piece for each diagnostic. */
    static method PrintErrors(errors: seq<Error>) returns (printed: seq<string>)
      ensures printed == ErrorsOutput(errors)
    {
      printed := [];
      for i := 0 to |errors|
        invariant |printed| == i
        invariant forall k :: 0 <= k < i ==> printed[k] == ErrorLine(errors[k]) + "\n"
      {
        var err := errors[i];
        var errorStr := "\t" + err.errMsg;
        if Truthy(err.table) {
          errorStr := errorStr + " (table: " + err.table.value;
          if Truthy(err.column) {
            errorStr := errorStr + ", column: " + err.column.value;
          }
          errorStr := errorStr + ")";
        }
        printed := printed + [errorStr + "\n"];
      }
    }

    /** lint_cached_migration: the cached result is counted and printed and carried over. */
    method LintCachedMigration(md5hash: string)
      requires md5hash in oldCache
      modifies this
      ensures State() == CachedStep(Configuration(), old(State()), md5hash)
    {
      var cachedValue := oldCache[md5hash];
      if cachedValue.result == "IGNORE" {
        output := output + ["IGNORE (cached)\n"];
        nbIgnored := nbIgnored + 1;
      } else if cachedValue.result == "OK" {
        output := output + ["OK (cached)\n"];
        nbValid := nbValid + 1;
      } else {
        output := output + ["ERR (cached)\n"];
        nbErroneous := nbErroneous + 1;
        if cachedValue.errors.Some? {
          var printed := PrintErrors(cachedValue.errors.value);
          output := output + printed;
        }
      }
      newCache := newCache[md5hash := cachedValue];
    }

    /**
     * lint_migration: one step of the specification, so the counters stay balanced and the
     * old cache is consulted before the ignore options.
     */
    method LintMigration(m: Migration)
      requires Valid()
      modifies this
      ensures Valid()
      ensures State() == Step(Configuration(), old(State()), m)
    {
      StepEffects(Configuration(), State(), m);
      output := output + [Header(m)];
      nbTotal := nbTotal + 1;

      var md5hash := md5(m.source);

      if ShouldUseCache() && md5hash in oldCache {
        LintCachedMigration(md5hash);
        return;
      }

      if ShouldIgnoreMigration(policy, m.appLabel, m.name) {
        output := output + ["IGNORE\n"];
        nbIgnored := nbIgnored + 1;
        return;
      }

      var sqlStatements := sqlmigrate(m.appLabel, m.name, database);
      sqlCalls := sqlCalls + 1;
      var analysisResult := analyse(sqlStatements);
      var errors := analysisResult.errors;

      if analysisResult.ignored {
        output := output + ["IGNORE\n"];
        nbIgnored := nbIgnored + 1;
        if ShouldUseCache() {
          newCache := newCache[md5hash := Entry("IGNORE", None)];
        }
        return;
      }

      if errors == [] {
        output := output + ["OK\n"];
        nbValid := nbValid + 1;
        if ShouldUseCache() {
          newCache := newCache[md5hash := Entry("OK", None)];
        }
        return;
      }

      output := output + ["ERR\n"];
      nbErroneous := nbErroneous + 1;
      var printed := PrintErrors(errors);
      output := output + printed;
      if ShouldUseCache() {
        newCache := newCache[md5hash := Entry("ERR", Some(errors))];
      }
    }

    /**
     * lint_all_migrations over the gathered migrations: they are linted once each in
     * ascending (app label, name) order, has_errors then says whether any got verdict ERR,
     * and with the cache on the whole new cache is what gets saved.
     */
    method LintAllMigrations(migrations: seq<Migration>) returns (saved: Option<map<string, Entry>>)
      requires Valid()
      modifies this
      ensures Valid()
      ensures State() == Run(Configuration(), old(State()), SortMigrations(migrations))
      ensures HasErrors() <==>
        old(HasErrors()) || exists i :: 0 <= i < |migrations| && VerdictOf(Configuration(), migrations[i]) == Err
      ensures saved == if ShouldUseCache() then Some(newCache) else None
      ensures !ShouldUseCache() ==> newCache == old(newCache) && saved == None
    {
      var sortedMigrations := SortMigrations(migrations);
      ghost var start := State();
      for i := 0 to |sortedMigrations|
        invariant Valid()
        invariant State() == Run(Configuration(), start, sortedMigrations[..i])
      {
        RunAppend(Configuration(), start, sortedMigrations[..i], sortedMigrations[i]);
        assert sortedMigrations[..i + 1] == sortedMigrations[..i] + [sortedMigrations[i]];
        LintMigration(sortedMigrations[i]);
      }
      assert sortedMigrations[..|sortedMigrations|] == sortedMigrations;

      SortMigrationsCorrect(migrations);
      RunHasErrors(Configuration(), start, sortedMigrations);
      SomeVerdictPermutation(Configuration(), migrations, sortedMigrations, Err);
      RunCacheKeys(Configuration(), start, sortedMigrations);

      if ShouldUseCache() {
        saved := Some(newCache);
      } else {
        saved := None;
      }
    }
  }

  /**
   * The two runs of the warm-cache scenario on the specification: the second, over the
   * cache the first one saved, calls get_sql for no migration, and when no two migrations
   * share a file hash it finds errors exactly when the first did.
   */
  lemma WarmRerunOutcome(c: Config, migrations: seq<Migration>)
    requires c.useCache
    ensures var sorted := SortMigrations(migrations);
      var r1 := Run(c, Initial, sorted);
      var r2 := Run(c.(oldCache := r1.newCache), Initial, sorted);
      && r2.sqlCalls == 0
      && (HashesIdentify(c.md5, migrations) ==> (r2.erroneous > 0 <==> r1.erroneous > 0))
  {
    var sorted := SortMigrations(migrations);
    WarmRerunSkipsSql(c, Initial, sorted, Initial);
    if HashesIdentify(c.md5, migrations) {
      SortMigrationsCorrect(migrations);
      assert forall m :: m in sorted <==> m in multiset(sorted);
      assert HashesIdentify(c.md5, sorted);
      WarmRerunSameCounters(c, Initial, sorted, Initial);
      RunCounters(c, Initial, sorted);
    }
  }

  /**
   * The warm-cache scenario: lint a project with the cache on, save the new cache, and lint
   * it again with a fresh linter on the same options. The second run calls get_sql for no
   * migration, and when no two gathered migrations share a file hash it reports errors
   * exactly when the first did.
   */
  method WarmCacheRerun(
    path: string,
    defaultCachePath: string,
    disk: Disk,
    md5: seq<byte> -> string,
    sqlmigrate: (string, string, string) -> seq<string>,
    analyse: seq<string> -> Analysis,
    migrations: seq<Migration>)
    returns (firstHasErrors: bool, secondHasErrors: bool, ghost secondSqlCalls: nat)
    requires path != ""
    ensures secondSqlCalls == 0
    ensures HashesIdentify(md5, migrations) ==> secondHasErrors == firstHasErrors
  {
    var first := new MigrationLinter(Some(path), None, None, None, None, None, None, false,
                                     defaultCachePath, disk, md5, sqlmigrate, analyse);
    ghost var id := first.StoreIdOf();
    ghost var c := first.Configuration();
    ghost var sorted := SortMigrations(migrations);
    WarmRerunOutcome(c, migrations);
    ghost var r1 := Run(c, Initial, sorted);
    ghost var r2 := Run(c.(oldCache := r1.newCache), Initial, sorted);

    var saved := first.LintAllMigrations(migrations);
    assert first.State() == r1;
    firstHasErrors := first.HasErrors();
    var savedDisk := Save(disk, first.StoreIdOf(), saved.value);

    var second := new MigrationLinter(Some(path), None, None, None, None, None, None, false,
                                      defaultCachePath, savedDisk, md5, sqlmigrate, analyse);
    assert second.StoreIdOf() == id;
    assert second.Configuration() == c.(oldCache := r1.newCache);
    var _ := second.LintAllMigrations(migrations);
    assert second.State() == r2;
    secondHasErrors := second.HasErrors();
    secondSqlCalls := second.sqlCalls;
  }
}
