# django-migration-linter: the linting state machine

This project models the core of `MigrationLinter`, the class in
`django_migration_linter/migration_linter.py` that lints Django migrations one by one.

- **Counters.** The linter keeps four counters: total, valid, ignored and erroneous.
- **Caches.** It reads an old cache keyed by the MD5 digest of each migration file. It writes a fresh new cache and saves that one, so stale entries are pruned.
- **Skipping.** It skips migrations by four ignore options.
- **Verdicts.** It turns the SQL analyser's answer into IGNORE, OK or ERR.
- **Output.** It prints a header per migration and one line per diagnostic.

The model proves what these promise. Some proofs cover one call and some a whole run:

- the counter invariant, for runs in which no collaborator raises;
- what a cache hit and a policy skip do and do not do;
- the ignore truth table;
- the sort order;
- which keys the new cache ends up with;
- the behaviour of a second run over the saved cache.

Modules:

- `LinterTypes` (linter_types.dfy) holds the values passed between the linter, the analyser and the cache: diagnostics, analysis results, migrations and cache entries. It also says how an analysis becomes a verdict and a cache entry.
- `IgnorePolicy` (ignore_policy.dfy) holds `should_ignore_migration` and Python's substring test.
- `ErrorFormat` (error_format.dfy) holds the lines `print_errors` prints.
- `MigrationOrder` (migration_order.dfy) holds the `(app_label, name)` sort, with Python's string order.
- `CacheStore` (cache_store.dfy) holds the saved caches, one store per `(path, database, cache path)`.
- `LintSpec` (lint_spec.dfy) holds one `lint_migration` step and a run of them as functions on a `LintState`, with the lemmas about them.
- `Linter` (migration_linter.dfy) holds the class `MigrationLinter`. Its fields are the source's attributes. Its methods update the counters, the new cache and the printed output in place. `LintMigration` and `LintAllMigrations` are proved to leave the fields as `LintSpec`'s `Step` and `Run` compute them, and both keep the counter invariant `Valid()`. `LintCachedMigration` is proved to follow `CachedStep`; it runs while the total is already one ahead, so it does not keep `Valid()` on its own. The stateless `PrintErrors` is proved equal to `ErrorFormat.ErrorsOutput`. `WarmCacheRerun` is a client that replays the warm-cache scenario of the test suite.

How the model represents things the linter calls:

- `print` appends a chunk to the field `output`. `print(x)` appends `x + "\n"`. `print(x, end="")` appends `x`.
- The MD5 digest of a file is an opaque function `md5` of the file's bytes.
- `get_sql` (sqlmigrate, split into lines) is an opaque function `sqlmigrate`.
- `analyse_sql_statements` is an opaque function `analyse`.
- A ghost counter `sqlCalls` counts the calls to `get_sql`, so that "no SQL is generated" can be stated.

How the code behaves, and what the model follows:

- **The cache key.** The key is the MD5 of the file's bytes and nothing else. It does not include the app label, the migration name, the ignore options or the database (django_migration_linter/migration_linter.py:72-78). Databases are kept apart only because each `Cache` is built on `(path, database, cache path)` (django_migration_linter/migration_linter.py:58-59). The model's `StoreId` is that triple.
- **Lookup comes first.** The old cache is consulted before the ignore options (django_migration_linter/migration_linter.py:78-85). A hit is therefore counted as cached whatever the options say (`HitIgnoresPolicy`).
- **Skipped migrations are not cached.** A migration skipped by the ignore options gets no entry in the new cache.
- **Byte-identical files share one entry.** Two migrations whose files have the same bytes share one cache entry. A second run is guaranteed to repeat the first run's verdicts only when no two linted migrations share a digest (`HashesIdentify`). `LintSpec.SharedHashCanLoseError` gives two apps with identical migration files and different SQL. The second run over the saved cache reports no error, though the first run reported one.

## Model

| member | source | states |
|---|---|---|
| LinterTypes.StoredEntry | django_migration_linter/migration_linter.py:91-109 | the entry written for an analysed migration reads back as the verdict it was written for; the analyser's ignored flag gives {"result": "IGNORE"} even when there are errors; only ERR entries carry errors, and they carry the analyser's non-empty list exactly; an erroneous entry's result is "ERR" |
| IgnorePolicy.Contains | django_migration_linter/migration_linter.py:223-226 | Python's `needle in hay` on strings holds iff the needle occurs at some index of the haystack |
| IgnorePolicy.ShouldIgnoreMigration | django_migration_linter/migration_linter.py:219-228 | a migration is skipped iff include_apps is non-empty and lacks its app, or exclude_apps is non-empty and has it, or a non-empty ignore_name_contains occurs in its name, or its name is in ignore_name; a None or empty option disables its clause |
| IgnorePolicy.DefaultPolicyIgnoresNothing | django_migration_linter/migration_linter.py:42-45 | with every ignore option at its constructor default no migration is skipped |
| IgnorePolicy.IgnoreNameContainsExample | tests/functional/test_cache.py:106-120 | with ignore_name_contains "0001", 0001_initial is skipped and 0002_ignore_migration is not |
| ErrorFormat.ErrorsOutput | django_migration_linter/migration_linter.py:127-136 | print_errors prints exactly one line per diagnostic, in the list's order, the i-th being the i-th diagnostic's line |
| ErrorFormat.ErrorLineShape | django_migration_linter/migration_linter.py:130-135 | every line starts with a tab and the message; with no truthy table it is exactly that, so a column never shows without its table; with a table shown the line closes with ")" |
| ErrorFormat.RenameTableLine | tests/functional/test_cache.py:60-63 | the cached RENAME_TABLE diagnostic with no table and no column prints as "\tRENAMING tables" |
| MigrationOrder.SortMigrationsCorrect | django_migration_linter/migration_linter.py:146 | the sorted migrations ascend by (app_label, name) under Python's string order and are a permutation of the gathered ones, so each is linted exactly as often as it was gathered |
| CacheStore.Save | django_migration_linter/migration_linter.py:150-151 | saving replaces the store wholesale, so loading it gives back exactly the saved new cache, and every other store (another database or path) is unchanged |
| CacheStore.SaveLoadedIsNoop | django_migration_linter/migration_linter.py:60 | documents the assumed behaviour of `load` on the unshown `Cache` class (the store's last saved map, or the empty map when it was never saved): the two operations agree, so saving back what was loaded changes what no store loads; the source itself never saves what it loaded |
| LintSpec.StepEffects | django_migration_linter/migration_linter.py:65-125 | one lint_migration adds one to the total and one to exactly the counter of the migration's verdict, so it keeps total == valid + ignored + erroneous; get_sql is called once if the migration is analysed (no hit, not skipped) and never otherwise; the new cache changes only when the cache is used and the migration is a hit (the old entry) or analysed (its stored entry); the header is printed first |
| LintSpec.HitIgnoresPolicy | django_migration_linter/migration_linter.py:78-85 | on a cache hit the outcome does not depend on the ignore options |
| LintSpec.RunCounters | django_migration_linter/migration_linter.py:146-148 | after linting a sequence, the total grows by its length, each other counter by the number of its migrations with that verdict, and get_sql calls by the number analysed |
| LintSpec.RunBalanced | django_migration_linter/migration_linter.py:65-125 | linting any sequence keeps total == valid + ignored + erroneous |
| LintSpec.RunHasErrors | django_migration_linter/migration_linter.py:163-165 | has_errors after a run holds iff it held before or some migration of the run got verdict ERR |
| LintSpec.SomeVerdictPermutation | django_migration_linter/migration_linter.py:146-148 | whether some migration gets a given verdict does not depend on the order they are linted in |
| LintSpec.RunCacheKeys | django_migration_linter/migration_linter.py:56-60 | after a run the new cache's keys are exactly its earlier keys plus the digests of the migrations that were hits or analysed; old entries not seen are dropped, skipped misses add nothing, and with the cache off nothing is written |
| LintSpec.RunCarriesHit | django_migration_linter/migration_linter.py:111-125 | a hit's old entry is in the new cache after the run, unchanged |
| LintSpec.WarmRerunSkipsSql | tests/functional/test_cache.py:95-100 | a second run over the cache the first run saved calls get_sql for no migration |
| LintSpec.WarmRerunSameVerdicts | tests/functional/test_cache.py:65-72 | when no two linted migrations share a digest, the second run gives every migration the verdict the first run gave it |
| LintSpec.WarmRerunSameCounters | tests/functional/test_cache.py:65-72 | under the same condition the second run counts the same number of valid, ignored and erroneous migrations |
| LintSpec.SharedHashCanLoseError | django_migration_linter/migration_linter.py:72-80 | two migrations with equal file digests share one cache key; linting them in lint_all_migrations' sorted order and again over the saved cache, the second run reports no error where the first reported one |
| Linter.WarmRerunOutcome | tests/functional/test_cache.py:65-72 | on the sorted gathered migrations, the warm run calls no get_sql, and finds errors exactly when the cold run did unless two migrations share a digest |
| Linter.MigrationLinter.constructor | django_migration_linter/migration_linter.py:38-60 | options default as `or` does (ignore_name to the empty tuple, database to "default", cache path to the default path), counters start at zero, and with the cache used the old cache is what the store of (path, database, cache path) holds |
| Linter.MigrationLinter.PrintErrors | django_migration_linter/migration_linter.py:127-136 | the loop building each error string piece by piece prints exactly ErrorsOutput of the diagnostics |
| Linter.MigrationLinter.LintCachedMigration | django_migration_linter/migration_linter.py:111-125 | the state becomes the cached step: the counter of the cached result grows by one, "(cached)" and any stored errors are printed, and the entry is copied into the new cache |
| Linter.MigrationLinter.LintMigration | django_migration_linter/migration_linter.py:65-109 | the fields become one step of the specification from their old values, and the counter invariant is kept |
| Linter.MigrationLinter.HasErrors | django_migration_linter/migration_linter.py:163-165 | with the counters balanced, has_errors holds iff some linted migration was counted neither valid nor ignored; what makes it true after a run is stated by LintSpec.RunHasErrors and LintAllMigrations |
| Linter.MigrationLinter.LintAllMigrations | django_migration_linter/migration_linter.py:138-151 | the fields become the run of the sorted migrations from their old values; has_errors then holds iff it held before or some gathered migration has verdict ERR; the new cache is what gets saved exactly when should_use_cache holds, and when it does not the new cache is left as it was and nothing is saved |
| Linter.WarmCacheRerun | tests/functional/test_cache.py:45-72 | lint, save the new cache, lint again with a fresh linter on the same path: the second run makes no get_sql call, and reports errors exactly when the first did if no two migrations share a digest |

## Left out

- The MD5 digest and the file reading (django_migration_linter/migration_linter.py:72-76) are an opaque function of the file's bytes. The cryptographic hash is not modelled.
- `get_sql` (django_migration_linter/migration_linter.py:167-179) runs Django's sqlmigrate command, so it is an opaque function of (app label, name, database).
- `analyse_sql_statements` is in `sql_analyser`, which is not part of this model. It is an opaque function, and none of its rules are modelled.
- The `Cache` class is not part of this model. Its pickle format and file paths are not modelled. A store is a map from digest to entry. `load` yields the saved map, or an empty one when nothing was saved, and `save` replaces it wholesale.
- `_gather_migrations_git` and `_gather_all_migrations` (django_migration_linter/migration_linter.py:181-217) drive git, regular expressions and Django's migration loader. The gathered migrations are a parameter of `LintAllMigrations`, so the `git_commit_id` branch is not modelled.
- Linter.MigrationLinter.LintMigration: a file read, `get_sql` or analyser call that raises is not modelled, because the collaborators are total functions. In Python the header is then already printed and `nb_total` already incremented (django_migration_linter/migration_linter.py:68-69), so the total stays one above valid + ignored + erroneous.
- Linter.MigrationLinter.LintAllMigrations: an exception from a linted migration propagates, so the remaining migrations are not linted and the save at django_migration_linter/migration_linter.py:150-151 is skipped. The model has no such path, and `Valid()` and `LintSpec.RunBalanced` hold only for runs in which nothing raises.
- CacheStore.Save: the `Cache` class is not part of this model. One separate store per full (path, database, cache path) triple is an assumption drawn from the constructor arguments at django_migration_linter/migration_linter.py:58-59. The file the real class writes is not shown, and may not keep every part of the triple apart.
- `print_summary` (django_migration_linter/migration_linter.py:153-161) only prints the counters.
- The `logging` calls are left out.
- `DEFAULT_CACHE_PATH` is a constructor parameter.
- When the cache is off, the Python object has no `old_cache` and `new_cache` attributes. The model gives it empty maps that are never read or written, so nothing observable differs.
- Malformed dictionaries raise `KeyError` in Python: a cache entry without "result", or a diagnostic without one of its four keys. They are not modelled, because entries and diagnostics are records that always have their fields.
- `ignore_name` given as a single string, where `in` is then a substring test, is not modelled. `ignore_name` is a sequence of names.
- MigrationOrder.SortMigrationsCorrect: proves ordering and permutation but not the stability of Python's `sorted`. Stability only matters for migrations that share an (app_label, name) key.
- Linter.WarmCacheRerun: equal has_errors on the second run is stated only when no two migrations share a file digest, because without that condition it does not hold (see LintSpec.SharedHashCanLoseError).
