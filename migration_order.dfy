/** The order in which lint_all_migrations visits migrations: ascending (app_label, name). */
module MigrationOrder {
  import opened LinterTypes

  /** Python's `<=` on str: lexicographic by code point, a prefix coming first. */
  predicate StrLe(a: string, b: string)
    decreases |a|
  {
    a == [] || (b != [] && (a[0] < b[0] || (a[0] == b[0] && StrLe(a[1..], b[1..]))))
  }

  lemma {:induction false} StrLeTotal(a: string, b: string)
    ensures StrLe(a, b) || StrLe(b, a)
    decreases |a|
  {
    if a != [] && b != [] && a[0] == b[0] {
      StrLeTotal(a[1..], b[1..]);
    }
  }

  lemma {:induction false} StrLeAntisymmetric(a: string, b: string)
    requires StrLe(a, b) && StrLe(b, a)
    ensures a == b
    decreases |a|
  {
    if a != [] {
      StrLeAntisymmetric(a[1..], b[1..]);
      assert a == [a[0]] + a[1..] && b == [b[0]] + b[1..];
    }
  }

  lemma {:induction false} StrLeTransitive(a: string, b: string, c: string)
    requires StrLe(a, b) && StrLe(b, c)
    ensures StrLe(a, c)
    decreases |a|
  {
    if a != [] && a[0] == b[0] && b[0] == c[0] {
      StrLeTransitive(a[1..], b[1..], c[1..]);
    }
  }

  /** Python's `<=` on the sort key (app_label, name). */
  predicate KeyLe(m: Migration, n: Migration)
  {
    || (m.appLabel != n.appLabel && StrLe(m.appLabel, n.appLabel))
    || (m.appLabel == n.appLabel && StrLe(m.name, n.name))
  }

  lemma KeyLeTotal(m: Migration, n: Migration)
    ensures KeyLe(m, n) || KeyLe(n, m)
  {
    StrLeTotal(m.appLabel, n.appLabel);
    StrLeTotal(m.name, n.name);
  }

  lemma KeyLeTransitive(m: Migration, n: Migration, o: Migration)
    requires KeyLe(m, n) && KeyLe(n, o)
    ensures KeyLe(m, o)
  {
    if m.appLabel == n.appLabel && n.appLabel == o.appLabel {
      StrLeTransitive(m.name, n.name, o.name);
    } else if m.appLabel != n.appLabel && n.appLabel != o.appLabel {
      StrLeTransitive(m.appLabel, n.appLabel, o.appLabel);
      if m.appLabel == o.appLabel {
        StrLeAntisymmetric(m.appLabel, n.appLabel);
      }
    }
  }

  /** Every migration's key is at most the key of every later one. */
  ghost predicate Sorted(ms: seq<Migration>)
  {
    forall i, j :: 0 <= i < j < |ms| ==> KeyLe(ms[i], ms[j])
  }

  /** Inserts `m` after every element whose key is at most its own. */
  function Insert(m: Migration, ms: seq<Migration>): seq<Migration>
  {
    if ms == [] then [m]
    else if !KeyLe(ms[0], m) then [m] + ms
    else [ms[0]] + Insert(m, ms[1..])
  }

  /** Python's sorted(migrations, key=lambda m: (m.app_label, m.name)), as an insertion sort. */
  function SortMigrations(ms: seq<Migration>): seq<Migration>
  {
    if ms == [] then [] else Insert(ms[|ms| - 1], SortMigrations(ms[..|ms| - 1]))
  }

  lemma {:induction false} InsertSorted(m: Migration, ms: seq<Migration>)
    requires Sorted(ms)
    ensures Sorted(Insert(m, ms))
    ensures multiset(Insert(m, ms)) == multiset(ms) + multiset{m}
  {
    if ms == [] {
    } else if !KeyLe(ms[0], m) {
      KeyLeTotal(ms[0], m);
      forall j | 0 <= j < |ms|
        ensures KeyLe(m, ms[j])
      {
        if j > 0 {
          KeyLeTransitive(m, ms[0], ms[j]);
        }
      }
    } else {
      var rest := Insert(m, ms[1..]);
      InsertSorted(m, ms[1..]);
      assert ms == [ms[0]] + ms[1..];
      forall k | 0 <= k < |rest|
        ensures KeyLe(ms[0], rest[k])
      {
        assert rest[k] in multiset(rest);
        if rest[k] != m {
          assert rest[k] in multiset(ms[1..]);
          var j :| 0 <= j < |ms[1..]| && ms[1..][j] == rest[k];
          assert ms[j + 1] == rest[k];
        }
      }
    }
  }

  /** The result is ascending by key and holds every gathered migration exactly as often as the input. */
  lemma {:induction false} SortMigrationsCorrect(ms: seq<Migration>)
    ensures Sorted(SortMigrations(ms))
    ensures multiset(SortMigrations(ms)) == multiset(ms)
  {
    if ms != [] {
      var init := ms[..|ms| - 1];
      SortMigrationsCorrect(init);
      InsertSorted(ms[|ms| - 1], SortMigrations(init));
      assert ms == init + [ms[|ms| - 1]];
    }
  }
}
