/** The options that make the linter skip a migration without analysing it. */
module IgnorePolicy {
  import opened LinterTypes

  /** `needle` occurs in `hay` starting at index `i`. */
  predicate OccursAt(needle: string, hay: string, i: int)
  {
    0 <= i && i + |needle| <= |hay| && hay[i..i + |needle|] == needle
  }

  lemma OccursAtShift(needle: string, hay: string)
    requires hay != []
    ensures forall j :: 0 <= j ==> (OccursAt(needle, hay[1..], j) <==> OccursAt(needle, hay, j + 1))
  {
    forall j | 0 <= j
      ensures OccursAt(needle, hay[1..], j) <==> OccursAt(needle, hay, j + 1)
    {
      if 0 <= j && j + |needle| <= |hay| - 1 {
        assert hay[1..][j..j + |needle|] == hay[j + 1..j + 1 + |needle|];
      }
    }
  }

  /** Python's `needle in hay` on strings, by scanning `hay` from the left. */
  function Contains(needle: string, hay: string): (b: bool)
    ensures b <==> exists i :: OccursAt(needle, hay, i)
    decreases |hay|
  {
    if needle <= hay then
      assert OccursAt(needle, hay, 0);
      true
    else if hay == [] then
      false
    else
      OccursAtShift(needle, hay);
      assert !OccursAt(needle, hay, 0);
      assert forall i :: OccursAt(needle, hay, i) ==> i >= 1 && OccursAt(needle, hay[1..], i - 1);
      Contains(needle, hay[1..])
  }

  /**
   * The linter's ignore options. `ignoreName` is the tuple the constructor stores (an absent
   * option becomes the empty tuple); the others keep Python's None.
   */
  datatype Policy = Policy(
    ignoreNameContains: Option<string>,
    ignoreName: seq<string>,
    includeApps: Option<seq<string>>,
    excludeApps: Option<seq<string>>)

  /**
   * should_ignore_migration: the four clauses of the policy, each disabled when its option
   * is None or empty.
   */
  function ShouldIgnoreMigration(p: Policy, appLabel: string, name: string): (b: bool)
    ensures b <==>
      || (p.includeApps.Some? && |p.includeApps.value| > 0 && appLabel !in p.includeApps.value)
      || (p.excludeApps.Some? && |p.excludeApps.value| > 0 && appLabel in p.excludeApps.value)
      || (p.ignoreNameContains.Some? && |p.ignoreNameContains.value| > 0
          && exists i :: OccursAt(p.ignoreNameContains.value, name, i))
      || name in p.ignoreName
  {
    || (NonEmpty(p.includeApps) && appLabel !in p.includeApps.value)
    || (NonEmpty(p.excludeApps) && appLabel in p.excludeApps.value)
    || (Truthy(p.ignoreNameContains) && Contains(p.ignoreNameContains.value, name))
    || name in p.ignoreName
  }

  /** With every option left at its default nothing is ignored. */
  lemma DefaultPolicyIgnoresNothing(appLabel: string, name: string)
    ensures !ShouldIgnoreMigration(Policy(None, [], None, None), appLabel, name)
  {
  }

  /**
   * The options of the command-line test: ignoring names containing "0001" skips
   * 0001_initial and keeps 0002_ignore_migration.
   */
  lemma IgnoreNameContainsExample()
    ensures ShouldIgnoreMigration(Policy(Some("0001"), [], None, None), "app_ignore_migration", "0001_initial")
    ensures !ShouldIgnoreMigration(Policy(Some("0001"), [], None, None), "app_ignore_migration", "0002_ignore_migration")
  {
    var kept := "0002_ignore_migration";
    assert OccursAt("0001", "0001_initial", 0);
    assert '1' !in kept;
    forall i | 0 <= i && i + 4 <= |kept|
      ensures !OccursAt("0001", kept, i)
    {
      assert kept[i..i + 4][3] == kept[i + 3] != '1';
    }
  }
}
