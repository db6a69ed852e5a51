/** Values exchanged between the migration linter, the SQL analyser and the cache. */
module LinterTypes {

  datatype Option<+T> = None | Some(value: T)

  /** A byte of a migration file. */
  newtype byte = b: int | 0 <= b < 256

  /** Python truthiness of an optional string: `None` and `""` are false. */
  predicate Truthy(o: Option<string>)
  {
    o.Some? && o.value != ""
  }

  /** Python truthiness of an optional list or tuple: `None` and an empty one are false. */
  predicate NonEmpty<T>(o: Option<seq<T>>)
  {
    o.Some? && o.value != []
  }

  /** One diagnostic of the analyser: the dict with keys err_msg, code, table and column. */
  datatype Error = Error(errMsg: string, code: string, table: Option<string>, column: Option<string>)

  /** The analyser's result dict: its "ignored" flag and its "errors" list. */
  datatype Analysis = Analysis(ignored: bool, errors: seq<Error>)

  /** A gathered migration: app label, migration name, and the bytes of its file when it is linted. */
  datatype Migration = Migration(appLabel: string, name: string, source: seq<byte>)

  /** The three outcomes counted by the linter. */
  datatype Verdict = Ignore | Ok | Err

  /** A cache value: the dict {"result": ...}, with an "errors" list only for analysed ERR entries. */
  datatype Entry = Entry(result: string, errors: Option<seq<Error>>)

  /** How a cached entry is read back: "IGNORE", "OK", and anything else counts as erroneous. */
  function CachedVerdict(e: Entry): Verdict
  {
    if e.result == "IGNORE" then Ignore
    else if e.result == "OK" then Ok
    else Err
  }

  /** The verdict given to an analysed migration: the analyser's flag wins over its errors. */
  function Classify(a: Analysis): Verdict
  {
    if a.ignored then Ignore
    else if a.errors == [] then Ok
    else Err
  }

  /**
   * The entry written to the new cache for an analysed migration. Reading it back gives the
   * verdict it was written for, and only erroneous entries carry the (non-empty) error list.
   */
  function StoredEntry(a: Analysis): (e: Entry)
    ensures CachedVerdict(e) == Classify(a)
    ensures a.ignored ==> e == Entry("IGNORE", None)
    ensures e.errors.Some? <==> CachedVerdict(e) == Err
    ensures e.errors.Some? ==> e.errors.value == a.errors && a.errors != []
    ensures CachedVerdict(e) == Err ==> e.result == "ERR"
  {
    if a.ignored then Entry("IGNORE", None)
    else if a.errors == [] then Entry("OK", None)
    else Entry("ERR", Some(a.errors))
  }
}
