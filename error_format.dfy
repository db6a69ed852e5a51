/** What the linter prints for the diagnostics of an erroneous migration. */
module ErrorFormat {
  import opened LinterTypes

  /**
   * The line printed for one diagnostic: a tab and the message, then the table in
   * parentheses when it is truthy, with the column inside them when that is truthy too.
   */
  function ErrorLine(e: Error): string
  {
    if !Truthy(e.table) then "\t" + e.errMsg
    else if !Truthy(e.column) then "\t" + e.errMsg + " (table: " + e.table.value + ")"
    else "\t" + e.errMsg + " (table: " + e.table.value + ", column: " + e.column.value + ")"
  }

  /** What print_errors writes to stdout: one line per diagnostic, in the list's order. */
  function ErrorsOutput(errors: seq<Error>): (out: seq<string>)
    ensures |out| == |errors|
    ensures forall i :: 0 <= i < |errors| ==> out[i] == ErrorLine(errors[i]) + "\n"
  {
    if errors == [] then [] else [ErrorLine(errors[0]) + "\n"] + ErrorsOutput(errors[1..])
  }

  /**
   * Every printed line starts with a tab and the message, and a column is never shown
   * without its table: with no truthy table the line is the message alone.
   */
  lemma ErrorLineShape(e: Error)
    ensures "\t" + e.errMsg <= ErrorLine(e)
    ensures !Truthy(e.table) ==> ErrorLine(e) == "\t" + e.errMsg
    ensures Truthy(e.table) ==> ErrorLine(e)[|ErrorLine(e)| - 1] == ')'
  {
  }

  /** The diagnostic of the cached rename-table test prints as its message alone. */
  lemma RenameTableLine()
    ensures ErrorsOutput([Error("RENAMING tables", "RENAME_TABLE", None, None)]) == ["\tRENAMING tables\n"]
  {
    var e := Error("RENAMING tables", "RENAME_TABLE", None, None);
    assert ErrorLine(e) + "\n" == "\tRENAMING tables\n";
  }
}
