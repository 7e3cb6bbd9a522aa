/** The exit status the script's authors asked for, beside the one its
    driver produces. `exit(66)` at lines 76 and 88 is marked as an input
    error, but it raises `SystemExit`, which the bare `except` at line 129
    catches and replaces by `exit(1)`. */
module ExitStatus {
  import opened BuildTree
  import opened Steps

  /** The driver with `SystemExit` let through: a deduction that ends in
      `exit(66)` ends the process with 66; every other run ends as the
      driver as written ends it. */
  function IntendedExitStatus(tree: Tree, name: string): (status: int)
    ensures status == 66 <==> GameNameDeduced(tree, name).outcome == Raise(SystemExit(66))
    ensures status == 0 <==> Pipeline(tree, name).status == 0
    ensures status == 0 || status == 1 || status == 66
  {
    if GameNameDeduced(tree, name).outcome == Raise(SystemExit(66)) then 66
    else Pipeline(tree, name).status
  }

  /** With no platform folder the intended status is 66, where the driver
      as written exits with 1. */
  lemma NoPlatformFolderIntended()
    ensures IntendedExitStatus(map[], "") == 66
    ensures Pipeline(map[], "").status == 1
  {
  }
}
