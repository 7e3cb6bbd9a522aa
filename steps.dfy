/** The effect of each step of the build script, as functions of the
    platform folders and of the global `game_name`. The step methods of
    `Zipper.BuildZipper` are proved to have exactly these effects. */
module Steps {
  import opened Wrappers
  import opened PyPath
  import opened BuildTree

  /** Position of a platform in the order the script tries them. */
  function Rank(p: Platform): nat
  {
    match p
    case Windows => 0
    case Linux => 1
    case Web => 2
  }

  /** The folder `set_game_name` deduces from: the first existing one of
      Windows, Linux, Web (lines 61-76). */
  function ChosenPlatform(tree: Tree): (r: Option<Platform>)
    ensures r.None? <==> Windows !in tree && Linux !in tree && Web !in tree
    ensures r.Some? ==> r.value in tree && forall q: Platform :: Rank(q) < Rank(r.value) ==> q !in tree
  {
    if Windows in tree then Some(Windows)
    else if Linux in tree then Some(Linux)
    else if Web in tree then Some(Web)
    else None
  }

  /** Index of the first entry, in listing order, that ends with `ext`. */
  function FirstMatch(entries: seq<string>, ext: string): (r: Option<nat>)
    ensures r.Some? ==> r.value < |entries| && EndsWith(entries[r.value], ext)
    ensures r.Some? ==> forall j :: 0 <= j < r.value ==> !EndsWith(entries[j], ext)
    ensures r.None? <==> forall j :: 0 <= j < |entries| ==> !EndsWith(entries[j], ext)
  {
    if entries == [] then None
    else if EndsWith(entries[0], ext) then Some(0)
    else match FirstMatch(entries[1..], ext)
      case None => None
      case Some(i) => Some(i + 1)
  }

  /** The first entry, in listing order, that ends with `ext`. */
  function MatchedEntry(entries: seq<string>, ext: string): Option<string>
  {
    match FirstMatch(entries, ext)
    case None => None
    case Some(i) => Some(entries[i])
  }

  /** What the listing part of `set_game_name` finds. */
  datatype Scan =
    | NoBuildFolder
    | Unlistable(platform: Platform)
    | Listed(platform: Platform, found: Option<string>)

  /** Lines 61-84 without the global: choose the folder, list it, and take
      the splitext root of the first entry with the folder's marker
      extension. */
  function ScanTree(tree: Tree): Scan
  {
    match ChosenPlatform(tree)
    case None => NoBuildFolder
    case Some(p) =>
      match tree[p]
      case File => Unlistable(p)
      case Folder(entries) =>
        match MatchedEntry(entries, MarkerExtension(p))
        case None => Listed(p, None)
        case Some(e) => Listed(p, Some(SplitextRoot(e)))
  }

  /** The outcome of a step and the value of `game_name` after it. */
  datatype Deduction = Deduction(outcome: Outcome, gameName: string)

  /** `set_game_name` (lines 57-88) started with `game_name == current`. */
  function GameNameDeduced(tree: Tree, current: string): Deduction
  {
    match ScanTree(tree)
    case NoBuildFolder => Deduction(Raise(SystemExit(66)), current)
    case Unlistable(p) => Deduction(Raise(NotADirectory(p)), current)
    case Listed(_, found) =>
      var name := if found.Some? then found.value else current;
      Deduction(if name == "" then Raise(SystemExit(66)) else Done, name)
  }

  /** Deduction once the chosen folder is listed and its first marked
      entry, if any, is known. */
  lemma DeductionOfListing(tree: Tree, current: string, p: Platform, files: seq<string>, hit: Option<nat>)
    requires ChosenPlatform(tree) == Some(p) && tree[p] == Folder(files)
    requires hit == FirstMatch(files, MarkerExtension(p))
    ensures var name := if hit.Some? then SplitextRoot(files[hit.value]) else current;
      GameNameDeduced(tree, current) == Deduction(if name == "" then Raise(SystemExit(66)) else Done, name)
  {
  }

  /** The outcome of a step and the platform folders after it. */
  datatype After = After(outcome: Outcome, tree: Tree)

  /** `rename_web_index` (lines 92-101) with `game_name == name`. */
  function WebIndexRenamed(tree: Tree, name: string): (r: After)
    ensures Web !in tree ==> r == After(Done, tree)
    ensures r.outcome.Raise? ==> r.tree == tree
    ensures r.outcome.Raise? <==> Web in tree && (tree[Web].File? || name + ".html" !in tree[Web].entries)
    ensures r.outcome == Done && Web in tree ==>
      && r.tree.Keys == tree.Keys
      && (forall p :: p in tree && p != Web ==> r.tree[p] == tree[p])
      && r.tree[Web].Folder?
      && forall e :: e in r.tree[Web].entries <==> e == IndexHtml || (e in tree[Web].entries && e != name + ".html")
  {
    if Web !in tree then After(Done, tree)
    else match tree[Web]
      case File => After(Raise(NotADirectory(Web)), tree)
      case Folder(entries) =>
        var src := name + ".html";
        if src !in entries then After(Raise(FileNotFound(Web, src)), tree)
        else After(Done, tree[Web := Folder(Renamed(entries, src, IndexHtml))])
  }

  /** `remove_console_exe` (lines 105-114) with `game_name == name`. */
  function ConsoleExeRemoved(tree: Tree, name: string): (r: After)
    ensures Windows !in tree ==> r == After(Done, tree)
    ensures r.outcome.Raise? ==> r.tree == tree
    ensures r.outcome.Raise? <==> Windows in tree && (tree[Windows].File? || name + ".console.exe" !in tree[Windows].entries)
    ensures r.outcome == Done && Windows in tree ==>
      && r.tree.Keys == tree.Keys
      && (forall p :: p in tree && p != Windows ==> r.tree[p] == tree[p])
      && r.tree[Windows].Folder?
      && forall e :: e in r.tree[Windows].entries <==> e in tree[Windows].entries && e != name + ".console.exe"
  {
    if Windows !in tree then After(Done, tree)
    else match tree[Windows]
      case File => After(Raise(NotADirectory(Windows)), tree)
      case Folder(entries) =>
        var target := name + ".console.exe";
        if target !in entries then After(Raise(FileNotFound(Windows, target)), tree)
        else After(Done, tree[Windows := Folder(Removed(entries, target))])
  }

  /** The exit status of the process, with the folders and `game_name` it
      leaves behind. */
  datatype Exit = Exit(status: int, tree: Tree, gameName: string)

  /** The top-level driver (lines 123-132): the steps in order; the bare
      `except` catches every exception, `SystemExit(66)` included, and ends
      the process with `exit(1)`. `create_all_archives` only logs. */
  function Pipeline(tree: Tree, name: string): Exit
  {
    var d := GameNameDeduced(tree, name);
    if d.outcome.Raise? then Exit(1, tree, d.gameName)
    else
      var w := WebIndexRenamed(tree, d.gameName);
      if w.outcome.Raise? then Exit(1, w.tree, d.gameName)
      else
        var c := ConsoleExeRemoved(w.tree, d.gameName);
        if c.outcome.Raise? then Exit(1, c.tree, d.gameName)
        else Exit(0, c.tree, d.gameName)
  }
}
