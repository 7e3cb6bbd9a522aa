/** What the steps of the build script guarantee, and what they do not. */
module Properties {
  import opened Wrappers
  import opened PyPath
  import opened BuildTree
  import opened Steps

  /** The name is the splitext root of the first entry, in listing order,
      of the chosen folder that ends with its marker extension; later
      matches are ignored, and the name is never empty. */
  lemma FirstMarkedEntryNamesGame(tree: Tree, p: Platform, entries: seq<string>, i: nat)
    requires ChosenPlatform(tree) == Some(p) && tree[p] == Folder(entries)
    requires i < |entries| && EndsWith(entries[i], MarkerExtension(p))
    requires forall j :: 0 <= j < i ==> !EndsWith(entries[j], MarkerExtension(p))
    ensures ScanTree(tree) == Listed(p, Some(SplitextRoot(entries[i])))
    ensures GameNameDeduced(tree, "") == Deduction(Done, SplitextRoot(entries[i]))
  {
    assert FirstMatch(entries, MarkerExtension(p)) == Some(i);
  }

  /** Deduction started from the initial empty `game_name` leaves it empty
      exactly when no entry of the chosen folder ends with the marker
      extension, and then fails with `exit(66)`. */
  lemma GameNameEmptyIffNoMarker(tree: Tree, p: Platform, entries: seq<string>)
    requires ChosenPlatform(tree) == Some(p) && tree[p] == Folder(entries)
    ensures GameNameDeduced(tree, "").gameName == "" <==> forall e :: e in entries ==> !EndsWith(e, MarkerExtension(p))
    ensures GameNameDeduced(tree, "").gameName == "" <==> GameNameDeduced(tree, "").outcome == Raise(SystemExit(66))
  {
    var ext := MarkerExtension(p);
    match FirstMatch(entries, ext)
    case None =>
    case Some(i) =>
      assert entries[i] != "";
  }

  /** With no platform folder at all, deduction raises `SystemExit(66)`;
      with a chosen platform path that is not a directory, `os.listdir`
      raises `NotADirectoryError`. Either way `game_name` stays as it was,
      as it does after any raise. A successful deduction leaves a
      non-empty name. */
  lemma DeductionOutcomes(tree: Tree, current: string)
    ensures ChosenPlatform(tree).None? ==> GameNameDeduced(tree, current) == Deduction(Raise(SystemExit(66)), current)
    ensures ChosenPlatform(tree).Some? && tree[ChosenPlatform(tree).value].File? ==>
      GameNameDeduced(tree, current) == Deduction(Raise(NotADirectory(ChosenPlatform(tree).value)), current)
    ensures GameNameDeduced(tree, current).outcome.Raise? ==> GameNameDeduced(tree, current).gameName == current
    ensures GameNameDeduced(tree, current).outcome == Done ==> GameNameDeduced(tree, current).gameName != ""
  {
  }

  /** Deduction lists only the chosen folder: two trees with the same
      folders present and the same content in the chosen one deduce alike. */
  lemma DeductionReadsOnlyChosenFolder(t1: Tree, t2: Tree, current: string)
    requires t1.Keys == t2.Keys
    requires ChosenPlatform(t1).Some? ==> t1[ChosenPlatform(t1).value] == t2[ChosenPlatform(t1).value]
    ensures GameNameDeduced(t1, current) == GameNameDeduced(t2, current)
  {
    assert ChosenPlatform(t1) == ChosenPlatform(t2);
  }

  /** `rename_web_index` has no "already applied" guard: once it has
      renamed `<name>.html`, a second call raises `FileNotFoundError` and
      changes nothing. */
  lemma WebIndexRenamedTwiceFails(tree: Tree, name: string)
    requires Web in tree && WebIndexRenamed(tree, name).outcome == Done
    requires name + ".html" != IndexHtml
    ensures var once := WebIndexRenamed(tree, name).tree;
      WebIndexRenamed(once, name) == After(Raise(FileNotFound(Web, name + ".html")), once)
  {
  }

  /** `remove_console_exe` has no "already applied" guard either: a second
      call raises `FileNotFoundError` and changes nothing. */
  lemma ConsoleExeRemovedTwiceFails(tree: Tree, name: string)
    requires Windows in tree && ConsoleExeRemoved(tree, name).outcome == Done
    ensures var once := ConsoleExeRemoved(tree, name).tree;
      ConsoleExeRemoved(once, name) == After(Raise(FileNotFound(Windows, name + ".console.exe")), once)
  {
  }

  /** The `SystemExit(66)` of a failed deduction is caught by the bare
      `except` and turned into `exit(1)`, and then neither a folder nor
      `game_name` has been changed. */
  lemma InputErrorExitsOne(tree: Tree, name: string)
    requires GameNameDeduced(tree, name).outcome == Raise(SystemExit(66))
    ensures Pipeline(tree, name) == Exit(1, tree, name)
  {
  }

  /** Every run ends with status 0 or 1, and with 1 exactly when one of
      the steps raised: deduction, or else the rename, or else the removal.
      The bare `except` turns any of their exceptions into `exit(1)`. */
  lemma AnyExceptionExitsOne(tree: Tree, name: string)
    ensures Pipeline(tree, name).status == 0 || Pipeline(tree, name).status == 1
    ensures var d := GameNameDeduced(tree, name);
      var w := WebIndexRenamed(tree, d.gameName);
      var c := ConsoleExeRemoved(w.tree, d.gameName);
      Pipeline(tree, name).status == 1 <==> d.outcome.Raise? || w.outcome.Raise? || c.outcome.Raise?
  {
  }

  /** A successful run deduced a non-empty name, renamed the web page to
      `index.html` when the Web folder exists, removed the console
      executable when the Windows folder exists, and touched no other
      folder. */
  lemma SuccessfulRun(tree: Tree)
    requires Pipeline(tree, "").status == 0
    ensures var run := Pipeline(tree, "");
      && run.gameName != ""
      && GameNameDeduced(tree, "") == Deduction(Done, run.gameName)
      && run.tree.Keys == tree.Keys
      && run.tree == ConsoleExeRemoved(WebIndexRenamed(tree, run.gameName).tree, run.gameName).tree
      && (Linux in tree ==> run.tree[Linux] == tree[Linux])
      && (Web in tree ==> IndexHtml in run.tree[Web].entries)
      && (Windows in tree ==> run.tree[Windows].Folder? && run.gameName + ".console.exe" !in run.tree[Windows].entries)
  {
    var n := Pipeline(tree, "").gameName;
    var w := WebIndexRenamed(tree, n);
    var c := ConsoleExeRemoved(w.tree, n);
    if Web in tree {
      assert c.tree[Web] == w.tree[Web];
    }
  }

  /** Unfolding `MatchedEntry` by one entry. */
  lemma MatchedEntryCons(entries: seq<string>, ext: string)
    requires entries != []
    ensures MatchedEntry(entries, ext) ==
      if EndsWith(entries[0], ext) then Some(entries[0]) else MatchedEntry(entries[1..], ext)
  {
  }

  /** A rename between two entries that do not carry the extension keeps
      the first entry that does. */
  lemma {:induction false} MatchedEntryRenamed(entries: seq<string>, src: string, dst: string, ext: string)
    requires !EndsWith(src, ext) && !EndsWith(dst, ext)
    ensures MatchedEntry(Renamed(entries, src, dst), ext) == MatchedEntry(entries, ext)
  {
    if entries != [] {
      MatchedEntryCons(entries, ext);
      MatchedEntryRenamed(entries[1..], src, dst, ext);
      var rest := Renamed(entries[1..], src, dst);
      if entries[0] == src {
        MatchedEntryCons([dst] + rest, ext);
        assert ([dst] + rest)[1..] == rest;
      } else if entries[0] != dst {
        MatchedEntryCons([entries[0]] + rest, ext);
        assert ([entries[0]] + rest)[1..] == rest;
      }
    }
  }

  /** Removing an entry other than the first one that carries the
      extension keeps that first one. */
  lemma {:induction false} MatchedEntryRemoved(entries: seq<string>, x: string, ext: string)
    requires MatchedEntry(entries, ext) != Some(x)
    ensures MatchedEntry(Removed(entries, x), ext) == MatchedEntry(entries, ext)
  {
    if entries != [] {
      MatchedEntryCons(entries, ext);
      var rest := Removed(entries[1..], x);
      if entries[0] == x {
        MatchedEntryRemoved(entries[1..], x, ext);
      } else {
        MatchedEntryCons([entries[0]] + rest, ext);
        assert ([entries[0]] + rest)[1..] == rest;
        if !EndsWith(entries[0], ext) {
          MatchedEntryRemoved(entries[1..], x, ext);
        }
      }
    }
  }

  /** `name + ".html"` never ends with ".png", nor with ".exe" or ".x86_64". */
  lemma HtmlIsNoMarker(name: string, p: Platform)
    ensures !EndsWith(name + ".html", MarkerExtension(p))
  {
    var s := name + ".html";
    assert s[|s| - 1] == 'l';
  }

  /** The game name never comes from the console executable it names:
      the root of `<name>.console.exe` is `<name>.console`. */
  lemma ConsoleExeNamesOtherGame(name: string)
    ensures SplitextRoot(name + ".console.exe") != name
  {
    var root := name + ".console";
    assert root[|name| + 1] == 'c';
    assert root + ".exe" == name + ".console.exe";
    SplitextOfJoin(root, ".exe");
  }

  /** A successful run decomposes into its three successful steps. */
  lemma SuccessfulRunSteps(tree: Tree)
    requires Pipeline(tree, "").status == 0
    ensures var n := Pipeline(tree, "").gameName;
      && GameNameDeduced(tree, "") == Deduction(Done, n)
      && WebIndexRenamed(tree, n).outcome == Done
      && ConsoleExeRemoved(WebIndexRenamed(tree, n).tree, n) == After(Done, Pipeline(tree, "").tree)
  {
  }

  /** Two trees with the same folders present whose chosen folders yield
      the same first marked entry deduce the same name. */
  lemma SameMarkedEntrySameName(t1: Tree, t2: Tree, p: Platform)
    requires t1.Keys == t2.Keys && ChosenPlatform(t1) == Some(p)
    requires t1[p].Folder? && t2[p].Folder?
    requires MatchedEntry(t1[p].entries, MarkerExtension(p)) == MatchedEntry(t2[p].entries, MarkerExtension(p))
    ensures ScanTree(t1) == ScanTree(t2)
  {
    assert ChosenPlatform(t2) == Some(p);
  }

  /** After the Web page was renamed and the console executable removed,
      the chosen folder still yields the same first marked entry. */
  lemma MutationsKeepMarkedEntry(tree: Tree, n: string, p: Platform)
    requires ChosenPlatform(tree) == Some(p) && tree[p].Folder?
    requires MatchedEntry(tree[p].entries, MarkerExtension(p)).Some?
    requires SplitextRoot(MatchedEntry(tree[p].entries, MarkerExtension(p)).value) == n
    requires WebIndexRenamed(tree, n).outcome == Done
    requires ConsoleExeRemoved(WebIndexRenamed(tree, n).tree, n).outcome == Done
    ensures var after := ConsoleExeRemoved(WebIndexRenamed(tree, n).tree, n).tree;
      && after.Keys == tree.Keys
      && after[p].Folder?
      && MatchedEntry(after[p].entries, MarkerExtension(p)) == MatchedEntry(tree[p].entries, MarkerExtension(p))
  {
    var w := WebIndexRenamed(tree, n);
    var c := ConsoleExeRemoved(w.tree, n);
    var entries := tree[p].entries;
    var ext := MarkerExtension(p);
    match p
    case Linux =>
      assert c.tree[p] == w.tree[p] == tree[p];
    case Web =>
      assert c.tree == w.tree;
      assert w.tree[Web] == Folder(Renamed(entries, n + ".html", IndexHtml));
      HtmlIsNoMarker(n, Web);
      assert IndexHtml[|IndexHtml| - 1] == 'l';
      MatchedEntryRenamed(entries, n + ".html", IndexHtml, ext);
    case Windows =>
      assert w.tree[Windows] == tree[Windows];
      assert c.tree[Windows] == Folder(Removed(entries, n + ".console.exe"));
      ConsoleExeNamesOtherGame(n);
      MatchedEntryRemoved(entries, n + ".console.exe", ext);
  }

  /** A successful run changes nothing that deduction reads: a second run
      deduces the same name. */
  lemma RerunDeducesSameName(tree: Tree)
    requires Pipeline(tree, "").status == 0
    ensures var run := Pipeline(tree, "");
      GameNameDeduced(run.tree, "") == Deduction(Done, run.gameName)
  {
    var run := Pipeline(tree, "");
    var n := run.gameName;
    SuccessfulRunSteps(tree);
    var p := ChosenPlatform(tree).value;
    MutationsKeepMarkedEntry(tree, n, p);
    SameMarkedEntrySameName(run.tree, tree, p);
  }

  /** The run is not idempotent: after a successful run on a tree with a
      Windows folder, or with a Web folder whose page was not already
      `index.html`, running the script again exits with status 1. */
  lemma SecondRunFails(tree: Tree)
    requires Pipeline(tree, "").status == 0
    requires Windows in tree || (Web in tree && Pipeline(tree, "").gameName + ".html" != IndexHtml)
    ensures Pipeline(Pipeline(tree, "").tree, "").status == 1
  {
    var run := Pipeline(tree, "");
    var n := run.gameName;
    var w := WebIndexRenamed(tree, n);
    RerunDeducesSameName(tree);
    SuccessfulRun(tree);
    var w2 := WebIndexRenamed(run.tree, n);
    if Web in tree && n + ".html" != IndexHtml {
      assert run.tree[Web] == w.tree[Web];
      assert w2.outcome.Raise?;
    } else if w2.outcome == Done {
      assert w2.tree[Windows] == run.tree[Windows];
      assert ConsoleExeRemoved(w2.tree, n).outcome.Raise?;
    }
  }
}
