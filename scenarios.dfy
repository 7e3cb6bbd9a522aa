/** Whole runs of the script on typical build trees, for every game name
    `n` that is not made of dots only. */
module Scenarios {
  import opened Wrappers
  import opened PyPath
  import opened BuildTree
  import opened Steps
  import opened Properties

  /** `n + ".html"` is the web page `index.html` only for the name "index". */
  lemma PageIsIndexOnlyForIndex(n: string)
    requires n != "index"
    ensures n + ".html" != IndexHtml
  {
    assert (n + ".html")[..|n|] == n;
    assert IndexHtml[..5] == "index";
  }

  /** A run whose three steps succeed ends with status 0. */
  lemma RunOfSteps(tree: Tree, n: string, renamed: Tree, removed: Tree)
    requires GameNameDeduced(tree, "") == Deduction(Done, n)
    requires WebIndexRenamed(tree, n) == After(Done, renamed)
    requires ConsoleExeRemoved(renamed, n) == After(Done, removed)
    ensures Pipeline(tree, "") == Exit(0, removed, n)
  {
  }

  /** One successful rename inside a listed Web folder. */
  lemma RenameStep(tree: Tree, n: string, entries: seq<string>, after: seq<string>)
    requires Web in tree && tree[Web] == Folder(entries) && n + ".html" in entries
    requires Renamed(entries, n + ".html", IndexHtml) == after
    ensures WebIndexRenamed(tree, n) == After(Done, tree[Web := Folder(after)])
  {
  }

  /** One successful removal inside a listed Windows folder. */
  lemma RemoveStep(tree: Tree, n: string, entries: seq<string>, after: seq<string>)
    requires Windows in tree && tree[Windows] == Folder(entries) && n + ".console.exe" in entries
    requires Removed(entries, n + ".console.exe") == after
    ensures ConsoleExeRemoved(tree, n) == After(Done, tree[Windows := Folder(after)])
  {
  }

  /** A Godot export for all three platforms, `n.exe` listed before its
      console wrapper. */
  function FullExportTree(n: string): Tree
  {
    map[Windows := Folder([n + ".exe", n + ".console.exe", n + ".pck"]),
        Linux := Folder([n + ".x86_64", n + ".pck"]),
        Web := Folder([n + ".html", n + ".png", n + ".js"])]
  }

  /** The same export with the web page renamed. */
  function FullExportRenamed(n: string): Tree
  {
    FullExportTree(n)[Web := Folder([IndexHtml, n + ".png", n + ".js"])]
  }

  /** The same export ready to ship: web page renamed, console wrapper gone. */
  function FullExportPackaged(n: string): Tree
  {
    FullExportRenamed(n)[Windows := Folder([n + ".exe", n + ".pck"])]
  }

  lemma FullExportNamed(n: string)
    requires !AllDots(n)
    ensures GameNameDeduced(FullExportTree(n), "") == Deduction(Done, n)
  {
    var tree := FullExportTree(n);
    SplitextOfJoin(n, ".exe");
    assert (n + ".exe")[|n|..] == ".exe";
    FirstMarkedEntryNamesGame(tree, Windows, tree[Windows].entries, 0);
  }

  lemma FullExportPageRenamed(n: string)
    requires n != "index"
    ensures WebIndexRenamed(FullExportTree(n), n) == After(Done, FullExportRenamed(n))
  {
    var web := [n + ".html", n + ".png", n + ".js"];
    var page := n + ".html";
    PageIsIndexOnlyForIndex(n);
    assert Renamed(web, page, IndexHtml) == [IndexHtml, n + ".png", n + ".js"] by {
      assert web[1..] == [n + ".png", n + ".js"] && web[2..] == [n + ".js"] && web[3..] == [];
      assert (n + ".png")[|n| + 1] != page[|n| + 1] && (n + ".png")[|n| + 3] != IndexHtml[9];
      assert |n + ".js"| != |page| && (n + ".js")[|n| + 2] != IndexHtml[9];
      assert Renamed(web[2..], page, IndexHtml) == [n + ".js"];
      assert Renamed(web[1..], page, IndexHtml) == [n + ".png", n + ".js"];
    }
    RenameStep(FullExportTree(n), n, web, [IndexHtml, n + ".png", n + ".js"]);
  }

  lemma FullExportConsoleRemoved(n: string)
    ensures ConsoleExeRemoved(FullExportRenamed(n), n) == After(Done, FullExportPackaged(n))
  {
    var windows := [n + ".exe", n + ".console.exe", n + ".pck"];
    var console := n + ".console.exe";
    assert Removed(windows, console) == [n + ".exe", n + ".pck"] by {
      assert windows[1..] == [console, n + ".pck"] && windows[2..] == [n + ".pck"] && windows[3..] == [];
      assert |n + ".exe"| != |console| && |n + ".pck"| != |console|;
      assert Removed(windows[2..], console) == [n + ".pck"];
      assert Removed(windows[1..], console) == [n + ".pck"];
    }
    RemoveStep(FullExportRenamed(n), n, windows, [n + ".exe", n + ".pck"]);
  }

  /** On the full export the run names the game `n`, renames the web page,
      removes the console executable and exits with status 0. */
  lemma FullExportRun(n: string)
    requires !AllDots(n) && n != "index"
    ensures Pipeline(FullExportTree(n), "") == Exit(0, FullExportPackaged(n), n)
  {
    FullExportNamed(n);
    FullExportPageRenamed(n);
    FullExportConsoleRemoved(n);
    RunOfSteps(FullExportTree(n), n, FullExportRenamed(n), FullExportPackaged(n));
  }

  /** The same export listed with the console wrapper first (the order a
      name-sorted listing gives): the name comes out as `n.console`, the
      page `n.console.html` is missing and the run exits with status 1
      without changing anything. */
  lemma ConsoleWrapperListedFirst(n: string)
    requires !AllDots(n)
    ensures var tree := map[
        Windows := Folder([n + ".console.exe", n + ".exe"]),
        Web := Folder([n + ".html", n + ".png"])];
      Pipeline(tree, "") == Exit(1, tree, n + ".console")
  {
    var windows := [n + ".console.exe", n + ".exe"];
    var web := [n + ".html", n + ".png"];
    var tree := map[Windows := Folder(windows), Web := Folder(web)];
    var name := n + ".console";
    assert GameNameDeduced(tree, "") == Deduction(Done, name) by {
      assert name + ".exe" == windows[0];
      assert name[|n| + 1] == 'c';
      SplitextOfJoin(name, ".exe");
      assert windows[0][|name|..] == ".exe";
      FirstMarkedEntryNamesGame(tree, Windows, windows, 0);
    }
    assert name + ".html" !in web by {
      assert |name + ".html"| != |web[0]| && |name + ".html"| != |web[1]|;
    }
  }

  /** A build for the Web only. */
  function WebExportTree(n: string): Tree
  {
    map[Web := Folder([n + ".html", n + ".png"])]
  }

  lemma WebExportNamed(n: string)
    requires !AllDots(n)
    ensures GameNameDeduced(WebExportTree(n), "") == Deduction(Done, n)
  {
    var tree := WebExportTree(n);
    SplitextOfJoin(n, ".png");
    assert (n + ".png")[|n|..] == ".png";
    HtmlIsNoMarker(n, Web);
    FirstMarkedEntryNamesGame(tree, Web, tree[Web].entries, 1);
  }

  lemma WebExportPageRenamed(n: string)
    requires n != "index"
    ensures WebIndexRenamed(WebExportTree(n), n) == After(Done, map[Web := Folder([IndexHtml, n + ".png"])])
  {
    var web := [n + ".html", n + ".png"];
    var page := n + ".html";
    PageIsIndexOnlyForIndex(n);
    assert Renamed(web, page, IndexHtml) == [IndexHtml, n + ".png"] by {
      assert web[1..] == [n + ".png"] && web[2..] == [];
      assert (n + ".png")[|n| + 1] != page[|n| + 1] && (n + ".png")[|n| + 3] != IndexHtml[9];
      assert Renamed(web[1..], page, IndexHtml) == [n + ".png"];
    }
    RenameStep(WebExportTree(n), n, web, [IndexHtml, n + ".png"]);
    assert WebExportTree(n)[Web := Folder([IndexHtml, n + ".png"])] == map[Web := Folder([IndexHtml, n + ".png"])];
  }

  /** Only a Web build: the name comes from the image, the page becomes
      `index.html`, no Windows step is attempted and the run exits with
      status 0. */
  lemma WebOnlyExport(n: string)
    requires !AllDots(n) && n != "index"
    ensures Pipeline(WebExportTree(n), "") == Exit(0, map[Web := Folder([IndexHtml, n + ".png"])], n)
  {
    var renamed := map[Web := Folder([IndexHtml, n + ".png"])];
    WebExportNamed(n);
    WebExportPageRenamed(n);
    RunOfSteps(WebExportTree(n), n, renamed, renamed);
  }

  /** An image named just ".png" has no extension to strip, so the game is
      named ".png" and its page `.png.html` is looked for. */
  lemma DotfileMarker()
    ensures var tree := map[Web := Folder([".png"])];
      Pipeline(tree, "") == Exit(1, tree, ".png")
  {
    var web := [".png"];
    var tree := map[Web := Folder(web)];
    assert GameNameDeduced(tree, "") == Deduction(Done, ".png") by {
      SplitextOfDotted(".png");
      FirstMarkedEntryNamesGame(tree, Web, web, 0);
    }
    assert ".png" + ".html" !in web by {
      assert |".png" + ".html"| != |web[0]|;
    }
  }

  /** No platform folder: the run exits with status 1 and changes nothing. */
  lemma NoPlatformFolder()
    ensures Pipeline(map[], "") == Exit(1, map[], "")
  {
  }
}
