/** The build script as a program over state: the global `game_name`, the
    platform folders beside the script and the zip files in the working
    directory. Each step method is proved to have the effect the matching
    function of `Steps` describes; `CreateArchive` writes exactly the given
    paths under the zip's name. */
module Zipper {
  import opened Wrappers
  import opened PyPath
  import opened BuildTree
  import opened Steps
  import opened Archive

  class BuildZipper {
    /** The global `game_name` (line 23). */
    var gameName: string
    /** The Windows, Linux and Web folders beside the script. */
    var tree: Tree
    /** The zip files in the working directory: file name to member names. */
    var archives: map<string, seq<string>>

    /** The module-level set-up (lines 19-24): `game_name` starts empty. */
    constructor (tree: Tree, archives: map<string, seq<string>>)
      ensures this.tree == tree && this.archives == archives && gameName == ""
    {
      this.tree := tree;
      this.archives := archives;
      gameName := "";
    }

    /** `create_archive` (lines 50-53): opening the zip in "w" mode replaces
        any file of that name; each given path becomes one member, in the
        given order, under the path as passed. */
    method CreateArchive(platform: string, files: seq<string>)
      modifies this`archives
      ensures archives == old(archives)[ArchiveName(platform, gameName) := files]
    {
      var zipName := ArchiveName(platform, gameName);
      var members: seq<string> := [];
      for i := 0 to |files|
        invariant members == files[..i]
      {
        members := members + [files[i]];
      }
      assert files[..|files|] == files;
      archives := archives[zipName := members];
    }

    /** `set_game_name` (lines 57-88): choose the folder by priority, list
        it, keep the root of the first entry with the marker extension, and
        raise `SystemExit(66)` if no folder exists or the name is empty. */
    method SetGameName() returns (outcome: Outcome)
      modifies this`gameName
      ensures Deduction(outcome, gameName) == GameNameDeduced(tree, old(gameName))
    {
      var t := tree;
      var chosen: Platform;
      if Windows in t {
        chosen := Windows;
      } else if Linux in t {
        chosen := Linux;
      } else if Web in t {
        chosen := Web;
      } else {
        return Raise(SystemExit(66));
      }
      assert ChosenPlatform(t) == Some(chosen);
      var extension := MarkerExtension(chosen);
      if t[chosen].File? {
        return Raise(NotADirectory(chosen));
      }
      var files := t[chosen].entries;
      ghost var hit: Option<nat> := None;
      var i := 0;
      while i < |files|
        invariant 0 <= i <= |files|
        invariant forall j :: 0 <= j < i ==> !EndsWith(files[j], extension)
        invariant gameName == old(gameName) && hit == None
      {
        if EndsWith(files[i], extension) {
          gameName := SplitextRoot(files[i]);
          hit := Some(i);
          break;
        }
        i := i + 1;
      }
      assert hit == FirstMatch(files, extension);
      DeductionOfListing(t, old(gameName), chosen, files, hit);
      if gameName == "" {
        return Raise(SystemExit(66));
      }
      return Done;
    }

    /** `rename_web_index` (lines 92-101). */
    method RenameWebIndex() returns (outcome: Outcome)
      modifies this`tree
      ensures After(outcome, tree) == WebIndexRenamed(old(tree), gameName)
    {
      if Web !in tree {
        return Done;
      }
      if tree[Web].File? {
        return Raise(NotADirectory(Web));
      }
      var indexFile := gameName + ".html";
      if indexFile !in tree[Web].entries {
        return Raise(FileNotFound(Web, indexFile));
      }
      tree := tree[Web := Folder(Renamed(tree[Web].entries, indexFile, IndexHtml))];
      return Done;
    }

    /** `remove_console_exe` (lines 105-114). */
    method RemoveConsoleExe() returns (outcome: Outcome)
      modifies this`tree
      ensures After(outcome, tree) == ConsoleExeRemoved(old(tree), gameName)
    {
      if Windows !in tree {
        return Done;
      }
      if tree[Windows].File? {
        return Raise(NotADirectory(Windows));
      }
      var consoleFile := gameName + ".console.exe";
      if consoleFile !in tree[Windows].entries {
        return Raise(FileNotFound(Windows, consoleFile));
      }
      tree := tree[Windows := Folder(Removed(tree[Windows].entries, consoleFile))];
      return Done;
    }

    /** The top-level `try`/`except` (lines 123-132): the first step that
        raises, `SystemExit(66)` included, ends the run with status 1;
        `create_all_archives` only logs, so no zip file is written. */
    method Run() returns (status: int)
      modifies this
      ensures Exit(status, tree, gameName) == Pipeline(old(tree), old(gameName))
      ensures archives == old(archives)
    {
      var outcome := SetGameName();
      if outcome.Raise? {
        return 1;
      }
      outcome := RenameWebIndex();
      if outcome.Raise? {
        return 1;
      }
      outcome := RemoveConsoleExe();
      if outcome.Raise? {
        return 1;
      }
      return 0;
    }
  }
}
