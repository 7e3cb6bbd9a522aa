# build-zipper, modelled in Dafny

`build-zipper.py` packages a Godot game exported for Windows, Linux and the
Web. Beside the script sit up to three platform folders, `Windows/`, `Linux/`
and `Web/`. The script runs four steps under one `try`/`except`:

1. `set_game_name` deduces the game's name. It picks the first existing
   folder in the order Windows, Linux, Web. It lists that folder and takes
   the first entry ending in the folder's marker extension (`.exe`,
   `.x86_64`, `.png`). The name is that entry without its last extension,
   as `os.path.splitext` computes it.
2. `rename_web_index` renames `Web/<name>.html` to `Web/index.html`.
3. `remove_console_exe` deletes `Windows/<name>.console.exe`.
4. `create_all_archives` only logs. `create_archive` names a zip
   `[<platform>] <name>.zip` and writes the given files into it.

Any exception ends the process with status 1. This includes the
`SystemExit(66)` that deduction raises.

The model works over an abstract filesystem. A `Tree` maps each present
platform to a `Node`. A `Node` is either a folder with its entries in
`os.listdir` order, or a path that exists but is not a directory. Exceptions
are values of `Raised`.

- `PyPath` (`pypath.dfy`) models `str.endswith`, `str.rfind` and
  `os.path.splitext` on bare entry names.
- `BuildTree` (`build_tree.dfy`) holds the platforms, their folder names and
  marker extensions, the exceptions, and what a rename or a removal does to
  a listing.
- `Steps` (`steps.dfy`) gives each step of the script as a function of the
  folders and of `game_name`. `Pipeline` is the whole driver.
- `Zipper` (`zipper.dfy`) is the script as a program over state. The class
  `BuildZipper` has the fields `gameName`, `tree` and `archives`. Its
  methods update them in place. Each step method is proved to have exactly
  the effect of the matching `Steps` function, and `CreateArchive` to
  write exactly the given paths under the zip's name. `SetGameName` keeps the source's
  `for` loop with `break`.
- `Archive` (`archive.dfy`) holds the zip file name.
- `Properties`, `Scenarios` and `ExitStatus` hold what the script
  guarantees and what it does not.

The code lists only the top level of the chosen folder and has no guard
against a step that was already applied. It uses `.x86_64` as the Linux
marker, and its `exit(66)` ends as status 1. `Properties.SecondRunFails`
proves that a second run fails. `ExitStatus` records the exit-status
discrepancy.

## Model

| member | source | states |
|---|---|---|
| `PyPath.EndsWith` | build-zipper.py:81 | no contract; `str.endswith`, characterised through `Steps.FirstMatch` |
| `PyPath.Splitext` | build-zipper.py:82 | no contract; `os.path.splitext` on a bare name, characterised by `PyPath.SplitextParts`, `PyPath.SplitextOfJoin` and `PyPath.SplitextOfDotted` |
| `PyPath.SplitextRoot` | build-zipper.py:82 | no contract; the root half of `PyPath.Splitext`, characterised by the same lemmas |
| `PyPath.SplitextParts` | build-zipper.py:82 | root + extension is the name; a non-empty extension is a dot followed by dot-free text and follows a non-dot character; the root is empty only for the empty name |
| `PyPath.SplitextOfJoin` | build-zipper.py:82 | only the last extension is stripped: a root holding a non-dot character plus `.ext` splits back into exactly that root and `.ext` (so `Game.console.exe` gives `Game.console`) |
| `PyPath.SplitextOfDotted` | build-zipper.py:82 | a name whose every dot has only dots before it has no extension (`.png` keeps the root `.png`) |
| `BuildTree.FolderName` | build-zipper.py:20-22 | the three folder names are non-empty and contain no `]` |
| `BuildTree.MarkerExtension` | build-zipper.py:61-72 | each marker extension is a dot followed by dot-free text |
| `BuildTree.Renamed` | build-zipper.py:98-100 | after the rename the listing holds the target exactly when the source was listed, and every other entry exactly as before |
| `BuildTree.Removed` | build-zipper.py:112-113 | after the removal the listing holds exactly the previous entries other than the removed one |
| `Steps.ChosenPlatform` | build-zipper.py:61-76 | no folder is chosen exactly when none of the three exists; a chosen folder exists and every folder of higher priority is absent |
| `Steps.FirstMatch` | build-zipper.py:79-84 | the result is the index of an entry ending in the extension with no earlier such entry, or none when no entry ends in it |
| `Steps.MatchedEntry` | build-zipper.py:79-84 | no contract; the entry at `Steps.FirstMatch`'s index |
| `Steps.ScanTree` | build-zipper.py:61-84 | no contract; characterised by `Properties.FirstMarkedEntryNamesGame` and `Properties.GameNameEmptyIffNoMarker` |
| `Steps.GameNameDeduced` | build-zipper.py:57-88 | no contract; characterised by `Properties.FirstMarkedEntryNamesGame`, `Properties.GameNameEmptyIffNoMarker`, `Properties.DeductionOutcomes` and `Properties.DeductionReadsOnlyChosenFolder` |
| `Steps.WebIndexRenamed` | build-zipper.py:92-101 | no Web folder: nothing changes; it raises exactly when Web is not a directory or `<name>.html` is not listed, and then nothing changes; on success only the Web listing changes: `<name>.html` gone, `index.html` present, other entries kept |
| `Steps.ConsoleExeRemoved` | build-zipper.py:105-114 | no Windows folder: nothing changes; it raises exactly when Windows is not a directory or `<name>.console.exe` is not listed, and then nothing changes; on success exactly that entry leaves the Windows listing and no other folder changes |
| `Steps.Pipeline` | build-zipper.py:123-132 | no contract; characterised by `Properties.AnyExceptionExitsOne`, `Properties.InputErrorExitsOne`, `Properties.SuccessfulRun` and `Properties.SecondRunFails` |
| `Properties.FirstMarkedEntryNamesGame` | build-zipper.py:79-84 | the name is the splitext root of the first entry in listing order with the chosen folder's extension; later matches are ignored; deduction then succeeds |
| `Properties.GameNameEmptyIffNoMarker` | build-zipper.py:80-88 | from the initial empty `game_name`, the name stays empty exactly when no entry of the chosen folder ends in the extension, and exactly then deduction raises `SystemExit(66)` |
| `Properties.DeductionOutcomes` | build-zipper.py:73-88 | no platform folder: `SystemExit(66)` with `game_name` unchanged; a chosen platform path that is not a directory: `NotADirectoryError` with `game_name` unchanged; a raising deduction never changes `game_name`; a successful one leaves it non-empty |
| `Properties.DeductionReadsOnlyChosenFolder` | build-zipper.py:61-79 | deduction depends only on which folders exist and on the chosen folder's content |
| `Properties.WebIndexRenamedTwiceFails` | build-zipper.py:94-100 | a second rename after a successful one raises `FileNotFoundError` for `<name>.html` and changes nothing |
| `Properties.ConsoleExeRemovedTwiceFails` | build-zipper.py:107-113 | a second removal after a successful one raises `FileNotFoundError` for `<name>.console.exe` and changes nothing |
| `Properties.InputErrorExitsOne` | build-zipper.py:123-132 | when deduction raises `SystemExit(66)` the run exits with status 1 and no folder and no name changes |
| `Properties.AnyExceptionExitsOne` | build-zipper.py:123-132 | every run exits with 0 or 1, and with 1 exactly when deduction, the rename or the removal raised |
| `Properties.SuccessfulRun` | build-zipper.py:123-132 | a run with status 0 deduced a non-empty name, applied the rename and then the removal, left Linux untouched, left `index.html` in Web and no console executable in Windows |
| `Properties.ConsoleExeNamesOtherGame` | build-zipper.py:82 | the root of `<name>.console.exe` is never `<name>` |
| `Properties.RerunDeducesSameName` | build-zipper.py:57-114 | after a successful run, deduction on the changed folders finds the same name again |
| `Properties.SecondRunFails` | build-zipper.py:123-132 | after a successful run on a tree with a Windows folder, or a Web folder whose page is not already `index.html`, a second run exits with status 1 |
| `Archive.ArchiveName` | build-zipper.py:51 | no contract; `[<platform>] <game_name>.zip`, characterised by `Archive.ArchiveNameInjective` and `Archive.PlatformArchivesDiffer` |
| `Archive.ArchiveNameInjective` | build-zipper.py:51 | for platform labels without `]`, the zip file name determines both the label and the game name |
| `Archive.PlatformArchivesDiffer` | build-zipper.py:51 | the zips of two different platforms of one game have different file names |
| `Zipper.BuildZipper.constructor` | build-zipper.py:19-24 | `game_name` starts empty; the folders and the zip files are the given ones |
| `Zipper.BuildZipper.CreateArchive` | build-zipper.py:50-53 | the zip named `[<platform>] <game_name>.zip` now holds exactly the given paths, once each, in order; it replaces any zip of that name; other zips are unchanged |
| `Zipper.BuildZipper.SetGameName` | build-zipper.py:57-88 | the outcome and the new `game_name` are those of `Steps.GameNameDeduced` on the folders and the old name |
| `Zipper.BuildZipper.RenameWebIndex` | build-zipper.py:92-101 | the outcome and the new folders are those of `Steps.WebIndexRenamed` |
| `Zipper.BuildZipper.RemoveConsoleExe` | build-zipper.py:105-114 | the outcome and the new folders are those of `Steps.ConsoleExeRemoved` |
| `Zipper.BuildZipper.Run` | build-zipper.py:123-132 | the exit status, folders and `game_name` are those of `Steps.Pipeline`; no zip is written |
| `Scenarios.FullExportRun` | build-zipper.py:57-132 | a full three-platform export of a game `n` runs to status 0 with the name `n`, `index.html` in Web and the console wrapper removed |
| `Scenarios.ConsoleWrapperListedFirst` | build-zipper.py:79-101 | when `n.console.exe` is listed before `n.exe`, the name becomes `n.console`, the page `n.console.html` is missing, and the run exits with 1 changing nothing |
| `Scenarios.WebOnlyExport` | build-zipper.py:57-132 | a Web-only export of `n` runs to status 0 with the name `n` and `index.html`, and the Windows step changes nothing |
| `Scenarios.DotfileMarker` | build-zipper.py:80-100 | an image named `.png` names the game `.png`, and the missing `.png.html` ends the run with 1 |
| `Scenarios.NoPlatformFolder` | build-zipper.py:73-76 | with no platform folder the run exits with 1, not 66, and changes nothing |
| `ExitStatus.IntendedExitStatus` | build-zipper.py:76 | the corrected driver exits with 66 exactly when deduction raises `SystemExit(66)`, and with 0 exactly when the driver as written does |
| `ExitStatus.NoPlatformFolderIntended` | build-zipper.py:129-132 | with no platform folder the corrected status is 66 and the status as written is 1 |

## Left out

- The `--silent`/`-s` argument, `log` and the `input` exit prompt (lines 26-43, and their calls) are console interaction only.
- `os.path.realpath`, `os.path.join` and the script directory are left out. The folders are keyed by platform, and entries are bare names.
- Entry kinds inside a platform folder are not modelled. `os.remove` on an entry that is itself a directory would raise, and the model does not see that.
- `Steps.WebIndexRenamed`: when `Web/index.html` already exists, the model overwrites it, which is the POSIX behaviour. On Windows `os.rename` raises `FileExistsError` instead, and the model does not capture that.
- Other operating-system errors are not modelled. These include permission errors and files vanishing between calls. Every such error would end the run with status 1, like the modelled ones.
- `create_all_archives` (lines 118-121) is a stub that only logs, so the driver writes no zip.
- `Zipper.BuildZipper.CreateArchive`: DEFLATE compression and the zip bytes are not modelled. zipfile's normalisation of member names is not modelled either: it strips a drive and a leading separator and normalises the path. The model keeps each path as passed.
- The script has load-time defects that are not modelled. The annotation `Array[str]` at line 50 names an undefined `Array`. On Pythons that evaluate function annotations eagerly, defining `create_archive` raises `NameError` before the `try` is reached. `ZIP_DEFLATED` at line 51 is not qualified by `zipfile.`, so a call would raise `NameError`. The model gives the intended bodies.
- `BuildTree.Renamed`, `BuildTree.Removed`, `Properties.MatchedEntryRenamed`, `Properties.MatchedEntryRemoved`, `Properties.RerunDeducesSameName`, `Properties.SecondRunFails`: the model fixes the `os.listdir` order after a mutation. A renamed entry keeps its place, and the other entries keep their relative order. Python leaves that order arbitrary. With another order, a second run can pick a different marked entry: Windows holding `n.exe`, `m.exe`, `n.console.exe` and `m.console.exe` could name `m` on the rerun and exit with 0.
- `Steps.WebIndexRenamed`, `Steps.ConsoleExeRemoved`: a file counts as present only when its name is listed exactly, as on a case-sensitive filesystem. On a case-insensitive one, such as NTFS or default APFS, `os.rename` and `os.remove` asked for `Game.html` also find `Game.HTML`. The model raises `FileNotFoundError` in that case, where the script would rename or remove the file.

## Findings

| source | as written | input that shows it | evidently intended | confidence | as-written member | corrected member |
|---|---|---|---|---|---|---|
| build-zipper.py:76 | `exit(66)` raises `SystemExit`; the bare `except` at line 129 catches it and calls `exit(1)` | no `Windows`, `Linux` or `Web` folder beside the script | status 66 for an input error, as the comment on the line says | high, not executed | `Properties.InputErrorExitsOne` | `ExitStatus.IntendedExitStatus` |
