/** The part of the filesystem the build script sees: the three platform
    folders beside the script, each either a directory with its entries in
    `os.listdir` order or something that exists but is not a directory. */
module BuildTree {

  datatype Platform = Windows | Linux | Web

  /** The folder name joined onto the script's directory (lines 20-22). */
  function FolderName(p: Platform): (name: string)
    ensures name != "" && ']' !in name
  {
    match p
    case Windows => "Windows"
    case Linux => "Linux"
    case Web => "Web"
  }

  /** The extension whose first carrier names the game (lines 64, 68, 72). */
  function MarkerExtension(p: Platform): (ext: string)
    ensures |ext| >= 2 && ext[0] == '.' && '.' !in ext[1..]
  {
    match p
    case Windows => ".exe"
    case Linux => ".x86_64"
    case Web => ".png"
  }

  /** What `os.path.exists` finds at a platform folder's path. */
  datatype Node = Folder(entries: seq<string>) | File

  type Tree = map<Platform, Node>

  /** The entry `rename_web_index` renames the web page to (line 99). */
  const IndexHtml: string := "index.html"

  /** The exceptions the script raises: `exit(66)` raises `SystemExit`,
      `os.rename`/`os.remove` raise `FileNotFoundError` for a missing entry,
      and `os.listdir`/`os.rename`/`os.remove` raise `NotADirectoryError`
      when the platform path exists but is not a directory. */
  datatype Raised =
    | SystemExit(code: int)
    | FileNotFound(folder: Platform, entry: string)
    | NotADirectory(folder: Platform)

  /** How a step of the script ends: normally, or by raising. */
  datatype Outcome = Done | Raise(error: Raised)

  /** A listing after `os.rename(src, dst)` inside its directory: the entry
      `src` takes the name `dst`, a previous `dst` is replaced (the POSIX
      behaviour) and every other entry stays, in its place. */
  function Renamed(entries: seq<string>, src: string, dst: string): (r: seq<string>)
    ensures forall e :: e in r <==> (e == dst && src in entries) || (e in entries && e != src && e != dst)
  {
    if entries == [] then []
    else if entries[0] == src then [dst] + Renamed(entries[1..], src, dst)
    else if entries[0] == dst then Renamed(entries[1..], src, dst)
    else [entries[0]] + Renamed(entries[1..], src, dst)
  }

  /** A listing after `os.remove(x)` inside its directory: `x` is gone and
      every other entry stays, in order. */
  function Removed(entries: seq<string>, x: string): (r: seq<string>)
    ensures forall e :: e in r <==> e in entries && e != x
    ensures |r| <= |entries|
  {
    if entries == [] then []
    else if entries[0] == x then Removed(entries[1..], x)
    else [entries[0]] + Removed(entries[1..], x)
  }
}
