/** The file name `create_archive` gives a platform's zip (line 51). */
module Archive {
  import opened BuildTree

  /** `"[" + platform + "] " + game_name + ".zip"`. */
  function ArchiveName(platform: string, gameName: string): string
  {
    "[" + platform + "] " + gameName + ".zip"
  }

  /** The first `]` of an archive name closes the platform label, as long
      as the label holds none. */
  lemma ClosingBracket(platform: string, gameName: string, j: nat)
    requires ']' !in platform && j <= |platform|
    ensures var s := ArchiveName(platform, gameName);
      j + 1 < |s| && (s[j + 1] == ']' <==> j == |platform|)
  {
    var s := ArchiveName(platform, gameName);
    if j < |platform| {
      assert s[j + 1] == platform[j];
    }
  }

  /** Archive names determine their platform label and game name, for
      labels without `]`: different platforms or names never write the
      same zip file. */
  lemma ArchiveNameInjective(p1: string, n1: string, p2: string, n2: string)
    requires ']' !in p1 && ']' !in p2
    requires ArchiveName(p1, n1) == ArchiveName(p2, n2)
    ensures p1 == p2 && n1 == n2
  {
    var s := ArchiveName(p1, n1);
    if |p1| < |p2| {
      ClosingBracket(p2, n2, |p1|);
    } else if |p2| < |p1| {
      ClosingBracket(p1, n1, |p2|);
    }
    assert p1 == s[1..|p1| + 1] == p2;
    assert n1 == s[|p1| + 3..|s| - 4] == n2;
  }

  /** The three platforms' archives of one game are three different files. */
  lemma PlatformArchivesDiffer(p: Platform, q: Platform, gameName: string)
    requires p != q
    ensures ArchiveName(FolderName(p), gameName) != ArchiveName(FolderName(q), gameName)
  {
    if ArchiveName(FolderName(p), gameName) == ArchiveName(FolderName(q), gameName) {
      ArchiveNameInjective(FolderName(p), gameName, FolderName(q), gameName);
    }
  }
}
