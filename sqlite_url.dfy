/** `_build_sqlite_url`: the SQLAlchemy URL for a database path. */
module SqliteUrl {

  const MemoryPath: string := ":memory:"
  const UrlPrefix: string := "sqlite:///"
  const Backslash: char := '\\'

  /** `path.replace(chr(92), '/')`. */
  function ReplaceBackslashes(path: string): (r: string)
    ensures |r| == |path|
    ensures forall i :: 0 <= i < |path| ==> r[i] == if path[i] == Backslash then '/' else path[i]
  {
    if path == [] then []
    else [if path[0] == Backslash then '/' else path[0]] + ReplaceBackslashes(path[1..])
  }

  /**
   * `_build_sqlite_url(db_path)`: the in-memory URL for ":memory:",
   * otherwise "sqlite:///" and the path with every backslash turned into a
   * forward slash; never a backslash in the result, and exactly ten
   * characters longer than the path.
   */
  function BuildSqliteUrl(path: string): (url: string)
    ensures |url| == |path| + |UrlPrefix| && url[..|UrlPrefix|] == UrlPrefix
    ensures forall i :: 0 <= i < |url| ==> url[i] != Backslash
    ensures path == MemoryPath ==> url == "sqlite:///:memory:"
  {
    if path == MemoryPath then UrlPrefix + MemoryPath
    else UrlPrefix + ReplaceBackslashes(path)
  }

  /** The ":memory:" special case gives what the general rule would give. */
  lemma MemoryCaseAgrees()
    ensures BuildSqliteUrl(MemoryPath) == UrlPrefix + ReplaceBackslashes(MemoryPath)
  {
    assert ReplaceBackslashes(MemoryPath) == MemoryPath;
  }

  /**
   * The part after "sqlite:///" is the path itself, with each backslash
   * read as a forward slash; a path without backslashes comes back as it was.
   */
  lemma UrlCarriesPath(path: string)
    ensures var rest := BuildSqliteUrl(path)[|UrlPrefix|..];
      && (forall i :: 0 <= i < |path| ==> rest[i] == if path[i] == Backslash then '/' else path[i])
      && ((forall i :: 0 <= i < |path| ==> path[i] != Backslash) ==> rest == path)
  {
    if path == MemoryPath {
      MemoryCaseAgrees();
    }
  }

  /** A Windows path and its forward-slash spelling give the same URL. */
  lemma SameUrlForSlashSpelling(path: string)
    ensures BuildSqliteUrl(ReplaceBackslashes(path)) == BuildSqliteUrl(path)
  {
    var fixed := ReplaceBackslashes(path);
    assert ReplaceBackslashes(fixed) == fixed;
    if path != MemoryPath && fixed == MemoryPath {
      MemoryCaseAgrees();
    }
  }
}
