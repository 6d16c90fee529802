/**
 * `ElasticsearchConsistencyChecker`: reconciles a directory listing with
 * the file and directory indices by publishing the messages that would
 * bring them in line, serves a priority queue before a bot queue, and
 * walks the archive spot by spot with a cursor persisted to a file.
 */
module ConsistencyChecker {
  import opened Wrappers
  import opened PyStr
  import opened PosixPath
  import opened IngestMessages
  import opened Decimal

  /** The action constants; `create_message` upper-cases them. */
  const Deposit: string := "deposit"
  const Remove: string := "remove"
  const Mkdir: string := "mkdir"
  const Rmdir: string := "rmdir"
  const ReadmeAction: string := "00readme"

  /** `create_message(path, action)`, with `datetime.now().isoformat(sep='-')` given as `time`. */
  function CreateMessage(time: string, path: string, action: string): string
  {
    time + ":" + path + ":" + Upper(action) + "::"
  }

  /** Upper-casing keeps the colons where they are. */
  lemma UpperKeepsColonFree(action: string)
    requires ':' !in action
    ensures ':' !in Upper(action)
  {
  }

  /**
   * A message built from an ISO timestamp (two colons, no leading space)
   * and a colon-free path and action decodes to that path, the upper-cased
   * action and empty size and message; in particular colon-fields 3 and 4
   * are the path and the action.
   */
  lemma CreateMessageDecodes(time: string, path: string, action: string)
    requires Count(time, ':') == 2 && time != [] && !IsSpace(time[0])
    requires ':' !in path && ':' !in action
    ensures DecodeMessage(CreateMessage(time, path, action), NotJson) == Ok(IngestMessage(time, path, Upper(action), "", ""))
    ensures var parts := Split(CreateMessage(time, path, action), ':');
      |parts| >= 6 && parts[3] == path && parts[4] == Upper(action)
  {
    var m := IngestMessage(time, path, Upper(action), "", "");
    var line := CreateMessage(time, path, action);
    assert line == LegacyLine(m);
    UpperKeepsColonFree(action);
    assert line[|line| - 1] == ':';
    LegacyRoundTrip(m);
    StripStripped(line);
  }

  /** The two index queries of `get_query`: a path prefix and a depth, or an exact directory. */
  datatype Query = DirsQuery(prefix: string, depth: nat) | FbiQuery(directory: string)

  /** `get_query(index, directory)` as written: the directory query's prefix has no trailing '/'. */
  function AsWrittenGetQuery(index: string, directory: string): Option<Query>
  {
    if index == "ceda-dirs" then Some(DirsQuery(directory, |Split(directory, '/')|))
    else if index == "ceda-fbi" then Some(FbiQuery(directory))
    else None
  }

  /** `get_query(index, directory)` as intended: the prefix ends in '/', so only paths inside `directory` match. */
  function GetQuery(index: string, directory: string): Option<Query>
  {
    if index == "ceda-dirs" then Some(DirsQuery(directory + "/", |Split(directory, '/')|))
    else if index == "ceda-fbi" then Some(FbiQuery(directory))
    else None
  }

  /** Whether an indexed directory (whose `depth` is its count of '/') is a hit of a directory query. */
  predicate DirsQueryMatches(q: Query, path: string)
    requires q.DirsQuery?
  {
    StartsWith(path, q.prefix) && Count(path, '/') == q.depth
  }

  /**
   * As written, the directory query of `item` also hits a directory one
   * level down inside a sibling whose name extends `item` (for `/badc/x`,
   * the directory `/badc/xy/a`), which lies outside `item`; the checker
   * then announces it as removed.
   */
  lemma AsWrittenQueryHitsSibling(item: string, suffix: string, name: string)
    requires suffix != [] && '/' !in suffix && '/' !in name
    ensures var path := item + suffix + "/" + name;
      && DirsQueryMatches(AsWrittenGetQuery("ceda-dirs", item).value, path)
      && !StartsWith(path, item + "/")
  {
    var path := item + suffix + "/" + name;
    assert path == item + (suffix + ("/" + name));
    assert path[..|item|] == item;
    SplitLength(item, '/');
    CountAppend(item, suffix + ("/" + name), '/');
    CountAppend(suffix, "/" + name, '/');
    CountAppend("/", name, '/');
    CountZero(suffix, '/');
    CountZero(name, '/');
    assert path[|item|] == suffix[0];
  }

  /** With the intended prefix, the directory query hits exactly the directories directly inside `item`. */
  lemma QueryHitsChildren(item: string, path: string)
    ensures DirsQueryMatches(GetQuery("ceda-dirs", item).value, path) <==>
      StartsWith(path, item + "/") && '/' !in path[|item| + 1..]
  {
    SplitLength(item, '/');
    if StartsWith(path, item + "/") {
      var rest := path[|item| + 1..];
      assert path == item + "/" + rest;
      CountAppend(item + "/", rest, '/');
      CountAppend(item, "/", '/');
      CountZero(rest, '/');
    }
  }

  /** A path is an index hit for the file query of its directory. */
  datatype Archive = Archive(
    names: string -> seq<string>,       // `os.listdir(item)`
    isFile: string -> bool,             // `os.path.isfile`
    isDir: string -> bool,              // `os.path.isdir`
    normpath: string -> string,         // `os.path.normpath`
    fbiIndex: set<(string, string)>,    // `(info.directory, info.name)` of the file index
    dirsIndex: set<string>,             // `path` of the directory index
    walk: string -> seq<string>)        // the directories `os.walk(path)` yields, joined to their roots

  /** `[os.path.join(item, file) for file in os.listdir(item)]`. */
  function Listing(item: string, archive: Archive): seq<string>
  {
    seq(|archive.names(item)|, i requires 0 <= i < |archive.names(item)| => PosixPath.Join(item, archive.names(item)[i]))
  }

  /** The files of the listing. */
  function FileSet(listing: seq<string>, archive: Archive): set<string>
  {
    set f | f in listing && archive.isFile(f)
  }

  /** The files the file index holds for `item`, joined to their directory. */
  function FbiResults(item: string, archive: Archive): set<string>
  {
    set e | e in archive.fbiIndex && e.0 == item :: PosixPath.Join(e.0, e.1)
  }

  /** The directories of the listing, normalised. */
  function DirSet(listing: seq<string>, archive: Archive): set<string>
  {
    set d | d in listing && archive.isDir(d) :: archive.normpath(d)
  }

  /** The directories the directory index returns for `item`; index paths are never normalised. */
  function DirsResults(item: string, archive: Archive): set<string>
  {
    set p | p in archive.dirsIndex && DirsQueryMatches(GetQuery("ceda-dirs", item).value, p)
  }

  predicate IsReadme(path: string) {
    Basename(path) == "00README"
  }

  /** The listing entries named `00README`, in listing order. */
  function Readmes(listing: seq<string>): seq<string>
  {
    if listing == [] then []
    else
      var last := listing[|listing| - 1];
      Readmes(listing[..|listing| - 1]) + (if IsReadme(last) then [last] else [])
  }

  /** The readmes are exactly the listing entries named `00README`. */
  lemma {:induction false} ReadmesAreNamed(listing: seq<string>)
    ensures forall p | p in Readmes(listing) :: p in listing && IsReadme(p)
    ensures forall p | p in listing && IsReadme(p) :: p in Readmes(listing)
  {
    if listing != [] {
      var init := listing[..|listing| - 1];
      ReadmesAreNamed(init);
      assert listing == init + [listing[|listing| - 1]];
    }
  }

  /** Taking one more entry of the listing adds it to the readmes when it is one. */
  lemma ReadmesStep(listing: seq<string>, i: int)
    requires 0 <= i < |listing|
    ensures Readmes(listing[..i + 1]) == Readmes(listing[..i]) + (if IsReadme(listing[i]) then [listing[i]] else [])
  {
    assert listing[..i + 1][..i] == listing[..i];
  }

  predicate Distinct(s: seq<string>) {
    forall i, j :: 0 <= i < j < |s| ==> s[i] != s[j]
  }

  /** `s` lists every element of `paths` exactly once, in some order: its last element is one of them, and the rest list the others. */
  ghost predicate Enumerates(s: seq<string>, paths: set<string>)
    decreases |s|
  {
    if s == [] then paths == {}
    else s[|s| - 1] in paths && Enumerates(s[..|s| - 1], paths - {s[|s| - 1]})
  }

  /** An enumeration has no repeats, as many entries as the set has elements, and exactly its members. */
  lemma {:induction false} EnumeratesMembers(s: seq<string>, paths: set<string>)
    requires Enumerates(s, paths)
    ensures Distinct(s)
    ensures |s| == |paths|
    ensures forall x :: x in s <==> x in paths
  {
    if s != [] {
      var init, last := s[..|s| - 1], s[|s| - 1];
      EnumeratesMembers(init, paths - {last});
      assert s == init + [last];
    }
  }

  /** Taking one more path out of the unlisted ones extends the enumeration by it. */
  lemma EnumeratesExtend(order: seq<string>, paths: set<string>, rest: set<string>, p: string)
    requires rest <= paths && p in rest && Enumerates(order, paths - rest)
    ensures Enumerates(order + [p], paths - (rest - {p}))
  {
    assert (order + [p])[..|order|] == order;
    assert (paths - (rest - {p})) - {p} == paths - rest;
  }

  /** The listing and both indices agree on `item`. */
  predicate InSync(listing: seq<string>, item: string, archive: Archive) {
    FileSet(listing, archive) == FbiResults(item, archive) && DirSet(listing, archive) == DirsResults(item, archive)
  }

  /** Only the empty sequence lists the empty set. */
  lemma EnumeratesEmpty(s: seq<string>)
    requires Enumerates(s, {})
    ensures s == []
  {
  }

  /** Listing the difference of two equal sets lists nothing. */
  lemma EnumeratesNoDifference(s: seq<string>, a: set<string>, b: set<string>)
    requires a == b && Enumerates(s, a - b)
    ensures s == []
  {
    assert a - b == {};
    EnumeratesEmpty(s);
  }

  /** The five announcement batches of one reconciliation are all publications. */
  lemma ReconciledPublishes(time: string, addedFiles: seq<string>, deletedFiles: seq<string>,
                            addedDirs: seq<string>, deletedDirs: seq<string>, readmes: seq<string>)
    ensures OnlyPublications(Announced(time, addedFiles, Deposit) + Announced(time, deletedFiles, Remove)
                             + (Announced(time, addedDirs, Mkdir) + Announced(time, deletedDirs, Rmdir))
                             + Announced(time, readmes, ReadmeAction))
  {
    var files := Announced(time, addedFiles, Deposit) + Announced(time, deletedFiles, Remove);
    var dirs := Announced(time, addedDirs, Mkdir) + Announced(time, deletedDirs, Rmdir);
    AnnouncedPublishes(time, addedFiles, Deposit);
    AnnouncedPublishes(time, deletedFiles, Remove);
    AnnouncedPublishes(time, addedDirs, Mkdir);
    AnnouncedPublishes(time, deletedDirs, Rmdir);
    AnnouncedPublishes(time, readmes, ReadmeAction);
    OnlyPublicationsAppend(Announced(time, addedFiles, Deposit), Announced(time, deletedFiles, Remove));
    OnlyPublicationsAppend(Announced(time, addedDirs, Mkdir), Announced(time, deletedDirs, Rmdir));
    OnlyPublicationsAppend(files, dirs);
    OnlyPublicationsAppend(files + dirs, Announced(time, readmes, ReadmeAction));
  }

  /** Regrouping appended effect batches (kept apart so the solver need not rediscover it). */
  lemma AppendOneRegroup(start: seq<CheckerEffect>, a: seq<CheckerEffect>, b: seq<CheckerEffect>)
    ensures start + a + b == start + (a + b)
  {
  }

  lemma AppendRegroup(start: seq<CheckerEffect>, a: seq<CheckerEffect>, b: seq<CheckerEffect>, c: seq<CheckerEffect>)
    ensures start + a + b + c == start + (a + b + c)
  {
  }

  /**
   * What one reconciliation publishes, in order: DEPOSIT and REMOVE for the
   * file index, MKDIR and RMDIR for the directory index, then the readmes.
   */
  function Reconciled(time: string, addedFiles: seq<string>, deletedFiles: seq<string>,
                      addedDirs: seq<string>, deletedDirs: seq<string>, listing: seq<string>): seq<CheckerEffect>
  {
    Announced(time, addedFiles, Deposit) + Announced(time, deletedFiles, Remove)
    + (Announced(time, addedDirs, Mkdir) + Announced(time, deletedDirs, Rmdir))
    + Announced(time, Readmes(listing), ReadmeAction)
  }

  /**
   * The effects of the two comparisons, appended one after the other, are
   * `Reconciled`; they are all publications; and when the listing and both
   * indices agree, only the readme messages remain.
   */
  lemma ReconcileFacts(start: seq<CheckerEffect>, item: string, listing: seq<string>, archive: Archive, time: string,
                       addedFiles: seq<string>, deletedFiles: seq<string>, addedDirs: seq<string>, deletedDirs: seq<string>)
    requires Enumerates(addedFiles, FileSet(listing, archive) - FbiResults(item, archive))
    requires Enumerates(deletedFiles, FbiResults(item, archive) - FileSet(listing, archive))
    requires Enumerates(addedDirs, DirSet(listing, archive) - DirsResults(item, archive))
    requires Enumerates(deletedDirs, DirsResults(item, archive) - DirSet(listing, archive))
    ensures start + Announced(time, addedFiles, Deposit) + Announced(time, deletedFiles, Remove)
            + Announced(time, addedDirs, Mkdir) + Announced(time, deletedDirs, Rmdir)
            + Announced(time, Readmes(listing), ReadmeAction) == start + Reconciled(time, addedFiles, deletedFiles, addedDirs, deletedDirs, listing)
    ensures OnlyPublications(Reconciled(time, addedFiles, deletedFiles, addedDirs, deletedDirs, listing))
    ensures InSync(listing, item, archive) ==> Reconciled(time, addedFiles, deletedFiles, addedDirs, deletedDirs, listing) == Announced(time, Readmes(listing), ReadmeAction)
  {
    var files := Announced(time, addedFiles, Deposit) + Announced(time, deletedFiles, Remove);
    var dirs := Announced(time, addedDirs, Mkdir) + Announced(time, deletedDirs, Rmdir);
    var readmes := Announced(time, Readmes(listing), ReadmeAction);
    assert Reconciled(time, addedFiles, deletedFiles, addedDirs, deletedDirs, listing) == files + dirs + readmes;
    assert start + Announced(time, addedFiles, Deposit) + Announced(time, deletedFiles, Remove) == start + files;
    assert start + files + Announced(time, addedDirs, Mkdir) + Announced(time, deletedDirs, Rmdir) == start + files + dirs;
    AppendRegroup(start, files, dirs, readmes);
    ReconciledPublishes(time, addedFiles, deletedFiles, addedDirs, deletedDirs, Readmes(listing));
    if InSync(listing, item, archive) {
      EnumeratesNoDifference(addedFiles, FileSet(listing, archive), FbiResults(item, archive));
      EnumeratesNoDifference(deletedFiles, FbiResults(item, archive), FileSet(listing, archive));
      EnumeratesNoDifference(addedDirs, DirSet(listing, archive), DirsResults(item, archive));
      EnumeratesNoDifference(deletedDirs, DirsResults(item, archive), DirSet(listing, archive));
      assert files == [] && dirs == [];
    }
  }

  /**
   * `published` is what the two comparisons of one listing send: the four
   * set differences, each in some iteration order, then the readmes.
   */
  ghost predicate IsReconciliation(published: seq<CheckerEffect>, item: string, listing: seq<string>,
                                   archive: Archive, time: string)
  {
    exists addedFiles, deletedFiles, addedDirs, deletedDirs ::
      && published == Reconciled(time, addedFiles, deletedFiles, addedDirs, deletedDirs, listing)
      && Enumerates(addedFiles, FileSet(listing, archive) - FbiResults(item, archive))
      && Enumerates(deletedFiles, FbiResults(item, archive) - FileSet(listing, archive))
      && Enumerates(addedDirs, DirSet(listing, archive) - DirsResults(item, archive))
      && Enumerates(deletedDirs, DirsResults(item, archive) - DirSet(listing, archive))
  }

  /**
   * Any reconciliation publishes only messages, one per path in the four
   * differences and per readme, and nothing but the readmes when the
   * listing and both indices agree.
   */
  lemma ReconciliationPublishes(published: seq<CheckerEffect>, item: string, listing: seq<string>,
                                archive: Archive, time: string)
    requires IsReconciliation(published, item, listing, archive, time)
    ensures OnlyPublications(published)
    ensures |published| == |FileSet(listing, archive) - FbiResults(item, archive)|
                           + |FbiResults(item, archive) - FileSet(listing, archive)|
                           + |DirSet(listing, archive) - DirsResults(item, archive)|
                           + |DirsResults(item, archive) - DirSet(listing, archive)|
                           + |Readmes(listing)|
    ensures InSync(listing, item, archive) ==> published == Announced(time, Readmes(listing), ReadmeAction)
  {
    var addedFiles, deletedFiles, addedDirs, deletedDirs :|
      && published == Reconciled(time, addedFiles, deletedFiles, addedDirs, deletedDirs, listing)
      && Enumerates(addedFiles, FileSet(listing, archive) - FbiResults(item, archive))
      && Enumerates(deletedFiles, FbiResults(item, archive) - FileSet(listing, archive))
      && Enumerates(addedDirs, DirSet(listing, archive) - DirsResults(item, archive))
      && Enumerates(deletedDirs, DirsResults(item, archive) - DirSet(listing, archive));
    ReconcileFacts([], item, listing, archive, time, addedFiles, deletedFiles, addedDirs, deletedDirs);
    EnumeratesMembers(addedFiles, FileSet(listing, archive) - FbiResults(item, archive));
    EnumeratesMembers(deletedFiles, FbiResults(item, archive) - FileSet(listing, archive));
    EnumeratesMembers(addedDirs, DirSet(listing, archive) - DirsResults(item, archive));
    EnumeratesMembers(deletedDirs, DirsResults(item, archive) - DirSet(listing, archive));
  }

  datatype QueueName = ManualQueue | BotQueue

  /** What the checker does to the outside: a message published to the broker, or a queue item acknowledged. */
  datatype CheckerEffect = Published(body: string) | Acked(queue: QueueName, item: string)

  /** One published message per path, in order. */
  function Announced(time: string, paths: seq<string>, action: string): seq<CheckerEffect>
  {
    seq(|paths|, i requires 0 <= i < |paths| => Published(CreateMessage(time, paths[i], action)))
  }

  /** Every effect in `es` publishes a message (none acknowledges a queue item). */
  predicate OnlyPublications(es: seq<CheckerEffect>) {
    forall i | 0 <= i < |es| :: es[i].Published?
  }

  /** The announcements are all publications. */
  lemma AnnouncedPublishes(time: string, paths: seq<string>, action: string)
    ensures OnlyPublications(Announced(time, paths, action))
  {
  }

  lemma OnlyPublicationsAppend(a: seq<CheckerEffect>, b: seq<CheckerEffect>)
    requires OnlyPublications(a) && OnlyPublications(b)
    ensures OnlyPublications(a + b)
  {
  }

  lemma AnnouncedOne(time: string, path: string, action: string)
    ensures Announced(time, [path], action) == [Published(CreateMessage(time, path, action))]
  {
  }

  lemma AnnouncedAppend(time: string, a: seq<string>, b: seq<string>, action: string)
    ensures Announced(time, a + b, action) == Announced(time, a, action) + Announced(time, b, action)
  {
  }

  /** The spot cursor: the line counter, the progress file's content and the spot file's lines. */
  datatype Cursor = Cursor(progress: int, progressFile: Option<string>, spotFile: Option<seq<string>>)

  /**
   * `_get_spot_progress()` on the progress file's content: 0 without a
   * file or with an empty first line, else the stripped first line as an
   * integer (a ValueError otherwise).
   */
  function GetSpotProgress(content: Option<string>): Result<int>
  {
    match content
    case None => Ok(0)
    case Some(text) =>
      var line := FirstLine(text);
      if line == "" then Ok(0) else ParseInt(Strip(line))
  }

  /** `readline()`: up to and including the first newline. */
  function FirstLine(text: string): (line: string)
    ensures |line| <= |text| && line == text[..|line|]
    ensures '\n' !in text ==> line == text
  {
    if text == [] then []
    else if text[0] == '\n' then "\n"
    else [text[0]] + FirstLine(text[1..])
  }

  /** `_update_spot_progress()`: one more line, written to the progress file. */
  function Advance(c: Cursor): Cursor
  {
    Cursor(c.progress + 1, Some(IntToString(c.progress + 1)), c.spotFile)
  }

  /** `_download_spot_conf()`: a fresh spot file and the counter back to 0 (not persisted). */
  function Downloaded(c: Cursor, download: seq<string>): Cursor
  {
    Cursor(0, c.progressFile, Some(download))
  }

  /** `get_line_in_file(file, n)`: line `n`, counting from 1, or "" past the end. */
  function GetLine(lines: seq<string>, n: int): string
  {
    if 1 <= n <= |lines| then lines[n - 1] else ""
  }

  /** `spot, path = line.strip().split()`: the second of exactly two words, else a ValueError. */
  function SpotPath(line: string): Result<string>
  {
    var words := Words(Strip(line));
    if |words| == 2 then Ok(words[1]) else Err(ValueError)
  }

  /** Whether a line of the spot file is present but blank (just a newline, say). */
  predicate IsBlank(line: string) {
    line != "" && Strip(line) == ""
  }

  function Remaining(c: Cursor): int {
    if c.spotFile.Some? then |c.spotFile.value| - c.progress else 0
  }

  /** `get_next_spot()`, with the downloaded spot file given as `download`. */
  function NextSpot(c: Cursor, download: seq<string>): (Result<string>, Cursor)
    decreases if c.spotFile.None? then 1 else 0, Remaining(c)
  {
    var present := if c.spotFile.None? then Downloaded(c, download) else c;
    var advanced := Advance(present);
    var line := GetLine(advanced.spotFile.value, advanced.progress);
    if line != "" then
      if Strip(line) != "" then (SpotPath(line), advanced)
      else NextSpot(advanced, download)
    else
      var rolled := Advance(Downloaded(advanced, download));
      (SpotPath(GetLine(download, rolled.progress)), rolled)
  }

  /** The cursor after an end-of-file rollover: the new file, at its first line, persisted. */
  function RolledOver(download: seq<string>): Cursor
  {
    Cursor(1, Some(IntToString(1)), Some(download))
  }

  /** Every line strictly between `from` and `to` is blank. */
  ghost predicate BlankBetween(lines: seq<string>, from: int, to: int) {
    forall k :: from < k < to ==> IsBlank(GetLine(lines, k))
  }

  /** The first line after `from` that is not blank: a full line, or "" at the end of the file. */
  function FirstNonBlank(lines: seq<string>, from: int): (n: int)
    ensures from < n && !IsBlank(GetLine(lines, n)) && BlankBetween(lines, from, n)
    decreases |lines| - from
  {
    if IsBlank(GetLine(lines, from + 1)) then FirstNonBlank(lines, from + 1) else from + 1
  }

  /** `get_next_spot` returns the spot path of the line its cursor is left on, and persists that cursor. */
  lemma {:induction false} NextSpotPersists(c: Cursor, download: seq<string>)
    ensures var after := NextSpot(c, download).1;
      && after.spotFile.Some?
      && NextSpot(c, download).0 == SpotPath(GetLine(after.spotFile.value, after.progress))
      && after.progressFile == Some(IntToString(after.progress))
    decreases if c.spotFile.None? then 1 else 0, Remaining(c)
  {
    var present := if c.spotFile.None? then Downloaded(c, download) else c;
    var advanced := Advance(present);
    var line := GetLine(advanced.spotFile.value, advanced.progress);
    if line != "" && Strip(line) == "" {
      NextSpotPersists(advanced, download);
    }
  }

  /** One step of `get_next_spot` on a present file: skip a blank line, stop on a full one, or roll over. */
  lemma NextSpotStep(c: Cursor, download: seq<string>)
    requires c.spotFile.Some?
    ensures IsBlank(GetLine(c.spotFile.value, c.progress + 1)) ==>
      NextSpot(c, download) == NextSpot(Advance(c), download)
    ensures GetLine(c.spotFile.value, c.progress + 1) != "" && !IsBlank(GetLine(c.spotFile.value, c.progress + 1)) ==>
      NextSpot(c, download).1 == Advance(c)
    ensures GetLine(c.spotFile.value, c.progress + 1) == "" ==> NextSpot(c, download).1 == RolledOver(download)
  {
    var advanced := Advance(c);
    assert advanced.spotFile == c.spotFile && advanced.progress == c.progress + 1;
    if GetLine(c.spotFile.value, c.progress + 1) == "" {
      assert Advance(Downloaded(advanced, download)) == RolledOver(download);
    }
  }

  /**
   * `get_next_spot` skips the blank lines after the cursor and stops on the
   * first full line, leaving the cursor (persisted) on it; when it reaches
   * the end of the file instead, it downloads a new file and leaves the
   * cursor on its first line.
   */
  lemma {:induction false} NextSpotReadsNextLine(c: Cursor, download: seq<string>)
    requires c.spotFile.Some?
    ensures var lines := c.spotFile.value;
      var n := FirstNonBlank(lines, c.progress);
      NextSpot(c, download).1 ==
        if GetLine(lines, n) != "" then Cursor(n, Some(IntToString(n)), c.spotFile) else RolledOver(download)
    decreases Remaining(c)
  {
    NextSpotStep(c, download);
    if IsBlank(GetLine(c.spotFile.value, c.progress + 1)) {
      NextSpotReadsNextLine(Advance(c), download);
    }
  }

  /** A restart reads back the cursor that `_update_spot_progress` persisted. */
  lemma RestartResumes(n: int)
    ensures GetSpotProgress(Some(IntToString(n))) == Ok(n)
  {
    var s := IntToString(n);
    assert '\n' !in s;
    assert IsStripped(s);
    StripStripped(s);
    ParseIntToString(n);
  }

  class Checker {
    var manualQueue: seq<string>
    var botQueue: seq<string>
    var spotProgress: int
    var progressFile: Option<string>
    var spotFile: Option<seq<string>>
    var effects: seq<CheckerEffect>

    function CursorState(): Cursor
      reads this
    {
      Cursor(spotProgress, progressFile, spotFile)
    }

    /** `__init__`, with the persisted queues and files given and the cursor read by `_get_spot_progress`. */
    constructor (manual: seq<string>, bot: seq<string>, progress: int, progressContent: Option<string>,
                 spots: Option<seq<string>>)
      ensures manualQueue == manual && botQueue == bot && effects == []
      ensures CursorState() == Cursor(progress, progressContent, spots)
    {
      manualQueue := manual;
      botQueue := bot;
      spotProgress := progress;
      progressFile := progressContent;
      spotFile := spots;
      effects := [];
    }

    method UpdateSpotProgress()
      modifies this
      ensures CursorState() == Advance(old(CursorState()))
      ensures manualQueue == old(manualQueue) && botQueue == old(botQueue) && effects == old(effects)
    {
      spotProgress := spotProgress + 1;
      progressFile := Some(IntToString(spotProgress));
    }

    method DownloadSpotConf(download: seq<string>)
      modifies this
      ensures CursorState() == Downloaded(old(CursorState()), download)
      ensures manualQueue == old(manualQueue) && botQueue == old(botQueue) && effects == old(effects)
    {
      spotFile := Some(download);
      spotProgress := 0;
    }

    method GetNextSpot(download: seq<string>) returns (r: Result<string>)
      modifies this
      ensures (r, CursorState()) == NextSpot(old(CursorState()), download)
      ensures manualQueue == old(manualQueue) && botQueue == old(botQueue) && effects == old(effects)
      decreases if spotFile.None? then 1 else 0, Remaining(CursorState())
    {
      if spotFile.None? {
        DownloadSpotConf(download);
      }
      UpdateSpotProgress();
      var line := GetLine(spotFile.value, spotProgress);
      if line != "" {
        if Strip(line) != "" {
          r := SpotPath(line);
        } else {
          r := GetNextSpot(download);
        }
      } else {
        DownloadSpotConf(download);
        UpdateSpotProgress();
        r := SpotPath(GetLine(spotFile.value, spotProgress));
      }
    }

    method PublishMessage(body: string)
      modifies this
      ensures effects == old(effects) + [Published(body)]
      ensures manualQueue == old(manualQueue) && botQueue == old(botQueue) && CursorState() == old(CursorState())
    {
      effects := effects + [Published(body)];
    }

    /** The `for file in ...: publish_message(create_message(file, action))` loops over a set, in any order. */
    method PublishAll(paths: set<string>, time: string, action: string) returns (order: seq<string>)
      modifies this
      ensures Enumerates(order, paths)
      ensures effects == old(effects) + Announced(time, order, action)
      ensures manualQueue == old(manualQueue) && botQueue == old(botQueue) && CursorState() == old(CursorState())
    {
      order := [];
      var rest := paths;
      while rest != {}
        invariant rest <= paths
        invariant Enumerates(order, paths - rest)
        invariant effects == old(effects) + Announced(time, order, action)
        invariant manualQueue == old(manualQueue) && botQueue == old(botQueue) && CursorState() == old(CursorState())
        decreases rest
      {
        var p :| p in rest;
        PublishMessage(CreateMessage(time, p, action));
        AnnouncedAppend(time, order, [p], action);
        AnnouncedOne(time, p, action);
        AppendOneRegroup(old(effects), Announced(time, order, action), Announced(time, [p], action));
        EnumeratesExtend(order, paths, rest, p);
        order := order + [p];
        rest := rest - {p};
      }
      assert paths - rest == paths;
    }

    /** `compare_ceda_fbi(item, listing)`: DEPOSIT for files missing from the index, REMOVE for stale entries. */
    method CompareCedaFbi(item: string, listing: seq<string>, archive: Archive, time: string)
      returns (added: seq<string>, deleted: seq<string>)
      modifies this
      ensures Enumerates(added, FileSet(listing, archive) - FbiResults(item, archive))
      ensures Enumerates(deleted, FbiResults(item, archive) - FileSet(listing, archive))
      ensures effects == old(effects) + Announced(time, added, Deposit) + Announced(time, deleted, Remove)
      ensures manualQueue == old(manualQueue) && botQueue == old(botQueue) && CursorState() == old(CursorState())
    {
      var resultSet := FbiResults(item, archive);
      var fileSet := FileSet(listing, archive);
      added := PublishAll(fileSet - resultSet, time, Deposit);
      deleted := PublishAll(resultSet - fileSet, time, Remove);
    }

    /**
     * `compare_ceda_dirs(item, listing)`: MKDIR for directories missing
     * from the index, RMDIR for stale entries, then the readmes.
     */
    method CompareCedaDirs(item: string, listing: seq<string>, archive: Archive, time: string)
      returns (added: seq<string>, deleted: seq<string>)
      modifies this
      ensures Enumerates(added, DirSet(listing, archive) - DirsResults(item, archive))
      ensures Enumerates(deleted, DirsResults(item, archive) - DirSet(listing, archive))
      ensures effects == old(effects) + Announced(time, added, Mkdir) + Announced(time, deleted, Rmdir)
                                      + Announced(time, Readmes(listing), ReadmeAction)
      ensures manualQueue == old(manualQueue) && botQueue == old(botQueue) && CursorState() == old(CursorState())
    {
      var resultSet := DirsResults(item, archive);
      var dirSet := DirSet(listing, archive);
      added := PublishAll(dirSet - resultSet, time, Mkdir);
      deleted := PublishAll(resultSet - dirSet, time, Rmdir);
      PublishReadmes(listing, time);
    }

    /** The last loop of `compare_ceda_dirs`: one 00README message per readme in the listing, in order. */
    method PublishReadmes(listing: seq<string>, time: string)
      modifies this
      ensures effects == old(effects) + Announced(time, Readmes(listing), ReadmeAction)
      ensures manualQueue == old(manualQueue) && botQueue == old(botQueue) && CursorState() == old(CursorState())
    {
      var found := [];
      for i := 0 to |listing|
        invariant found == Readmes(listing[..i])
        invariant effects == old(effects) + Announced(time, found, ReadmeAction)
        invariant manualQueue == old(manualQueue) && botQueue == old(botQueue) && CursorState() == old(CursorState())
      {
        ReadmesStep(listing, i);
        if IsReadme(listing[i]) {
          PublishMessage(CreateMessage(time, listing[i], ReadmeAction));
          AnnouncedAppend(time, found, [listing[i]], ReadmeAction);
          AnnouncedOne(time, listing[i], ReadmeAction);
          AppendOneRegroup(old(effects), Announced(time, found, ReadmeAction), Announced(time, [listing[i]], ReadmeAction));
          found := found + [listing[i]];
        }
      }
      assert listing[..|listing|] == listing;
    }

    /**
     * Both comparisons of `process_queue` on one listing. When the listing
     * and the indices agree, only readme messages go out.
     */
    method Reconcile(item: string, listing: seq<string>, archive: Archive, time: string)
      returns (published: seq<CheckerEffect>)
      modifies this
      ensures effects == old(effects) + published
      ensures IsReconciliation(published, item, listing, archive, time)
      ensures OnlyPublications(published)
      ensures InSync(listing, item, archive) ==> published == Announced(time, Readmes(listing), ReadmeAction)
      ensures manualQueue == old(manualQueue) && botQueue == old(botQueue) && CursorState() == old(CursorState())
    {
      var start := effects;
      var addedFiles, deletedFiles := CompareCedaFbi(item, listing, archive, time);
      var addedDirs, deletedDirs := CompareCedaDirs(item, listing, archive, time);
      published := Reconciled(time, addedFiles, deletedFiles, addedDirs, deletedDirs, listing);
      ReconcileFacts(start, item, listing, archive, time, addedFiles, deletedFiles, addedDirs, deletedDirs);
    }

    /**
     * `process_queue(queue)`: take the head item, reconcile its listing
     * with both indices, and acknowledge it after everything is published.
     */
    method ProcessQueue(queue: QueueName, archive: Archive, time: string) returns (item: string, published: seq<CheckerEffect>)
      requires queue == ManualQueue ==> manualQueue != []
      requires queue == BotQueue ==> botQueue != []
      modifies this
      ensures item == (if queue == ManualQueue then old(manualQueue)[0] else old(botQueue)[0])
      ensures manualQueue == (if queue == ManualQueue then old(manualQueue)[1..] else old(manualQueue))
      ensures botQueue == (if queue == BotQueue then old(botQueue)[1..] else old(botQueue))
      ensures effects == old(effects) + published + [Acked(queue, item)]
      ensures IsReconciliation(published, item, Listing(item, archive), archive, time)
      ensures OnlyPublications(published)
      ensures InSync(Listing(item, archive), item, archive) ==>
        published == Announced(time, Readmes(Listing(item, archive)), ReadmeAction)
      ensures CursorState() == old(CursorState())
    {
      if queue == ManualQueue {
        item := manualQueue[0];
        manualQueue := manualQueue[1..];
      } else {
        item := botQueue[0];
        botQueue := botQueue[1..];
      }
      published := Reconcile(item, Listing(item, archive), archive, time);
      effects := effects + [Acked(queue, item)];
    }

    /** `add_dirs_to_queue(path)`: every directory under `path` joins the bot queue. */
    method AddDirsToQueue(path: string, archive: Archive)
      modifies this
      ensures botQueue == old(botQueue) + archive.walk(path)
      ensures manualQueue == old(manualQueue) && effects == old(effects) && CursorState() == old(CursorState())
    {
      botQueue := botQueue + archive.walk(path);
    }

    /**
     * `consume(dev)`: the priority queue is served before the bot queue,
     * and when the bot queue was empty at the start (and not in `dev`
     * mode) the next spot is fetched and walked into it, even after a
     * priority item was served.
     */
    method Consume(dev: bool, archive: Archive, time: string, download: seq<string>)
      returns (served: Option<QueueName>, published: seq<CheckerEffect>, failure: Option<PyError>)
      modifies this
      ensures served == (if old(manualQueue) != [] then Some(ManualQueue)
                         else if old(botQueue) != [] then Some(BotQueue) else None)
      ensures manualQueue == (if served == Some(ManualQueue) then old(manualQueue)[1..] else old(manualQueue))
      ensures served.None? ==> effects == old(effects) && published == []
      ensures served.Some? ==>
        var item := if served == Some(ManualQueue) then old(manualQueue)[0] else old(botQueue)[0];
        && effects == old(effects) + published + [Acked(served.value, item)]
        && IsReconciliation(published, item, Listing(item, archive), archive, time)
        && OnlyPublications(published)
      ensures old(botQueue) == [] && !dev ==>
        var (r, after) := NextSpot(old(CursorState()), download);
        && CursorState() == after
        && failure == (if r.Err? then Some(r.error) else None)
        && botQueue == (if r.Ok? then archive.walk(r.value) else [])
      ensures old(botQueue) != [] || dev ==>
        && CursorState() == old(CursorState()) && failure.None?
        && botQueue == (if served == Some(BotQueue) then old(botQueue)[1..] else old(botQueue))
    {
      var manualSize := |manualQueue|;
      var botSize := |botQueue|;
      served := None;
      published := [];
      failure := None;
      var item;
      if manualSize > 0 {
        item, published := ProcessQueue(ManualQueue, archive, time);
        served := Some(ManualQueue);
      } else if botSize > 0 {
        item, published := ProcessQueue(BotQueue, archive, time);
        served := Some(BotQueue);
      }
      if botSize == 0 && !dev {
        var spot := GetNextSpot(download);
        match spot {
          case Ok(path) => AddDirsToQueue(path, archive);
          case Err(e) => failure := Some(e);
        }
      }
    }
  }
}
