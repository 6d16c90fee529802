/**
 * `PathTools`: the MOLES record lookup over the cached mapping (longest
 * ancestor first, bare key then key with a trailing '/', remote lookup and
 * caching as a last resort), the directory document, the mapping refresh and
 * document ids.
 */
module MolesPaths {
  import opened Wrappers
  import opened PyStr
  import opened PosixPath
  import opened JsonValue
  import Utf8

  /** A document id: the hex SHA-1 digest of `message`; the digest itself is not computed. */
  datatype DocId = Sha1Digest(message: seq<Utf8.byte>)

  /** `generate_id(path)`: SHA-1 of the path's UTF-8 bytes. */
  function GenerateId(path: string): (id: DocId)
    ensures |path| <= |id.message| <= 4 * |path|
  {
    Sha1Digest(Utf8.Encode(path))
  }

  /** Distinct paths are hashed from distinct byte strings: the encoding loses nothing. */
  lemma GenerateIdInputsDistinct(a: string, b: string)
    requires a != b
    ensures GenerateId(a).message != GenerateId(b).message
  {
    if Utf8.Encode(a) == Utf8.Encode(b) {
      Utf8.EncodeInjective(a, b);
    }
  }

  /** The MOLES `get_info` call: a timeout, or a response with its status and JSON body. */
  datatype RemoteReply = TimedOut | Response(ok: bool, body: Json)

  /** The mapping download in `update_mapping`: a mapping, or a ValueError or Timeout. */
  datatype Fetch = Fetched(mapping: map<string, Json>) | FetchFailed

  /** A record found (or `None`) and the mapping afterwards. */
  datatype Lookup = Lookup(record: Json, mapping: map<string, Json>)

  /** The path with at most one trailing '/' removed. */
  function TrimSlash(path: string): (p: string)
    ensures p == path || (EndsWith(path, "/") && p + "/" == path)
  {
    if EndsWith(path, "/") then path[..|path| - 1] else path
  }

  /** The keys the lookup loop tries, from the path itself up through its `dirname`s. */
  function Ancestors(t: string): (chain: seq<string>)
    ensures AllSlashes(t) <==> chain == []
    ensures chain != [] ==> chain[0] == t
    decreases |t|
  {
    if AllSlashes(t) then []
    else
      DirnameShrinks(t);
      [t] + Ancestors(Dirname(t))
  }

  lemma PrefixTransitive(a: string, b: string, c: string)
    requires StartsWith(a, b) && StartsWith(b, c)
    ensures StartsWith(a, c)
  {
    assert a[..|c|] == a[..|b|][..|c|];
  }

  /** No key is made only of slashes, so '/' and '' are never tried; each key is a prefix of the path. */
  lemma {:induction false} AncestorsArePrefixes(t: string)
    ensures forall i :: 0 <= i < |Ancestors(t)| ==> !AllSlashes(Ancestors(t)[i]) && StartsWith(t, Ancestors(t)[i])
    decreases |t|
  {
    if !AllSlashes(t) {
      DirnameShrinks(t);
      var d := Dirname(t);
      AncestorsArePrefixes(d);
      var rest := Ancestors(d);
      forall i | 0 <= i < |Ancestors(t)|
        ensures !AllSlashes(Ancestors(t)[i]) && StartsWith(t, Ancestors(t)[i])
      {
        if i > 0 {
          assert Ancestors(t)[i] == rest[i - 1];
          PrefixTransitive(t, d, rest[i - 1]);
        }
      }
    }
  }

  /** Each key is the `dirname` of the one before. */
  lemma {:induction false} AncestorsStepByDirname(t: string)
    ensures forall i :: 0 <= i < |Ancestors(t)| - 1 ==> Ancestors(t)[i + 1] == Dirname(Ancestors(t)[i])
    decreases |t|
  {
    if !AllSlashes(t) {
      DirnameShrinks(t);
      var d := Dirname(t);
      AncestorsStepByDirname(d);
      var chain := Ancestors(t);
      var rest := Ancestors(d);
      forall i | 0 <= i < |chain| - 1
        ensures chain[i + 1] == Dirname(chain[i])
      {
        if i > 0 {
          assert chain[i] == rest[i - 1] && chain[i + 1] == rest[i];
        }
      }
    }
  }

  /** The walk ends where `dirname` yields a path made only of slashes. */
  lemma {:induction false} AncestorsEndAtRoot(t: string)
    ensures Ancestors(t) != [] ==> AllSlashes(Dirname(Ancestors(t)[|Ancestors(t)| - 1]))
    decreases |t|
  {
    if !AllSlashes(t) {
      DirnameShrinks(t);
      var d := Dirname(t);
      AncestorsEndAtRoot(d);
      var chain := Ancestors(t);
      var rest := Ancestors(d);
      if rest != [] {
        assert chain[|chain| - 1] == rest[|rest| - 1];
      } else {
        assert chain == [t];
      }
    }
  }

  /** One pass of the loop: the bare key, replaced by the slashed key when the bare value is falsy. */
  function LookupKey(mapping: map<string, Json>, t: string): Json
  {
    var bare := Get(mapping, t);
    if Truthy(bare) then bare else Get(mapping, t + "/")
  }

  /** The first non-`None` result along the chain. */
  function FirstHit(mapping: map<string, Json>, chain: seq<string>): Option<Json>
  {
    if chain == [] then None
    else
      var r := LookupKey(mapping, chain[0]);
      if r != JNull then Some(r) else FirstHit(mapping, chain[1..])
  }

  /** The first hit is the longest ancestor with a record: every key before it has none. */
  lemma {:induction false} FirstHitIsLongest(mapping: map<string, Json>, chain: seq<string>)
    ensures FirstHit(mapping, chain).Some? <==> exists i :: 0 <= i < |chain| && LookupKey(mapping, chain[i]) != JNull
    ensures FirstHit(mapping, chain).Some? ==>
      exists i :: 0 <= i < |chain| && LookupKey(mapping, chain[i]) == FirstHit(mapping, chain).value != JNull
        && forall j :: 0 <= j < i ==> LookupKey(mapping, chain[j]) == JNull
  {
    if chain != [] {
      FirstHitIsLongest(mapping, chain[1..]);
      if LookupKey(mapping, chain[0]) == JNull {
        if FirstHit(mapping, chain[1..]).Some? {
          var i :| 0 <= i < |chain[1..]| && LookupKey(mapping, chain[1..][i]) == FirstHit(mapping, chain[1..]).value != JNull
            && forall j :: 0 <= j < i ==> LookupKey(mapping, chain[1..][j]) == JNull;
          assert LookupKey(mapping, chain[i + 1]) == FirstHit(mapping, chain).value;
        } else {
          forall i | 0 <= i < |chain| ensures LookupKey(mapping, chain[i]) == JNull {
            if i > 0 {
              assert chain[i] == chain[1..][i - 1];
            }
          }
        }
      } else {
        assert LookupKey(mapping, chain[0]) == FirstHit(mapping, chain).value;
      }
    }
  }

  /** `get_moles_record_metadata(path)`, given the mapping before the call. */
  function MolesRecord(mapping: map<string, Json>, path: string, remote: RemoteReply): Lookup
  {
    var p := TrimSlash(path);
    match FirstHit(mapping, Ancestors(p))
    case Some(r) => Lookup(r, mapping)
    case None =>
      match remote
      case TimedOut => Lookup(JNull, mapping)
      case Response(ok, body) => if ok then Lookup(body, mapping[p := body]) else Lookup(JNull, mapping)
  }

  /** The loop guard as written, `test_path != '/' and test_path`. */
  predicate AsWrittenGuard(t: string) {
    t != "/" && t != ""
  }

  /**
   * The loop as written does not end for "//data": the guard holds at "//",
   * `dirname("//")` is "//" again, and with neither "//" nor "///" mapped
   * nothing returns from the loop.
   */
  lemma AsWrittenLoopSpins(mapping: map<string, Json>)
    requires "//" !in mapping && "///" !in mapping
    ensures Dirname(TrimSlash("//data")) == "//"
    ensures AsWrittenGuard("//") && Dirname("//") == "//" && LookupKey(mapping, "//") == JNull
  {
    var p := "//data";
    assert "//" + "/" == "///";
    assert !EndsWith(p, "/") by {
      assert p[|p| - 1..] == "a";
    }
    assert TrimSlash(p) == p;
    assert p[1] == '/' && p[2] == 'd' && p[3] == 'a' && p[4] == 't' && p[5] == 'a';
    assert RFind(p, '/') == 1;
    assert p[..2] == "//";
    assert AllSlashes("//");
    DirnameOfSlashes("//");
  }

  /**
   * The corrected guard stops at every all-slash path. It agrees with the
   * guard as written on every key of the chain of a path that does not
   * begin with "//", so the two loops try the same keys there.
   */
  lemma GuardsAgree(path: string)
    requires !StartsWith(path, "//")
    ensures var chain := Ancestors(TrimSlash(path));
      && (forall i :: 0 <= i < |chain| ==> AsWrittenGuard(chain[i]))
      && (AllSlashes(TrimSlash(path)) <==> !AsWrittenGuard(TrimSlash(path)))
      && (chain != [] ==> !AsWrittenGuard(Dirname(chain[|chain| - 1])))
  {
    var p := TrimSlash(path);
    assert StartsWith(path, p);
    var chain := Ancestors(p);
    AncestorsArePrefixes(p);
    AncestorsEndAtRoot(p);
    forall i | 0 <= i < |chain|
      ensures AsWrittenGuard(chain[i])
    {
      NotSlashesPassesGuard(chain[i]);
    }
    SlashPrefixFailsGuard(path, p);
    if chain != [] {
      var last := chain[|chain| - 1];
      PrefixTransitive(path, p, last);
      assert StartsWith(last, Dirname(last));
      PrefixTransitive(path, last, Dirname(last));
      SlashPrefixFailsGuard(path, Dirname(last));
    }
  }

  lemma NotSlashesPassesGuard(a: string)
    requires !AllSlashes(a)
    ensures AsWrittenGuard(a)
  {
    if a == "/" {
      assert AllSlashes(a);
    }
  }

  /** A prefix of a path not beginning with "//" that is made only of slashes is "" or "/". */
  lemma SlashPrefixFailsGuard(path: string, a: string)
    requires !StartsWith(path, "//") && StartsWith(path, a)
    ensures AllSlashes(a) <==> !AsWrittenGuard(a)
  {
    if AllSlashes(a) {
      if |a| == 1 {
        assert a == "/";
      }
    } else {
      NotSlashesPassesGuard(a);
    }
  }

  /** The MOLES keys of a directory document: `title`, `url` and `record_type`, copied from the record. */
  datatype MolesInfo = MolesInfo(title: Json, url: Json, recordType: Json)

  /**
   * The directory document `dir_meta`: the six keys `depth`, `dir`, `path`,
   * `archive_path`, `link` and `type` ('dir', implicit here), and the three
   * MOLES keys when a record with a truthy title was found.
   */
  datatype DirDoc = DirDoc(depth: nat, dir: string, path: string, archivePath: string, link: bool,
                           moles: Option<MolesInfo>)

  /** `record and record['title']`, for a record that is a dict holding a title. */
  predicate HasTitle(record: Json) {
    Truthy(record) && record.JObj? && "title" in record.fields && Truthy(record.fields["title"])
  }

  /** `dir_meta`, with the MOLES keys added when the record and its title are truthy. */
  function DirMeta(path: string, isLink: bool, linkTarget: string, record: Json): (r: Result<DirDoc>)
    ensures r.Ok? ==> (r.value.moles.Some? <==> HasTitle(record))
    ensures r.Ok? && HasTitle(record) ==>
      && "url" in record.fields && "record_type" in record.fields
      && r.value.moles == Some(MolesInfo(record.fields["title"], record.fields["url"], record.fields["record_type"]))
    ensures r.Err? <==>
      Truthy(record)
      && (!record.JObj? || "title" !in record.fields
          || (Truthy(record.fields["title"]) && !("url" in record.fields && "record_type" in record.fields)))
    ensures r.Ok? ==>
      && r.value.depth == Count(path, '/') && r.value.dir == Basename(path) && r.value.path == path
      && r.value.archivePath == (if isLink then linkTarget else path) && r.value.link == isLink
  {
    var base := DirDoc(Count(path, '/'), Basename(path), path, if isLink then linkTarget else path, isLink, None);
    if !Truthy(record) then Ok(base)
    else if !record.JObj? then Err(TypeError)
    else if "title" !in record.fields then Err(KeyError)
    else if !Truthy(record.fields["title"]) then Ok(base)
    else if "url" !in record.fields || "record_type" !in record.fields then Err(KeyError)
    else Ok(base.(moles := Some(MolesInfo(record.fields["title"], record.fields["url"], record.fields["record_type"]))))
  }

  /** The result pair of `generate_path_metadata`: `(dir_meta, link)`, or `(None, None)` for a non-directory. */
  datatype PathMetadata = NotADirectory | Metadata(doc: DirDoc, link: bool)

  /** `generate_path_metadata(path)`, with the results and the mapping afterwards. */
  function GeneratedMetadata(mapping: map<string, Json>, path: string, isDir: bool, isLink: bool,
                             linkTarget: string, remote: RemoteReply): (Result<PathMetadata>, map<string, Json>)
  {
    if !isDir then (Ok(NotADirectory), mapping)
    else
      var found := MolesRecord(mapping, path, remote);
      match DirMeta(path, isLink, linkTarget, found.record)
      case Ok(doc) => (Ok(Metadata(doc, isLink)), found.mapping)
      case Err(e) => (Err(e), found.mapping)
  }

  class PathTools {
    var molesMapping: map<string, Json>
    /** How many times `SpotMapping()` has been built. */
    var spotLoads: nat

    /** `__init__`: the mapping downloaded from the MOLES endpoint is given. */
    constructor (mapping: map<string, Json>)
      ensures molesMapping == mapping && spotLoads == 1
    {
      molesMapping := mapping;
      spotLoads := 1;
    }

    /**
     * `get_moles_record_metadata(path)`. The loop stops at a path made only of
     * slashes, where the source stops only at "/" and "".
     */
    method GetMolesRecordMetadata(path: string, remote: RemoteReply) returns (record: Json)
      modifies this
      ensures Lookup(record, molesMapping) == MolesRecord(old(molesMapping), path, remote)
      ensures spotLoads == old(spotLoads)
    {
      var p := path;
      if EndsWith(p, "/") {
        p := p[..|p| - 1];
      }
      var testPath := p;
      while !AllSlashes(testPath)
        invariant FirstHit(molesMapping, Ancestors(p)) == FirstHit(molesMapping, Ancestors(testPath))
        invariant p == TrimSlash(path)
        invariant molesMapping == old(molesMapping) && spotLoads == old(spotLoads)
        decreases |testPath|
      {
        var result := Get(molesMapping, testPath);
        if !Truthy(result) {
          result := Get(molesMapping, testPath + "/");
        }
        if result != JNull {
          return result;
        }
        DirnameShrinks(testPath);
        testPath := Dirname(testPath);
      }
      match remote {
        case TimedOut =>
          return JNull;
        case Response(ok, body) =>
          if ok {
            molesMapping := molesMapping[p := body];
            return body;
          }
          return JNull;
      }
    }

    /** `generate_path_metadata(path)`, with the filesystem answers and the spot lookup given. */
    method GeneratePathMetadata(path: string, isDir: bool, isLink: bool, linkTarget: string, remote: RemoteReply)
      returns (r: Result<PathMetadata>)
      modifies this
      ensures (r, molesMapping) == GeneratedMetadata(old(molesMapping), path, isDir, isLink, linkTarget, remote)
      ensures spotLoads == old(spotLoads)
    {
      if !isDir {
        return Ok(NotADirectory);
      }
      var archivePath := path;
      if isLink {
        archivePath := linkTarget;
      }
      var dirMeta := DirDoc(Count(path, '/'), Basename(path), path, archivePath, isLink, None);
      var record := GetMolesRecordMetadata(path, remote);
      if Truthy(record) {
        if !record.JObj? {
          return Err(TypeError);
        }
        if "title" !in record.fields {
          return Err(KeyError);
        }
        if Truthy(record.fields["title"]) {
          if "url" !in record.fields || "record_type" !in record.fields {
            return Err(KeyError);
          }
          dirMeta := dirMeta.(moles := Some(MolesInfo(record.fields["title"], record.fields["url"],
                                                      record.fields["record_type"])));
        }
      }
      return Ok(Metadata(dirMeta, dirMeta.link));
    }

    /** `update_mapping()`: keep the old mapping when the download fails; rebuild the spots regardless. */
    method UpdateMapping(fetch: Fetch) returns (successful: bool)
      modifies this
      ensures successful <==> fetch.Fetched?
      ensures molesMapping == if fetch.Fetched? then fetch.mapping else old(molesMapping)
      ensures spotLoads == old(spotLoads) + 1
    {
      successful := true;
      match fetch {
        case Fetched(m) => molesMapping := m;
        case FetchFailed => successful := false;
      }
      spotLoads := spotLoads + 1;
    }
  }

  /**
   * A record fetched remotely is cached under the trimmed path, so a second
   * lookup of the same path finds it without asking again, whatever the
   * remote would answer.
   */
  lemma RemoteHitCached(mapping: map<string, Json>, path: string, body: Json, remote: RemoteReply)
    requires FirstHit(mapping, Ancestors(TrimSlash(path))).None?
    requires Truthy(body) && !AllSlashes(TrimSlash(path))
    ensures var first := MolesRecord(mapping, path, Response(true, body));
      MolesRecord(first.mapping, path, remote) == Lookup(body, first.mapping)
  {
  }

  /** A hit in the mapping leaves it unchanged and never asks the remote. */
  lemma CachedHitIsLocal(mapping: map<string, Json>, path: string, r1: RemoteReply, r2: RemoteReply)
    requires FirstHit(mapping, Ancestors(TrimSlash(path))).Some?
    ensures MolesRecord(mapping, path, r1) == MolesRecord(mapping, path, r2)
    ensures MolesRecord(mapping, path, r1).mapping == mapping
  {
  }
}
