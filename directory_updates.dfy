/**
 * `DirectoryUpdateHandler` and its fast variant: directory index updates
 * for MKDIR, RMDIR, SYMLINK and 00README events. The fast variant
 * (`FastDirectoryUpdateHandler`) differs only in its creations: it does
 * not wait for the path and indexes a document built from the path when
 * no on-disk metadata is available.
 */
module DirectoryUpdates {
  import opened Wrappers
  import opened PyStr
  import opened PosixPath
  import opened JsonValue
  import opened MolesPaths
  import opened UpdateHandlers
  import opened IngestMessages
  import opened FastDirectoryUpdates

  /** `_process_creations(message)` of the handler (`fast` selects the override). */
  function Creation(fast: bool, st: HandlerState, path: string, env: Env): EventOutcome
  {
    var wait := if fast then [] else WaitForFile(env.messageTime, env.now, env.pathExists);
    var generated := GeneratedMetadata(st.mapping, path, env.isDir, env.isLink, env.linkTarget, env.remote);
    CreationFrom(fast, st.(mapping := generated.1), path, wait, generated.0)
  }

  /** The rest of a creation once `generate_path_metadata` has answered `meta`. */
  function CreationFrom(fast: bool, after: HandlerState, path: string, wait: seq<HandlerEffect>,
                        meta: Result<PathMetadata>): EventOutcome
  {
    var id := GenerateId(path);
    match meta
    case Err(e) => EventOutcome(after, wait, Some(e))
    case Ok(Metadata(doc, _)) => EventOutcome(after, wait + [Index(AddDirs([Entry(id, Directory(doc))]))], None)
    case Ok(NotADirectory) =>
      if fast then EventOutcome(after, [Index(AddDirs([Entry(id, GenerateDocFromMessage(path))]))], None)
      else EventOutcome(after, wait, None)
  }

  lemma AppendAssoc(a: seq<HandlerEffect>, b: seq<HandlerEffect>, c: seq<HandlerEffect>)
    ensures a + b + c == a + (b + c)
  {
  }

  /** `Creation` once the wait and the metadata generation have been done. */
  lemma CreationUnfolds(fast: bool, st: HandlerState, path: string, env: Env, wait: seq<HandlerEffect>,
                        meta: Result<PathMetadata>, mapping: map<string, Json>)
    requires wait == (if fast then [] else WaitForFile(env.messageTime, env.now, env.pathExists))
    requires (meta, mapping) == GeneratedMetadata(st.mapping, path, env.isDir, env.isLink, env.linkTarget, env.remote)
    ensures Creation(fast, st, path, env) == CreationFrom(fast, st.(mapping := mapping), path, wait, meta)
  {
  }

  /** The wait (none for the fast handler) comes first, whatever the metadata says. */
  lemma CreationFromAfterWait(fast: bool, after: HandlerState, path: string, wait: seq<HandlerEffect>,
                              meta: Result<PathMetadata>)
    requires fast ==> wait == []
    ensures CreationFrom(fast, after, path, wait, meta).effects == wait + CreationFrom(fast, after, path, [], meta).effects
    ensures CreationFrom(fast, after, path, wait, meta).state == CreationFrom(fast, after, path, [], meta).state
    ensures CreationFrom(fast, after, path, wait, meta).failure == CreationFrom(fast, after, path, [], meta).failure
  {
    assert wait + [] == wait;
  }

  /** `_process_deletions(path)`. */
  function Deletion(st: HandlerState, path: string): EventOutcome
  {
    EventOutcome(st, [Index(DeleteDirs([GenerateId(path)]))], None)
  }

  /** `_process_readmes(path)` behind `wait_for_file`: the readme is indexed under its directory. */
  function ReadmeUpdate(st: HandlerState, path: string, env: Env): EventOutcome
  {
    var directory := Dirname(path);
    var update := match env.readme
      case Some(content) =>
        if content != "" then [Index(UpdateReadmes([Entry(GenerateId(directory), Readme(content))]))] else []
      case None => [];
    EventOutcome(st, DecoratorWait(env.pathExists) + update, None)
  }

  /** `process_event(message)`: refresh the mappings when due, then dispatch on the action. */
  function DirectoryEvent(fast: bool, st: HandlerState, interval: int, m: IngestMessage, env: Env): EventOutcome
  {
    var refreshed := Refresh(st, interval, env.now, env.fetch, env.loadedAt);
    if m.action == "MKDIR" then Creation(fast, refreshed, m.filepath, env)
    else if m.action == "RMDIR" then Deletion(refreshed, m.filepath)
    else if m.action == "SYMLINK" then Creation(fast, refreshed, m.filepath, env)
    else if m.action == "00README" then ReadmeUpdate(refreshed, m.filepath, env)
    else EventOutcome(refreshed, [], None)
  }

  class DirectoryUpdateHandler {
    const base: UpdateHandler
    /** Whether this is a `FastDirectoryUpdateHandler`. */
    const fast: bool

    constructor (base: UpdateHandler, fast: bool)
      ensures this.base == base && this.fast == fast
    {
      this.base := base;
      this.fast := fast;
    }

    method ProcessEvent(m: IngestMessage, env: Env) returns (failure: Option<PyError>)
      modifies base, base.pt
      ensures var o := DirectoryEvent(fast, old(base.State()), base.refreshInterval, m, env);
        base.State() == o.state && base.effects == old(base.effects) + o.effects && failure == o.failure
    {
      base.UpdateMappings(env.now, env.fetch, env.loadedAt);
      failure := None;
      if m.action == "MKDIR" {
        failure := ProcessCreations(m.filepath, env);
      } else if m.action == "RMDIR" {
        ProcessDeletions(m.filepath);
      } else if m.action == "SYMLINK" {
        failure := ProcessCreations(m.filepath, env);
      } else if m.action == "00README" {
        ProcessReadmes(m.filepath, env);
      }
    }

    method ProcessCreations(path: string, env: Env) returns (failure: Option<PyError>)
      modifies base, base.pt
      ensures var o := Creation(fast, old(base.State()), path, env);
        base.State() == o.state && base.effects == old(base.effects) + o.effects && failure == o.failure
    {
      ghost var before := base.State();
      ghost var start := base.effects;
      ghost var wait: seq<HandlerEffect> := [];
      if !fast {
        base.WaitFor(env.messageTime, env.now, env.pathExists);
        wait := WaitForFile(env.messageTime, env.now, env.pathExists);
      }
      assert base.State() == before;
      ghost var waited := base.effects;
      assert waited == start + wait;
      failure := GenerateAndIndex(path, env);
      ghost var g := GeneratedMetadata(before.mapping, path, env.isDir, env.isLink, env.linkTarget, env.remote);
      ghost var rest := CreationFrom(fast, before.(mapping := g.1), path, [], g.0);
      assert base.effects == waited + rest.effects;
      CreationUnfolds(fast, before, path, env, wait, g.0, g.1);
      CreationFromAfterWait(fast, before.(mapping := g.1), path, wait, g.0);
      AppendAssoc(start, wait, rest.effects);
    }

    /** `generate_path_metadata(path)`, then the indexing of what it found. */
    method GenerateAndIndex(path: string, env: Env) returns (failure: Option<PyError>)
      modifies base, base.pt
      ensures var g := GeneratedMetadata(old(base.State()).mapping, path, env.isDir, env.isLink, env.linkTarget, env.remote);
        var o := CreationFrom(fast, old(base.State()).(mapping := g.1), path, [], g.0);
        base.State() == o.state && base.effects == old(base.effects) + o.effects && failure == o.failure
    {
      var metadata := base.pt.GeneratePathMetadata(path, env.isDir, env.isLink, env.linkTarget, env.remote);
      failure := IndexCreated(path, metadata);
    }

    /** The part of `_process_creations` after the metadata is generated: index the document, if any. */
    method IndexCreated(path: string, metadata: Result<PathMetadata>) returns (failure: Option<PyError>)
      modifies base
      ensures var o := CreationFrom(fast, old(base.State()), path, [], metadata);
        base.State() == o.state && base.effects == old(base.effects) + o.effects && failure == o.failure
    {
      failure := None;
      match metadata {
        case Err(e) =>
          failure := Some(e);
        case Ok(NotADirectory) =>
          if fast {
            base.Send(AddDirs([Entry(GenerateId(path), GenerateDocFromMessage(path))]));
          }
        case Ok(Metadata(doc, _)) =>
          base.Send(AddDirs([Entry(GenerateId(path), Directory(doc))]));
      }
    }

    method ProcessDeletions(path: string)
      modifies base
      ensures base.State() == old(base.State())
      ensures base.effects == old(base.effects) + Deletion(old(base.State()), path).effects
    {
      base.Send(DeleteDirs([GenerateId(path)]));
    }

    method ProcessReadmes(path: string, env: Env)
      modifies base
      ensures base.State() == old(base.State())
      ensures base.effects == old(base.effects) + ReadmeUpdate(old(base.State()), path, env).effects
    {
      base.WaitForPath(env.pathExists);
      var directory := Dirname(path);
      match env.readme {
        case Some(content) =>
          if content != "" {
            base.Send(UpdateReadmes([Entry(GenerateId(directory), Readme(content))]));
          }
        case None =>
      }
    }
  }

  /** A symbolic link is handled exactly as a new directory. */
  lemma SymlinkIsCreation(fast: bool, st: HandlerState, interval: int, m: IngestMessage, env: Env)
    requires m.action == "SYMLINK"
    ensures DirectoryEvent(fast, st, interval, m, env) == DirectoryEvent(fast, st, interval, m.(action := "MKDIR"), env)
  {
  }

  /** The waits of a creation make no index call. */
  lemma WaitIndexesNothing(messageTime: int, now: int, pathExists: bool)
    ensures IndexCalls(WaitForFile(messageTime, now, pathExists)) == []
  {
    if WaitForFile(messageTime, now, pathExists) != [] {
      IndexCallsOfOne(Sleep(60));
    }
  }

  /** Whatever the metadata, a creation adds at most one directory, under the id of its path. */
  lemma CreationFromIndexesOnce(fast: bool, after: HandlerState, path: string, wait: seq<HandlerEffect>,
                                meta: Result<PathMetadata>)
    requires IndexCalls(wait) == []
    ensures var o := CreationFrom(fast, after, path, wait, meta);
      var calls := IndexCalls(o.effects);
      && |calls| <= 1
      && (calls != [] ==> calls[0].AddDirs? && |calls[0].entries| == 1 && calls[0].entries[0].id == GenerateId(path))
      && (calls != [] <==> meta.Ok? && (fast || meta.value.Metadata?))
      && (o.failure.Some? <==> meta.Err?)
  {
    var o := CreationFrom(fast, after, path, wait, meta);
    if o.effects != wait {
      var e := o.effects[|o.effects| - 1];
      IndexCallsOfOne(e);
      if fast && meta == Ok(NotADirectory) {
        assert o.effects == [e];
      } else {
        assert o.effects == wait + [e];
        IndexCallsAppend(wait, [e]);
      }
    }
  }

  /** `generate_path_metadata` answers "not a directory" exactly when the path is not one. */
  lemma GeneratedMetadataShape(mapping: map<string, Json>, path: string, env: Env)
    ensures var g := GeneratedMetadata(mapping, path, env.isDir, env.isLink, env.linkTarget, env.remote);
      g.0 == Ok(NotADirectory) <==> !env.isDir
  {
  }

  /**
   * A creation adds at most one directory, under the id of its path: the
   * slow handler exactly when the path is a directory and its document
   * could be built, the fast handler whenever nothing was raised, and
   * never both an index call and an exception. The fast handler never
   * sleeps.
   */
  lemma CreationIndexesOnce(fast: bool, st: HandlerState, path: string, env: Env)
    ensures var o := Creation(fast, st, path, env);
      var calls := IndexCalls(o.effects);
      && |calls| <= 1
      && (calls != [] ==> calls[0].AddDirs? && |calls[0].entries| == 1 && calls[0].entries[0].id == GenerateId(path))
      && (o.failure.Some? ==> calls == [])
      && (fast ==> (calls != [] <==> o.failure.None?))
      && (!fast ==> (calls != [] <==> env.isDir && o.failure.None?))
      && (fast ==> forall e | e in o.effects :: e.Index?)
  {
    var wait := if fast then [] else WaitForFile(env.messageTime, env.now, env.pathExists);
    var g := GeneratedMetadata(st.mapping, path, env.isDir, env.isLink, env.linkTarget, env.remote);
    WaitIndexesNothing(env.messageTime, env.now, env.pathExists);
    assert IndexCalls(wait) == [];
    CreationFromIndexesOnce(fast, st.(mapping := g.1), path, wait, g.0);
    GeneratedMetadataShape(st.mapping, path, env);
  }

  /** RMDIR deletes exactly the id under which MKDIR of the same path indexed the directory. */
  lemma DeletionRemovesCreatedId(fast: bool, st: HandlerState, later: HandlerState, path: string, env: Env,
                                 id: DocId, doc: Document)
    requires IndexCalls(Creation(fast, st, path, env).effects) == [AddDirs([Entry(id, doc)])]
    ensures IndexCalls(Deletion(later, path).effects) == [DeleteDirs([id])]
  {
    CreationIndexesOnce(fast, st, path, env);
    IndexCallsOfOne(Index(DeleteDirs([GenerateId(path)])));
  }

  /**
   * A 00README updates the readme of the directory that holds it, and only
   * when the file has content; it sleeps at most once, for 20 s.
   */
  lemma ReadmeUpdatesItsDirectory(st: HandlerState, path: string, env: Env)
    ensures var o := ReadmeUpdate(st, path, env);
      var calls := IndexCalls(o.effects);
      && (calls != [] <==> env.readme.Some? && env.readme.value != "")
      && (calls != [] ==> calls == [UpdateReadmes([Entry(GenerateId(Dirname(path)), Readme(env.readme.value))])])
      && StartsWith(path, Dirname(path))
      && o.state == st && o.failure.None?
  {
    var o := ReadmeUpdate(st, path, env);
    var wait := DecoratorWait(env.pathExists);
    if wait != [] {
      IndexCallsOfOne(Sleep(20));
    }
    var rest := o.effects[|wait|..];
    assert o.effects == wait + rest;
    IndexCallsAppend(wait, rest);
    if rest != [] {
      IndexCallsOfOne(rest[0]);
    }
  }

  /**
   * The mappings are refreshed, when due, before every event; an action
   * other than the four handled ones does nothing else.
   */
  lemma OtherActionsOnlyRefresh(fast: bool, st: HandlerState, interval: int, m: IngestMessage, env: Env)
    ensures var o := DirectoryEvent(fast, st, interval, m, env);
      var refreshed := Refresh(st, interval, env.now, env.fetch, env.loadedAt);
      && o.state.updateTime == refreshed.updateTime && o.state.spotLoads == refreshed.spotLoads
      && (m.action !in {"MKDIR", "RMDIR", "SYMLINK", "00README"} ==> o == EventOutcome(refreshed, [], None))
  {
  }
}
