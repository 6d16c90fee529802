/**
 * `FBSUpdateHandler` and its fast variant: file index updates for DEPOSIT
 * and DELETE events. The fast variant (`FastFBSUpdateHandler`) skips the
 * mapping refresh and builds the document from the message.
 */
module FbsUpdates {
  import opened Wrappers
  import opened JsonValue
  import opened MolesPaths
  import opened UpdateHandlers
  import opened IngestMessages
  import opened FastFbsUpdates

  /** Whether `doc['info']` is a dict that can be assigned into. */
  predicate HasInfoDict(doc: Json) {
    doc.JObj? && "info" in doc.fields && doc.fields["info"].JObj?
  }

  /** The entries of `doc['info']`, empty when there is no such dict. */
  function Info(doc: Json): map<string, Json> {
    if HasInfoDict(doc) then doc.fields["info"].fields else map[]
  }

  /**
   * `doc['info'][key] = value`: a TypeError when `doc` or its `info` is not
   * a dict, a KeyError when `info` is missing.
   */
  function SetInfo(doc: Json, key: string, value: Json): (r: Result<Json>)
    ensures r.Ok? <==> HasInfoDict(doc)
    ensures r.Err? ==> r.error == (if doc.JObj? && "info" !in doc.fields then KeyError else TypeError)
    ensures r.Ok? ==>
      && HasInfoDict(r.value) && Info(r.value) == Info(doc)[key := value]
      && r.value.fields.Keys == doc.fields.Keys
      && (forall k | k in doc.fields && k != "info" :: r.value.fields[k] == doc.fields[k])
  {
    if !doc.JObj? then Err(TypeError)
    else if "info" !in doc.fields then Err(KeyError)
    else if !doc.fields["info"].JObj? then Err(TypeError)
    else Ok(JObj(doc.fields["info" := JObj(doc.fields["info"].fields[key := value])]))
  }

  /** Whether `_create_body` sets `info.phenomena`: more than one item and the second not None. */
  predicate SetsPhenomena(fileData: seq<Json>) {
    |fileData| > 1 && fileData[1] != JNull
  }

  /** Whether `_create_body` sets `info.spatial`: exactly three items and the third not None. */
  predicate SetsSpatial(fileData: seq<Json>) {
    |fileData| == 3 && fileData[2] != JNull
  }

  /** `_create_body(file_data)`: the first document, with phenomena and spatial data added to its `info`. */
  function CreateBody(fileData: seq<Json>): Result<Json>
  {
    if |fileData| == 0 then Err(IndexError)
    else
      var doc := fileData[0];
      var withPhenomena := if SetsPhenomena(fileData) then SetInfo(doc, "phenomena", fileData[1]) else Ok(doc);
      match withPhenomena
      case Err(e) => Err(e)
      case Ok(doc1) => if SetsSpatial(fileData) then SetInfo(doc1, "spatial", fileData[2]) else Ok(doc1)
  }

  /**
   * `_create_body` fails only on an empty list or when it must write into
   * an `info` that is not a dict. Otherwise it returns the first document:
   * its keys other than `info` are unchanged, `info.phenomena` and
   * `info.spatial` are set exactly under their conditions, and every other
   * `info` key keeps its value.
   */
  lemma CreateBodyInfo(fileData: seq<Json>)
    ensures var r := CreateBody(fileData);
      r.Ok? <==> |fileData| >= 1 && (SetsPhenomena(fileData) || SetsSpatial(fileData) ==> HasInfoDict(fileData[0]))
    ensures CreateBody(fileData) == Err(IndexError) <==> fileData == []
    ensures CreateBody(fileData).Ok? && !SetsPhenomena(fileData) && !SetsSpatial(fileData) ==>
      CreateBody(fileData).value == fileData[0]
    ensures CreateBody(fileData).Ok? && (SetsPhenomena(fileData) || SetsSpatial(fileData)) ==>
      var body := CreateBody(fileData).value;
      var doc := fileData[0];
      && body.JObj? && body.fields.Keys == doc.fields.Keys
      && (forall k | k in doc.fields && k != "info" :: body.fields[k] == doc.fields[k])
      && (SetsPhenomena(fileData) ==> "phenomena" in Info(body) && Info(body)["phenomena"] == fileData[1])
      && (SetsSpatial(fileData) ==> "spatial" in Info(body) && Info(body)["spatial"] == fileData[2])
      && (forall k | k in Info(body) :: k in Info(doc) || (k == "phenomena" && SetsPhenomena(fileData))
                                                       || (k == "spatial" && SetsSpatial(fileData)))
      && (forall k | k in Info(doc) && !(k == "phenomena" && SetsPhenomena(fileData))
                                    && !(k == "spatial" && SetsSpatial(fileData)) :: Info(body)[k] == Info(doc)[k])
  {
    if |fileData| >= 1 && SetsPhenomena(fileData) && HasInfoDict(fileData[0]) {
      var doc1 := SetInfo(fileData[0], "phenomena", fileData[1]).value;
      if SetsSpatial(fileData) {
        var body := SetInfo(doc1, "spatial", fileData[2]).value;
        assert Info(body) == Info(fileData[0])["phenomena" := fileData[1]]["spatial" := fileData[2]];
      }
    }
  }

  /** A one-element list comes back unchanged, as the fast handler's document does. */
  lemma CreateBodyOfSingle(doc: Json)
    ensures CreateBody([doc]) == Ok(doc)
  {
  }

  /** `doc[0]['info']['spot_name'] = spot` when a spot is found. */
  function WithSpot(fileData: seq<Json>, spot: Option<string>): Result<seq<Json>>
  {
    match spot
    case None => Ok(fileData)
    case Some(name) =>
      if |fileData| == 0 then Err(IndexError)
      else match SetInfo(fileData[0], "spot_name", JStr(name))
        case Err(e) => Err(e)
        case Ok(doc) => Ok(fileData[0 := doc])
  }

  /** `_process_deposits(path)` behind `wait_for_file`. */
  function Deposit(st: HandlerState, path: string, env: Env): EventOutcome
  {
    var wait := DecoratorWait(env.pathExists);
    if !env.handlerFound || env.fileData.None? then EventOutcome(st, wait, None)
    else match WithSpot(env.fileData.value, env.spot)
      case Err(e) => EventOutcome(st, wait, Some(e))
      case Ok(fileData) =>
        match CreateBody(fileData)
        case Err(e) => EventOutcome(st, wait, Some(e))
        case Ok(body) => EventOutcome(st, wait + [Index(AddFiles([Entry(GenerateId(path), FileDoc(body))]))], None)
  }

  /** The fast `_process_deposits(message)`: one document from the message, indexed without waiting. */
  function FastDeposit(st: HandlerState, m: IngestMessage): EventOutcome
  {
    EventOutcome(st, [Index(AddFiles([Entry(GenerateId(m.filepath), FileFromMessage(CreateDocFromMessage(m)))]))], None)
  }

  /**
   * The deletion list `list({'id': generate_id(path)})` as written: `list`
   * of a dict lists its keys, so the list holds the key name and not the id.
   */
  function AsWrittenDeletionList(path: string): seq<DeleteItem>
  {
    [KeyName("id")]
  }

  /** The deletion list as intended: the one `{'id': generate_id(path)}` item. */
  function DeletionList(path: string): seq<DeleteItem>
  {
    [IdItem(GenerateId(path))]
  }

  /** `_process_deletions(path)`, with the intended deletion list. */
  function Deletion(st: HandlerState, path: string): EventOutcome
  {
    EventOutcome(st, [Index(DeleteFiles(DeletionList(path)))], None)
  }

  /** `process_event(message)` from the decoded message on; the fast variant does not refresh. */
  function FbsEvent(fast: bool, st: HandlerState, interval: int, m: IngestMessage, env: Env): EventOutcome
  {
    var current := if fast then st else Refresh(st, interval, env.now, env.fetch, env.loadedAt);
    if m.action == "DEPOSIT" then (if fast then FastDeposit(current, m) else Deposit(current, m.filepath, env))
    else if m.action == "DELETE" then Deletion(current, m.filepath)
    else EventOutcome(current, [], None)
  }

  class FbsUpdateHandler {
    const base: UpdateHandler
    /** Whether this is a `FastFBSUpdateHandler`. */
    const fast: bool

    constructor (base: UpdateHandler, fast: bool)
      ensures this.base == base && this.fast == fast
    {
      this.base := base;
      this.fast := fast;
    }

    method ProcessEvent(m: IngestMessage, env: Env) returns (failure: Option<PyError>)
      modifies base, base.pt
      ensures var o := FbsEvent(fast, old(base.State()), base.refreshInterval, m, env);
        base.State() == o.state && base.effects == old(base.effects) + o.effects && failure == o.failure
    {
      if !fast {
        base.UpdateMappings(env.now, env.fetch, env.loadedAt);
      }
      failure := None;
      if m.action == "DEPOSIT" {
        if fast {
          ProcessMessageDeposit(m);
        } else {
          failure := ProcessDeposits(m.filepath, env);
        }
      } else if m.action == "DELETE" {
        ProcessDeletions(m.filepath);
      }
    }

    method ProcessDeposits(path: string, env: Env) returns (failure: Option<PyError>)
      modifies base
      ensures var o := Deposit(old(base.State()), path, env);
        base.State() == o.state && base.effects == old(base.effects) + o.effects && failure == o.failure
    {
      base.WaitForPath(env.pathExists);
      failure := None;
      if env.handlerFound && env.fileData.Some? {
        var doc := env.fileData.value;
        if env.spot.Some? {
          if |doc| == 0 {
            return Some(IndexError);
          }
          var first := SetInfo(doc[0], "spot_name", JStr(env.spot.value));
          if first.Err? {
            return Some(first.error);
          }
          doc := doc[0 := first.value];
        }
        var body := CreateBody(doc);
        if body.Err? {
          return Some(body.error);
        }
        base.Send(AddFiles([Entry(GenerateId(path), FileDoc(body.value))]));
      }
    }

    method ProcessMessageDeposit(m: IngestMessage)
      modifies base
      ensures base.State() == old(base.State())
      ensures base.effects == old(base.effects) + FastDeposit(old(base.State()), m).effects
    {
      var doc := CreateDocFromMessage(m);
      base.Send(AddFiles([Entry(GenerateId(m.filepath), FileFromMessage(doc))]));
    }

    method ProcessDeletions(path: string)
      modifies base
      ensures base.State() == old(base.State())
      ensures base.effects == old(base.effects) + Deletion(old(base.State()), path).effects
    {
      base.Send(DeleteFiles(DeletionList(path)));
    }
  }

  /**
   * A deposit adds at most one file, under the id of its path, exactly when
   * a handler was found, it produced metadata and nothing was raised; the
   * spot name is set in the indexed document exactly when a spot was found.
   */
  lemma DepositIndexesOnce(st: HandlerState, path: string, env: Env)
    ensures var o := Deposit(st, path, env);
      var calls := IndexCalls(o.effects);
      && |calls| <= 1 && o.state == st
      && (calls != [] <==> env.handlerFound && env.fileData.Some? && o.failure.None?)
      && (calls != [] ==>
            && calls[0].AddFiles? && |calls[0].entries| == 1 && calls[0].entries[0].id == GenerateId(path)
            && calls[0].entries[0].document.FileDoc?
            && var body := calls[0].entries[0].document.body;
               && (env.spot.Some? ==> "spot_name" in Info(body) && Info(body)["spot_name"] == JStr(env.spot.value))
               && (env.spot.None? ==> ("spot_name" in Info(body) <==> "spot_name" in Info(env.fileData.value[0]))))
  {
    var o := Deposit(st, path, env);
    var wait := DecoratorWait(env.pathExists);
    if wait != [] {
      IndexCallsOfOne(Sleep(20));
    }
    assert IndexCalls(wait) == [];
    if o.effects != wait {
      var e := o.effects[|o.effects| - 1];
      assert o.effects == wait + [e];
      IndexCallsAppend(wait, [e]);
      IndexCallsOfOne(e);
      var fileData := WithSpot(env.fileData.value, env.spot).value;
      CreateBodyInfo(fileData);
      if env.spot.Some? {
        assert Info(fileData[0])["spot_name"] == JStr(env.spot.value);
      } else {
        assert fileData == env.fileData.value;
      }
    }
  }

  /** A fast deposit always adds exactly one file, under the id of its path, without waiting. */
  lemma FastDepositIndexesOnce(st: HandlerState, m: IngestMessage)
    ensures var o := FastDeposit(st, m);
      && IndexCalls(o.effects) == [AddFiles([Entry(GenerateId(m.filepath), FileFromMessage(CreateDocFromMessage(m)))])]
      && o.effects == [Index(IndexCalls(o.effects)[0])] && o.failure.None?
  {
    IndexCallsOfOne(FastDeposit(st, m).effects[0]);
  }

  /**
   * Only DEPOSIT and DELETE reach the index; any other action (REMOVE
   * among them) changes nothing but the refresh. The fast variant never
   * refreshes.
   */
  lemma OnlyDepositAndDeleteIndex(fast: bool, st: HandlerState, interval: int, m: IngestMessage, env: Env)
    ensures var o := FbsEvent(fast, st, interval, m, env);
      && (m.action != "DEPOSIT" && m.action != "DELETE" ==>
            o == EventOutcome(if fast then st else Refresh(st, interval, env.now, env.fetch, env.loadedAt), [], None))
      && (fast ==> o.state == st)
  {
  }

  /**
   * As written, every deletion sends the same one-item list, the key name
   * "id", whichever file was deleted, and never the id a deposit indexed.
   */
  lemma AsWrittenDeletionIgnoresPath(a: string, b: string)
    ensures AsWrittenDeletionList(a) == AsWrittenDeletionList(b)
    ensures IdItem(GenerateId(a)) !in AsWrittenDeletionList(a)
  {
  }

  /** With the intended list, a DELETE removes exactly the id under which a DEPOSIT of the same path indexed it. */
  lemma DeletionRemovesDepositedId(st: HandlerState, later: HandlerState, path: string, env: Env, id: DocId, doc: Document)
    requires IndexCalls(Deposit(st, path, env).effects) == [AddFiles([Entry(id, doc)])]
    ensures IndexCalls(Deletion(later, path).effects) == [DeleteFiles([IdItem(id)])]
  {
    DepositIndexesOnce(st, path, env);
    IndexCallsOfOne(Index(DeleteFiles(DeletionList(path))));
  }
}
