/**
 * `UpdateHandler`, the base of the index update handlers: the mapping
 * refresh timer and the wait for a freshly announced file. Times are
 * integers in microseconds, as `datetime` differences resolve them.
 */
module UpdateHandlers {
  import opened Wrappers
  import opened JsonValue
  import opened MolesPaths

  const MicrosPerSecond: int := 1000000
  const SecondsPerDay: int := 86400

  /** `timedelta.seconds` of a difference in microseconds: whole seconds, modulo one day. */
  function TimedeltaSeconds(us: int): (s: int)
    ensures 0 <= s < SecondsPerDay
  {
    (us / MicrosPerSecond) % SecondsPerDay
  }

  /** A document the handlers index. */
  datatype Document =
    | Directory(meta: DirDoc)
      // `_generate_doc_from_message`: `depth`, `path`, `type` ('dir', implicit) and `dir`
    | DirectoryFromPath(depth: nat, path: string, dir: string)
    | Readme(readme: string)
    | FileDoc(body: Json)
    | FileFromMessage(fields: MessageFile)

  /** The fast file document: `name_auto`, `type`, `directory`, `size`, `name` and `location`. */
  datatype MessageFile = MessageFile(nameAuto: string, fileType: string, directory: string, size: string,
                                     name: string, location: string)

  datatype Entry = Entry(id: DocId, document: Document)

  /** An element of a deletion list: a bare key name, or a `{'id': ...}` item. */
  datatype DeleteItem = KeyName(name: string) | IdItem(id: DocId)

  /** The calls on the index clients. */
  datatype IndexCall =
    | AddDirs(entries: seq<Entry>)
    | DeleteDirs(ids: seq<DocId>)
    | UpdateReadmes(entries: seq<Entry>)
    | AddFiles(entries: seq<Entry>)
    | DeleteFiles(items: seq<DeleteItem>)

  datatype HandlerEffect = Sleep(seconds: nat) | Index(call: IndexCall)

  /** What the outside world answers while one event is handled. */
  datatype Env = Env(
    now: int,                      // `datetime.now()`
    fetch: Fetch,                  // the mapping download of `update_mapping`
    loadedAt: int,                 // `datetime.now()` read again once `update_mapping` returns
    messageTime: int,              // `parse(message.datetime)`
    pathExists: bool,                  // `os.path.exists(message.filepath)`
    isDir: bool,                   // `os.path.isdir`
    isLink: bool,                  // `os.path.islink`
    linkTarget: string,            // `spots.get_archive_path(path)`
    remote: RemoteReply,           // the MOLES `get_info` call
    readme: Option<string>,        // `get_readme(directory)`
    handlerFound: bool,            // `pick_best_handler(path) is not None`
    fileData: Option<seq<Json>>,   // `handler_instance.get_metadata()`
    spot: Option<string>)          // `spots.get_spot(path)`

  /** The index calls among the effects, in order. */
  function IndexCalls(effects: seq<HandlerEffect>): (calls: seq<IndexCall>)
    ensures |calls| <= |effects|
  {
    if effects == [] then []
    else (if effects[0].Index? then [effects[0].call] else []) + IndexCalls(effects[1..])
  }

  /** Index calls distribute over concatenation. */
  lemma {:induction false} IndexCallsAppend(a: seq<HandlerEffect>, b: seq<HandlerEffect>)
    ensures IndexCalls(a + b) == IndexCalls(a) + IndexCalls(b)
    decreases |a|
  {
    if a == [] {
      assert a + b == b;
    } else {
      assert (a + b)[0] == a[0];
      assert (a + b)[1..] == a[1..] + b;
      IndexCallsAppend(a[1..], b);
    }
  }

  /** Sleeps make no index call; an index effect makes exactly its own call. */
  lemma IndexCallsOfOne(e: HandlerEffect)
    ensures IndexCalls([e]) == if e.Index? then [e.call] else []
  {
    assert [e][1..] == [];
  }

  /** The state the handlers change: the timer and the path tools' mapping and spots. */
  datatype HandlerState = HandlerState(updateTime: int, mapping: map<string, Json>, spotLoads: nat)

  /** The state after one event, the effects in order, and the exception that escaped, if any. */
  datatype EventOutcome = EventOutcome(state: HandlerState, effects: seq<HandlerEffect>, failure: Option<PyError>)

  /** Whether `_update_mappings` refreshes: elapsed `.seconds` strictly above the interval. */
  predicate RefreshDue(updateTime: int, interval: int, now: int) {
    TimedeltaSeconds(now - updateTime) > interval
  }

  /**
   * `_update_mappings()` on the state: the clock is read at `now` to decide,
   * and read again at `loadedAt`, after the download, to restart the timer.
   */
  function Refresh(st: HandlerState, interval: int, now: int, fetch: Fetch, loadedAt: int): HandlerState
  {
    if RefreshDue(st.updateTime, interval, now) then
      HandlerState(if fetch.Fetched? then loadedAt else st.updateTime,
            if fetch.Fetched? then fetch.mapping else st.mapping,
            st.spotLoads + 1)
    else st
  }

  /** `_wait_for_file(message)`: one sleep of 60 s for a recent message whose path is missing. */
  function WaitForFile(messageTime: int, now: int, pathExists: bool): seq<HandlerEffect>
  {
    if TimedeltaSeconds(now - messageTime) < 300 && !pathExists then [Sleep(60)] else []
  }

  /** The `wait_for_file` decorator: one sleep of 20 s when the path is missing, then the call. */
  function DecoratorWait(pathExists: bool): seq<HandlerEffect>
  {
    if !pathExists then [Sleep(20)] else []
  }

  class UpdateHandler {
    const pt: PathTools
    /** `refresh_interval`, in seconds. */
    const refreshInterval: int
    var updateTime: int
    var effects: seq<HandlerEffect>

    function State(): HandlerState
      reads this, pt
    {
      HandlerState(updateTime, pt.molesMapping, pt.spotLoads)
    }

    /** `__init__`: the interval is given in minutes. */
    constructor (pt: PathTools, refreshMinutes: int, now: int)
      ensures this.pt == pt && refreshInterval == refreshMinutes * 60
      ensures updateTime == now && effects == []
    {
      this.pt := pt;
      refreshInterval := refreshMinutes * 60;
      updateTime := now;
      effects := [];
    }

    method UpdateMappings(now: int, fetch: Fetch, loadedAt: int)
      modifies this, pt
      ensures State() == Refresh(old(State()), refreshInterval, now, fetch, loadedAt)
      ensures effects == old(effects)
    {
      var timedelta := TimedeltaSeconds(now - updateTime);
      if timedelta > refreshInterval {
        var successful := pt.UpdateMapping(fetch);
        if successful {
          updateTime := loadedAt;
        }
      }
    }

    /** One call on the index client. */
    method Send(call: IndexCall)
      modifies this
      ensures effects == old(effects) + [Index(call)]
      ensures updateTime == old(updateTime)
    {
      effects := effects + [Index(call)];
    }

    method WaitFor(messageTime: int, now: int, pathExists: bool)
      modifies this
      ensures effects == old(effects) + WaitForFile(messageTime, now, pathExists)
      ensures updateTime == old(updateTime)
    {
      var tDelta := TimedeltaSeconds(now - messageTime);
      if tDelta < 300 {
        if !pathExists {
          effects := effects + [Sleep(60)];
        }
      }
    }

    method WaitForPath(pathExists: bool)
      modifies this
      ensures effects == old(effects) + DecoratorWait(pathExists)
      ensures updateTime == old(updateTime)
    {
      if !pathExists {
        effects := effects + [Sleep(20)];
      }
    }
  }

  /**
   * A refresh happens only when the elapsed seconds exceed the interval;
   * it always rebuilds the spots, replaces the mapping and resets the timer
   * exactly when the download succeeded, and keeps both otherwise.
   */
  lemma RefreshOnlyWhenDue(st: HandlerState, interval: int, now: int, fetch: Fetch, loadedAt: int)
    ensures var r := Refresh(st, interval, now, fetch, loadedAt);
      && (r.spotLoads == st.spotLoads + 1 <==> RefreshDue(st.updateTime, interval, now))
      && (!RefreshDue(st.updateTime, interval, now) ==> r == st)
      && (RefreshDue(st.updateTime, interval, now) && fetch.Fetched? ==> r.updateTime == loadedAt && r.mapping == fetch.mapping)
      && (fetch.FetchFailed? ==> r.updateTime == st.updateTime && r.mapping == st.mapping)
  {
  }

  /** After a failed download the refresh is still due, so the next event at the same time retries. */
  lemma FailedRefreshRetries(st: HandlerState, interval: int, now: int, loadedAt: int)
    requires RefreshDue(st.updateTime, interval, now)
    ensures var r := Refresh(st, interval, now, FetchFailed, loadedAt);
      RefreshDue(r.updateTime, interval, now)
  {
  }

  /**
   * After a successful refresh nothing is refreshed again for `interval`
   * seconds (an interval shorter than a day) counted from the end of the
   * download.
   */
  lemma SuccessfulRefreshHolds(st: HandlerState, interval: int, now: int, m: map<string, Json>, loadedAt: int, later: int)
    requires RefreshDue(st.updateTime, interval, now)
    requires 0 <= interval < SecondsPerDay
    requires loadedAt <= later <= loadedAt + interval * MicrosPerSecond
    ensures var r := Refresh(st, interval, now, Fetched(m), loadedAt);
      !RefreshDue(r.updateTime, interval, later)
  {
    var d := later - loadedAt;
    assert d / MicrosPerSecond <= interval;
    assert TimedeltaSeconds(d) == d / MicrosPerSecond;
  }

  /**
   * `.seconds` wraps at a day: when one whole day and ten seconds have
   * passed, the elapsed time reads as ten seconds and an interval of ten
   * seconds or more does not refresh.
   */
  lemma ElapsedWrapsAtOneDay(st: HandlerState, interval: int, fetch: Fetch, loadedAt: int)
    requires interval >= 10
    ensures Refresh(st, interval, st.updateTime + (SecondsPerDay + 10) * MicrosPerSecond, fetch, loadedAt) == st
  {
    var d := (SecondsPerDay + 10) * MicrosPerSecond;
    assert d / MicrosPerSecond == SecondsPerDay + 10;
  }

  /**
   * `_wait_for_file` sleeps at most once, for 60 s, and only when the
   * message is under 300 s old and the path is missing; a message dated in
   * the future by up to a day reads as old and never waits.
   */
  lemma WaitForFileOnce(messageTime: int, now: int, pathExists: bool)
    ensures |WaitForFile(messageTime, now, pathExists)| <= 1
    ensures WaitForFile(messageTime, now, pathExists) != [] <==>
      TimedeltaSeconds(now - messageTime) < 300 && !pathExists
    ensures now < messageTime && messageTime - now <= (SecondsPerDay - 300) * MicrosPerSecond ==>
      WaitForFile(messageTime, now, pathExists) == []
  {
    if now < messageTime && messageTime - now <= (SecondsPerDay - 300) * MicrosPerSecond {
      var d := now - messageTime;
      assert -(SecondsPerDay - 300) <= d / MicrosPerSecond < 0;
      assert TimedeltaSeconds(d) == d / MicrosPerSecond + SecondsPerDay;
    }
  }
}
