/**
 * `SlowQueueConsumer.callback`: decode, route DEPOSIT/REMOVE to the files
 * handler (and a `00README` deposit also to the directory handler),
 * MKDIR/RMDIR/SYMLINK to the directory handler, then schedule the ack.
 */
module SlowQueueConsumer {
  import opened Wrappers
  import opened PyStr
  import opened IngestMessages
  import opened QueueHandler

  /** The handlers a decoded message is given to, and the order. */
  function Route(m: IngestMessage, failing: set<Handler>): Outcome
  {
    if m.action in ["DEPOSIT", "REMOVE"] then
      AndThen(Call(FbsHandler, Message(m), failing),
              if EndsWith(m.filepath, "00README") then Call(DirectoryHandler, Message(m), failing) else Nothing)
    else if m.action in ["MKDIR", "RMDIR", "SYMLINK"] then Call(DirectoryHandler, Message(m), failing)
    else Nothing
  }

  /** `callback` once `decode_message` has answered `decoded`, with `failing` the handlers that raise. */
  function DecodedOutcome(decoded: Result<IngestMessage>, tag: nat, failing: set<Handler>): Outcome
  {
    match decoded
    case Err(e) => if e == IndexError then Acknowledged(tag) else Outcome([], true)
    case Ok(m) => LogAndRaise(AndThen(Route(m, failing), Acknowledged(tag)))
  }

  /** The effects of `callback` for one delivery. */
  function CallbackOutcome(body: string, parsed: JsonParse, tag: nat, failing: set<Handler>): Outcome
  {
    DecodedOutcome(DecodeMessage(body, parsed), tag, failing)
  }

  method Callback(log: EffectLog, body: string, parsed: JsonParse, tag: nat, failing: set<Handler>)
    returns (raised: bool)
    modifies log
    ensures log.effects == old(log.effects) + CallbackOutcome(body, parsed, tag, failing).effects
    ensures raised == CallbackOutcome(body, parsed, tag, failing).raised
  {
    var decoded := DecodeMessage(body, parsed);
    raised := Handle(log, decoded, tag, failing);
  }

  /** The rest of `callback`, from the decoded message on. */
  method Handle(log: EffectLog, decoded: Result<IngestMessage>, tag: nat, failing: set<Handler>) returns (raised: bool)
    modifies log
    ensures log.effects == old(log.effects) + DecodedOutcome(decoded, tag, failing).effects
    ensures raised == DecodedOutcome(decoded, tag, failing).raised
  {
    if decoded.Err? {
      if decoded.error == IndexError {
        log.AcknowledgeMessage(tag);
        return false;
      }
      return true;
    }
    var message := decoded.value;
    ghost var start := log.effects;
    ghost var routed := Route(message, failing);
    raised := false;
    if message.action in ["DEPOSIT", "REMOVE"] {
      raised := log.Process(FbsHandler, Message(message), failing);
      if !raised && EndsWith(message.filepath, "00README") {
        raised := log.Process(DirectoryHandler, Message(message), failing);
        AppendEffects(start, [Invoke(FbsHandler, Message(message))], [Invoke(DirectoryHandler, Message(message))]);
      }
    } else if message.action in ["MKDIR", "RMDIR", "SYMLINK"] {
      raised := log.Process(DirectoryHandler, Message(message), failing);
    }
    assert log.effects == start + routed.effects && raised == routed.raised;
    if raised {
      log.LogError();
      AppendEffects(start, routed.effects, [LogError]);
      return true;
    }
    log.AcknowledgeMessage(tag);
    AppendEffects(start, routed.effects, [ScheduleAck(tag)]);
  }

  lemma RouteHasNoAck(m: IngestMessage, failing: set<Handler>)
    ensures AckCount(Route(m, failing).effects) == 0
  {
    var f := Call(FbsHandler, Message(m), failing);
    var d := Call(DirectoryHandler, Message(m), failing);
    CountsSingle(f.effects[0]);
    CountsSingle(d.effects[0]);
    CountsAppend(f.effects, d.effects);
  }

  /** At most one ack per delivery: exactly one when nothing escapes, none when an exception does. */
  lemma AckedOnceUnlessRaised(body: string, parsed: JsonParse, tag: nat, failing: set<Handler>)
    ensures var o := CallbackOutcome(body, parsed, tag, failing);
      AckCount(o.effects) == if o.raised then 0 else 1
  {
    DecodedAckedOnce(DecodeMessage(body, parsed), tag, failing);
  }

  /** The same, whatever `decode_message` answered. */
  lemma DecodedAckedOnce(decoded: Result<IngestMessage>, tag: nat, failing: set<Handler>)
    ensures var o := DecodedOutcome(decoded, tag, failing);
      AckCount(o.effects) == if o.raised then 0 else 1
  {
    CountsSingle(ScheduleAck(tag));
    if decoded.Ok? {
      RouteHasNoAck(decoded.value, failing);
      AckAfterRouting(Route(decoded.value, failing), tag);
    }
  }

  /** A body that is not a legacy line with six fields is acked and goes to no handler. */
  lemma UndecodableAcked(body: string, tag: nat, failing: set<Handler>)
    requires Count(Strip(body), ':') < 5
    ensures CallbackOutcome(body, NotJson, tag, failing) == Outcome([ScheduleAck(tag)], false)
  {
    LegacyDecodeSucceedsIff(body);
  }

  /**
   * With no failing handler: DEPOSIT/REMOVE go to the files handler, then
   * to the directory handler when the path ends in `00README`;
   * MKDIR/RMDIR/SYMLINK go to the directory handler only; anything else goes
   * nowhere; the ack is always the last effect.
   */
  lemma Routing(body: string, parsed: JsonParse, m: IngestMessage, tag: nat)
    requires DecodeMessage(body, parsed) == Ok(m)
    ensures var o := CallbackOutcome(body, parsed, tag, {});
      && !o.raised
      && o.effects[|o.effects| - 1] == ScheduleAck(tag)
      && Invoked(o.effects) ==
         if m.action in ["DEPOSIT", "REMOVE"] then
           [FbsHandler] + (if EndsWith(m.filepath, "00README") then [DirectoryHandler] else [])
         else if m.action in ["MKDIR", "RMDIR", "SYMLINK"] then [DirectoryHandler]
         else []
  {
    var r := Route(m, {});
    var f := Call(FbsHandler, Message(m), {});
    var d := Call(DirectoryHandler, Message(m), {});
    CountsSingle(f.effects[0]);
    CountsSingle(d.effects[0]);
    CountsSingle(ScheduleAck(tag));
    CountsAppend(f.effects, d.effects);
    CountsAppend(r.effects, [ScheduleAck(tag)]);
  }

  /** A failing files handler is logged and re-raised; the directory handler is not reached and nothing is acked. */
  lemma FilesHandlerFailure(body: string, parsed: JsonParse, m: IngestMessage, tag: nat, failing: set<Handler>)
    requires DecodeMessage(body, parsed) == Ok(m)
    requires m.action in ["DEPOSIT", "REMOVE"] && FbsHandler in failing
    ensures CallbackOutcome(body, parsed, tag, failing) == Outcome([Invoke(FbsHandler, Message(m)), LogError], true)
  {
  }
}
