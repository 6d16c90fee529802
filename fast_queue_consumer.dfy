/**
 * `FastQueueConsumer.callback`: the slow consumer's routing without the
 * `00README` special case, feeding the fast handlers.
 */
module FastQueueConsumer {
  import opened Wrappers
  import opened PyStr
  import opened IngestMessages
  import opened QueueHandler

  function Route(m: IngestMessage, failing: set<Handler>): Outcome
  {
    if m.action in ["DEPOSIT", "REMOVE"] then Call(FbsHandler, Message(m), failing)
    else if m.action in ["MKDIR", "RMDIR", "SYMLINK"] then Call(DirectoryHandler, Message(m), failing)
    else Nothing
  }

  /** `callback` once `decode_message` has answered `decoded`. */
  function DecodedOutcome(decoded: Result<IngestMessage>, tag: nat, failing: set<Handler>): Outcome
  {
    match decoded
    case Err(e) => if e == IndexError then Acknowledged(tag) else Outcome([], true)
    case Ok(m) => LogAndRaise(AndThen(Route(m, failing), Acknowledged(tag)))
  }

  /** The effects of `callback` for one delivery. */
  function CallbackOutcome(body: string, parsed: JsonParse, tag: nat, failing: set<Handler>): Outcome
  {
    DecodedOutcome(DecodeMessage(body, parsed), tag, failing)
  }

  method Callback(log: EffectLog, body: string, parsed: JsonParse, tag: nat, failing: set<Handler>)
    returns (raised: bool)
    modifies log
    ensures log.effects == old(log.effects) + CallbackOutcome(body, parsed, tag, failing).effects
    ensures raised == CallbackOutcome(body, parsed, tag, failing).raised
  {
    var decoded := DecodeMessage(body, parsed);
    raised := Handle(log, decoded, tag, failing);
  }

  /** The rest of `callback`, from the decoded message on. */
  method Handle(log: EffectLog, decoded: Result<IngestMessage>, tag: nat, failing: set<Handler>) returns (raised: bool)
    modifies log
    ensures log.effects == old(log.effects) + DecodedOutcome(decoded, tag, failing).effects
    ensures raised == DecodedOutcome(decoded, tag, failing).raised
  {
    if decoded.Err? {
      if decoded.error == IndexError {
        log.AcknowledgeMessage(tag);
        return false;
      }
      return true;
    }
    var message := decoded.value;
    ghost var start := log.effects;
    ghost var routed := Route(message, failing);
    raised := false;
    if message.action in ["DEPOSIT", "REMOVE"] {
      raised := log.Process(FbsHandler, Message(message), failing);
    } else if message.action in ["MKDIR", "RMDIR", "SYMLINK"] {
      raised := log.Process(DirectoryHandler, Message(message), failing);
    }
    assert log.effects == start + routed.effects && raised == routed.raised;
    if raised {
      log.LogError();
      AppendEffects(start, routed.effects, [LogError]);
      return true;
    }
    log.AcknowledgeMessage(tag);
    AppendEffects(start, routed.effects, [ScheduleAck(tag)]);
  }

  /** At most one ack per delivery: exactly one when nothing escapes, none when an exception does. */
  lemma AckedOnceUnlessRaised(body: string, parsed: JsonParse, tag: nat, failing: set<Handler>)
    ensures var o := CallbackOutcome(body, parsed, tag, failing);
      AckCount(o.effects) == if o.raised then 0 else 1
  {
    DecodedAckedOnce(DecodeMessage(body, parsed), tag, failing);
  }

  /** The same, whatever `decode_message` answered. */
  lemma DecodedAckedOnce(decoded: Result<IngestMessage>, tag: nat, failing: set<Handler>)
    ensures var o := DecodedOutcome(decoded, tag, failing);
      AckCount(o.effects) == if o.raised then 0 else 1
  {
    CountsSingle(ScheduleAck(tag));
    if decoded.Ok? {
      var r := Route(decoded.value, failing);
      if r.effects != [] {
        CountsSingle(r.effects[0]);
      }
      AckAfterRouting(r, tag);
    }
  }

  /** At most one handler sees a message: a `00README` deposit does not reach the directory handler. */
  lemma Routing(body: string, parsed: JsonParse, m: IngestMessage, tag: nat)
    requires DecodeMessage(body, parsed) == Ok(m)
    ensures var o := CallbackOutcome(body, parsed, tag, {});
      && !o.raised
      && o.effects[|o.effects| - 1] == ScheduleAck(tag)
      && Invoked(o.effects) ==
         if m.action in ["DEPOSIT", "REMOVE"] then [FbsHandler]
         else if m.action in ["MKDIR", "RMDIR", "SYMLINK"] then [DirectoryHandler]
         else []
  {
    var r := Route(m, {});
    if r.effects != [] {
      CountsSingle(r.effects[0]);
    }
    CountsSingle(ScheduleAck(tag));
    CountsAppend(r.effects, [ScheduleAck(tag)]);
  }

  /** A failing handler is logged and re-raised with no ack. */
  lemma HandlerFailure(body: string, parsed: JsonParse, m: IngestMessage, tag: nat, failing: set<Handler>)
    requires DecodeMessage(body, parsed) == Ok(m)
    requires (m.action in ["DEPOSIT", "REMOVE"] && FbsHandler in failing)
          || (m.action in ["MKDIR", "RMDIR", "SYMLINK"] && DirectoryHandler in failing)
    ensures var o := CallbackOutcome(body, parsed, tag, failing);
      o.raised && o.effects[|o.effects| - 1] == LogError && AckCount(o.effects) == 0
  {
    AckedOnceUnlessRaised(body, parsed, tag, failing);
  }
}
