/**
 * The OpenSearch queue consumer. As written, neither the decode-failure
 * branch nor the path filter returns after acking, so control falls through
 * to the routing: a decode failure goes on to read the unbound `message`
 * (UnboundLocalError), and an out-of-project path is routed and acked a
 * second time. `IntendedOutcome` is the callback with the two returns the
 * tagger consumer has.
 */
module OpensearchQueueConsumer {
  import opened Wrappers
  import opened PyStr
  import opened IngestMessages
  import opened QueueHandler

  const Project := "/neodc/esacci"

  function Route(m: IngestMessage, tag: nat, failing: set<Handler>): Outcome
  {
    LogAndRaise(AndThen(if m.action in ["DEPOSIT", "REMOVE"] then Call(FbsHandler, Message(m), failing) else Nothing,
                        Acknowledged(tag)))
  }

  /** The callback as written, once `decode_message` has answered `decoded`: the acks of the two guards do not end it. */
  function DecodedOutcome(decoded: Result<IngestMessage>, tag: nat, failing: set<Handler>): Outcome
  {
    match decoded
    case Err(e) =>
      // after the ack, `message.filepath` reads an unbound local
      if e == IndexError then Outcome([ScheduleAck(tag)], true) else Outcome([], true)
    case Ok(m) =>
      var filtered := if !StartsWith(m.filepath, Project) then [ScheduleAck(tag)] else [];
      var routed := Route(m, tag, failing);
      Outcome(filtered + routed.effects, routed.raised)
  }

  /** The effects of `callback` for one delivery. */
  function CallbackOutcome(body: string, parsed: JsonParse, tag: nat, failing: set<Handler>): Outcome
  {
    DecodedOutcome(DecodeMessage(body, parsed), tag, failing)
  }

  method Callback(log: EffectLog, body: string, parsed: JsonParse, tag: nat, failing: set<Handler>)
    returns (raised: bool)
    modifies log
    ensures log.effects == old(log.effects) + CallbackOutcome(body, parsed, tag, failing).effects
    ensures raised == CallbackOutcome(body, parsed, tag, failing).raised
  {
    var decoded := DecodeMessage(body, parsed);
    raised := Handle(log, decoded, tag, failing);
  }

  /** The rest of `callback`, from the decoded message on. */
  method Handle(log: EffectLog, decoded: Result<IngestMessage>, tag: nat, failing: set<Handler>) returns (raised: bool)
    modifies log
    ensures log.effects == old(log.effects) + DecodedOutcome(decoded, tag, failing).effects
    ensures raised == DecodedOutcome(decoded, tag, failing).raised
  {
    if decoded.Err? {
      if decoded.error == IndexError {
        log.AcknowledgeMessage(tag);
      }
      // `message` was never bound
      return true;
    }
    var message := decoded.value;
    if !StartsWith(message.filepath, Project) {
      log.AcknowledgeMessage(tag);
    }
    ghost var filtered := log.effects;
    ghost var called := if message.action in ["DEPOSIT", "REMOVE"] then Call(FbsHandler, Message(message), failing) else Nothing;
    raised := false;
    if message.action in ["DEPOSIT", "REMOVE"] {
      raised := log.Process(FbsHandler, Message(message), failing);
    }
    assert log.effects == filtered + called.effects && raised == called.raised;
    if raised {
      log.LogError();
      AppendEffects(filtered, called.effects, [LogError]);
    } else {
      log.AcknowledgeMessage(tag);
      AppendEffects(filtered, called.effects, [ScheduleAck(tag)]);
    }
    assert log.effects == filtered + Route(message, tag, failing).effects;
    AppendEffects(old(log.effects), if !StartsWith(message.filepath, Project) then [ScheduleAck(tag)] else [],
                  Route(message, tag, failing).effects);
  }

  /** The callback with a `return` after each of the two guarding acks. */
  function IntendedOutcome(body: string, parsed: JsonParse, tag: nat, failing: set<Handler>): Outcome
  {
    match DecodeMessage(body, parsed)
    case Err(e) => if e == IndexError then Acknowledged(tag) else Outcome([], true)
    case Ok(m) => if !StartsWith(m.filepath, Project) then Acknowledged(tag) else Route(m, tag, failing)
  }

  lemma RouteAcks(m: IngestMessage, tag: nat, failing: set<Handler>)
    ensures var r := Route(m, tag, failing);
      AckCount(r.effects) == (if r.raised then 0 else 1)
      && Invoked(r.effects) == (if m.action in ["DEPOSIT", "REMOVE"] then [FbsHandler] else [])
  {
    CountsSingle(ScheduleAck(tag));
    if m.action in ["DEPOSIT", "REMOVE"] {
      var c := Call(FbsHandler, Message(m), failing);
      CountsSingle(c.effects[0]);
      CountsSingle(LogError);
      CountsAppend(c.effects, [ScheduleAck(tag)]);
      CountsAppend(c.effects, [LogError]);
    }
  }

  /**
   * As written, a DEPOSIT or REMOVE outside the project reaches the files
   * handler and, when that handler succeeds, is acked twice.
   */
  lemma OutOfProjectAckedTwice(body: string, parsed: JsonParse, m: IngestMessage, tag: nat)
    requires DecodeMessage(body, parsed) == Ok(m)
    requires !StartsWith(m.filepath, Project) && m.action in ["DEPOSIT", "REMOVE"]
    ensures var o := CallbackOutcome(body, parsed, tag, {});
      AckCount(o.effects) == 2 && Invoked(o.effects) == [FbsHandler] && !o.raised
  {
    RouteAcks(m, tag, {});
    CountsSingle(ScheduleAck(tag));
    CountsAppend([ScheduleAck(tag)], Route(m, tag, {}).effects);
  }

  /** As written, an undecodable legacy line is acked and the callback still raises. */
  lemma UndecodableAckedThenRaises(body: string, tag: nat, failing: set<Handler>)
    requires Count(Strip(body), ':') < 5
    ensures CallbackOutcome(body, NotJson, tag, failing) == Outcome([ScheduleAck(tag)], true)
  {
    LegacyDecodeSucceedsIff(body);
  }

  /** A concrete delivery that is acked twice: a JSON deposit of `/badc/f.nc`. */
  lemma DoubleAckExample(body: string)
    ensures var m := IngestMessage("2024-01-02 03:04:05", "/badc/f.nc", "DEPOSIT", "10", "");
      AckCount(CallbackOutcome(body, Parsed(StructuredForm(m)), 7, {}).effects) == 2
  {
    var m := IngestMessage("2024-01-02 03:04:05", "/badc/f.nc", "DEPOSIT", "10", "");
    assert StructuredForm(m).fields.Keys == FieldNames;
    assert !StartsWith(m.filepath, Project) by {
      assert m.filepath[1] != Project[1];
    }
    OutOfProjectAckedTwice(body, Parsed(StructuredForm(m)), m, 7);
  }

  /**
   * With the returns in place, every delivery is acked at most once, exactly
   * once when nothing escapes, and a path outside the project reaches no
   * handler.
   */
  lemma IntendedAckedOnceUnlessRaised(body: string, parsed: JsonParse, tag: nat, failing: set<Handler>)
    ensures var o := IntendedOutcome(body, parsed, tag, failing);
      AckCount(o.effects) == if o.raised then 0 else 1
    ensures forall m :: DecodeMessage(body, parsed) == Ok(m) && !StartsWith(m.filepath, Project) ==>
      Invoked(IntendedOutcome(body, parsed, tag, failing).effects) == []
  {
    CountsSingle(ScheduleAck(tag));
    match DecodeMessage(body, parsed)
    case Err(e) =>
    case Ok(m) => RouteAcks(m, tag, failing);
  }
}
