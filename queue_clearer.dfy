/**
 * `NonEssentialQueueConsumer` (the queue clearer): every decoded DEPOSIT,
 * MKDIR, RMDIR or SYMLINK is republished as a legacy line to the FBI
 * exchange, then every decoded message is acked. It loads no handlers.
 */
module QueueClearer {
  import opened Wrappers
  import opened PyStr
  import opened IngestMessages
  import opened QueueHandler

  const Republished: seq<string> := ["DEPOSIT", "MKDIR", "RMDIR", "SYMLINK"]

  /** `callback` once `decode_message` has answered `decoded`. */
  function DecodedOutcome(decoded: Result<IngestMessage>, tag: nat, fbiExchange: string): Outcome
  {
    match decoded
    case Err(_) => Outcome([], true)
    case Ok(m) =>
      Outcome((if m.action in Republished then [Publish(fbiExchange, "", LegacyLine(m))] else []) + [ScheduleAck(tag)], false)
  }

  /** The effects of `callback` for one delivery. */
  function CallbackOutcome(body: string, parsed: JsonParse, tag: nat, fbiExchange: string): Outcome
  {
    DecodedOutcome(DecodeMessage(body, parsed), tag, fbiExchange)
  }

  /** `reraise(channel, message)`: publish the legacy line of the message. */
  method Reraise(log: EffectLog, fbiExchange: string, message: IngestMessage)
    modifies log
    ensures log.effects == old(log.effects) + [Publish(fbiExchange, "", LegacyLine(message))]
  {
    var msg := message.datetime + ":" + message.filepath + ":" + message.action + ":" + message.filesize + ":" + message.message;
    log.Publish(fbiExchange, "", msg);
  }

  method Callback(log: EffectLog, body: string, parsed: JsonParse, tag: nat, fbiExchange: string)
    returns (raised: bool)
    modifies log
    ensures log.effects == old(log.effects) + CallbackOutcome(body, parsed, tag, fbiExchange).effects
    ensures raised == CallbackOutcome(body, parsed, tag, fbiExchange).raised
  {
    var decoded := DecodeMessage(body, parsed);
    raised := Handle(log, decoded, tag, fbiExchange);
  }

  /** The rest of `callback`, from the decoded message on. */
  method Handle(log: EffectLog, decoded: Result<IngestMessage>, tag: nat, fbiExchange: string) returns (raised: bool)
    modifies log
    ensures log.effects == old(log.effects) + DecodedOutcome(decoded, tag, fbiExchange).effects
    ensures raised == DecodedOutcome(decoded, tag, fbiExchange).raised
  {
    if decoded.Err? {
      return true;
    }
    var message := decoded.value;
    if message.action in Republished {
      Reraise(log, fbiExchange, message);
    }
    log.AcknowledgeMessage(tag);
    raised := false;
  }

  /**
   * A decoded message is republished exactly when its action is one of
   * DEPOSIT, MKDIR, RMDIR and SYMLINK, to the FBI exchange with routing key
   * '', and is acked last; no handler is ever invoked.
   */
  lemma RepublishIff(body: string, parsed: JsonParse, m: IngestMessage, tag: nat, ex: string)
    requires DecodeMessage(body, parsed) == Ok(m)
    ensures var o := CallbackOutcome(body, parsed, tag, ex);
      && !o.raised
      && AckCount(o.effects) == 1
      && o.effects[|o.effects| - 1] == ScheduleAck(tag)
      && Invoked(o.effects) == []
      && (Publish(ex, "", LegacyLine(m)) in o.effects <==> m.action in Republished)
      && |o.effects| == if m.action in Republished then 2 else 1
  {
    var o := DecodedOutcome(Ok(m), tag, ex);
    assert CallbackOutcome(body, parsed, tag, ex) == o;
    CountsSingle(ScheduleAck(tag));
    if m.action in Republished {
      var p := Publish(ex, "", LegacyLine(m));
      assert o.effects == [p, ScheduleAck(tag)];
      CountsSingle(p);
      CountsAppend([p], [ScheduleAck(tag)]);
    } else {
      assert o.effects == [ScheduleAck(tag)];
    }
  }

  /** Decode errors are not caught: even an IndexError escapes, and nothing is acked or published. */
  lemma DecodeErrorEscapes(body: string, parsed: JsonParse, tag: nat, ex: string)
    requires DecodeMessage(body, parsed).Err?
    ensures CallbackOutcome(body, parsed, tag, ex) == Outcome([], true)
  {
  }

  /**
   * The republished line decodes back to the same message, for a datetime
   * with exactly two colons, colon-free path, action and size, and a line
   * without outer whitespace.
   */
  lemma RepublishedLineDecodes(body: string, parsed: JsonParse, m: IngestMessage, tag: nat, ex: string)
    requires DecodeMessage(body, parsed) == Ok(m) && m.action in Republished
    requires Count(m.datetime, ':') == 2
    requires ':' !in m.filepath && ':' !in m.filesize
    requires IsStripped(LegacyLine(m))
    ensures var o := CallbackOutcome(body, parsed, tag, ex);
      o.effects[0].Publish? && DecodeMessage(o.effects[0].body, NotJson) == Ok(m)
  {
    var o := DecodedOutcome(Ok(m), tag, ex);
    assert CallbackOutcome(body, parsed, tag, ex) == o;
    assert o.effects[0] == Publish(ex, "", LegacyLine(m));
    RepublishedColonFree(m.action);
    LegacyRoundTrip(m);
  }

  /** None of the republished action names holds a ':'. */
  lemma RepublishedColonFree(action: string)
    requires action in Republished
    ensures ':' !in action
  {
  }
}
