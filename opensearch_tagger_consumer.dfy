/**
 * The OpenSearch tagger consumer: only paths under `/neodc/esacci` are
 * considered, and of those only DEPOSIT and JSON_REFRESH reach the facet
 * scanner.
 */
module OpensearchTaggerConsumer {
  import opened Wrappers
  import opened PyStr
  import opened IngestMessages
  import opened QueueHandler

  const Project := "/neodc/esacci"

  /** `callback` once `decode_message` has answered `decoded`. */
  function DecodedOutcome(decoded: Result<IngestMessage>, tag: nat, failing: set<Handler>): Outcome
  {
    match decoded
    case Err(e) => if e == IndexError then Acknowledged(tag) else Outcome([], true)
    case Ok(m) =>
      if !StartsWith(m.filepath, Project) then Acknowledged(tag)
      else
        LogAndRaise(AndThen(if m.action in ["DEPOSIT", "JSON_REFRESH"] then Call(FacetScanner, Message(m), failing) else Nothing,
                            Acknowledged(tag)))
  }

  /** The effects of `callback` for one delivery. */
  function CallbackOutcome(body: string, parsed: JsonParse, tag: nat, failing: set<Handler>): Outcome
  {
    DecodedOutcome(DecodeMessage(body, parsed), tag, failing)
  }

  method Callback(log: EffectLog, body: string, parsed: JsonParse, tag: nat, failing: set<Handler>)
    returns (raised: bool)
    modifies log
    ensures log.effects == old(log.effects) + CallbackOutcome(body, parsed, tag, failing).effects
    ensures raised == CallbackOutcome(body, parsed, tag, failing).raised
  {
    var decoded := DecodeMessage(body, parsed);
    raised := Handle(log, decoded, tag, failing);
  }

  /** The rest of `callback`, from the decoded message on. */
  method Handle(log: EffectLog, decoded: Result<IngestMessage>, tag: nat, failing: set<Handler>) returns (raised: bool)
    modifies log
    ensures log.effects == old(log.effects) + DecodedOutcome(decoded, tag, failing).effects
    ensures raised == DecodedOutcome(decoded, tag, failing).raised
  {
    if decoded.Err? {
      if decoded.error == IndexError {
        log.AcknowledgeMessage(tag);
        return false;
      }
      return true;
    }
    var message := decoded.value;
    if !StartsWith(message.filepath, Project) {
      log.AcknowledgeMessage(tag);
      return false;
    }
    raised := false;
    if message.action in ["DEPOSIT", "JSON_REFRESH"] {
      raised := log.Process(FacetScanner, Message(message), failing);
    }
    if raised {
      log.LogError();
      return true;
    }
    log.AcknowledgeMessage(tag);
  }

  /** Every delivery that does not raise schedules exactly one ack; one that raises schedules none. */
  lemma AckedOnceUnlessRaised(body: string, parsed: JsonParse, tag: nat, failing: set<Handler>)
    ensures var o := CallbackOutcome(body, parsed, tag, failing);
      AckCount(o.effects) == if o.raised then 0 else 1
  {
    DecodedAckedOnce(DecodeMessage(body, parsed), tag, failing);
  }

  /** The same, whatever `decode_message` answered. */
  lemma DecodedAckedOnce(decoded: Result<IngestMessage>, tag: nat, failing: set<Handler>)
    ensures var o := DecodedOutcome(decoded, tag, failing);
      AckCount(o.effects) == if o.raised then 0 else 1
  {
    CountsSingle(ScheduleAck(tag));
    if decoded.Ok? {
      var m := decoded.value;
      if StartsWith(m.filepath, Project) {
        var r := if m.action in ["DEPOSIT", "JSON_REFRESH"] then Call(FacetScanner, Message(m), failing) else Nothing;
        if r.effects != [] {
          CountsSingle(r.effects[0]);
        }
        AckAfterRouting(r, tag);
      }
    }
  }

  /** The facet scanner sees a message exactly when its path is in the project and its action is DEPOSIT or JSON_REFRESH. */
  lemma ScannedIff(body: string, parsed: JsonParse, m: IngestMessage, tag: nat, failing: set<Handler>)
    requires DecodeMessage(body, parsed) == Ok(m)
    ensures var o := CallbackOutcome(body, parsed, tag, failing);
      Invoked(o.effects) ==
        if StartsWith(m.filepath, Project) && m.action in ["DEPOSIT", "JSON_REFRESH"] then [FacetScanner] else []
  {
    CountsSingle(ScheduleAck(tag));
    if StartsWith(m.filepath, Project) && m.action in ["DEPOSIT", "JSON_REFRESH"] {
      var c := Call(FacetScanner, Message(m), failing);
      CountsSingle(c.effects[0]);
      CountsSingle(LogError);
      CountsAppend(c.effects, [ScheduleAck(tag)]);
      CountsAppend(c.effects, [LogError]);
    }
  }
}
