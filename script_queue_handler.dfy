/**
 * The older regex-routed consumer (`scripts/queue_handler.py`): the same
 * classification and routing as the queue consumer, but a handler
 * exception is only logged, neither re-raised nor acked.
 */
module ScriptQueueHandler {
  import opened PyStr
  import opened QueueHandler
  import opened LinePatterns

  function CallbackOutcome(body: string, tag: nat, failing: set<Handler>): Outcome
  {
    var splitLine := Split(Strip(body), ':');
    if |splitLine| < 5 then Outcome([], true)
    else
      var p := PathAndAction(splitLine[3], splitLine[4]);
      LogAndSwallow(AndThen(Route(Classify(body), p, failing), Acknowledged(tag)))
  }

  method Callback(log: EffectLog, body: string, tag: nat, failing: set<Handler>) returns (raised: bool)
    modifies log
    ensures log.effects == old(log.effects) + CallbackOutcome(body, tag, failing).effects
    ensures raised == CallbackOutcome(body, tag, failing).raised
  {
    var splitLine := Split(Strip(body), ':');
    if |splitLine| < 5 {
      return true;
    }
    var p := PathAndAction(splitLine[3], splitLine[4]);
    ghost var start := log.effects;
    ghost var routed := Route(Classify(body), p, failing);
    var failed := RouteLine(log, body, p, failing);
    if failed {
      log.LogError();
      AppendEffects(start, routed.effects, [LogError]);
    } else {
      log.AcknowledgeMessage(tag);
      AppendEffects(start, routed.effects, [ScheduleAck(tag)]);
    }
    raised := false;
  }

  /**
   * Once the two fields are read nothing escapes: the delivery is acked
   * exactly when every handler called succeeded, and a failure leaves it
   * unacked with an error logged last.
   */
  lemma FailureSwallowed(body: string, tag: nat, failing: set<Handler>)
    requires Count(Strip(body), ':') >= 4
    ensures var o := CallbackOutcome(body, tag, failing);
      && !o.raised
      && AckCount(o.effects) <= 1
      && (AckCount(o.effects) == 0 <==> o.effects[|o.effects| - 1] == LogError)
  {
    SplitLength(Strip(body), ':');
    var splitLine := Split(Strip(body), ':');
    var r := Route(Classify(body), PathAndAction(splitLine[3], splitLine[4]), failing);
    RouteCounts(Classify(body), PathAndAction(splitLine[3], splitLine[4]), failing);
    AckAfterRouting(r, tag);
  }

  /** A line with fewer than five fields still raises IndexError, outside the `try`. */
  lemma ShortLineRaises(body: string, tag: nat, failing: set<Handler>)
    requires Count(Strip(body), ':') < 4
    ensures CallbackOutcome(body, tag, failing) == Outcome([], true)
  {
    SplitLength(Strip(body), ':');
  }
}
