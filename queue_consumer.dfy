/**
 * The regex-routed consumer (`scripts/queue_consumer.py`): fields 3 and 4 of
 * the stripped line are taken before the `try`, the unstripped line is
 * classified, the handlers are called with the path and action, and the
 * ack is scheduled; a handler exception is logged and re-raised.
 */
module QueueConsumer {
  import opened PyStr
  import opened QueueHandler
  import opened LinePatterns

  function CallbackOutcome(body: string, tag: nat, failing: set<Handler>): Outcome
  {
    var splitLine := Split(Strip(body), ':');
    if |splitLine| < 5 then Outcome([], true)
    else
      var p := PathAndAction(splitLine[3], splitLine[4]);
      LogAndRaise(AndThen(Route(Classify(body), p, failing), Acknowledged(tag)))
  }

  method Callback(log: EffectLog, body: string, tag: nat, failing: set<Handler>) returns (raised: bool)
    modifies log
    ensures log.effects == old(log.effects) + CallbackOutcome(body, tag, failing).effects
    ensures raised == CallbackOutcome(body, tag, failing).raised
  {
    var splitLine := Split(Strip(body), ':');
    if |splitLine| < 5 {
      // IndexError before the `try`
      return true;
    }
    var p := PathAndAction(splitLine[3], splitLine[4]);
    ghost var start := log.effects;
    ghost var routed := Route(Classify(body), p, failing);
    raised := RouteLine(log, body, p, failing);
    if raised {
      log.LogError();
      AppendEffects(start, routed.effects, [LogError]);
      return true;
    }
    log.AcknowledgeMessage(tag);
    AppendEffects(start, routed.effects, [ScheduleAck(tag)]);
  }

  /** A line with fewer than five fields raises before anything happens: no handler, no ack. */
  lemma ShortLineUnacked(body: string, tag: nat, failing: set<Handler>)
    requires Count(Strip(body), ':') < 4
    ensures CallbackOutcome(body, tag, failing) == Outcome([], true)
  {
    SplitLength(Strip(body), ':');
  }

  /**
   * Every line with five fields is acked exactly once unless a handler
   * raises, and then not at all; a line matching no pattern is acked with no
   * handler call.
   */
  lemma AckedOnceUnlessRaised(body: string, tag: nat, failing: set<Handler>)
    ensures var o := CallbackOutcome(body, tag, failing);
      AckCount(o.effects) == if o.raised then 0 else 1
    ensures Classify(body) == Unmatched && Count(Strip(body), ':') >= 4 ==>
      CallbackOutcome(body, tag, failing) == Outcome([ScheduleAck(tag)], false)
  {
    SplitLength(Strip(body), ':');
    var splitLine := Split(Strip(body), ':');
    if |splitLine| >= 5 {
      var r := Route(Classify(body), PathAndAction(splitLine[3], splitLine[4]), failing);
      RouteCounts(Classify(body), PathAndAction(splitLine[3], splitLine[4]), failing);
      AckAfterRouting(r, tag);
    }
  }
}
