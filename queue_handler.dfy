/**
 * The consumer base (`QueueHandler`): the effects a message callback has,
 * acknowledgement through the connection, and the reconnect loop `run`.
 */
module QueueHandler {
  import opened IngestMessages

  /** The update handlers a consumer can hand a message to. */
  datatype Handler = FbsHandler | DirectoryHandler | FacetScanner

  /** What a handler receives: a decoded message, or a path and action taken from the raw line. */
  datatype Payload = Message(m: IngestMessage) | PathAndAction(filepath: string, action: string)

  /** One observable effect of a callback, in the order it happens. */
  datatype Effect =
    | Invoke(handler: Handler, payload: Payload)
      // `add_callback_threadsafe(partial(_acknowledge_message, ch, tag))`
    | ScheduleAck(deliveryTag: nat)
    | Publish(exchange: string, routingKey: string, body: string)
    | LogError
    | Print(text: string)

  /** The effects of a callback and whether an exception escaped it. */
  datatype Outcome = Outcome(effects: seq<Effect>, raised: bool)

  /** Invoking a handler, which raises when it is one of `failing`. */
  function Call(h: Handler, p: Payload, failing: set<Handler>): Outcome
  {
    Outcome([Invoke(h, p)], h in failing)
  }

  /** Running `b` after `a`, unless `a` raised. */
  function AndThen(a: Outcome, b: Outcome): (r: Outcome)
    ensures a.raised ==> r == a
    ensures !a.raised ==> r.effects == a.effects + b.effects && r.raised == b.raised
  {
    if a.raised then a else Outcome(a.effects + b.effects, b.raised)
  }

  /** `except Exception: logger.error(...); raise`. */
  function LogAndRaise(o: Outcome): Outcome
  {
    if o.raised then Outcome(o.effects + [LogError], true) else o
  }

  /** `except Exception: logger.error(...)`, with nothing re-raised. */
  function LogAndSwallow(o: Outcome): Outcome
  {
    if o.raised then Outcome(o.effects + [LogError], false) else o
  }

  /** `acknowledge_message`: the ack is only scheduled on the connection's own thread. */
  function Acknowledged(tag: nat): Outcome
  {
    Outcome([ScheduleAck(tag)], false)
  }

  const Nothing := Outcome([], false)

  function AckCount(effects: seq<Effect>): nat
  {
    if effects == [] then 0 else (if effects[0].ScheduleAck? then 1 else 0) + AckCount(effects[1..])
  }

  /** The handlers invoked, in order. */
  function Invoked(effects: seq<Effect>): seq<Handler>
  {
    if effects == [] then []
    else (if effects[0].Invoke? then [effects[0].handler] else []) + Invoked(effects[1..])
  }

  lemma CountsSingle(e: Effect)
    ensures AckCount([e]) == if e.ScheduleAck? then 1 else 0
    ensures Invoked([e]) == if e.Invoke? then [e.handler] else []
  {
    assert [e][1..] == [];
  }

  lemma {:induction false} CountsAppend(a: seq<Effect>, b: seq<Effect>)
    ensures AckCount(a + b) == AckCount(a) + AckCount(b)
    ensures Invoked(a + b) == Invoked(a) + Invoked(b)
  {
    if a != [] {
      assert (a + b)[1..] == a[1..] + b;
      CountsAppend(a[1..], b);
    } else {
      assert a + b == b;
    }
  }

  /** Two batches appended to a log one after the other are the log followed by both. */
  lemma AppendEffects(log: seq<Effect>, a: seq<Effect>, b: seq<Effect>)
    ensures log + a + b == log + (a + b)
  {
  }

  /**
   * Acking after a routing that acks nothing itself: re-raising, the ack is
   * scheduled exactly when the routing did not raise; swallowing, nothing
   * escapes and the last effect is the logged error or the ack.
   */
  lemma AckAfterRouting(r: Outcome, tag: nat)
    requires AckCount(r.effects) == 0
    ensures var o := LogAndRaise(AndThen(r, Acknowledged(tag)));
      o.raised == r.raised && AckCount(o.effects) == (if o.raised then 0 else 1)
    ensures var o := LogAndSwallow(AndThen(r, Acknowledged(tag)));
      && !o.raised
      && AckCount(o.effects) == (if r.raised then 0 else 1)
      && o.effects[|o.effects| - 1] == (if r.raised then LogError else ScheduleAck(tag))
  {
    CountsSingle(ScheduleAck(tag));
    CountsSingle(LogError);
    CountsAppend(r.effects, [ScheduleAck(tag)]);
    CountsAppend(r.effects, [LogError]);
  }

  /** The effects of the callback being run, as the consumer produces them. */
  class EffectLog {
    var effects: seq<Effect>

    constructor ()
      ensures effects == []
    {
      effects := [];
    }

    /** `acknowledge_message(ch, delivery_tag, connection)`. */
    method AcknowledgeMessage(tag: nat)
      modifies this
      ensures effects == old(effects) + [ScheduleAck(tag)]
    {
      effects := effects + [ScheduleAck(tag)];
    }

    /** `handler.process_event(...)`; reports whether the handler raised. */
    method Process(h: Handler, p: Payload, failing: set<Handler>) returns (raised: bool)
      modifies this
      ensures effects == old(effects) + [Invoke(h, p)]
      ensures raised == (h in failing)
    {
      effects := effects + [Invoke(h, p)];
      raised := h in failing;
    }

    /** `logger.error(...)` inside an exception handler. */
    method LogError()
      modifies this
      ensures effects == old(effects) + [Effect.LogError]
    {
      effects := effects + [Effect.LogError];
    }

    method Publish(exchange: string, routingKey: string, body: string)
      modifies this
      ensures effects == old(effects) + [Effect.Publish(exchange, routingKey, body)]
    {
      effects := effects + [Effect.Publish(exchange, routingKey, body)];
    }

    method Print(text: string)
      modifies this
      ensures effects == old(effects) + [Effect.Print(text)]
    {
      effects := effects + [Effect.Print(text)];
    }
  }

  /** A channel: `_acknowledge_message` acks only while it is open. */
  class Channel {
    var isOpen: bool
    var acked: seq<nat>

    constructor (isOpen: bool)
      ensures this.isOpen == isOpen && acked == []
    {
      this.isOpen := isOpen;
      acked := [];
    }

    /** `_acknowledge_message(channel, delivery_tag)`, run on the connection's thread. */
    method AcknowledgeNow(tag: nat)
      modifies this
      ensures isOpen == old(isOpen)
      ensures acked == if isOpen then old(acked) + [tag] else old(acked)
    {
      if isOpen {
        acked := acked + [tag];
      }
    }
  }

  /**
   * How one `start_consuming` session ended: a lost stream, a normal return
   * (the loop body falls through), an interrupt, or any other exception.
   */
  datatype SessionEnd = StreamLost | Returned | KeyboardInterrupt | OtherError

  /** The session endings after which `while True` goes round again. */
  predicate Continues(e: SessionEnd) {
    e == StreamLost || e == Returned
  }

  datatype RunEvent = Connect | LogReconnect | LogCritical | StopConsuming

  /** The events of one pass of the `while True` loop. */
  function SessionEvents(e: SessionEnd): seq<RunEvent>
  {
    match e
    case StreamLost => [Connect, LogReconnect]
    case Returned => [Connect]
    case KeyboardInterrupt => [Connect, StopConsuming]
    case OtherError => [Connect, LogCritical, StopConsuming]
  }

  /** The events of `run` over a sequence of session endings: it goes on only after a lost stream or a normal return. */
  function RunEvents(ends: seq<SessionEnd>): seq<RunEvent>
  {
    if ends == [] then []
    else SessionEvents(ends[0]) + (if Continues(ends[0]) then RunEvents(ends[1..]) else [])
  }

  /** The index of the first session after which the loop does not go round again, or |ends|. */
  function FirstStop(ends: seq<SessionEnd>): (k: nat)
    ensures k <= |ends|
    ensures forall i :: 0 <= i < k ==> Continues(ends[i])
    ensures k < |ends| ==> !Continues(ends[k])
  {
    if ends == [] || !Continues(ends[0]) then 0 else 1 + FirstStop(ends[1..])
  }

  function ConnectCount(events: seq<RunEvent>): nat
  {
    if events == [] then 0 else (if events[0] == Connect then 1 else 0) + ConnectCount(events[1..])
  }

  /**
   * `run`: connect and consume; a lost stream is logged and reconnects, a
   * normal return of `start_consuming` reconnects silently, an interrupt or
   * any other exception stops consuming and leaves the loop. The model runs
   * over the session endings supplied; when every one of them continues the
   * worker is still running at the end of them.
   */
  method Run(ends: seq<SessionEnd>) returns (events: seq<RunEvent>, stopped: bool)
    ensures events == RunEvents(ends)
    ensures stopped <==> exists i :: 0 <= i < |ends| && !Continues(ends[i])
    ensures stopped ==> events[|events| - 1] == StopConsuming
  {
    events := [];
    stopped := false;
    var i := 0;
    while i < |ends|
      invariant 0 <= i <= |ends|
      invariant forall k :: 0 <= k < i ==> Continues(ends[k])
      invariant events + RunEvents(ends[i..]) == RunEvents(ends)
    {
      assert ends[i..][1..] == ends[i + 1..];
      ghost var goesOn := if Continues(ends[i]) then RunEvents(ends[i + 1..]) else [];
      assert RunEvents(ends[i..]) == SessionEvents(ends[i]) + goesOn;
      RunEventsRegroup(events, SessionEvents(ends[i]), goesOn);
      match ends[i] {
        case KeyboardInterrupt =>
          events := events + [Connect, StopConsuming];
          stopped := true;
          return;
        case StreamLost =>
          events := events + [Connect, LogReconnect];
        case Returned =>
          events := events + [Connect];
        case OtherError =>
          events := events + [Connect, LogCritical, StopConsuming];
          stopped := true;
          return;
      }
      i := i + 1;
    }
  }

  lemma RunEventsRegroup(a: seq<RunEvent>, b: seq<RunEvent>, c: seq<RunEvent>)
    ensures a + (b + c) == a + b + c
    ensures a + b + [] == a + b
  {
  }

  lemma {:induction false} ConnectCountAppend(a: seq<RunEvent>, b: seq<RunEvent>)
    ensures ConnectCount(a + b) == ConnectCount(a) + ConnectCount(b)
  {
    if a != [] {
      assert (a + b)[1..] == a[1..] + b;
      ConnectCountAppend(a[1..], b);
    } else {
      assert a + b == b;
    }
  }

  lemma SessionConnectsOnce(e: SessionEnd)
    ensures ConnectCount(SessionEvents(e)) == 1
  {
    var ev := SessionEvents(e);
    var tail := ev[1..];
    match e {
      case OtherError =>
        assert tail[1..] == [StopConsuming];
        assert tail[1..][1..] == [];
        assert ConnectCount(tail[1..]) == 0;
        assert ConnectCount(tail) == 0;
      case Returned =>
        assert tail == [];
      case _ =>
        assert |tail| == 1 && tail[0] != Connect;
        assert tail[1..] == [];
        assert ConnectCount(tail) == 0;
    }
  }

  /**
   * `run` connects once per session up to and including the first session
   * that did not end with a lost stream, and never again after it.
   */
  lemma {:induction false} RunConnectsUntilFirstStop(ends: seq<SessionEnd>)
    ensures ConnectCount(RunEvents(ends)) == if FirstStop(ends) < |ends| then FirstStop(ends) + 1 else |ends|
  {
    if ends != [] {
      var first := SessionEvents(ends[0]);
      SessionConnectsOnce(ends[0]);
      RunConnectsUntilFirstStop(ends[1..]);
      ConnectCountAppend(first, if Continues(ends[0]) then RunEvents(ends[1..]) else []);
    }
  }
}
