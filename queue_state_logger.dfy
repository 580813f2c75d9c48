/**
  The per-context throttled queue-state logger and the service client
  that observes queue states through one, with the scenarios the test
  suite drives them through. The current time is passed in as `now`.
 */
module QueueStateLogging {
  import opened Wrappers
  import opened QueueStates
  import opened Throttle
  import opened LogCapture

  /** The context label of the service client's logger. */
  const ServiceClientContext: string := "Model creation"

  /** The warning a logger emits for its context. */
  function PausedMessage(context: string): (m: string)
    ensures Contains(m, context + " is paused")
    ensures Contains(m, "request is in queue")
  {
    var lead := context + " is paused";
    var reason := "request is in queue";
    var m := lead + " because the " + reason;
    assert OccursAt(m, lead, 0) by {
      assert m == lead + (" because the " + reason);
    }
    assert OccursAt(m, reason, |lead + " because the "|);
    m
  }

  function PausedRecord(context: string): LogRecord {
    LogRecord(Warning, context, PausedMessage(context))
  }

  /** The captured text names the context of every paused warning in it as paused. */
  lemma TextMentionsPaused(records: seq<LogRecord>, k: nat, context: string)
    requires k < |records| && records[k] == PausedRecord(context)
    ensures Contains(Text(records), context + " is paused")
  {
    TextContainsMessage(records, k, context + " is paused");
  }

  /**
    Proof step: the "<context> is paused" phrases, built by concatenation,
    equal their literal spelling. Stated once here because the solver
    finds these equalities expensive inside the scenarios' larger proofs.
   */
  lemma PausedPhrases()
    ensures ServiceClientContext + " is paused" == "Model creation is paused"
    ensures "ServiceClient" + " is paused" == "ServiceClient is paused"
    ensures "TrainingClient" + " is paused" == "TrainingClient is paused"
  {
  }

  /** The captured text of the two contexts' first warnings names each context as paused. */
  lemma TwoContextsText(svcRecord: LogRecord, trainRecord: LogRecord)
    requires svcRecord == PausedRecord("ServiceClient") && trainRecord == PausedRecord("TrainingClient")
    ensures Contains(Text([svcRecord]), "ServiceClient is paused")
    ensures Contains(Text([svcRecord, trainRecord]), "TrainingClient is paused")
  {
    PausedPhrases();
    TextMentionsPaused([svcRecord], 0, "ServiceClient");
    TextMentionsPaused([svcRecord, trainRecord], 1, "TrainingClient");
  }

  /**
    A logger for one context. It owns its "last emitted" timestamp; the
    ghost `history` holds the times at which it emitted.
   */
  class QueueStateLogger {
    const contextName: string
    const window: nat
    const sink: LogSink
    var lastLoggedAt: Option<int>
    ghost var history: seq<int>

    /** No two emissions within one window; the timestamp is that of the latest emission. */
    ghost predicate Valid()
      reads this
    {
      Spaced(history, window) && lastLoggedAt == LastEmission(history)
    }

    constructor (contextName: string, sink: LogSink)
      ensures this.contextName == contextName && this.sink == sink
      ensures window == ThrottleWindowSeconds
      ensures lastLoggedAt == None && history == []
      ensures Valid()
    {
      this.contextName := contextName;
      this.sink := sink;
      window := ThrottleWindowSeconds;
      lastLoggedAt := None;
      history := [];
    }

    /**
      Emits the paused warning for `state` at time `now` when `state` is
      IN_QUEUE and the window has elapsed since the last emission, and
      then records `now`; otherwise does nothing. Only this logger and the
      sink change.
     */
    method Log(state: QueueState, now: int)
      requires Valid()
      modifies this, sink
      ensures Valid()
      ensures var d := Decide(old(lastLoggedAt), state, now, window);
        && lastLoggedAt == d.lastLoggedAt
        && history == old(history) + (if d.emit then [now] else [])
        && sink.records == old(sink.records) + (if d.emit then [PausedRecord(contextName)] else [])
    {
      if state == InQueue && WindowElapsed(lastLoggedAt, now, window) {
        sink.Emit(PausedRecord(contextName));
        lastLoggedAt := Some(now);
        history := history + [now];
      }
    }
  }

  /** The service client as a queue-state observer: it forwards every notification to its own logger. */
  class ServiceClient {
    const queueStateLogger: QueueStateLogger

    ghost predicate Valid()
      reads this, queueStateLogger
    {
      queueStateLogger.contextName == ServiceClientContext && queueStateLogger.Valid()
    }

    constructor (sink: LogSink)
      ensures fresh(queueStateLogger)
      ensures queueStateLogger.contextName == ServiceClientContext && queueStateLogger.sink == sink
      ensures queueStateLogger.window == ThrottleWindowSeconds
      ensures queueStateLogger.lastLoggedAt == None && queueStateLogger.history == []
      ensures Valid()
    {
      queueStateLogger := new QueueStateLogger(ServiceClientContext, sink);
    }

    method OnQueueStateChange(state: QueueState, now: int)
      requires Valid()
      modifies queueStateLogger, queueStateLogger.sink
      ensures Valid()
      ensures var d := Decide(old(queueStateLogger.lastLoggedAt), state, now, queueStateLogger.window);
        && queueStateLogger.lastLoggedAt == d.lastLoggedAt
        && queueStateLogger.history == old(queueStateLogger.history) + (if d.emit then [now] else [])
        && queueStateLogger.sink.records == old(queueStateLogger.sink.records)
             + (if d.emit then [PausedRecord(ServiceClientContext)] else [])
    {
      queueStateLogger.Log(state, now);
    }
  }

  /**
    A new service client notified of IN_QUEUE at each of the given times,
    none a full window or more after the first, emits exactly one warning, and
    it says that model creation is paused because the request is in queue.
   */
  method RepeatedQueueNotifications(times: seq<int>) returns (records: seq<LogRecord>)
    requires |times| >= 1
    requires forall i :: 0 <= i < |times| ==> times[i] < times[0] + ThrottleWindowSeconds
    ensures |records| == 1 && |Warnings(records)| == 1
    ensures Contains(Warnings(records)[0].message, "Model creation is paused")
    ensures Contains(Warnings(records)[0].message, "request is in queue")
  {
    var sink := new LogSink();
    var client := new ServiceClient(sink);
    var logger := client.queueStateLogger;
    PausedPhrases();
    for i := 0 to |times|
      invariant client.Valid() && logger.sink == sink && logger.window == ThrottleWindowSeconds
      invariant logger.history == Replay(None, InQueueCalls(times[..i]), ThrottleWindowSeconds).emitted
      invariant logger.lastLoggedAt == Replay(None, InQueueCalls(times[..i]), ThrottleWindowSeconds).lastLoggedAt
      invariant |sink.records| == |logger.history|
      invariant forall r :: r in sink.records ==> r == PausedRecord(ServiceClientContext)
    {
      client.OnQueueStateChange(InQueue, times[i]);
      assert InQueueCalls(times[..i + 1])[..i] == InQueueCalls(times[..i]);
    }
    assert times[..|times|] == times;
    OnlyFirstInWindowEmits(InQueueCalls(times), ThrottleWindowSeconds);
    records := sink.records;
    AllWarningsKept(records);
  }

  /**
    Two loggers with different contexts sharing one sink: each emits on its
    first IN_QUEUE although the other has just emitted, and after the sink
    is cleared a second IN_QUEUE on each, inside the window, emits nothing.
   */
  method IsolatedContexts(t1: int, t2: int, t3: int, t4: int)
    returns (afterFirst: seq<LogRecord>, afterSecond: seq<LogRecord>, afterRepeat: seq<LogRecord>)
    requires t1 <= t2 <= t3 <= t4 < t1 + ThrottleWindowSeconds
    ensures afterFirst == [PausedRecord("ServiceClient")]
    ensures afterSecond == afterFirst + [PausedRecord("TrainingClient")]
    ensures Contains(Text(afterFirst), "ServiceClient is paused")
    ensures Contains(Text(afterSecond), "TrainingClient is paused")
    ensures afterRepeat == []
  {
    var sink := new LogSink();
    var svcLogger := new QueueStateLogger("ServiceClient", sink);
    var trainLogger := new QueueStateLogger("TrainingClient", sink);

    svcLogger.Log(InQueue, t1);
    afterFirst := sink.records;
    assert svcLogger.lastLoggedAt == Some(t1) && trainLogger.lastLoggedAt == None;

    trainLogger.Log(InQueue, t2);
    afterSecond := sink.records;
    assert svcLogger.lastLoggedAt == Some(t1) && trainLogger.lastLoggedAt == Some(t2);

    sink.Clear();
    svcLogger.Log(InQueue, t3);
    trainLogger.Log(InQueue, t4);
    afterRepeat := sink.records;
    TwoContextsText(afterFirst[0], afterSecond[1]);
  }
}
