/**
  A status error raised by the transport, the queue-state extraction the
  poller runs on it, and the test double for the transport response.

  The extraction reads only the pre-parsed `body` of the error. The
  response object it carries may already be closed, and reading it then
  raises; `ExtractQueueState` takes no response and has no `reads` clause,
  so it cannot consult one.
 */
module StatusErrors {
  import opened Wrappers
  import opened JsonValues
  import opened QueueStates

  const QueueStateKey: string := "queue_state"
  const ClosedStreamMessage: string := "Attempted to read from a closed stream"

  /** A transport response whose payload can be read only while it is open. */
  class MockResponse {
    const statusCode: int
    const jsonData: JsonValue
    var isClosed: bool

    constructor (statusCode: int, jsonData: JsonValue)
      ensures this.statusCode == statusCode && this.jsonData == jsonData
      ensures !isClosed
    {
      this.statusCode := statusCode;
      this.jsonData := jsonData;
      isClosed := false;
    }

    /** Reads the payload; raises (here: `Failure`) once the stream is closed. */
    method Json() returns (r: Result<JsonValue, string>)
      ensures isClosed ==> r == Failure(ClosedStreamMessage)
      ensures !isClosed ==> r == Success(jsonData)
    {
      if isClosed {
        r := Failure(ClosedStreamMessage);
      } else {
        r := Success(jsonData);
      }
    }

    method Close()
      modifies this
      ensures isClosed
    {
      isClosed := true;
    }
  }

  /** What the transport raises: a message, the raw response and the already-decoded body. */
  datatype StatusError = StatusError(message: string, response: MockResponse, body: JsonValue)

  /** The reference meaning of a queue signal: a mapping whose `queue_state` is exactly "in_queue". */
  predicate SignalsInQueue(body: JsonValue) {
    body.JObject? && QueueStateKey in body.fields && body.fields[QueueStateKey] == JString(InQueueSignal)
  }

  /** The mapping the lookup runs on: the body if it is a mapping, else an empty one. */
  function ResponseData(body: JsonValue): map<string, JsonValue> {
    if body.JObject? then body.fields else map[]
  }

  /**
    The queue state named by an error body. A body that is not a mapping
    counts as empty; a missing, false-like or unrecognised value yields
    `None`; only the exact string "in_queue" yields `InQueue`.
   */
  function ExtractQueueState(body: JsonValue): (r: Option<QueueState>)
    ensures r == Some(InQueue) <==> SignalsInQueue(body)
    ensures r != Some(NotQueued)
    ensures !body.JObject? ==> r == None
  {
    var data := ResponseData(body);
    if QueueStateKey in data && Truthy(data[QueueStateKey]) then
      if data[QueueStateKey] == JString(InQueueSignal) then Some(InQueue) else None
    else
      None
  }

  /** An observer that records every notification it receives, in order. */
  class RecordingObserver {
    var calls: seq<QueueState>

    constructor ()
      ensures calls == []
    {
      calls := [];
    }

    method OnQueueStateChange(state: QueueState)
      modifies this
      ensures calls == old(calls) + [state]
    {
      calls := calls + [state];
    }
  }

  /**
    The poller's handling of a transient status error: notify the observer
    once with `InQueue` when the body signals it, and not at all otherwise.
    It changes nothing but the observer and asks nothing of the response.
   */
  method HandleStatusError(err: StatusError, observer: RecordingObserver)
    modifies observer
    ensures observer.calls == old(observer.calls) + (if SignalsInQueue(err.body) then [InQueue] else [])
  {
    var state := ExtractQueueState(err.body);
    if state == Some(InQueue) {
      observer.OnQueueStateChange(InQueue);
    }
  }

  /**
    A 408 error whose response is already closed, with the body
    {"queue_state": "in_queue", "type": "try_again"}: the observer is
    notified exactly once with `InQueue`, although reading the response
    itself would raise.
   */
  method ClosedStreamScenario() returns (notified: seq<QueueState>, streamRead: Result<JsonValue, string>)
    ensures notified == [InQueue]
    ensures streamRead == Failure(ClosedStreamMessage)
  {
    var response := new MockResponse(408, JObject(map[QueueStateKey := JString(InQueueSignal)]));
    response.Close();
    var body := JObject(map[QueueStateKey := JString(InQueueSignal), "type" := JString("try_again")]);
    var err := StatusError("Request Timeout", response, body);
    var observer := new RecordingObserver();
    HandleStatusError(err, observer);
    notified := observer.calls;
    streamRead := response.Json();
  }
}
