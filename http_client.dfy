/** The HTTP client actor: a registry of in-flight tasks keyed by request id,
    where a call either joins the task already running for its id or starts and
    registers a new one, and every way a task can end clears its slot.

    The actor's methods run one at a time, so the registry is modelled as a
    sequential state machine: `Execute` is the check-and-register step, and
    `Complete` is the body of the task once the network has answered. */
module Http {
  import opened Wrappers
  import opened Foundation

  /** The HTTP verbs an endpoint can use; each raw value is the case name. */
  datatype HTTPMethod = DELETE | GET | PATCH | POST | PUT

  function RawValue(m: HTTPMethod): (r: string)
    ensures 3 <= |r| <= 6
    ensures forall i :: 0 <= i < |r| ==> 'A' <= r[i] <= 'Z'
  {
    match m
    case DELETE => "DELETE"
    case GET => "GET"
    case PATCH => "PATCH"
    case POST => "POST"
    case PUT => "PUT"
  }

  /** `HTTPMethod(rawValue:)`, the failable initialiser of a String-backed enum. */
  function ParseMethod(s: string): (r: Option<HTTPMethod>)
    ensures forall m :: r == Some(m) <==> RawValue(m) == s
  {
    if s == "DELETE" then Some(DELETE)
    else if s == "GET" then Some(GET)
    else if s == "PATCH" then Some(PATCH)
    else if s == "POST" then Some(POST)
    else if s == "PUT" then Some(PUT)
    else None
  }

  /** The `Response` type an endpoint decodes into, as a tag. */
  datatype ResponseType = ModelResponse | CompletionsResponse | CreateImageResponse

  /** The value of type `responseType` decoded from `data`. */
  datatype Value = Value(responseType: ResponseType, data: Bytes)

  /** What the network does with one request: the cancellation check throws,
      the session throws, or a response arrives. `status` is None when the
      response is not an HTTP response. */
  datatype Event = Cancelled | TransportFailed | Responded(status: Option<int>, data: Bytes)

  /** What the task body throws before it is classified: `CancellationError`,
      a transport error from the session, `HTTPError.badResponse`, or a
      `DecodingError` from the decoder. */
  datatype Thrown = CancellationError | TransportError | BadResponse(status: Option<int>) | DecodingError

  /** The errors a task ends with. `badResponse` only ever reaches callers
      wrapped in `requestFailed`. */
  datatype HTTPError =
    | FailedDecoding
    | RequestFailed(cause: Thrown)
    | TypeCastFailed(expected: ResponseType, actual: ResponseType)

  /** The `switch` of the task's catch block. */
  function Classify(e: Thrown): (r: HTTPError)
    ensures r == FailedDecoding <==> e == DecodingError
    ensures r != FailedDecoding ==> r == RequestFailed(e)
  {
    match e
    case DecodingError => FailedDecoding
    case _ => RequestFailed(e)
  }

  predicate IsBadStatus(event: Event)
  {
    event.Responded? && event.status != Some(200)
  }

  /** The outcome a task for `responseType` ends with when the network does
      `event`; `decodes` says whether the bytes decode as the given type. */
  function Outcome(responseType: ResponseType, event: Event, decodes: (ResponseType, Bytes) -> bool): (r: Result<Value, HTTPError>)
    ensures r.Success? <==> event.Responded? && event.status == Some(200) && decodes(responseType, event.data)
    ensures r.Success? ==> r.value == Value(responseType, event.data)
    ensures r == Failure(FailedDecoding) <==> event.Responded? && event.status == Some(200) && !decodes(responseType, event.data)
    ensures IsBadStatus(event) ==> r == Failure(RequestFailed(BadResponse(event.status)))
    ensures event.Cancelled? ==> r == Failure(RequestFailed(CancellationError))
    ensures event.TransportFailed? ==> r == Failure(RequestFailed(TransportError))
  {
    match event
    case Cancelled => Failure(Classify(CancellationError))
    case TransportFailed => Failure(Classify(TransportError))
    case Responded(status, data) =>
      if status != Some(200) then Failure(Classify(BadResponse(status)))
      else if decodes(responseType, data) then Success(Value(responseType, data))
      else Failure(Classify(DecodingError))
  }

  /** Only status 200 reaches the decoder: for any other status the outcome
      is the same whatever the decoder would have said. */
  lemma StatusOtherThan200NeverDecodes(responseType: ResponseType, status: Option<int>, data: Bytes,
                                       decodes: (ResponseType, Bytes) -> bool, decodes': (ResponseType, Bytes) -> bool)
    requires status != Some(200)
    ensures Outcome(responseType, Responded(status, data), decodes) == Outcome(responseType, Responded(status, data), decodes')
    ensures Outcome(responseType, Responded(status, data), decodes).Failure?
  {
  }

  /** A `Task<Response?, Error>`: the shared future that every caller with
      the same request id awaits. `result` is None while it runs. */
  class Task {
    const id: string
    const responseType: ResponseType
    var result: Option<Result<Value, HTTPError>>

    constructor (id: string, responseType: ResponseType)
      ensures this.id == id && this.responseType == responseType && result == None
    {
      this.id := id;
      this.responseType := responseType;
      result := None;
    }

    /** `try await task.value as? T` for a caller expecting `expected`: the
        task's error is rethrown, and a value of another type is a failed cast. */
    function Await(expected: ResponseType): (r: Result<Value, HTTPError>)
      reads this
      requires result.Some?
      ensures result.value.Failure? ==> r == result.value
      ensures result.value.Success? && result.value.value.responseType == expected ==> r == result.value
      ensures result.value.Success? && result.value.value.responseType != expected ==>
                r == Failure(TypeCastFailed(expected, result.value.value.responseType))
    {
      match result.value
      case Failure(e) => Failure(e)
      case Success(v) => if v.responseType == expected then Success(v) else Failure(TypeCastFailed(expected, v.responseType))
    }
  }

  class HTTPClient {
    var activeTasks: map<string, Task>
    var failedTasks: map<string, Task>

    /** Every active task is registered under its own id and is still running. */
    ghost predicate Valid()
      reads this, activeTasks.Values
    {
      forall id | id in activeTasks :: activeTasks[id].id == id && activeTasks[id].result.None?
    }

    constructor ()
      ensures Valid() && activeTasks == map[] && failedTasks == map[]
    {
      activeTasks := map[];
      failedTasks := map[];
    }

    /** The request's id is its textual description. */
    static function Id(request: URLRequest, describe: URLRequest -> string): string
    {
      describe(request)
    }

    method AddActiveTask(id: string, task: Task)
      modifies this
      ensures activeTasks == old(activeTasks)[id := task]
      ensures failedTasks == old(failedTasks)
    {
      activeTasks := activeTasks[id := task];
    }

    /** Returns the entry under `id`, if any, and deletes the key. */
    method RemoveActiveTask(id: string) returns (task: Option<Task>)
      modifies this
      ensures task == if id in old(activeTasks) then Some(old(activeTasks)[id]) else None
      ensures activeTasks == old(activeTasks) - {id}
      ensures failedTasks == old(failedTasks)
    {
      task := if id in activeTasks then Some(activeTasks[id]) else None;
      activeTasks := activeTasks - {id};
    }

    /** `failedTasks[id] = task`: storing nil deletes the key. */
    method AddFailedTask(id: string, task: Option<Task>)
      modifies this
      ensures failedTasks == if task.Some? then old(failedTasks)[id := task.value] else old(failedTasks) - {id}
      ensures activeTasks == old(activeTasks)
    {
      if task.Some? {
        failedTasks := failedTasks[id := task.value];
      } else {
        failedTasks := failedTasks - {id};
      }
    }

    method RemoveFailedTask(id: string) returns (task: Option<Task>)
      modifies this
      ensures task == if id in old(failedTasks) then Some(old(failedTasks)[id]) else None
      ensures failedTasks == old(failedTasks) - {id}
      ensures activeTasks == old(activeTasks)
    {
      task := if id in failedTasks then Some(failedTasks[id]) else None;
      failedTasks := failedTasks - {id};
    }

    /** The registry part of `execute(request:model:)`: join the task already
        active under the request's id, or create a task and register it. */
    method Execute(request: URLRequest, describe: URLRequest -> string, responseType: ResponseType)
      returns (task: Task, joined: bool)
      requires Valid()
      modifies this
      ensures Valid()
      ensures joined <==> Id(request, describe) in old(activeTasks)
      ensures joined ==> task == old(activeTasks)[Id(request, describe)] && activeTasks == old(activeTasks)
      ensures !joined ==> fresh(task) && task.id == Id(request, describe) && task.responseType == responseType
                          && task.result == None && activeTasks == old(activeTasks)[Id(request, describe) := task]
      ensures failedTasks == old(failedTasks)
    {
      var id := Id(request, describe);
      if id in activeTasks {
        return activeTasks[id], true;
      }
      task := new Task(id, responseType);
      AddActiveTask(id, task);
      joined := false;
    }

    /** The body of a task once the network has done `event`: only status 200
        is decoded; every way out removes the id from `activeTasks`; a decode
        or transport failure moves the removed task into `failedTasks`, while
        on a bad status the task was already removed, so nil is stored and the
        id leaves `failedTasks`. */
    method Complete(task: Task, event: Event, decodes: (ResponseType, Bytes) -> bool)
      returns (outcome: Result<Value, HTTPError>)
      requires Valid() && task.id in activeTasks && activeTasks[task.id] == task
      modifies this, task
      ensures Valid()
      ensures outcome == Outcome(task.responseType, event, decodes) && task.result == Some(outcome)
      ensures activeTasks == old(activeTasks) - {task.id}
      ensures outcome.Success? ==> failedTasks == old(failedTasks)
      ensures IsBadStatus(event) ==> failedTasks == old(failedTasks) - {task.id}
      ensures outcome.Failure? && !IsBadStatus(event) ==> failedTasks == old(failedTasks)[task.id := task]
    {
      var id := task.id;
      var thrown: Thrown;
      match event {
        case Cancelled =>
          thrown := CancellationError;
        case TransportFailed =>
          thrown := TransportError;
        case Responded(status, data) =>
          if status != Some(200) {
            var _ := RemoveActiveTask(id);
            thrown := BadResponse(status);
          } else if decodes(task.responseType, data) {
            var _ := RemoveActiveTask(id);
            outcome := Success(Value(task.responseType, data));
            task.result := Some(outcome);
            return;
          } else {
            thrown := DecodingError;
          }
      }
      // the catch block
      var removed := RemoveActiveTask(id);
      AddFailedTask(id, removed);
      outcome := Failure(Classify(thrown));
      task.result := Some(outcome);
    }
  }

  /** Two requests whose descriptions agree share one id, so while the first
      is in flight the second joins it, whatever else differs between them. */
  method SameDescriptionJoins(client: HTTPClient, first: URLRequest, second: URLRequest,
                              describe: URLRequest -> string, responseType: ResponseType)
    returns (firstTask: Task, secondTask: Task, secondJoined: bool)
    requires client.Valid() && describe(first) == describe(second)
    modifies client
    ensures client.Valid()
    ensures secondJoined && secondTask == firstTask
    ensures firstTask.id == describe(second) && firstTask.result == None
  {
    var joined;
    firstTask, joined := client.Execute(first, describe, responseType);
    secondTask, secondJoined := client.Execute(second, describe, responseType);
  }

  /** Two calls with the same id start at most one network operation and both
      see its outcome: one task is started exactly when none was in flight for
      the id, and then both callers get that task's outcome. Once it has ended,
      whether it succeeded or failed, the id is free and a third call with it
      starts a new task; the other ids in flight are untouched. */
  method CoalescedCalls(client: HTTPClient, request: URLRequest, describe: URLRequest -> string,
                        responseType: ResponseType, event: Event, decodes: (ResponseType, Bytes) -> bool)
    returns (first: Result<Value, HTTPError>, second: Result<Value, HTTPError>, tasksStarted: nat, thirdJoined: bool)
    requires client.Valid()
    modifies client, client.activeTasks.Values
    ensures client.Valid()
    ensures tasksStarted == (if describe(request) in old(client.activeTasks) then 0 else 1)
    ensures second == first
    ensures describe(request) !in old(client.activeTasks) ==> first == Outcome(responseType, event, decodes)
    ensures !thirdJoined
    ensures forall id :: id != describe(request) ==>
              (id in client.activeTasks <==> id in old(client.activeTasks))
  {
    var t1, joined1 := client.Execute(request, describe, responseType);
    var t2, joined2 := client.Execute(request, describe, responseType);
    tasksStarted := (if joined1 then 0 else 1) + (if joined2 then 0 else 1);
    var _ := client.Complete(t1, event, decodes);
    first := t1.Await(responseType);
    second := t2.Await(responseType);
    var t3, joined3 := client.Execute(request, describe, responseType);
    thirdJoined := joined3;
  }
}
