/** The `POST` handler of the orchestrator endpoint as a function of the table
    it starts from, the request body and what each collaborator does: the try
    block, the catch block, and the whole request. */
module Pipeline {
  import opened Wrappers
  import opened Tasks

  const PromptRequired := "Prompt is required"
  const InternalError := "An internal server error occurred."
  const InsertFailedMessage := "Failed to log task to database."
  const UpdateFailedMessage := "AI processing complete, but failed to update log."
  const UnknownErrorMessage := "An unknown error occurred."

  /** A value thrown inside the try block: an `Error` instance, which carries a
      message, or any other value. */
  datatype Exception = ErrorInstance(message: string) | NonErrorValue

  /** The request body: parsing it threw, or it parsed and its `prompt` field is
      absent or a string. */
  datatype Body = Malformed(exc: Exception) | Parsed(prompt: Option<string>)

  /** What the completion provider does for a prompt: it answers with the first
      choice's message content, which can be null, or it throws. */
  datatype Completion = Answer(content: Option<string>) | Failure(exc: Exception)

  /** What the collaborators do during one request: the insert, the provider,
      the success update and the compensating update. */
  datatype Env = Env(
    insert: InsertOutcome,
    complete: string -> Completion,
    update: Write,
    compensate: Write)

  /** A call the handler makes to a collaborator, in the order it makes them. */
  datatype Call = InsertTask(prompt: string) | CallProvider(prompt: string) | UpdateTask(id: Id, patch: Patch)

  /** The JSON reply with its HTTP status. */
  datatype Response =
    | Ok200(taskId: Id, response: Option<string>)
    | Bad400(error: string)
    | Err500(error: string, details: string)
  {
    function Code(): nat {
      match this
      case Ok200(_, _) => 200
      case Bad400(_) => 400
      case Err500(_, _) => 500
    }
  }

  /** The table after the request, the calls made, and the reply. */
  datatype Outcome = Outcome(store: Store, calls: seq<Call>, response: Response)

  /** How the try block ends: it returns a reply, or it throws with the table
      reached so far, the value of `taskId` and the calls made until then. */
  datatype TryEnd =
    | Returned(outcome: Outcome)
    | Raised(store: Store, taskId: Option<Id>, calls: seq<Call>, exc: Exception)

  /** JavaScript truthiness of the `prompt` field. */
  predicate Truthy(prompt: Option<string>) {
    prompt.Some? && prompt.value != ""
  }

  /** The prompt passes the `!prompt` check. */
  predicate Accepted(body: Body) {
    body.Parsed? && Truthy(body.prompt)
  }

  /** A task row was created, so `taskId` is set. */
  predicate Recorded(body: Body, env: Env) {
    Accepted(body) && env.insert.InsertOk?
  }

  /** The message the catch block reports for a thrown value. */
  function MessageOf(e: Exception): string {
    match e
    case ErrorInstance(m) => m
    case NonErrorValue => UnknownErrorMessage
  }

  /** The try block: validation, insert, provider call, success update. */
  function Try(s: Store, body: Body, env: Env): (t: TryEnd)
    requires s.Valid()
    ensures t.Returned? ==> t.outcome.response.Ok200? || t.outcome.response.Bad400?
    ensures t.Returned? && t.outcome.response.Bad400? ==> t.outcome == Outcome(s, [], Bad400(PromptRequired))
    ensures t.Returned? ==> t.outcome.store.Valid()
    ensures t.Raised? ==> t.store.Valid()
    ensures s.WellFormed() ==> if t.Returned? then t.outcome.store.WellFormed() else t.store.WellFormed()
    ensures t.Raised? && t.taskId.None? ==> t.store == s && forall c | c in t.calls :: !c.UpdateTask?
    ensures t.Raised? ==> (t.taskId.Some? <==> Recorded(body, env))
    ensures t.Raised? && t.taskId.Some? ==>
      && t.taskId == Some(s.nextId)
      && t.store.tasks == s.tasks[s.nextId := NewTask(body.prompt.value)]
      && t.store.nextId == s.nextId + 1
  {
    match body
    case Malformed(e) => Raised(s, None, [], e)
    case Parsed(prompt) =>
      if !Truthy(prompt) then
        Returned(Outcome(s, [], Bad400(PromptRequired)))
      else
        var p := prompt.value;
        var (s1, taskId) := Inserted(s, p, env.insert);
        if taskId.None? then
          Raised(s1, None, [InsertTask(p)], ErrorInstance(InsertFailedMessage))
        else
          var id := taskId.value;
          var calls := [InsertTask(p), CallProvider(p)];
          match env.complete(p)
          case Failure(e) => Raised(s1, taskId, calls, e)
          case Answer(aiResponse) =>
            var s2 := Updated(s1, id, MarkCompleted(aiResponse), env.update);
            var calls' := calls + [UpdateTask(id, MarkCompleted(aiResponse))];
            if env.update.WriteFailed? then
              Raised(s2, taskId, calls', ErrorInstance(UpdateFailedMessage))
            else
              Returned(Outcome(s2, calls', Ok200(id, aiResponse)))
  }

  /** The catch block: pick the message, make the compensating update when
      `taskId` is set, and reply 500 with that message whatever the update did. */
  function Catch(s: Store, taskId: Option<Id>, exc: Exception, compensate: Write): (o: Outcome)
    ensures o.response.Err500? && o.response.error == InternalError
    ensures exc.ErrorInstance? ==> o.response.details == exc.message
    ensures exc.NonErrorValue? ==> o.response.details == UnknownErrorMessage
    ensures taskId.None? ==> o.store == s && o.calls == []
    ensures taskId.Some? ==> o.calls == [UpdateTask(taskId.value, MarkError(o.response.details))]
    ensures o.store.nextId == s.nextId && o.store.tasks.Keys == s.tasks.Keys
    ensures s.WellFormed() && (taskId.Some? && taskId.value in s.tasks ==> s.tasks[taskId.value].status == Processing) ==>
      o.store.WellFormed()
    ensures forall k | k in s.tasks && Some(k) != taskId :: o.store.tasks[k] == s.tasks[k]
    ensures taskId.Some? && taskId.value in s.tasks ==>
      o.store.tasks[taskId.value] ==
        if compensate.Written? then Apply(s.tasks[taskId.value], MarkError(o.response.details))
        else s.tasks[taskId.value]
  {
    var errorMessage := MessageOf(exc);
    match taskId
    case None => Outcome(s, [], Err500(InternalError, errorMessage))
    case Some(id) =>
      Outcome(Updated(s, id, MarkError(errorMessage), compensate),
              [UpdateTask(id, MarkError(errorMessage))],
              Err500(InternalError, errorMessage))
  }

  /** One request handled from start to end. */
  function Submit(s: Store, body: Body, env: Env): (o: Outcome)
    requires s.Valid()
    // The table keeps its id invariant (its status invariant: SubmitKeepsStatusInvariant).
    ensures o.store.Valid()
    ensures o.response.Code() in {200, 400, 500}
    // Validation: a falsy prompt is the only 400, and it touches nothing.
    ensures o.response.Bad400? <==> body.Parsed? && !Truthy(body.prompt)
    ensures o.response.Bad400? ==> o.response.error == PromptRequired && o.store == s && o.calls == []
    ensures o.response.Err500? ==> o.response.error == InternalError
    // A body that cannot be parsed fails before any task exists.
    ensures body.Malformed? ==> o == Outcome(s, [], Err500(InternalError, MessageOf(body.exc)))
    // No row is touched, and no update is made, unless a task id exists.
    ensures !Recorded(body, env) ==> o.store == s && forall c | c in o.calls :: !c.UpdateTask?
    ensures Accepted(body) && !env.insert.InsertOk? ==>
      o.calls == [InsertTask(body.prompt.value)] && o.response == Err500(InternalError, InsertFailedMessage)
    // With a task id: exactly one new row, holding the prompt; every earlier row
    // unchanged; every update aimed at the new row only.
    ensures Recorded(body, env) ==>
      && s.nextId !in s.tasks
      && o.store.nextId == s.nextId + 1
      && o.store.tasks.Keys == s.tasks.Keys + {s.nextId}
      && o.store.tasks[s.nextId].prompt == body.prompt.value
      && (forall id | id in s.tasks :: o.store.tasks[id] == s.tasks[id])
      && (forall c | c in o.calls && c.UpdateTask? :: c.id == s.nextId)
  {
    match Try(s, body, env)
    case Returned(o) => o
    case Raised(s1, taskId, calls, exc) =>
      var c := Catch(s1, taskId, exc, env.compensate);
      Outcome(c.store, calls + c.calls, c.response)
  }

  /** One request keeps the status invariant of every row: the new row goes from
      `processing` to `completed` or to `error` and never carries both outcome columns. */
  lemma SubmitKeepsStatusInvariant(s: Store, body: Body, env: Env)
    requires s.Valid() && s.WellFormed()
    ensures Submit(s, body, env).store.WellFormed()
  {
    match Try(s, body, env)
    case Returned(_) =>
    case Raised(s1, taskId, calls, exc) =>
      assert s1.WellFormed();
  }

  /** Success: 200 exactly when the insert, the provider and the success update
      all succeed; the reply carries the new id and the provider's content
      verbatim, and the new row is completed with that content. */
  lemma SuccessPath(s: Store, body: Body, env: Env)
    requires s.Valid()
    ensures Submit(s, body, env).response.Ok200? <==>
      Recorded(body, env) && env.complete(body.prompt.value).Answer? && env.update.Written?
    ensures Submit(s, body, env).response.Ok200? ==>
      var o := Submit(s, body, env);
      var p := body.prompt.value;
      var c := env.complete(p).content;
      && o.response == Ok200(s.nextId, c)
      && o.store.tasks[s.nextId] == TaskRecord(p, Completed, Some(Payload(c)), None)
      && o.calls == [InsertTask(p), CallProvider(p), UpdateTask(s.nextId, MarkCompleted(c))]
  {
  }

  /** The provider throws after the insert: the reply's details are the thrown
      message, and the compensating update carries the same message. */
  lemma ProviderFailurePath(s: Store, body: Body, env: Env)
    requires s.Valid()
    requires Recorded(body, env) && env.complete(body.prompt.value).Failure?
    ensures
      var o := Submit(s, body, env);
      var p := body.prompt.value;
      var m := MessageOf(env.complete(p).exc);
      && o.response == Err500(InternalError, m)
      && o.calls == [InsertTask(p), CallProvider(p), UpdateTask(s.nextId, MarkError(m))]
  {
  }

  /** The success update fails: the reply reports that the log was not updated,
      and the compensating update carries that message. */
  lemma UpdateFailurePath(s: Store, body: Body, env: Env)
    requires s.Valid()
    requires Recorded(body, env) && env.complete(body.prompt.value).Answer? && env.update.WriteFailed?
    ensures
      var o := Submit(s, body, env);
      var p := body.prompt.value;
      var c := env.complete(p).content;
      && o.response == Err500(InternalError, UpdateFailedMessage)
      && o.calls == [InsertTask(p), CallProvider(p), UpdateTask(s.nextId, MarkCompleted(c)),
                     UpdateTask(s.nextId, MarkError(UpdateFailedMessage))]
  {
  }

  /** After a failure with a task id, the new row is `error` carrying the reply's
      details when the compensating update is written, and is still the
      `processing` row otherwise. */
  lemma CompensatingWrite(s: Store, body: Body, env: Env)
    requires s.Valid()
    requires Recorded(body, env) && Submit(s, body, env).response.Err500?
    ensures
      var o := Submit(s, body, env);
      o.store.tasks[s.nextId] ==
        if env.compensate.Written? then TaskRecord(body.prompt.value, Error, None, Some(o.response.details))
        else NewTask(body.prompt.value)
  {
  }

  /** The compensating update's result is ignored: the reply, the calls made and
      the other rows are the same whether or not it is written. */
  lemma CompensationIgnored(s: Store, body: Body, env: Env, w: Write)
    requires s.Valid()
    ensures Submit(s, body, env.(compensate := w)).response == Submit(s, body, env).response
    ensures Submit(s, body, env.(compensate := w)).calls == Submit(s, body, env).calls
    ensures Submit(s, body, env.(compensate := w)).store.tasks.Keys == Submit(s, body, env).store.tasks.Keys
    ensures forall id | id in s.tasks ::
      Submit(s, body, env.(compensate := w)).store.tasks[id] == Submit(s, body, env).store.tasks[id]
  {
    var env' := env.(compensate := w);
    assert Try(s, body, env') == Try(s, body, env);
    match Try(s, body, env)
    case Returned(_) =>
    case Raised(s1, taskId, calls, exc) =>
      var c, c' := Catch(s1, taskId, exc, env.compensate), Catch(s1, taskId, exc, w);
      assert c.response == c'.response && c.calls == c'.calls;
  }

  /** Requests handled one after another against the same table. */
  datatype Request = Request(body: Body, env: Env)

  function Replay(s: Store, reqs: seq<Request>): Store
    requires s.Valid()
    decreases |reqs|
  {
    if |reqs| == 0 then s
    else Replay(Submit(s, reqs[0].body, reqs[0].env).store, reqs[1..])
  }

  /** The number of requests that create a task row. */
  function RecordedCount(reqs: seq<Request>): nat
    decreases |reqs|
  {
    if |reqs| == 0 then 0
    else (if Recorded(reqs[0].body, reqs[0].env) then 1 else 0) + RecordedCount(reqs[1..])
  }

  /** Over any run of requests: each creating request adds exactly one row and no
      other request adds any; a row, once written, is never touched by a later
      request, so a terminal status is never left; both table invariants hold. */
  lemma {:induction false} ReplayKeepsEarlierTasks(s: Store, reqs: seq<Request>)
    requires s.Valid()
    ensures Replay(s, reqs).Valid()
    ensures s.WellFormed() ==> Replay(s, reqs).WellFormed()
    ensures |Replay(s, reqs).tasks| == |s.tasks| + RecordedCount(reqs)
    ensures forall id | id in s.tasks :: id in Replay(s, reqs).tasks && Replay(s, reqs).tasks[id] == s.tasks[id]
    decreases |reqs|
  {
    if |reqs| > 0 {
      var s1 := Submit(s, reqs[0].body, reqs[0].env).store;
      ReplayKeepsEarlierTasks(s1, reqs[1..]);
      if s.WellFormed() {
        SubmitKeepsStatusInvariant(s, reqs[0].body, reqs[0].env);
      }
      if Recorded(reqs[0].body, reqs[0].env) {
        assert s1.tasks.Keys == s.tasks.Keys + {s.nextId};
      } else {
        assert s1 == s;
      }
    }
  }
}
