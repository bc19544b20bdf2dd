/** The handler as it runs: the collaborators it writes to, held in one object,
    and the `POST` method that takes the steps in order against them. */
module Orchestrator {
  import opened Wrappers
  import opened Tasks
  import opened Pipeline

  /** The `tasks` table and the completion provider as the handler sees them:
      the rows, the id the store will hand out next, and, for the contracts
      only, every call made so far. */
  class Backend {
    var tasks: map<Id, TaskRecord>
    var nextId: Id
    ghost var calls: seq<Call>

    /** An empty table whose first id will be 1, and no calls made yet. */
    constructor ()
      ensures Valid() && tasks == map[] && nextId == 1 && calls == []
    {
      tasks := map[];
      nextId := 1;
      calls := [];
    }

    function State(): Store
      reads this
    {
      Store(tasks, nextId)
    }

    predicate Valid()
      reads this
    {
      State().Valid()
    }

    /** Insert a `processing` row and select its id. */
    method Insert(prompt: string, outcome: InsertOutcome) returns (taskId: Option<Id>)
      requires Valid()
      modifies this
      ensures Valid()
      ensures (State(), taskId) == Inserted(old(State()), prompt, outcome)
      ensures calls == old(calls) + [InsertTask(prompt)]
    {
      calls := calls + [InsertTask(prompt)];
      if outcome.InsertOk? {
        taskId := Some(nextId);
        tasks := tasks[nextId := NewTask(prompt)];
        nextId := nextId + 1;
      } else {
        taskId := None;
      }
    }

    /** Update the row whose id equals `id`; reports whether the store returned an error. */
    method Update(id: Id, patch: Patch, outcome: Write) returns (failed: bool)
      requires Valid()
      modifies this
      ensures Valid()
      ensures State() == Updated(old(State()), id, patch, outcome)
      ensures failed <==> outcome.WriteFailed?
      ensures calls == old(calls) + [UpdateTask(id, patch)]
    {
      calls := calls + [UpdateTask(id, patch)];
      failed := outcome.WriteFailed?;
      if !failed && id in tasks {
        tasks := tasks[id := Apply(tasks[id], patch)];
      }
    }

    /** Ask the provider to complete the prompt; the table is not touched. */
    method Complete(prompt: string, provider: string -> Completion) returns (c: Completion)
      modifies this
      ensures c == provider(prompt)
      ensures State() == old(State())
      ensures calls == old(calls) + [CallProvider(prompt)]
    {
      calls := calls + [CallProvider(prompt)];
      c := provider(prompt);
    }
  }

  /** The `POST` handler: the try block runs the steps in order, keeping `taskId`
      once the insert returns it; the catch block picks the message, makes the
      compensating update only when `taskId` is set, and replies 500. */
  method Post(backend: Backend, body: Body, env: Env) returns (r: Response)
    requires backend.Valid()
    modifies backend
    ensures backend.Valid()
    ensures
      var o := Submit(old(backend.State()), body, env);
      && backend.State() == o.store
      && backend.calls == old(backend.calls) + o.calls
      && r == o.response
  {
    var taskId: Option<Id> := None;
    var thrown: Exception;
    match body {
      case Malformed(e) =>
        thrown := e;
      case Parsed(prompt) =>
        if !Truthy(prompt) {
          return Bad400(PromptRequired);
        }
        var p := prompt.value;
        taskId := backend.Insert(p, env.insert);
        if taskId.None? {
          thrown := ErrorInstance(InsertFailedMessage);
        } else {
          var completion := backend.Complete(p, env.complete);
          match completion {
            case Failure(e) =>
              thrown := e;
            case Answer(aiResponse) =>
              var updateFailed := backend.Update(taskId.value, MarkCompleted(aiResponse), env.update);
              if updateFailed {
                thrown := ErrorInstance(UpdateFailedMessage);
              } else {
                return Ok200(taskId.value, aiResponse);
              }
          }
        }
    }
    // catch
    var errorMessage := UnknownErrorMessage;
    if thrown.ErrorInstance? {
      errorMessage := thrown.message;
    }
    if taskId.Some? {
      var compensationFailed := backend.Update(taskId.value, MarkError(errorMessage), env.compensate);
    }
    r := Err500(InternalError, errorMessage);
  }
}
