/** The `tasks` table that the orchestrator handler writes: rows keyed by an id
    the store hands out, created by one insert and changed by updates by id. */
module Tasks {
  import opened Wrappers

  type Id = nat

  /** The values the handler writes into the `status` column. */
  datatype Status = Processing | Completed | Error

  /** The JSON object written into the `response` column, `{ result: aiResponse }`;
      the provider's content can be null, so `result` is optional. */
  datatype Payload = Payload(result: Option<string>)

  datatype TaskRecord = TaskRecord(
    prompt: string,
    status: Status,
    response: Option<Payload>,
    errorMessage: Option<string>)
  {
    /** The status invariant: a processing row has neither outcome column set,
        a completed row has only `response`, an errored row has only `error_message`. */
    predicate WellFormed() {
      match status
      case Processing => response.None? && errorMessage.None?
      case Completed => response.Some? && errorMessage.None?
      case Error => response.None? && errorMessage.Some?
    }
  }

  /** The row the insert writes: the prompt with status `processing`; every other column null. */
  function NewTask(prompt: string): TaskRecord {
    TaskRecord(prompt, Processing, None, None)
  }

  /** The two update payloads the handler sends: the success update
      `{ response: { result }, status: 'completed' }` and the compensating
      update `{ status: 'error', error_message }`. */
  datatype Patch = MarkCompleted(content: Option<string>) | MarkError(message: string)

  /** An update sets the columns its payload names and leaves the others alone. */
  function Apply(row: TaskRecord, patch: Patch): TaskRecord {
    match patch
    case MarkCompleted(c) => row.(status := Completed, response := Some(Payload(c)))
    case MarkError(m) => row.(status := Error, errorMessage := Some(m))
  }

  /** Whether the store commits a write or reports an error for it. */
  datatype Write = Written | WriteFailed

  /** How `insert(...).select('id').single()` ends: with the new row's id,
      with an error, or with neither an error nor data. */
  datatype InsertOutcome = InsertOk | InsertError | NoData

  datatype Store = Store(tasks: map<Id, TaskRecord>, nextId: Id)
  {
    /** Ids are handed out from 1 upward, like a serial column, so every id is
        truthy; every id in use was handed out before `nextId`, so the next id is fresh. */
    predicate Valid() {
      && 0 < nextId
      && forall id | id in tasks :: 0 < id < nextId
    }

    /** Every row satisfies the status invariant. */
    predicate WellFormed() {
      forall id | id in tasks :: tasks[id].WellFormed()
    }
  }

  /** The insert of a new `processing` row. On success the store hands out a
      fresh id and adds exactly that one row; otherwise nothing is written and
      no id is returned. */
  function Inserted(s: Store, prompt: string, outcome: InsertOutcome): (r: (Store, Option<Id>))
    requires s.Valid()
    ensures r.0.Valid()
    ensures outcome.InsertOk? ==>
      && r.1 == Some(s.nextId)
      && 0 < s.nextId
      && s.nextId !in s.tasks
      && r.0.tasks == s.tasks[s.nextId := NewTask(prompt)]
      && |r.0.tasks| == |s.tasks| + 1
    ensures !outcome.InsertOk? ==> r.0 == s && r.1.None?
  {
    if outcome.InsertOk? then
      (Store(s.tasks[s.nextId := NewTask(prompt)], s.nextId + 1), Some(s.nextId))
    else
      (s, None)
  }

  /** `update(patch).eq('id', id)`: only the row whose id equals `id` can change,
      no row is added or removed, and an id that matches no row is not an error. */
  function Updated(s: Store, id: Id, patch: Patch, outcome: Write): (r: Store)
    ensures r.nextId == s.nextId && r.tasks.Keys == s.tasks.Keys
    ensures forall k | k in s.tasks && k != id :: r.tasks[k] == s.tasks[k]
    ensures id in s.tasks && outcome.Written? ==> r.tasks[id] == Apply(s.tasks[id], patch)
    ensures outcome.WriteFailed? ==> r == s
    ensures s.Valid() ==> r.Valid()
  {
    if outcome.Written? && id in s.tasks then
      Store(s.tasks[id := Apply(s.tasks[id], patch)], s.nextId)
    else
      s
  }
}
