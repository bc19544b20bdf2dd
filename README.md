# Orchestrator task submission, modelled in Dafny

This project models the `POST` handler of the orchestrator endpoint
(`src/app/api/orchestrator/route.ts`). The handler reads a prompt from the
request body and rejects a missing or empty one with 400. It inserts a task row
with status `processing`. It asks the completion provider for an answer and
updates the row to `completed` with that answer. It replies 200 with the task
id and the answer. Anything thrown after validation lands in one catch block.
There, if a task id exists, the handler gives the row status `error` and an
error message as a best-effort write, then replies 500 with that message.

The model has four files:

- `wrappers.dfy`: `Option`.
- `tasks.dfy` (module `Tasks`): the `tasks` table as a value (`Store`: rows by
  id plus the id the store hands out next), the row record, the status
  invariant (`TaskRecord.WellFormed`), and what an insert and an update by id
  do to the table (`Inserted`, `Updated`).
- `pipeline.dfy` (module `Pipeline`): the handler as a pure specification. It
  is split like the source: `Try` for the try block, `Catch` for the catch
  block, and `Submit` for one whole request. Lemmas cover each failure path,
  and `ReplayKeepsEarlierTasks` covers any sequence of requests.
- `orchestrator.dfy` (module `Orchestrator`): the imperative handler. Class
  `Backend` holds the rows and the next id, as fields that its `Insert`,
  `Update` and `Complete` methods change in place, plus a ghost log of
  collaborator calls that exists only for the contracts. Its constructor gives
  an empty table whose first id is 1.
  Method `Post` runs the steps in order with a mutable `taskId` and a
  catch-block tail. It is proved to leave the table, the call log and the reply
  exactly as `Submit` says.

Each collaborator is given as a parameter (`Env`):

- the insert ends in `InsertOk`, `InsertError` or `NoData`;
- the provider is a function from the prompt to `Answer(content)` or `Failure(exception)`;
- the success update and the compensating update are each `Written` or `WriteFailed`.

The ghost log of calls (`InsertTask`, `CallProvider`, `UpdateTask`) is what lets the
model say that an update was attempted or was not.

## Behaviour worth noting

- There is no classifier and no second agent: every accepted prompt goes to the provider.
- The statuses written are `processing`, `completed` and `error`.
- A provider answer whose content is null is not a failure. The row gets `{ result: null }` and the reply is 200 with a null `response`.
- The error message written on failure is the thrown message, which can be empty.
- Ids are handed out from 1 upward, so every task id passes the `if (taskId)` test.

## Model

| member | source | states |
|---|---|---|
| `Tasks.Inserted` | src/app/api/orchestrator/route.ts:34-44 | a successful insert returns a fresh, positive id not yet in the table and adds exactly one row, the prompt with status `processing`; an insert error or missing data writes nothing and yields no id |
| `Tasks.Updated` | src/app/api/orchestrator/route.ts:61-64 | an update by id changes only the row with that id (the payload's columns); no row is added or removed; a failed write or an unknown id changes nothing; the id invariant is kept |
| `Pipeline.Try` | src/app/api/orchestrator/route.ts:24-72 | the try block returns only 200 or 400 (400 touching nothing); when it throws, `taskId` is set exactly when the insert succeeded; without a `taskId` the table is unchanged and no update was made; with one, the id is the fresh one and its row is still the inserted `processing` row; the status invariant is kept |
| `Pipeline.Catch` | src/app/api/orchestrator/route.ts:74-90 | the reply is always 500 "An internal server error occurred." with the thrown message as details, or "An unknown error occurred." for a non-Error value; without a `taskId` nothing is written; with one, exactly one `error` update carrying the same message is attempted, and only that row can change; a `processing` row keeps the status invariant |
| `Pipeline.Submit` | src/app/api/orchestrator/route.ts:19-91 | a whole request keeps the id invariant and replies 200, 400 or 500; the reply is 400 "Prompt is required" exactly for a falsy prompt, and then the table and calls are untouched; a body that cannot be parsed gives a 500 before any write; without a task id no row changes and no update is made; an insert failure replies 500 "Failed to log task to database."; with a task id, there is exactly one new row holding the prompt, every earlier row is unchanged, and every update targets the new id |
| `Pipeline.SubmitKeepsStatusInvariant` | src/app/api/orchestrator/route.ts:32-87 | one request keeps the status invariant of every row: the new row is `processing`, then `completed` with a response or `error` with a message, never both |
| `Pipeline.SuccessPath` | src/app/api/orchestrator/route.ts:57-72 | the reply is 200 exactly when the insert, the provider and the success update all succeed; it then carries the new id and the provider's content verbatim, and the row is `completed` with `{ result: content }` |
| `Pipeline.ProviderFailurePath` | src/app/api/orchestrator/route.ts:49-89 | when the provider throws after the insert, the reply's details are the thrown message, and the compensating `error` update on the task id carries that same message |
| `Pipeline.UpdateFailurePath` | src/app/api/orchestrator/route.ts:61-89 | when the success update fails, the reply's details are "AI processing complete, but failed to update log.", and a compensating `error` update with that message follows the failed one |
| `Pipeline.CompensatingWrite` | src/app/api/orchestrator/route.ts:82-87 | after any 500 with a task id, the row is `error` with the reply's details when the compensating write succeeds, and is still the `processing` row when it fails |
| `Pipeline.CompensationIgnored` | src/app/api/orchestrator/route.ts:82-89 | the compensating write's result changes neither the reply nor the calls made nor any earlier row |
| `Pipeline.ReplayKeepsEarlierTasks` | src/app/api/orchestrator/route.ts:34-86 | over any sequence of requests against one table, rows are added one per request that creates a task and no others; a row, once written, is never changed by a later request, so a terminal status is never left; both table invariants hold |
| `Orchestrator.Backend.Insert` | src/app/api/orchestrator/route.ts:34-44 | the table and the returned id become what `Inserted` gives, and the insert call is logged |
| `Orchestrator.Backend.Update` | src/app/api/orchestrator/route.ts:61-69 | the table becomes what `Updated` gives, the result reports exactly a failed write, and the update call is logged |
| `Orchestrator.Backend.Complete` | src/app/api/orchestrator/route.ts:49-57 | returns the provider's result for the prompt, leaves the table unchanged and logs the call |
| `Orchestrator.Post` | src/app/api/orchestrator/route.ts:19-91 | the imperative handler keeps the id invariant and leaves the table, the appended calls and the reply equal to `Submit` of the table it started from |

## Left out

- Construction of the database and provider clients from environment variables (route.ts:9-17): the collaborators are parameters (`Env`).
- Logging with `console.log` and `console.error`: output only, with no effect on behaviour.
- The provider request itself: the model name, the system and user messages, and picking `choices[0].message.content`. The provider is a function from the prompt to an answer (content or null) or a thrown value. An empty `choices` list, which throws a TypeError, is one such thrown value.
- JSON parsing of the body: a body that cannot be parsed or destructured is `Malformed` with the value it throws, before any task id exists.
- A `prompt` field holding a non-string JSON value (number, object, boolean): only an absent field or a string is modelled. Truthiness is "present and not the empty string".
- The store's id format: ids are handed out from a counter (`nextId`) starting at 1, which stands for the store's fresh-id guarantee (a UUID or a serial column). Every id is therefore assumed truthy, and the `if (taskId)` test is modelled as "an id was returned"; a store that could return a falsy id such as 0 is not modelled.
- An insert that commits a row but returns neither data nor an error, and a write that commits but still reports an error: both are modelled as writing nothing.
- A compensating update that throws instead of returning an error: the handler's promise would then reject. That path is not modelled.
- Awaiting and concurrency between requests: each request is one sequential flow, and `Replay` runs requests one after another.
- The browser page (`src/app/page.tsx`): presentation and network I/O, outside the core.
