# Task API core, modelled in Dafny

This project models the server-side task API of a to-do list application. The API keeps an ordered, in-memory list of `{id, name, completed}` records. It checks requests against that list and turns failures into a `{status, message, code}` envelope. The modelled layers are:

- **Repository** (`TaskRepository.TaskStore`): one owned list. It offers the duplicate-name and existence lookups, and the mutators add, rename, complete and delete. The mutators change the list in place.
- **Validators** (`Validators`): the name-length rule (3–100 characters), duplicate-name detection and existence-by-id detection, each over a list passed in.
- **Input schemas** (`Schemas`): the add, update, delete and complete input rules, with the exact message of the first rule that fails.
- **Error taxonomy** (`Errors`): the `AppError` family with its codes, and `errorHandler`, which maps each error to an envelope.
- **Service layer** (`TaskService`): each mutation runs its business check, then the repository operation. The list query returns the store or a name-filtered copy.
- **Legacy resolvers**:
  - `MutationResolvers`: add, update and delete, written directly against the list.
  - `QueryResolvers`: the optional name filter.

The JavaScript builtins the code relies on are modelled in two support modules:

- `Strings`: `trim`, `toLowerCase` and `includes`.
- `Sequences`: `Array.prototype.some`, `find`, `findIndex` and `filter`, with callbacks written as Dafny closures.

`trim` strips the ECMAScript WhiteSpace and LineTerminator code points. `toLowerCase` lowers the ASCII capitals.

Several wiring choices shape the model:

- **One owned store.** The repository reads a module-level list. The service also passes a list, which the repository ignores. Both are modelled as the same `TaskStore`.
- **Injected id.** The random id generator becomes a parameter, `newId`.
- **Errors as values.** Thrown errors are `Result`/`Outcome` values carrying an `Error`.
- **Field absent vs. false.** A record's `completed` field is an `Option<bool>`: `None` stands for a record written without the field, as the legacy add resolver writes them.

## Model

| member | source | states |
|---|---|---|
| Errors.ErrorHandler | serverless/errorHandler.js:63-79 | The handler is total and its status is always "error". For an AppError, the message and code pass through unchanged. Any other error gets exactly the internal message and the code INTERNAL_ERROR. |
| Errors.SubclassCodes | serverless/errorHandler.js:24-55 | ValidationError, DuplicateError and NotFoundError carry the codes VALIDATION_ERROR, DUPLICATE_ERROR and NOT_FOUND_ERROR. |
| Errors.CodeIdentifiesKind | serverless/errorHandler.js:24-78 | For the errors the API raises, each envelope code holds exactly for its own error kind. INTERNAL_ERROR holds exactly for plain errors. |
| Errors.InternalHidesDetail | serverless/errorHandler.js:72-78 | Any two unclassified errors get the same envelope, so nothing of their content leaks. |
| Validators.ValidateTaskName | serverless/validators/validators.js:5-18 | Passes iff the name is present and 3 to 100 characters long, with no trimming. Otherwise it fails with a ValidationError carrying the fixed message. |
| Validators.NameLengthBoundaries | serverless/validators/validators.js:13-18 | Names of 3 and 100 characters pass. Names of 2 and 101 characters fail, and so does a missing name. |
| Validators.BlankNameHasLength | serverless/validators/validators.js:13-18 | A name of three spaces passes the length rule. |
| Validators.ValidateTaskExists | serverless/validators/validators.js:27-32 | Fails with DuplicateError iff some stored name, lowercased, equals the candidate trimmed and lowercased. Otherwise it passes. It takes the list as a value and cannot change it. |
| Validators.ValidateItemFound | serverless/validators/validators.js:41-46 | Fails with NotFoundError iff no record has the id. Otherwise it passes. It cannot change the list. |
| Schemas.ValidateAddTaskInput | serverless/validators/schemas.js:5-13 | Passes iff the input object is absent (the object schema is optional) or its `name` is present and 3 to 100 characters long. Every failure is a ValidationError. |
| Schemas.ValidateUpdateTaskInput | serverless/validators/schemas.js:16-30 | Passes iff the input object is absent, or both the id rule (a safe integer of at least 1) and the name rule hold. The id is checked first: whatever the name, a missing id reports "O ID é obrigatório", an id outside the safe range reports `"id" must be a safe number`, and a safe id below 1 reports "O ID deve ser maior ou igual a 1". Every failure is a ValidationError. |
| Schemas.ValidateDeleteTaskInput | serverless/validators/schemas.js:33-40 | Passes iff the input object is absent, or its id is present, within the safe-integer range and at least 1. The input carries only the id; unknown keys are left out. |
| Schemas.ValidateCompleteTaskInput | serverless/validators/schemas.js:43-50 | Passes iff the input object is absent, or its id is present, within the safe-integer range and at least 1. The input carries only the id; unknown keys are left out. |
| Schemas.ShortNameMessage | serverless/validators/schemas.js:6-12 | A 1- or 2-character name fails with "O nome deve ter pelo menos 3 caracteres", which maps to VALIDATION_ERROR. |
| Schemas.FieldMessages | serverless/validators/schemas.js:6-22 | A missing name reports "O nome é obrigatório", an empty one "O nome não pode ficar em branco", and one over 100 characters "O nome deve ter no máximo 100 caracteres", also under a good id. A missing id reports "O ID é obrigatório" in the delete and complete checks. |
| Schemas.SmallIdMessage | serverless/validators/schemas.js:17-50 | An id below 1 but within the safe range fails all three id-carrying checks with "O ID deve ser maior ou igual a 1". |
| Schemas.UnsafeIdMessage | serverless/validators/schemas.js:17-50 | An id beyond ±`Number.MAX_SAFE_INTEGER` fails all three id-carrying checks with Joi's own `"id" must be a safe number`, before the minimum is looked at; 2^53 is such an id. |
| Schemas.UpdateNeedsBoth | serverless/validators/schemas.js:16-30 | A good id (1 up to the safe maximum) with a good name passes. A good id with a short name fails, and so does a bad or missing id with a good name. |
| Schemas.AbsentInputPasses | serverless/validators/schemas.js:5-50 | An absent input object passes all four checks, since none of the object schemas is required. |
| Schemas.FailuresAreValidation | serverless/validators/schemas.js:53-71 | Every failure of the four checks maps to the VALIDATION_ERROR code. |
| TaskRepository.TaskStore.ValidateTaskExists | serverless/repositories/taskRepository.js:10-15 | The duplicate check over the store. It fails iff the name is taken, with the DuplicateError message. It only reads the store. |
| TaskRepository.TaskStore.ValidateItemFound | serverless/repositories/taskRepository.js:23-28 | The existence check over the store. It fails iff no record has the id, with the NotFoundError message. It only reads the store. |
| TaskRepository.TaskStore.AddTask | serverless/repositories/taskRepository.js:37-46 | Appends exactly `Task(newId, trim(name), completed false)` and returns it. Earlier records are unchanged and stay in place. |
| TaskRepository.TaskStore.UpdateTask | serverless/repositories/taskRepository.js:54-59 | Fails iff the id is absent, with NotFoundError and no change. Otherwise the new list is `Renamed`: only the first record with the id gets the trimmed name, and that record is returned. |
| TaskRepository.TaskStore.CompleteTask | serverless/repositories/taskRepository.js:67-72 | Fails iff the id is absent, with NotFoundError and no change. Otherwise the new list is `Completed`: only the first record with the id is flagged true, and that record is returned. |
| TaskRepository.TaskStore.DeleteTask | serverless/repositories/taskRepository.js:80-84 | Fails iff the id is absent, with NotFoundError and no change. Otherwise the new list is `RemovedFirst`, and the removed record is returned. |
| TaskRepository.TaskStore.GetTasksByName | serverless/repositories/taskRepository.js:92-94 | Every record returned has a lowercased name containing the filter lowercased and trimmed. Every stored match is returned, each as often as it is stored. The result is an in-order subsequence of the store. |
| Tasks.FirstWithId | serverless/repositories/taskRepository.js:56 | The index findIndex reports for a present id: it holds the id, and no earlier record does. |
| Tasks.Renamed | serverless/repositories/taskRepository.js:56-57 | Length, order, ids and completion flags are kept. The first record with the id has the new name, and every other record is unchanged. |
| Tasks.Completed | serverless/repositories/taskRepository.js:69-70 | Length, ids and names are kept. The first record with the id is flagged true, and every other record is unchanged. |
| Tasks.RemovedFirst | serverless/repositories/taskRepository.js:82-83 | One record fewer. The other records keep their relative order. The multiset loses exactly the first record with the id. |
| Tasks.CompletedIdempotent | serverless/repositories/taskRepository.js:67-72 | Completing the same id a second time yields the same list. |
| Tasks.CompletionIsMonotone | serverless/repositories/taskRepository.js:54-84 | A completed record stays completed through rename, complete, and removal of another record. |
| Tasks.RemovedFirstDropsId | serverless/repositories/taskRepository.js:80-84 | On a list with unique ids, no record with the id is left after the removal. |
| Tasks.AppendKeepsUniqueIds | serverless/repositories/taskRepository.js:37-46 | Appending keeps the ids unique iff the new id is not yet in use. |
| Tasks.RenameAfterAppend | serverless/repositories/taskRepository.js:37-59 | A record appended under a fresh id and then renamed sits in the same place with the new name. |
| TaskService.AddTaskService | serverless/services/taskService.js:6-9 | The duplicate check runs first. A taken name gives DuplicateError and no change. Otherwise it behaves exactly as AddTask. |
| TaskService.UpdateTaskService | serverless/services/taskService.js:14-17 | An absent id gives NotFoundError and no change. Otherwise it yields UpdateTask's new list and record. |
| TaskService.CompleteTaskService | serverless/services/taskService.js:22-25 | An absent id gives NotFoundError and no change. Otherwise it yields CompleteTask's new list and record. |
| TaskService.DeleteTaskService | serverless/services/taskService.js:30-33 | An absent id gives NotFoundError and no change. Otherwise it yields DeleteTask's result. With unique ids, no record with the id remains afterwards. |
| TaskService.GetTasksService | serverless/services/taskService.js:38-43 | With no filter name, or an empty one, it returns the store's list unchanged. Otherwise it equals GetTasksByName of the filter name. |
| MutationResolvers.AddItem | serverless/resolvers/mutation.js:16-39 | A missing or blank name raises the empty-name error first and leaves the list unchanged. Next, a name whose trimmed, lowercased form equals a stored name lowercased (stored names are not trimmed) raises the duplicate error, with no change. Otherwise exactly `{id: newId, name: trim(name)}` is appended, with no completed field, and the success envelope returned. Each raised error is what the handler turns into the envelope, which is always the internal-error one. |
| MutationResolvers.UpdateItem | serverless/resolvers/mutation.js:50-70 | The name is checked before the id: a blank name raises the empty-name error even for an absent id. A non-blank name with an absent or missing id raises the not-found error. Either failure leaves the list unchanged. Otherwise the new list is `Renamed` with the trimmed name. Each raised error is what the handler turns into the envelope, which is always the internal-error one. |
| MutationResolvers.DeleteItem | serverless/resolvers/mutation.js:81-101 | The new list is the in-order filter of records whose id differs, so no record with the id remains. If nothing matched, the list is unchanged and the not-found-for-removal error is raised, which the handler turns into the internal-error envelope. |
| MutationResolvers.WhitespaceNameIsBlank | serverless/resolvers/mutation.js:18-20 | A name counts as blank iff it consists only of whitespace. |
| MutationResolvers.CatchAsWritten | serverless/resolvers/mutation.js:1 | As written, every catch block raises a non-AppError instead of returning an envelope. |
| MutationResolvers.CatchAsWrittenLosesEnvelope | serverless/resolvers/mutation.js:36-38 | Under the as-written wiring, no failure ends with an envelope, the handler's one included. |
| MutationResolvers.AddItemAsWritten | serverless/resolvers/mutation.js:16-39 | With the catch block as written, addItem ends with an escaping error exactly when the name is blank or taken, and that error is not an AppError; the list is then unchanged. The empty name `""` is such an input. Otherwise it returns the success envelope, and exactly `{id: newId, name: trim(name)}` has been appended. |
| QueryResolvers.TodoList | serverless/resolvers/query.js:9-16 | Without a filter name, or with an empty one, it returns the list itself. Otherwise every record returned contains the term. Every match is returned, each as often as it is stored. The result is always an in-order subsequence of the list. |
| QueryResolvers.WhitespaceFilterKeepsAll | serverless/resolvers/query.js:10-12 | A non-empty, whitespace-only filter trims to the empty term and returns the whole list. |
| QueryResolvers.AgreesWithService | serverless/resolvers/query.js:9-16 | The resolver and GetTasksService give the same answer for every filter. |
| Strings.Trim | serverless/repositories/taskRepository.js:41 | `trim` gives a slice of its input. Only whitespace lies outside the slice, and the slice neither starts nor ends with whitespace. |
| Strings.TrimOfWhitespace | serverless/resolvers/mutation.js:18 | A string trims to "" iff it consists only of whitespace. |
| Strings.Lower | serverless/repositories/taskRepository.js:11 | `toLowerCase` keeps the length and lowers each character independently. |
| Strings.Contains | serverless/repositories/taskRepository.js:93 | `includes` holds iff the term occurs at some position. |
| Sequences.Any | serverless/repositories/taskRepository.js:11 | `some` holds iff some element satisfies the callback. |
| Sequences.FindIndex | serverless/repositories/taskRepository.js:82 | `findIndex` returns -1 iff nothing matches. Otherwise it returns the first matching index. |
| Sequences.Find | serverless/repositories/taskRepository.js:24 | `find` returns nothing iff nothing matches. Otherwise it returns the first match. |
| Sequences.Filter | serverless/repositories/taskRepository.js:93 | `filter` returns no more elements than its input, and every element returned satisfies the callback. |
| Sequences.FilterCounts | serverless/repositories/taskRepository.js:93 | `filter` keeps exactly the matching elements, each as often as in the input. |
| Sequences.FilterIsSubsequence | serverless/repositories/taskRepository.js:93 | `filter`'s result is an in-order subsequence of its input. |
| Sequences.FilterLength | serverless/resolvers/mutation.js:85-90 | The filtered list is no longer than the input. It has the same length iff every element matches. |
| Sequences.FilterKeepsAll | serverless/resolvers/mutation.js:85-92 | When every element matches, filtering returns the input itself. |

## Left out

- **Frontend, server bootstrap and schema.** The React client, the Apollo server bootstrap and the GraphQL type definitions are view and transport code, so they are not part of this model.
- **Id generator.** It is built on `Math.random` and a floating-point `floor`. The id it returns is the parameter `newId`, with no range assumed.
- **Logging.** The `console.error` call in the error handler is a side channel.
- **The test file.** The test file drives the resolvers through Apollo and is not modelled.
- **Joi internals.**
  - Non-string names and non-number ids, which give the "deve ser um texto/número" messages, are left out.
  - The `integer()` rule is vacuous for Dafny `int`; ids beyond the safe-integer range are modelled, by Joi's own safe-number check.
  - Unknown keys and option handling are left out.
  - Lengths count Dafny characters, not UTF-16 code units.
- **Unset arguments.** A missing `values` argument to `addItem`/`updateItem` is destructured outside the `try` block and throws before any check. The model always receives a (possibly absent) name and id.
- Strings.Lower: lowers only the ASCII capitals A–Z, not the full Unicode case mapping of `toLowerCase`.
- Strings.Trim: the whitespace set is fixed to the code points listed in `IsWhitespace` (the Unicode space separators plus tab, vertical tab, form feed, byte-order mark and the line terminators); characters a later Unicode version adds to the space separators are not stripped.
- MutationResolvers.AddItem, MutationResolvers.UpdateItem, MutationResolvers.DeleteItem: their catch path is modelled as a call to the `errorHandler` function. The file as written calls the module's exports object, which is recorded under Findings.

Behaviour the model keeps as written:

- The legacy resolvers' success envelopes have no `code` field.
- `updateTaskService` does not check for duplicate names, so an update can make two names equal.
- The legacy `updateItem` checks the name before it checks that the id exists.
- The name rules do not trim, so a name of three spaces passes both the validator and the schemas.
- The generator can return id 0, which the id schemas would then reject as below 1.
- The generator can repeat an id. `UniqueIds` is therefore a hypothesis of `Tasks.RemovedFirstDropsId` and of the unique-id clause of `TaskService.DeleteTaskService`, not an invariant of the store.

## Findings

| source | as written | input that shows it | evidently intended | confidence | as-written member | corrected member |
|---|---|---|---|---|---|---|
| serverless/resolvers/mutation.js:1 | `require("../errorHandler")` binds the exports object `{AppError, ..., errorHandler}`, and each catch block calls that object as a function. | `addItem` with name `""`: the catch block's call raises a TypeError, so no envelope is returned. | The catch block returns the internal-error envelope built by the `errorHandler` function. | high; not executed | MutationResolvers.AddItemAsWritten, MutationResolvers.CatchAsWritten | MutationResolvers.AddItem, MutationResolvers.UpdateItem, MutationResolvers.DeleteItem |
