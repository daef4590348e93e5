# useMutateTask cache patches, in Dafny

A model of the settle policy of the three task mutations of the
`useMutateTask` hook in a Next.js task-management client
(`hooks/useMutateTask.ts`). When a create, update or delete request
completes, its handler patches the cached task list held under the
`['tasks']` query key instead of refetching it, resets the edited-task draft
of the UI store, and, on an authorization failure, sends the client back to
the route `/`.

- `wrappers.dfy` — module `Wrappers`: the `Option` type used for the
  optional cache slot, the optional draft and an error's optional response.
- `task_list.dfy` — module `TaskList`: the task record (an `id` and an
  opaque payload) and the three list patches as pure functions: `Prepend`
  (`[res, ...previousTodos]`), `ReplaceById` (the `map` that swaps in the
  response) and `RemoveById` (the `filter` that drops the deleted id). The
  lemmas state what each patch does to length, order, element identity and
  id uniqueness, and that update and delete are idempotent.
- `mutate_task.dfy` — module `MutateTask`: class `Mutations` with the three
  shared slots the handlers write (`tasks`, the query-cache entry;
  `editedTask`, the draft; `route`), and one method per handler. Each
  success handler's postcondition is the corresponding list patch applied to
  the old cache when one exists; the error handler's postcondition is the
  401/403 redirect rule. `Scenario` is a client that runs the handlers in
  sequence and checks the outcomes from their contracts alone.

Details taken from the code:

- `if (previousTodos)` tests JavaScript truthiness, and an empty array is
  truthy, so a cached empty list is patched (create turns `[]` into
  `[res]`); only an absent entry is skipped. The model skips exactly on
  `None`.
- Update keys on the id of the server's response, not on the task that was
  sent; `UpdateOnSuccess` takes the request's task as `variables` and does
  not use it. Delete keys on the requested id, since its response is empty.
- The error handlers read `err.response.status` without checking that
  `err.response` exists. An error without a response (a network failure)
  therefore throws inside the handler, after the draft has been reset and
  before any navigation. `OnError` models that throw as its `threw` result
  instead of inventing a branch for it.
- The three `onError` handlers (lines 33-38, 61-66 and 84-89) are
  identical and are modelled once, as `OnError`.

## Model

| member | source | states |
|---|---|---|
| `TaskList.Prepend` | hooks/useMutateTask.ts:28 | the created task heads the new list, the list is exactly one longer, and the old list follows it unchanged |
| `TaskList.PrependUnique` | hooks/useMutateTask.ts:25-28 | after a create the cached ids stay unique exactly when they were unique and the created id was not already cached |
| `TaskList.ReplaceById` | hooks/useMutateTask.ts:55 | the update patch never changes the sequence of ids (same length, same id at every index) |
| `TaskList.ReplaceByIdAt` | hooks/useMutateTask.ts:55 | the update patch keeps length and positions: an element whose id equals the response's id becomes the response, every other element is unchanged at its index |
| `TaskList.ReplaceByIdAbsent` | hooks/useMutateTask.ts:49-55 | when no cached task has the response's id, the update leaves the list unchanged |
| `TaskList.ReplaceByIdIdempotent` | hooks/useMutateTask.ts:55 | applying the same update response twice gives the same list as applying it once |
| `TaskList.ReplaceByIdUnique` | hooks/useMutateTask.ts:55 | with unique ids and the response's id at index i, the update replaces exactly that element and nothing else |
| `TaskList.ReplaceByIdKeepsUnique` | hooks/useMutateTask.ts:55 | the update patch preserves uniqueness of the cached ids |
| `TaskList.RemoveById` | hooks/useMutateTask.ts:79 | no task with the deleted id survives the delete patch, and the list never grows |
| `TaskList.RemoveByIdMembers` | hooks/useMutateTask.ts:79 | a task is in the new list exactly when it was in the old list with an id other than the deleted one |
| `TaskList.RemoveByIdLength` | hooks/useMutateTask.ts:79 | the delete patch drops exactly as many elements as carry the deleted id |
| `TaskList.RemoveByIdOrder` | hooks/useMutateTask.ts:79 | the surviving tasks keep their original relative order (the result is a subsequence of the old list) |
| `TaskList.RemoveByIdAppend` | hooks/useMutateTask.ts:79 | deleting from a concatenation deletes from each part, so nothing moves across a removed element |
| `TaskList.RemoveByIdAbsent` | hooks/useMutateTask.ts:73-79 | when no cached task has the deleted id, the delete leaves the list unchanged |
| `TaskList.RemoveByIdUnique` | hooks/useMutateTask.ts:73-79 | with unique ids, deleting the id found at index i removes exactly that element and the list is one shorter |
| `TaskList.RemoveByIdIdempotent` | hooks/useMutateTask.ts:79 | deleting the same id twice gives the same list as deleting it once |
| `TaskList.RemoveByIdKeepsUnique` | hooks/useMutateTask.ts:79 | the delete patch preserves uniqueness of the cached ids |
| `TaskList.Examples` | hooks/useMutateTask.ts:28-79 | on the list [2, 1]: create of 3 gives [3, 2, 1], an update of 1 replaces only the task with id 1, a delete of 1 gives [2] |
| `MutateTask.Mutations.Reset` | hooks/useMutateTask.ts:11 | resetting the store's edited task leaves no draft and touches nothing else |
| `MutateTask.Mutations.CreateOnSuccess` | hooks/useMutateTask.ts:24-32 | a cached list becomes the created task prepended to it, an absent cache stays absent without error, the draft is reset, the route is unchanged |
| `MutateTask.Mutations.UpdateOnSuccess` | hooks/useMutateTask.ts:49-60 | a cached list becomes the list patched by the response's id (the request's task is not used), an absent cache stays absent without error, the draft is reset, the route is unchanged |
| `MutateTask.Mutations.DeleteOnSuccess` | hooks/useMutateTask.ts:73-83 | a cached list loses the tasks with the requested id, an absent cache stays absent without error, the draft is reset, the route is unchanged |
| `MutateTask.Mutations.OnError` | hooks/useMutateTask.ts:33-38 | the handler shared by all three mutations (also lines 61-66 and 84-89): the draft is reset first; an error without a response throws and leaves the route; status 401 or 403 sets the route to `/`, any other status leaves it; the cache is never touched |

## Left out

- The HTTP requests (`axios.post`, `axios.patch`, `axios.delete` and the URLs
  built from `NEXT_PUBLIC_API_URL`, lines 16-20, 43-47 and 69): foreign I/O.
  A request's outcome is the argument of the handler that settles it.
- The libraries behind the hook: react-query's `useMutation`,
  `getQueryData` and `setQueryData`, the UI store's hook and Next's router.
  They are stood in for by one cache slot, one draft slot and one route
  field. The store module is not part of this model, so the value that
  `resetEditedTask` writes is modelled as "no draft" (`None`).
- `pages/_app.tsx`: query-client options, the global credentials flag, the
  one-shot CSRF token fetch and its header, and the theme provider. It is
  configuration and I/O with nothing to state about the cache.
- Concurrency between in-flight mutations and the order in which their
  responses arrive: that is the library's event-loop scheduling. Each
  handler is modelled as one uninterrupted step.
- Task fields other than `id`: kept as an opaque payload string.
- Aliasing of the cached array: the source's spread, `map` and `filter`
  each build a new array, so the model works on values.
