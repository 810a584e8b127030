# Todo provider: a Dafny model

This project models the state management of a small client-side todo list.
The provider owns a collection of todo items, a loading flag and an error
string. The provider's callbacks update the collection optimistically, send
at most one request to a remote REST API (toggle does neither when the id is
absent), and on failure either roll back (add) or
only report (toggle, delete, edit). Nothing else in the repository is
modelled: the renderer only displays the provider's state.

Layout:

- `wrappers.dfy` — module `Wrappers`: `Option`, standing in for `T | null` and optional fields.
- `todos.dfy` — module `Todos`: the `Todo` record, the two list updates the
  callbacks use and one lookup. The updates are the id-matching `map` (`PatchWhere`)
  and the id `filter` (`RemoveId`); the lookup is `find` (`Find`), which changes nothing. The module also holds the facts about them:
  order, membership, counts and id uniqueness.
- `provider.dfy` — module `Provider`: the provider `State`, the `Request` each
  callback sends and the transitions. Each callback is split in two pure functions:
  - the synchronous optimistic step, which returns the new state and the request sent (if any);
  - the completion step, which takes `ok: bool` in place of the network outcome.

  The load phase is modelled the same way (`StartLoad`, `LoadSettled`). `Next`
  and `Run` drive a state through any sequence of these events.
- `provider_properties.dfy` — module `ProviderProperties`: lemmas relating the
  transitions. They cover add rollback, toggle involution, edit supersession,
  no rollback for toggle, delete and edit, the load phase, error stickiness and
  id uniqueness.

The source has no rollback on toggle, delete or edit failure. Comments in the
toggle and delete catch blocks (src/context/TodoContext.tsx:73, 85) mark a
rollback as possible future work; the edit catch block has no such comment. The model keeps that behaviour as written and
proves it (`ToggleFailureKeepsFlip`, `DeleteFailureKeepsRemoval`,
`EditFailureKeepsTitle`).

Adding rolls back by filtering on the new id. If that id was already in use,
the rollback also removes the older item (`AddRollbackCollision`).

Two details of the load phase:
- A load failure keeps the collection as it is: the catch at
  src/context/TodoContext.tsx:25-26 never replaces the list. The collection is
  empty after a failed load only because the fetch runs when the provider
  mounts (`InitialLoad`).
- The error text of a thrown `Error` is that error's own message
  (src/context/TodoContext.tsx:26), which may be empty.

## Model

| member | source | states |
|---|---|---|
| Todos.Find | src/context/TodoContext.tsx:59-60 | The lookup returns nothing exactly when no item carries the id. Otherwise it returns an item of the list with that id, and no earlier item has that id. |
| Todos.PatchWhere | src/context/TodoContext.tsx:63 | The id-matching map keeps length and order. It patches every item with the id and leaves every other item as it was. |
| Todos.FlipTwice | src/context/TodoContext.tsx:63 | Flipping the flags of one id twice gives back the original list. |
| Todos.RemoveId | src/context/TodoContext.tsx:79 | An item survives the filter exactly when it was in the list and does not carry the id. The length drops by the number of items carrying the id. |
| Todos.RemoveIdKeepsOrder | src/context/TodoContext.tsx:79 | The filter's survivors keep their original relative order. |
| Todos.RemoveAbsentId | src/context/TodoContext.tsx:52 | Filtering on an id no item carries returns the list unchanged. |
| Todos.RemoveIdKeepsUnique | src/context/TodoContext.tsx:79 | Filtering keeps pairwise-distinct ids distinct. |
| Provider.LoadErrorMessage | src/context/TodoContext.tsx:22-26 | A non-success status gives "Failed to fetch todos". A thrown Error gives its own message. Any other thrown value gives "An error occurred". |
| Provider.StartLoad | src/context/TodoContext.tsx:19-21 | Starting the fetch raises the loading flag, leaves list and error alone, and requests a page of 10. |
| Provider.LoadSettled | src/context/TodoContext.tsx:21-29 | The loading flag is down after every outcome. A page replaces the list and keeps the error. A failure keeps the list and sets the error to the failure's text: "Failed to fetch todos" for a non-success status, the thrown Error's message, or "An error occurred". |
| Provider.AddTodo | src/context/TodoContext.tsx:36-50 | The list grows by one. The head is the new item: given id and title, not completed, owner 1. The old items follow in order. The request posts that same item. Loading flag and error are unchanged. |
| Provider.AddSettled | src/context/TodoContext.tsx:51-54 | Success changes nothing. Failure removes every item with the new id, keeps every other item in its order, adds nothing, shrinks the list by the number of items with that id, and sets "Failed to add todo". |
| Provider.ToggleTodo | src/context/TodoContext.tsx:57-70 | If the id is absent: no change and no request. If present: only the flags of items with that id flip, and ids, titles, owners, length and order stay. The request carries the negation of the first match's flag. Distinct ids stay distinct. |
| Provider.ToggleSettled | src/context/TodoContext.tsx:71-74 | The list is never touched. Failure sets "Failed to update todo". |
| Provider.DeleteTodo | src/context/TodoContext.tsx:77-82 | No item with the id survives. Every other item survives, in order. The length drops by the number of matches. Distinct ids stay distinct. The delete request is always sent. |
| Provider.DeleteSettled | src/context/TodoContext.tsx:83-86 | The list is never touched, so nothing is restored. Failure sets "Failed to delete todo". |
| Provider.EditTodo | src/context/TodoContext.tsx:89-96 | Only the titles of items with the id change, to the new title. Ids, flags, owners, length and order stay. Distinct ids stay distinct. The request is sent even when the id is absent. |
| Provider.EditSettled | src/context/TodoContext.tsx:97-99 | The list is never touched. Failure sets "Failed to edit todo". |
| Provider.Next | src/context/TodoContext.tsx:15-99 | In one transition, a set error stays set. Only a reported failure changes the error, and every reported failure sets it. Only the load phase changes the loading flag. |
| ProviderProperties.AddRollbackRestores | src/context/TodoContext.tsx:43-53 | If the new id is fresh, adding and then failing gives back exactly the prior list, with the add error set. |
| ProviderProperties.AddRollbackCollision | src/context/TodoContext.tsx:43-53 | If the new id was already in use, the failed add leaves a list shorter than before: the older item is removed too. |
| ProviderProperties.AddKeepsUniqueIff | src/context/TodoContext.tsx:36-43 | On a list with distinct ids, the ids stay distinct after an add exactly when the new id is fresh. |
| ProviderProperties.ToggleTwiceRestores | src/context/TodoContext.tsx:59-63 | Toggling the same id twice gives back the original state. |
| ProviderProperties.ToggleRequestMatchesList | src/context/TodoContext.tsx:59-68 | With distinct ids, the flag sent in the toggle request equals the flag the list now shows for that item. |
| ProviderProperties.ToggleFailureKeepsFlip | src/context/TodoContext.tsx:63-74 | A failed toggle of a present id keeps the flipped list, which differs from the original, and sets the update error. |
| ProviderProperties.DeleteFailureKeepsRemoval | src/context/TodoContext.tsx:79-86 | A failed delete of a present id does not restore it. The list differs from the original and the delete error is set. |
| ProviderProperties.DeleteUniqueShrinksByOne | src/context/TodoContext.tsx:79 | With distinct ids, deleting a present id removes exactly one item. |
| ProviderProperties.DeleteAbsentKeepsState | src/context/TodoContext.tsx:79-82 | Deleting an absent id leaves the state unchanged but still sends the request. |
| ProviderProperties.EditAbsentKeepsState | src/context/TodoContext.tsx:90-96 | Editing an absent id leaves the state unchanged but still sends the request: there is no presence check. |
| ProviderProperties.EditLastWins | src/context/TodoContext.tsx:90 | Two edits of one id leave the same list as the second edit alone. |
| ProviderProperties.EditFailureKeepsTitle | src/context/TodoContext.tsx:90-99 | A failed edit keeps the new title and sets the edit error. |
| ProviderProperties.InitialLoad | src/context/TodoContext.tsx:13-29 | From the mounted state the fetch raises the loading flag. After it settles the flag is down. Success shows the page with no error. Failure leaves the list empty and sets an error. |
| ProviderProperties.LoadingWhilePending | src/context/TodoContext.tsx:19-28 | As long as the fetch has not settled, the loading flag stays up across any other events. |
| ProviderProperties.ErrorStaysSet | src/context/TodoContext.tsx:26-98 | Once the error is set, no run of events clears it. |
| ProviderProperties.ErrorOnlyFromFailures | src/context/TodoContext.tsx:26-98 | A run with no reported failure leaves the error exactly as it was. |
| ProviderProperties.NextKeepsUnique | src/context/TodoContext.tsx:24-90 | Every transition keeps distinct ids distinct when two conditions hold: an add uses a fresh id, and a fetched page has distinct ids. |

## Left out

- Network I/O: `fetch`, HTTP methods, URLs, headers and JSON (de)serialisation. Each request is
  represented by a `Request` value carrying its body fields. Its outcome is an `ok` flag, or a
  `FetchOutcome` for the initial load. A malformed JSON body is a thrown value.
  For the add, toggle, delete and edit requests, `ok = false` means the request threw
  (src/context/TodoContext.tsx:51, 71, 83, 97). It is not `response.ok`: those callbacks never
  inspect the status, so a non-success response counts as success. Only the initial load checks
  the status (src/context/TodoContext.tsx:22), which is `FetchOutcome.NotOk`.
- `Date.now()` id generation, because it reads a clock: the new id is a parameter. Freshness is a
  precondition only where a lemma needs it.
- React plumbing: `createContext`, `useState`, `useEffect`, the provider element and the
  `useTodo` guard (src/context/TodoContext.tsx:8, 102-113).
- Interleaving of overlapping asynchronous completions. Each completion is applied to whatever
  state is current when it runs, and `Run` allows any order of events. Nothing models which
  orders the runtime can actually produce.
- Provider.ToggleTodo: the source looks the item up in the list captured when the callback
  was created, which can be stale. The model looks it up in the current list, for both the
  presence check and the request body.
- Todo ids are JavaScript numbers (doubles). They are modelled as unbounded integers, so
  precision loss beyond 2^53 is not modelled.
- The renderer (src/components/TodoList.tsx) only displays state. Note one effect there: an
  error whose message is the empty string is set, but it does not hide the list.
