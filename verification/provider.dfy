/**
  The todo provider's state and its transitions. Each callback of the
  provider is split into its synchronous part (the optimistic list update,
  returning the request it would send) and the update its request's
  completion applies, with `ok` standing in for the network outcome.
 */
module Provider {

  import opened Wrappers
  import opened Todos

  /** Page size of the initial fetch. */
  const FetchLimit: nat := 10
  /** Owner given to every locally created item. */
  const DefaultUserId := 1

  const FetchNotOkMessage := "Failed to fetch todos"
  const UnknownErrorMessage := "An error occurred"
  const AddFailedMessage := "Failed to add todo"
  const ToggleFailedMessage := "Failed to update todo"
  const DeleteFailedMessage := "Failed to delete todo"
  const EditFailedMessage := "Failed to edit todo"

  datatype State = State(todos: seq<Todo>, isLoading: bool, error: Option<string>)

  /** What a callback asks of the remote API, with the body fields it sends. */
  datatype Request =
    | FetchTodos(limit: nat)
    | Create(todo: Todo)
    | PatchCompleted(id: int, completed: bool)
    | PatchTitle(id: int, title: string)
    | Remove(id: int)

  /** The synchronous part of a callback: the new state and the request issued, if any. */
  datatype Step = Step(state: State, request: Option<Request>)

  /**
    How the initial fetch ended: a page of items, a response whose status was
    not a success, or a thrown value (an Error with its message, or something
    that is not an Error).
   */
  datatype FetchOutcome = Fetched(data: seq<Todo>) | NotOk | Threw(message: Option<string>)

  /** The provider when it is mounted: no items, not loading, no error. */
  function Initial(): State {
    State([], false, None)
  }

  /** The message the load failure writes into `error`. */
  function LoadErrorMessage(outcome: FetchOutcome): (m: string)
    requires !outcome.Fetched?
    ensures outcome.NotOk? ==> m == FetchNotOkMessage
    ensures outcome.Threw? && outcome.message.Some? ==> m == outcome.message.value
    ensures outcome.Threw? && outcome.message.None? ==> m == UnknownErrorMessage
  {
    match outcome
    case NotOk => FetchNotOkMessage
    case Threw(message) => if message.Some? then message.value else UnknownErrorMessage
  }

  /** The fetch starts: the loading flag goes up and the page is requested. */
  function StartLoad(s: State): (r: Step)
    ensures r.state.isLoading
    ensures r.state.todos == s.todos && r.state.error == s.error
    ensures r.request == Some(FetchTodos(FetchLimit))
  {
    Step(s.(isLoading := true), Some(FetchTodos(FetchLimit)))
  }

  /**
    The fetch settles: the loading flag drops whatever the outcome; a page
    replaces the collection and leaves `error` alone; a failure keeps the
    collection and sets `error`.
   */
  function LoadSettled(s: State, outcome: FetchOutcome): (r: State)
    ensures !r.isLoading
    ensures outcome.Fetched? ==> r.todos == outcome.data && r.error == s.error
    ensures !outcome.Fetched? ==> r.todos == s.todos && r.error == Some(LoadErrorMessage(outcome))
  {
    match outcome
    case Fetched(data) => s.(todos := data, isLoading := false)
    case _ => s.(error := Some(LoadErrorMessage(outcome)), isLoading := false)
  }

  /** The record `addTodo` creates for a title and a fresh identifier. */
  function NewTodo(title: string, freshId: int): Todo {
    Todo(freshId, title, false, Some(DefaultUserId))
  }

  /**
    `addTodo`: the new record goes to the head, the old items follow in their
    order, and the same record is posted.
   */
  function AddTodo(s: State, title: string, freshId: int): (r: Step)
    ensures |r.state.todos| == |s.todos| + 1
    ensures r.state.todos[0].id == freshId && r.state.todos[0].title == title
    ensures !r.state.todos[0].completed && r.state.todos[0].userId == Some(DefaultUserId)
    ensures r.state.todos[1..] == s.todos
    ensures r.request == Some(Create(r.state.todos[0]))
    ensures r.state.isLoading == s.isLoading && r.state.error == s.error
  {
    var t := NewTodo(title, freshId);
    Step(s.(todos := [t] + s.todos), Some(Create(t)))
  }

  /**
    Completion of `addTodo`: success changes nothing; failure removes every
    item carrying the new id, keeps every other item in its order, and
    reports the failure.
   */
  function AddSettled(s: State, freshId: int, ok: bool): (r: State)
    ensures ok ==> r == s
    ensures !ok ==> !HasId(r.todos, freshId) && r.error == Some(AddFailedMessage)
    ensures !ok ==> forall t :: t in s.todos && t.id != freshId ==> t in r.todos
    ensures !ok ==> forall t :: t in r.todos ==> t in s.todos
    ensures !ok ==> IsSubsequence(r.todos, s.todos)
    ensures !ok ==> |r.todos| == |s.todos| - Occurrences(s.todos, freshId)
    ensures r.isLoading == s.isLoading
  {
    RemoveIdKeepsOrder(s.todos, freshId);
    if ok then s
    else s.(todos := RemoveId(s.todos, freshId), error := Some(AddFailedMessage))
  }

  /**
    `toggleTodo`: when no item carries `id` nothing changes and no request is
    sent; otherwise every item carrying `id` has its flag flipped, every
    other field and item stays, and the request carries the negation of the
    first match's flag.
   */
  function ToggleTodo(s: State, id: int): (r: Step)
    ensures !HasId(s.todos, id) ==> r == Step(s, None)
    ensures HasId(s.todos, id) ==> r.request == Some(PatchCompleted(id, !Find(s.todos, id).value.completed))
    ensures |r.state.todos| == |s.todos|
    ensures forall i :: 0 <= i < |s.todos| ==>
              && r.state.todos[i].id == s.todos[i].id
              && r.state.todos[i].title == s.todos[i].title
              && r.state.todos[i].userId == s.todos[i].userId
    ensures HasId(s.todos, id) ==> forall i :: 0 <= i < |s.todos| ==>
              (r.state.todos[i].completed != s.todos[i].completed <==> s.todos[i].id == id)
    ensures UniqueIds(s.todos) ==> UniqueIds(r.state.todos)
    ensures r.state.isLoading == s.isLoading && r.state.error == s.error
  {
    match Find(s.todos, id)
    case None => Step(s, None)
    case Some(found) =>
      Step(s.(todos := PatchWhere(s.todos, id, FlipCompleted)), Some(PatchCompleted(id, !found.completed)))
  }

  /** Completion of `toggleTodo`: failure only reports; the flip is not undone. */
  function ToggleSettled(s: State, ok: bool): (r: State)
    ensures r.todos == s.todos && r.isLoading == s.isLoading
    ensures ok ==> r.error == s.error
    ensures !ok ==> r.error == Some(ToggleFailedMessage)
  {
    if ok then s else s.(error := Some(ToggleFailedMessage))
  }

  /**
    `deleteTodo`: no item carrying `id` survives, every other item survives
    in its order, and the delete request is always sent.
   */
  function DeleteTodo(s: State, id: int): (r: Step)
    ensures !HasId(r.state.todos, id)
    ensures forall t :: t in s.todos && t.id != id ==> t in r.state.todos
    ensures forall t :: t in r.state.todos ==> t in s.todos
    ensures IsSubsequence(r.state.todos, s.todos)
    ensures |r.state.todos| == |s.todos| - Occurrences(s.todos, id)
    ensures UniqueIds(s.todos) ==> UniqueIds(r.state.todos)
    ensures r.request == Some(Remove(id))
    ensures r.state.isLoading == s.isLoading && r.state.error == s.error
  {
    RemoveIdKeepsOrder(s.todos, id);
    RemoveIdKeepsUnique(s.todos, id);
    var kept := RemoveId(s.todos, id);
    assert forall i :: 0 <= i < |kept| ==> kept[i] in kept;
    Step(s.(todos := kept), Some(Remove(id)))
  }

  /** Completion of `deleteTodo`: failure only reports; the item is not restored. */
  function DeleteSettled(s: State, ok: bool): (r: State)
    ensures r.todos == s.todos && r.isLoading == s.isLoading
    ensures ok ==> r.error == s.error
    ensures !ok ==> r.error == Some(DeleteFailedMessage)
  {
    if ok then s else s.(error := Some(DeleteFailedMessage))
  }

  /**
    `editTodo`: every item carrying `id` takes the new title, nothing else
    changes, and the request is sent whether or not the id was present.
   */
  function EditTodo(s: State, id: int, title: string): (r: Step)
    ensures |r.state.todos| == |s.todos|
    ensures forall i :: 0 <= i < |s.todos| ==>
              && r.state.todos[i].id == s.todos[i].id
              && r.state.todos[i].completed == s.todos[i].completed
              && r.state.todos[i].userId == s.todos[i].userId
              && r.state.todos[i].title == (if s.todos[i].id == id then title else s.todos[i].title)
    ensures UniqueIds(s.todos) ==> UniqueIds(r.state.todos)
    ensures r.request == Some(PatchTitle(id, title))
    ensures r.state.isLoading == s.isLoading && r.state.error == s.error
  {
    Step(s.(todos := PatchWhere(s.todos, id, SetTitle(title))), Some(PatchTitle(id, title)))
  }

  /** Completion of `editTodo`: failure only reports; the old title is not restored. */
  function EditSettled(s: State, ok: bool): (r: State)
    ensures r.todos == s.todos && r.isLoading == s.isLoading
    ensures ok ==> r.error == s.error
    ensures !ok ==> r.error == Some(EditFailedMessage)
  {
    if ok then s else s.(error := Some(EditFailedMessage))
  }

  /** Everything that can happen to the provider, one transition each. */
  datatype Event =
    | Load
    | LoadDone(outcome: FetchOutcome)
    | Add(title: string, freshId: int)
    | AddDone(addedId: int, ok: bool)
    | Toggle(id: int)
    | ToggleDone(ok: bool)
    | Delete(id: int)
    | DeleteDone(ok: bool)
    | Edit(id: int, newTitle: string)
    | EditDone(ok: bool)
  {
    /** The events through which a failure is reported. */
    predicate Fails() {
      match this
      case LoadDone(outcome) => !outcome.Fetched?
      case AddDone(_, ok) => !ok
      case ToggleDone(ok) => !ok
      case DeleteDone(ok) => !ok
      case EditDone(ok) => !ok
      case _ => false
    }
  }

  /**
    One transition. `error` is written only by a reported failure and never
    cleared; `isLoading` is written only by the load phase.
   */
  function Next(s: State, e: Event): (r: State)
    ensures s.error.Some? ==> r.error.Some?
    ensures !e.Fails() ==> r.error == s.error
    ensures e.Fails() ==> r.error.Some?
    ensures !e.Load? && !e.LoadDone? ==> r.isLoading == s.isLoading
  {
    match e
    case Load => StartLoad(s).state
    case LoadDone(outcome) => LoadSettled(s, outcome)
    case Add(title, freshId) => AddTodo(s, title, freshId).state
    case AddDone(addedId, ok) => AddSettled(s, addedId, ok)
    case Toggle(id) => ToggleTodo(s, id).state
    case ToggleDone(ok) => ToggleSettled(s, ok)
    case Delete(id) => DeleteTodo(s, id).state
    case DeleteDone(ok) => DeleteSettled(s, ok)
    case Edit(id, newTitle) => EditTodo(s, id, newTitle).state
    case EditDone(ok) => EditSettled(s, ok)
  }

  /** The state after a sequence of events, in order. */
  function Run(s: State, events: seq<Event>): State
    decreases |events|
  {
    if |events| == 0 then s else Run(Next(s, events[0]), events[1..])
  }

}
