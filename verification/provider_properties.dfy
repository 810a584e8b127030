/**
  Facts relating the provider's transitions to one another: what an
  optimistic update followed by its completion leaves behind, which updates
  undo or supersede each other, and what holds over any run of events.
 */
module ProviderProperties {

  import opened Wrappers
  import opened Todos
  import opened Provider

  /** Adding with a fresh id and then failing restores the list exactly and reports the failure. */
  lemma AddRollbackRestores(s: State, title: string, freshId: int)
    requires !HasId(s.todos, freshId)
    ensures AddSettled(AddTodo(s, title, freshId).state, freshId, false) == s.(error := Some(AddFailedMessage))
  {
    var added := AddTodo(s, title, freshId).state.todos;
    assert added == [added[0]] + s.todos;
    RemoveAbsentId(s.todos, freshId);
    assert RemoveId(added, freshId) == RemoveId(s.todos, freshId);
  }

  /**
    When the id was already in use, the rollback also removes the older item
    that carried it: the list ends shorter than it started.
   */
  lemma AddRollbackCollision(s: State, title: string, freshId: int)
    requires HasId(s.todos, freshId)
    ensures var r := AddSettled(AddTodo(s, title, freshId).state, freshId, false);
            |r.todos| < |s.todos| && !HasId(r.todos, freshId)
  {
    var added := AddTodo(s, title, freshId).state.todos;
    assert added == [added[0]] + s.todos;
    assert RemoveId(added, freshId) == RemoveId(s.todos, freshId);
    OccurrencesPositive(s.todos, freshId);
  }

  /** On a list with distinct ids, adding keeps the ids distinct exactly when the new id is fresh. */
  lemma AddKeepsUniqueIff(s: State, title: string, freshId: int)
    requires UniqueIds(s.todos)
    ensures UniqueIds(AddTodo(s, title, freshId).state.todos) <==> !HasId(s.todos, freshId)
  {
  }

  /** Toggling the same id twice gives back the original state. */
  lemma ToggleTwiceRestores(s: State, id: int)
    ensures ToggleTodo(ToggleTodo(s, id).state, id).state == s
  {
    if HasId(s.todos, id) {
      var flipped := PatchWhere(s.todos, id, FlipCompleted);
      assert ToggleTodo(s, id).state == s.(todos := flipped);
      var i :| 0 <= i < |s.todos| && s.todos[i].id == id;
      assert flipped[i].id == id;
      assert HasId(flipped, id);
      FlipTwice(s.todos, id);
    }
  }

  /**
    With distinct ids, the flag the toggle request carries is the flag the
    list now shows for that item.
   */
  lemma ToggleRequestMatchesList(s: State, id: int, i: int)
    requires UniqueIds(s.todos)
    requires 0 <= i < |s.todos| && s.todos[i].id == id
    ensures ToggleTodo(s, id).request == Some(PatchCompleted(id, ToggleTodo(s, id).state.todos[i].completed))
  {
  }

  /** A failed toggle reports the failure but leaves the flipped flag in place. */
  lemma ToggleFailureKeepsFlip(s: State, id: int)
    requires HasId(s.todos, id)
    ensures var t := ToggleTodo(s, id).state;
            var r := ToggleSettled(t, false);
            r.todos == t.todos && r.todos != s.todos && r.error == Some(ToggleFailedMessage)
  {
  }

  /** A failed delete reports the failure but does not bring the item back. */
  lemma DeleteFailureKeepsRemoval(s: State, id: int)
    requires HasId(s.todos, id)
    ensures var r := DeleteSettled(DeleteTodo(s, id).state, false);
            !HasId(r.todos, id) && r.todos != s.todos && r.error == Some(DeleteFailedMessage)
  {
  }

  /** With distinct ids, deleting a present id shrinks the list by exactly one. */
  lemma DeleteUniqueShrinksByOne(s: State, id: int)
    requires UniqueIds(s.todos) && HasId(s.todos, id)
    ensures |DeleteTodo(s, id).state.todos| == |s.todos| - 1
  {
    UniqueOccursAtMostOnce(s.todos, id);
    OccurrencesPositive(s.todos, id);
  }

  /** Deleting an id no item carries leaves the state as it was (the request is still sent). */
  lemma DeleteAbsentKeepsState(s: State, id: int)
    requires !HasId(s.todos, id)
    ensures DeleteTodo(s, id).state == s
    ensures DeleteTodo(s, id).request == Some(Remove(id))
  {
    RemoveAbsentId(s.todos, id);
  }

  /** Editing an id no item carries leaves the state as it was (the request is still sent). */
  lemma EditAbsentKeepsState(s: State, id: int, title: string)
    requires !HasId(s.todos, id)
    ensures EditTodo(s, id, title).state == s
    ensures EditTodo(s, id, title).request == Some(PatchTitle(id, title))
  {
  }

  /** Of two edits to the same id, the later one decides the list. */
  lemma EditLastWins(s: State, id: int, first: string, second: string)
    ensures EditTodo(EditTodo(s, id, first).state, id, second).state == EditTodo(s, id, second).state
  {
    var a := EditTodo(EditTodo(s, id, first).state, id, second).state;
    var b := EditTodo(s, id, second).state;
    assert a.todos == b.todos;
  }

  /** A failed edit reports the failure but keeps the new title. */
  lemma EditFailureKeepsTitle(s: State, id: int, title: string, i: int)
    requires 0 <= i < |s.todos| && s.todos[i].id == id
    ensures var r := EditSettled(EditTodo(s, id, title).state, false);
            r.todos[i].title == title && r.error == Some(EditFailedMessage)
  {
  }

  /**
    The initial fetch from a freshly mounted provider: loading ends either
    way; success shows the page with no error; failure leaves the list empty
    and sets an error.
   */
  lemma InitialLoad(outcome: FetchOutcome)
    ensures StartLoad(Initial()).state.isLoading
    ensures var r := LoadSettled(StartLoad(Initial()).state, outcome);
            && !r.isLoading
            && (outcome.Fetched? ==> r.todos == outcome.data && r.error.None?)
            && (!outcome.Fetched? ==> r.todos == [] && r.error.Some?)
  {
  }

  /** While the fetch has not settled, the loading flag stays up whatever else happens. */
  lemma {:induction false} LoadingWhilePending(s: State, events: seq<Event>)
    requires s.isLoading
    requires forall k :: 0 <= k < |events| ==> !events[k].LoadDone?
    ensures Run(s, events).isLoading
    decreases |events|
  {
    if |events| > 0 {
      LoadingWhilePending(Next(s, events[0]), events[1..]);
    }
  }

  /** Once set, `error` is never cleared by any run of events. */
  lemma {:induction false} ErrorStaysSet(s: State, events: seq<Event>)
    requires s.error.Some?
    ensures Run(s, events).error.Some?
    decreases |events|
  {
    if |events| > 0 {
      ErrorStaysSet(Next(s, events[0]), events[1..]);
    }
  }

  /** A run in which nothing fails leaves `error` exactly as it was. */
  lemma {:induction false} ErrorOnlyFromFailures(s: State, events: seq<Event>)
    requires forall k :: 0 <= k < |events| ==> !events[k].Fails()
    ensures Run(s, events).error == s.error
    decreases |events|
  {
    if |events| > 0 {
      ErrorOnlyFromFailures(Next(s, events[0]), events[1..]);
    }
  }

  /**
    Distinct ids stay distinct across one transition, provided an add uses a
    fresh id and a fetched page itself has distinct ids.
   */
  lemma NextKeepsUnique(s: State, e: Event)
    requires UniqueIds(s.todos)
    requires e.Add? ==> !HasId(s.todos, e.freshId)
    requires e.LoadDone? && e.outcome.Fetched? ==> UniqueIds(e.outcome.data)
    ensures UniqueIds(Next(s, e).todos)
  {
    match e
    case Add(title, freshId) => AddKeepsUniqueIff(s, title, freshId);
    case AddDone(addedId, ok) => RemoveIdKeepsUnique(s.todos, addedId);
    case _ =>
  }

}
