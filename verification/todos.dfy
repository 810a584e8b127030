/**
  The todo record, the two list updates the provider applies to its
  collection (an in-place `map` that patches the items carrying one id and a
  `filter` that drops them), and the `find` lookup behind its presence test.
 */
module Todos {

  import opened Wrappers

  /** One todo item. `userId` is optional: fetched items may lack it. */
  datatype Todo = Todo(id: int, title: string, completed: bool, userId: Option<int>)

  /** True iff some item of `todos` carries `id`. */
  predicate HasId(todos: seq<Todo>, id: int) {
    exists i :: 0 <= i < |todos| && todos[i].id == id
  }

  /** Identifiers are pairwise distinct: the collection's one intended invariant. */
  predicate UniqueIds(todos: seq<Todo>) {
    forall i, j :: 0 <= i < j < |todos| ==> todos[i].id != todos[j].id
  }

  /** The number of items that carry `id`. */
  function Occurrences(todos: seq<Todo>, id: int): nat {
    if |todos| == 0 then 0
    else (if todos[0].id == id then 1 else 0) + Occurrences(todos[1..], id)
  }

  /** `r` is `s` with some items dropped and the rest kept in their order. */
  ghost predicate IsSubsequence(r: seq<Todo>, s: seq<Todo>)
    decreases |s|
  {
    if |r| == 0 then true
    else if |s| == 0 then false
    else if r[0] == s[0] then IsSubsequence(r[1..], s[1..])
    else IsSubsequence(r, s[1..])
  }

  /** The two object spreads the provider applies to a matching item. */
  datatype Patch = FlipCompleted | SetTitle(title: string)

  function Patched(p: Patch, t: Todo): Todo {
    match p
    case FlipCompleted => t.(completed := !t.completed)
    case SetTitle(title) => t.(title := title)
  }

  /** The first item carrying `id`, or None when there is none. */
  function Find(todos: seq<Todo>, id: int): (r: Option<Todo>)
    ensures r.None? <==> !HasId(todos, id)
    ensures r.Some? ==> r.value.id == id && r.value in todos
    ensures r.Some? ==> exists i :: 0 <= i < |todos| && todos[i] == r.value && !HasId(todos[..i], id)
  {
    if |todos| == 0 then None
    else if todos[0].id == id then
      assert todos[..0] == [];
      Some(todos[0])
    else
      var r := Find(todos[1..], id);
      if r.Some? then
        var i :| 0 <= i < |todos[1..]| && todos[1..][i] == r.value && !HasId(todos[1..][..i], id);
        assert todos[..i + 1] == [todos[0]] + todos[1..][..i];
        r
      else
        assert forall k :: 1 <= k < |todos| ==> todos[k] == todos[1..][k - 1];
        r
  }

  /**
    The list with every item carrying `id` patched and every other item left
    as it was, in the same order.
   */
  function PatchWhere(todos: seq<Todo>, id: int, p: Patch): (r: seq<Todo>)
    ensures |r| == |todos|
    ensures forall i :: 0 <= i < |todos| && todos[i].id == id ==> r[i] == Patched(p, todos[i])
    ensures forall i :: 0 <= i < |todos| && todos[i].id != id ==> r[i] == todos[i]
  {
    if |todos| == 0 then []
    else
      var head := if todos[0].id == id then Patched(p, todos[0]) else todos[0];
      [head] + PatchWhere(todos[1..], id, p)
  }

  /** Flipping the flags of the same id twice leaves the list as it was. */
  lemma FlipTwice(todos: seq<Todo>, id: int)
    ensures PatchWhere(PatchWhere(todos, id, FlipCompleted), id, FlipCompleted) == todos
  {
  }

  /**
    The items not carrying `id`, in their original order: the list shrinks by
    the number of items that carried it.
   */
  function RemoveId(todos: seq<Todo>, id: int): (r: seq<Todo>)
    ensures forall t :: t in r <==> t in todos && t.id != id
    ensures |r| == |todos| - Occurrences(todos, id)
  {
    if |todos| == 0 then []
    else if todos[0].id == id then RemoveId(todos[1..], id)
    else [todos[0]] + RemoveId(todos[1..], id)
  }

  /** The filter keeps the survivors in their original relative order. */
  lemma {:induction false} RemoveIdKeepsOrder(todos: seq<Todo>, id: int)
    ensures IsSubsequence(RemoveId(todos, id), todos)
    decreases |todos|
  {
    if |todos| > 0 {
      var rest := RemoveId(todos[1..], id);
      RemoveIdKeepsOrder(todos[1..], id);
      if todos[0].id == id {
        if |rest| > 0 {
          assert rest[0] in rest;
        }
      } else {
        assert ([todos[0]] + rest)[1..] == rest;
      }
    }
  }

  /** Filtering by an id no item carries leaves the list as it was. */
  lemma {:induction false} RemoveAbsentId(todos: seq<Todo>, id: int)
    requires !HasId(todos, id)
    ensures RemoveId(todos, id) == todos
    decreases |todos|
  {
    if |todos| > 0 {
      assert todos[0].id != id;
      assert !HasId(todos[1..], id) by {
        forall i | 0 <= i < |todos[1..]| ensures todos[1..][i].id != id {
          assert todos[1..][i] == todos[i + 1];
        }
      }
      RemoveAbsentId(todos[1..], id);
      assert todos == [todos[0]] + todos[1..];
    }
  }

  /** An id occurs at least once exactly when the list carries it. */
  lemma {:induction false} OccurrencesPositive(todos: seq<Todo>, id: int)
    ensures Occurrences(todos, id) > 0 <==> HasId(todos, id)
    decreases |todos|
  {
    if |todos| > 0 {
      OccurrencesPositive(todos[1..], id);
      if HasId(todos[1..], id) {
        var i :| 0 <= i < |todos[1..]| && todos[1..][i].id == id;
        assert todos[i + 1].id == id;
      }
      if HasId(todos, id) && todos[0].id != id {
        var i :| 0 <= i < |todos| && todos[i].id == id;
        assert todos[1..][i - 1].id == id;
      }
    }
  }

  /** With pairwise-distinct ids every id occurs at most once. */
  lemma {:induction false} UniqueOccursAtMostOnce(todos: seq<Todo>, id: int)
    requires UniqueIds(todos)
    ensures Occurrences(todos, id) <= 1
    decreases |todos|
  {
    if |todos| > 0 {
      assert UniqueIds(todos[1..]) by {
        forall i, j | 0 <= i < j < |todos[1..]| ensures todos[1..][i].id != todos[1..][j].id {
          assert todos[1..][i] == todos[i + 1] && todos[1..][j] == todos[j + 1];
        }
      }
      UniqueOccursAtMostOnce(todos[1..], id);
      if todos[0].id == id {
        assert !HasId(todos[1..], id) by {
          forall i | 0 <= i < |todos[1..]| ensures todos[1..][i].id != id {
            assert todos[1..][i] == todos[i + 1];
          }
        }
        OccurrencesPositive(todos[1..], id);
      }
    }
  }

  /** Dropping items cannot make two ids collide. */
  lemma {:induction false} RemoveIdKeepsUnique(todos: seq<Todo>, id: int)
    ensures UniqueIds(todos) ==> UniqueIds(RemoveId(todos, id))
    decreases |todos|
  {
    if |todos| > 0 && UniqueIds(todos) {
      var tail := todos[1..];
      assert UniqueIds(tail) by {
        forall i, j | 0 <= i < j < |tail| ensures tail[i].id != tail[j].id {
          assert tail[i] == todos[i + 1] && tail[j] == todos[j + 1];
        }
      }
      RemoveIdKeepsUnique(tail, id);
      if todos[0].id != id {
        var rest := RemoveId(tail, id);
        var r := [todos[0]] + rest;
        forall i, j | 0 <= i < j < |r| ensures r[i].id != r[j].id {
          if i == 0 {
            assert r[j] == rest[j - 1] && rest[j - 1] in rest;
            var k :| 0 <= k < |tail| && tail[k] == rest[j - 1];
            assert tail[k] == todos[k + 1];
          } else {
            assert r[i] == rest[i - 1] && r[j] == rest[j - 1];
          }
        }
      }
    }
  }

}
