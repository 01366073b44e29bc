/** The todo items the client mirrors from the server, and the three
    list updates its handlers apply: replace-by-id (the `todos.map` of the
    toggle and edit handlers) and filter-by-id (the `todos.filter` of the
    delete handler). Appending and full replacement are plain sequence
    operations and live with the handlers. */
module TodoList {

  /** Server-assigned identifier; compared with `===`. */
  type TodoId = int

  datatype Todo = Todo(id: TodoId, title: string, completed: bool)

  /** The ids that occur in a list. */
  function Ids(todos: seq<Todo>): set<TodoId> {
    set t | t in todos :: t.id
  }

  /** How many items of the list carry the given id. */
  function CountId(todos: seq<Todo>, id: TodoId): (n: nat)
    ensures n <= |todos|
    ensures n == 0 <==> id !in Ids(todos)
  {
    if todos == [] then 0
    else
      assert todos == [todos[0]] + todos[1..];
      assert Ids(todos) == {todos[0].id} + Ids(todos[1..]);
      (if todos[0].id == id then 1 else 0) + CountId(todos[1..], id)
  }

  /** `todos.map(t => t.id === id ? updated : t)`: every item with the id
      becomes the server's object, every other item stays where it was. */
  function ReplaceById(todos: seq<Todo>, id: TodoId, updated: Todo): (r: seq<Todo>)
    ensures |r| == |todos|
    ensures forall i :: 0 <= i < |todos| && todos[i].id == id ==> r[i] == updated
    ensures forall i :: 0 <= i < |todos| && todos[i].id != id ==> r[i] == todos[i]
  {
    if todos == [] then []
    else
      [if todos[0].id == id then updated else todos[0]] + ReplaceById(todos[1..], id, updated)
  }

  /** `todos.filter(t => t.id !== id)`: no item with the id is left and
      the list shrinks by exactly the number of matches. Which items
      survive is `RemoveByIdMembers`. */
  function RemoveById(todos: seq<Todo>, id: TodoId): (r: seq<Todo>)
    ensures |r| == |todos| - CountId(todos, id)
    ensures id !in Ids(r)
  {
    if todos == [] then []
    else
      var rest := RemoveById(todos[1..], id);
      var head := if todos[0].id == id then [] else [todos[0]];
      assert Ids(head + rest) == Ids(head) + Ids(rest);
      head + rest
  }

  /** The survivors of filter-by-id are exactly the items with another id. */
  lemma {:induction false} RemoveByIdMembers(todos: seq<Todo>, id: TodoId)
    ensures forall t :: t in RemoveById(todos, id) <==> t in todos && t.id != id
  {
    if todos != [] {
      assert todos == [todos[0]] + todos[1..];
      RemoveByIdMembers(todos[1..], id);
    }
  }

  /** Filtering works piecewise, so the survivors keep their relative order. */
  lemma {:induction false} RemoveByIdAppend(a: seq<Todo>, b: seq<Todo>, id: TodoId)
    ensures RemoveById(a + b, id) == RemoveById(a, id) + RemoveById(b, id)
  {
    if a == [] {
      assert a + b == b;
    } else {
      assert (a + b)[1..] == a[1..] + b;
      RemoveByIdAppend(a[1..], b, id);
    }
  }

  /** Filtering out an id that does not occur changes nothing. */
  lemma {:induction false} RemoveByIdAbsent(todos: seq<Todo>, id: TodoId)
    requires id !in Ids(todos)
    ensures RemoveById(todos, id) == todos
  {
    if todos != [] {
      assert todos[0] in todos;
      assert Ids(todos[1..]) <= Ids(todos) by {
        forall x | x in Ids(todos[1..]) ensures x in Ids(todos) {
          var t :| t in todos[1..] && t.id == x;
          assert t in todos;
        }
      }
      RemoveByIdAbsent(todos[1..], id);
    }
  }

  /** Filtering by an id twice is the same as filtering once. */
  lemma RemoveByIdIdempotent(todos: seq<Todo>, id: TodoId)
    ensures RemoveById(RemoveById(todos, id), id) == RemoveById(todos, id)
  {
    RemoveByIdAbsent(RemoveById(todos, id), id);
  }

  /** Replacing an id that does not occur changes nothing. */
  lemma ReplaceByIdAbsent(todos: seq<Todo>, id: TodoId, updated: Todo)
    requires id !in Ids(todos)
    ensures ReplaceById(todos, id, updated) == todos
  {
  }

  /** When the server echoes the id, replacing by id keeps every position's id. */
  lemma ReplaceByIdKeepsIds(todos: seq<Todo>, id: TodoId, updated: Todo)
    requires updated.id == id
    ensures forall i :: 0 <= i < |todos| ==> ReplaceById(todos, id, updated)[i].id == todos[i].id
    ensures Ids(ReplaceById(todos, id, updated)) == Ids(todos)
  {
  }

  /** Deleting an item after it was updated in place removes the same
      items as deleting it right away, provided the server echoed its id. */
  lemma {:induction false} RemoveAfterReplace(todos: seq<Todo>, id: TodoId, updated: Todo)
    requires updated.id == id
    ensures RemoveById(ReplaceById(todos, id, updated), id) == RemoveById(todos, id)
  {
    if todos != [] {
      var r := ReplaceById(todos, id, updated);
      assert r[1..] == ReplaceById(todos[1..], id, updated);
      RemoveAfterReplace(todos[1..], id, updated);
    }
  }

  /** Appending an item with a fresh id and then deleting that id gives
      back the original list. */
  lemma AppendThenRemove(todos: seq<Todo>, t: Todo)
    requires t.id !in Ids(todos)
    ensures RemoveById(todos + [t], t.id) == todos
  {
    RemoveByIdAppend(todos, [t], t.id);
    RemoveByIdAbsent(todos, t.id);
    assert RemoveById([t], t.id) == [];
  }
}
