/** The todo store of `src/App.jsx`: an ordered sequence of records that the
    board replaces wholesale on every change, and the three status columns
    derived from it on every render. */
module Store {
  import Seqs

  datatype Option<T> = None | Some(value: T)

  /** One todo record. Status and priority are free strings, as in the
      source: the columns and the badge styling decide what a value means. */
  datatype Todo = Todo(
    id: int,
    title: string,
    description: string,
    date: string,
    status: string,
    priority: string,
    completed: bool)

  /** The fields handed to `addTodo`. `id` is `Some` when the caller's object
      carries its own `id` key. */
  datatype Draft = Draft(
    id: Option<int>,
    title: string,
    description: string,
    date: string,
    status: string,
    priority: string,
    completed: bool)

  const TODO: string := "Todo"
  const IN_PROGRESS: string := "InProgress"
  const COMPLETE: string := "Complete"

  /** A status that one of the three columns shows. */
  predicate KnownStatus(status: string) {
    status == TODO || status == IN_PROGRESS || status == COMPLETE
  }

  /** No record carries `id`. */
  predicate Absent(todos: seq<Todo>, id: int) {
    forall i :: 0 <= i < |todos| ==> todos[i].id != id
  }

  /** No two records share an id. The store does not enforce this. */
  predicate UniqueIds(todos: seq<Todo>) {
    forall i, j :: 0 <= i < j < |todos| ==> todos[i].id != todos[j].id
  }

  // ---------------------------------------------------------------- addTodo

  /** `{ id: now, ...draft }`: the draft's own `id`, when it has one, is
      spread after the clock value and wins. */
  function Created(draft: Draft, now: int): (t: Todo)
    ensures draft.id.None? ==> t.id == now
    ensures draft.id.Some? ==> t.id == draft.id.value
    ensures t.title == draft.title && t.description == draft.description && t.date == draft.date
    ensures t.status == draft.status && t.priority == draft.priority && t.completed == draft.completed
  {
    var id := match draft.id
      case Some(given) => given
      case None => now;
    Todo(id, draft.title, draft.description, draft.date, draft.status, draft.priority, draft.completed)
  }

  /** The new record goes in front; the previous sequence is the untouched tail. */
  function AddTodo(todos: seq<Todo>, draft: Draft, now: int): (r: seq<Todo>)
    ensures |r| == |todos| + 1
    ensures r[0] == Created(draft, now) && r[1..] == todos
  {
    [Created(draft, now)] + todos
  }

  /** Two creations in a row list the later one first. */
  lemma AddTwiceMostRecentFirst(todos: seq<Todo>, a: Draft, atA: int, b: Draft, atB: int)
    ensures AddTodo(AddTodo(todos, a, atA), b, atB) == [Created(b, atB), Created(a, atA)] + todos
  {
  }

  /** Adding keeps ids unique exactly when the new id is not already in use. */
  lemma AddKeepsUniqueIds(todos: seq<Todo>, draft: Draft, now: int)
    requires UniqueIds(todos)
    ensures UniqueIds(AddTodo(todos, draft, now)) <==> Absent(todos, Created(draft, now).id)
  {
  }

  /** The clock does not guarantee uniqueness: two drafts without their own
      id, created at the same millisecond, share an id, and one delete then
      removes both. */
  lemma SameClockDuplicates(a: Draft, b: Draft, now: int)
    requires a.id.None? && b.id.None?
    ensures !UniqueIds(AddTodo(AddTodo([], a, now), b, now))
    ensures DeleteTodo(AddTodo(AddTodo([], a, now), b, now), now) == []
  {
    var r := AddTodo(AddTodo([], a, now), b, now);
    assert r[0].id == r[1].id;
    Seqs.FilterKeepsNone(r, (t: Todo) => t.id != now);
  }

  // ------------------------------------------------------------- updateTodo

  /** Every record whose id matches is replaced by `todo` as a whole; every
      other record stays where it was. */
  function UpdateTodo(todos: seq<Todo>, id: int, todo: Todo): (r: seq<Todo>)
    ensures |r| == |todos|
    ensures forall i :: 0 <= i < |todos| && todos[i].id == id ==> r[i] == todo
    ensures forall i :: 0 <= i < |todos| && todos[i].id != id ==> r[i] == todos[i]
  {
    Seqs.Map(todos, (t: Todo) => if t.id == id then todo else t)
  }

  /** With no record carrying `id`, an update changes nothing. */
  lemma UpdateAbsent(todos: seq<Todo>, id: int, todo: Todo)
    requires Absent(todos, id)
    ensures UpdateTodo(todos, id, todo) == todos
  {
  }

  /** Repeating an update is the same as doing it once, whatever `todo.id` is. */
  lemma UpdateIdempotent(todos: seq<Todo>, id: int, todo: Todo)
    ensures UpdateTodo(UpdateTodo(todos, id, todo), id, todo) == UpdateTodo(todos, id, todo)
  {
  }

  /** With unique ids, updating the record at `k` replaces that slot only. */
  lemma UpdateAt(todos: seq<Todo>, k: int, todo: Todo)
    requires UniqueIds(todos) && 0 <= k < |todos|
    ensures UpdateTodo(todos, todos[k].id, todo) == todos[..k] + [todo] + todos[k + 1..]
  {
  }

  /** Unique ids survive an update whose record keeps the id or brings an unused one. */
  lemma UpdateKeepsUniqueIds(todos: seq<Todo>, id: int, todo: Todo)
    requires UniqueIds(todos)
    requires todo.id == id || Absent(todos, todo.id)
    ensures UniqueIds(UpdateTodo(todos, id, todo))
  {
  }

  // ------------------------------------------------------------- deleteTodo

  /** Exactly the records without `id` remain. */
  function DeleteTodo(todos: seq<Todo>, id: int): (r: seq<Todo>)
    ensures forall i :: 0 <= i < |r| ==> r[i].id != id && r[i] in todos
    ensures forall i :: 0 <= i < |todos| && todos[i].id != id ==> todos[i] in r
  {
    Seqs.Filter(todos, (t: Todo) => t.id != id)
  }

  /** Deleting keeps the remaining records in their original relative order
      and with their multiplicities, and drops every record carrying `id`. */
  lemma DeleteKeepsOrder(todos: seq<Todo>, id: int, t: Todo)
    ensures Seqs.IsSubsequence(DeleteTodo(todos, id), todos)
    ensures multiset(DeleteTodo(todos, id))[t] == if t.id == id then 0 else multiset(todos)[t]
  {
    Seqs.FilterIsSubsequence(todos, (u: Todo) => u.id != id);
    Seqs.FilterCount(todos, (u: Todo) => u.id != id, t);
  }

  /** With no record carrying `id`, a delete changes nothing. */
  lemma DeleteAbsent(todos: seq<Todo>, id: int)
    requires Absent(todos, id)
    ensures DeleteTodo(todos, id) == todos
  {
    Seqs.FilterKeepsAll(todos, (t: Todo) => t.id != id);
  }

  /** With unique ids, deleting the id at `k` removes that one slot. */
  lemma DeleteAt(todos: seq<Todo>, k: int)
    requires UniqueIds(todos) && 0 <= k < |todos|
    ensures DeleteTodo(todos, todos[k].id) == todos[..k] + todos[k + 1..]
    ensures |DeleteTodo(todos, todos[k].id)| == |todos| - 1
  {
    var id := todos[k].id;
    var keep := (t: Todo) => t.id != id;
    assert todos == todos[..k] + ([todos[k]] + todos[k + 1..]);
    Seqs.FilterConcat(todos[..k], [todos[k]] + todos[k + 1..], keep);
    Seqs.FilterConcat([todos[k]], todos[k + 1..], keep);
    Seqs.FilterKeepsAll(todos[..k], keep);
    Seqs.FilterKeepsAll(todos[k + 1..], keep);
    assert Seqs.Filter([todos[k]], keep) == [];
  }

  /** Deleting never introduces a duplicate id. */
  lemma {:induction false} DeleteKeepsUniqueIds(todos: seq<Todo>, id: int)
    requires UniqueIds(todos)
    ensures UniqueIds(DeleteTodo(todos, id))
  {
    if todos != [] {
      var rest := DeleteTodo(todos[1..], id);
      DeleteKeepsUniqueIds(todos[1..], id);
      if todos[0].id != id {
        var r := DeleteTodo(todos, id);
        assert r == [todos[0]] + rest;
        forall j | 0 < j < |r|
          ensures r[0].id != r[j].id
        {
          var m :| 0 <= m < |todos[1..]| && todos[1..][m] == rest[j - 1];
          assert todos[m + 1] == r[j];
        }
      }
    }
  }

  // --------------------------------------------------------- toggleComplete

  /** Only `completed` changes, and only on records whose id matches. */
  function ToggleComplete(todos: seq<Todo>, id: int): (r: seq<Todo>)
    ensures |r| == |todos|
    ensures forall i :: 0 <= i < |todos| ==> r[i].(completed := todos[i].completed) == todos[i]
    ensures forall i :: 0 <= i < |todos| ==> r[i].completed == (todos[i].completed != (todos[i].id == id))
  {
    Seqs.Map(todos, (t: Todo) => if t.id == id then t.(completed := !t.completed) else t)
  }

  /** Toggling twice with the same id restores the sequence. */
  lemma ToggleTwice(todos: seq<Todo>, id: int)
    ensures ToggleComplete(ToggleComplete(todos, id), id) == todos
  {
  }

  /** With no record carrying `id`, a toggle changes nothing. */
  lemma ToggleAbsent(todos: seq<Todo>, id: int)
    requires Absent(todos, id)
    ensures ToggleComplete(todos, id) == todos
  {
  }

  // ---------------------------------------------------------------- columns

  /** `todos.filter((todo) => todo.status === status)`. */
  function Column(todos: seq<Todo>, status: string): (r: seq<Todo>)
    ensures forall i :: 0 <= i < |r| ==> r[i] in todos && r[i].status == status
    ensures forall i :: 0 <= i < |todos| && todos[i].status == status ==> todos[i] in r
  {
    Seqs.Filter(todos, (t: Todo) => t.status == status)
  }

  /** A column keeps the store's order and the multiplicity of each record
      of its status. */
  lemma ColumnKeepsOrder(todos: seq<Todo>, status: string, t: Todo)
    ensures Seqs.IsSubsequence(Column(todos, status), todos)
    ensures multiset(Column(todos, status))[t] == if t.status == status then multiset(todos)[t] else 0
  {
    Seqs.FilterIsSubsequence(todos, (u: Todo) => u.status == status);
    Seqs.FilterCount(todos, (u: Todo) => u.status == status, t);
  }

  /** When every status is known, the three columns split the store: each
      record lands in exactly one of them, and the sizes add up. */
  lemma {:induction false} ColumnsPartition(todos: seq<Todo>)
    requires forall i :: 0 <= i < |todos| ==> KnownStatus(todos[i].status)
    ensures multiset(Column(todos, TODO)) + multiset(Column(todos, IN_PROGRESS)) + multiset(Column(todos, COMPLETE))
            == multiset(todos)
    ensures |Column(todos, TODO)| + |Column(todos, IN_PROGRESS)| + |Column(todos, COMPLETE)| == |todos|
  {
    if todos != [] {
      ColumnsPartition(todos[1..]);
      assert todos == [todos[0]] + todos[1..];
      assert multiset(todos) == multiset([todos[0]]) + multiset(todos[1..]);
    }
  }

  /** A record shows in the column of its status and in no other; a record
      whose status is none of the three shows nowhere. */
  lemma ColumnOf(todos: seq<Todo>, k: int)
    requires 0 <= k < |todos|
    ensures todos[k] in Column(todos, TODO) <==> todos[k].status == TODO
    ensures todos[k] in Column(todos, IN_PROGRESS) <==> todos[k].status == IN_PROGRESS
    ensures todos[k] in Column(todos, COMPLETE) <==> todos[k].status == COMPLETE
  {
  }

  /** Toggling completion never moves a record between columns. */
  lemma {:induction false} ToggleKeepsColumns(todos: seq<Todo>, id: int, status: string)
    ensures Column(ToggleComplete(todos, id), status) == ToggleComplete(Column(todos, status), id)
  {
    if todos != [] {
      ToggleKeepsColumns(todos[1..], id, status);
      assert ToggleComplete(todos, id)[1..] == ToggleComplete(todos[1..], id);
    }
  }
}
