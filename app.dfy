/** The `App` component of `src/App.jsx` as state: its two hooks, the
    modal flag and the todo sequence, each replaced wholesale by a setter. */
module App {
  import Store

  class AppState {
    var showTaskForm: bool
    var todos: seq<Store.Todo>

    /** Both hooks start from their `useState` initial values. */
    constructor ()
      ensures !showTaskForm && todos == []
    {
      showTaskForm := false;
      todos := [];
    }

    /** "Create Task" opens the modal, whether or not it was open. */
    method HandleCreateTaskClick()
      modifies this`showTaskForm
      ensures showTaskForm
    {
      showTaskForm := true;
    }

    /** The form's close callback shuts the modal, whether or not it was open. */
    method HandleCloseModal()
      modifies this`showTaskForm
      ensures !showTaskForm
    {
      showTaskForm := false;
    }

    /** `addTodo`, with the clock reading passed in as `now`. */
    method AddTodo(draft: Store.Draft, now: int)
      modifies this`todos
      ensures todos == Store.AddTodo(old(todos), draft, now)
      ensures old(Store.UniqueIds(todos)) && Store.Absent(old(todos), Store.Created(draft, now).id)
              ==> Store.UniqueIds(todos)
    {
      if Store.UniqueIds(todos) {
        Store.AddKeepsUniqueIds(todos, draft, now);
      }
      todos := Store.AddTodo(todos, draft, now);
    }

    /** `updateTodo`. */
    method UpdateTodo(id: int, todo: Store.Todo)
      modifies this`todos
      ensures todos == Store.UpdateTodo(old(todos), id, todo)
      ensures old(Store.UniqueIds(todos)) && (todo.id == id || Store.Absent(old(todos), todo.id))
              ==> Store.UniqueIds(todos)
    {
      if Store.UniqueIds(todos) && (todo.id == id || Store.Absent(todos, todo.id)) {
        Store.UpdateKeepsUniqueIds(todos, id, todo);
      }
      todos := Store.UpdateTodo(todos, id, todo);
    }

    /** `deleteTodo`. */
    method DeleteTodo(id: int)
      modifies this`todos
      ensures todos == Store.DeleteTodo(old(todos), id)
      ensures old(Store.UniqueIds(todos)) ==> Store.UniqueIds(todos)
    {
      if Store.UniqueIds(todos) {
        Store.DeleteKeepsUniqueIds(todos, id);
      }
      todos := Store.DeleteTodo(todos, id);
    }

    /** `toggleComplete`: ids are untouched, so uniqueness carries over. */
    method ToggleComplete(id: int)
      modifies this`todos
      ensures todos == Store.ToggleComplete(old(todos), id)
      ensures old(Store.UniqueIds(todos)) ==> Store.UniqueIds(todos)
    {
      todos := Store.ToggleComplete(todos, id);
    }

    /** The three columns rendered from the current sequence, each in store order. */
    function TodoTasks(): (r: seq<Store.Todo>)
      reads this
      ensures forall i :: 0 <= i < |r| ==> r[i] in todos && r[i].status == Store.TODO
      ensures forall i :: 0 <= i < |todos| && todos[i].status == Store.TODO ==> todos[i] in r
    {
      Store.Column(todos, Store.TODO)
    }

    function InProgressTasks(): (r: seq<Store.Todo>)
      reads this
      ensures forall i :: 0 <= i < |r| ==> r[i] in todos && r[i].status == Store.IN_PROGRESS
      ensures forall i :: 0 <= i < |todos| && todos[i].status == Store.IN_PROGRESS ==> todos[i] in r
    {
      Store.Column(todos, Store.IN_PROGRESS)
    }

    function CompletedTasks(): (r: seq<Store.Todo>)
      reads this
      ensures forall i :: 0 <= i < |r| ==> r[i] in todos && r[i].status == Store.COMPLETE
      ensures forall i :: 0 <= i < |todos| && todos[i].status == Store.COMPLETE ==> todos[i] in r
    {
      Store.Column(todos, Store.COMPLETE)
    }
  }
}
