/** One card of the board, `TodoList` in `src/components/TodoList.jsx`:
    local copies of a record's fields, two picker flags, and the calls it
    makes into the store through the todo context. */
module TodoCard {
  import Store

  /** The values the pickers list, in the order they are rendered. */
  const PRIORITY_OPTIONS: seq<string> := ["Low", "Medium", "High"]
  const STATUS_OPTIONS: seq<string> := [Store.TODO, Store.IN_PROGRESS, Store.COMPLETE]

  /** A call the card makes into the store. */
  datatype ContextCall = Update(id: int, todo: Store.Todo) | Delete(id: int)

  /** `getPriorityStyles`: a badge class for each listed priority, nothing otherwise. */
  function PriorityStyles(prio: string): (cls: string)
    ensures cls != "" <==> prio in PRIORITY_OPTIONS
  {
    if prio == "High" then "bg-[#FFECE1] text-[#FF5C00]"
    else if prio == "Medium" then "bg-[#FFECE1] text-[#FF00B8]"
    else if prio == "Low" then "bg-[#F0FFDD] text-[#8A8A8A]"
    else ""
  }

  /** Every status the picker offers is one a column shows, and back. */
  lemma StatusOptionsAreColumns(status: string)
    ensures status in STATUS_OPTIONS <==> Store.KnownStatus(status)
  {
  }

  /** After a status pick is applied to the store, every record with the
      card's id is the picked record, so it sits in the picked column and in
      no other; nothing else in the store changes. */
  lemma StatusPickMovesRecord(todos: seq<Store.Todo>, k: int, status: string)
    requires 0 <= k < |todos|
    ensures var moved := todos[k].(status := status);
            var after := Store.UpdateTodo(todos, todos[k].id, moved);
            && moved in Store.Column(after, status)
            && (forall c, t :: c != status && t in Store.Column(after, c) ==> t.id != todos[k].id)
            && (forall i :: 0 <= i < |todos| && todos[i].id != todos[k].id ==> after[i] == todos[i])
  {
  }

  class Card {
    /** The incoming record (the `todo` prop). */
    var todo: Store.Todo
    var title: string
    var description: string
    var date: string
    var status: string
    var priority: string
    var showPriorityDropdown: bool
    var showStatusDropdown: bool

    /** A completed record has both pickers shut. */
    ghost predicate PickersLocked()
      reads this
    {
      todo.completed ==> !showPriorityDropdown && !showStatusDropdown
    }

    /** Mounting seeds the five local fields from the record; both pickers are shut. */
    constructor (todo: Store.Todo)
      ensures this.todo == todo
      ensures title == todo.title && description == todo.description && date == todo.date
      ensures status == todo.status && priority == todo.priority
      ensures !showPriorityDropdown && !showStatusDropdown
      ensures PickersLocked()
    {
      this.todo := todo;
      title := todo.title;
      description := todo.description;
      date := todo.date;
      status := todo.status;
      priority := todo.priority;
      showPriorityDropdown := false;
      showStatusDropdown := false;
    }

    /** A re-render hands in a new record; the local copies are not reseeded. */
    method ReceiveTodo(next: Store.Todo)
      modifies this`todo
      ensures todo == next
      ensures !next.completed || (!showPriorityDropdown && !showStatusDropdown) ==> PickersLocked()
    {
      todo := next;
    }

    /** `handlePriorityChange`: the payload is the incoming record with the
        new priority, so local title, description and date edits are not in it. */
    method HandlePriorityChange(newPriority: string) returns (call: ContextCall)
      modifies this`priority, this`showPriorityDropdown
      ensures priority == newPriority && !showPriorityDropdown
      ensures call == Update(todo.id, todo.(priority := newPriority))
      ensures old(PickersLocked()) ==> PickersLocked()
    {
      priority := newPriority;
      showPriorityDropdown := false;
      call := Update(todo.id, todo.(priority := newPriority));
    }

    /** `handleStatusChange`: the payload is the incoming record with the new status. */
    method HandleStatusChange(newStatus: string) returns (call: ContextCall)
      modifies this`status, this`showStatusDropdown
      ensures status == newStatus && !showStatusDropdown
      ensures call == Update(todo.id, todo.(status := newStatus))
      ensures old(PickersLocked()) ==> PickersLocked()
    {
      status := newStatus;
      showStatusDropdown := false;
      call := Update(todo.id, todo.(status := newStatus));
    }

    /** `handleDelete`: asks the store to drop the record's id. */
    method HandleDelete() returns (call: ContextCall)
      ensures call.Delete? && call.id == todo.id
    {
      call := Delete(todo.id);
    }

    /** The Delete button: disabled, so silent, on a completed record. */
    method ClickDeleteButton() returns (call: Store.Option<ContextCall>)
      ensures todo.completed ==> call.None?
      ensures !todo.completed ==> call == Store.Some(Delete(todo.id))
    {
      if todo.completed {
        call := Store.None;
      } else {
        var c := HandleDelete();
        call := Store.Some(c);
      }
    }

    /** The priority badge button flips its picker unless the record is completed. */
    method ClickPriorityButton()
      modifies this`showPriorityDropdown
      ensures showPriorityDropdown == if todo.completed then old(showPriorityDropdown) else !old(showPriorityDropdown)
      ensures old(PickersLocked()) ==> PickersLocked()
    {
      if !todo.completed {
        showPriorityDropdown := !showPriorityDropdown;
      }
    }

    /** The status arrow button flips its picker unless the record is completed. */
    method ClickStatusButton()
      modifies this`showStatusDropdown
      ensures showStatusDropdown == if todo.completed then old(showStatusDropdown) else !old(showStatusDropdown)
      ensures old(PickersLocked()) ==> PickersLocked()
    {
      if !todo.completed {
        showStatusDropdown := !showStatusDropdown;
      }
    }

    /** A click on a priority entry: there is one only while the picker is
        open, and it carries one of the listed priorities. A completed card
        whose pickers are locked can never emit an update this way. */
    method ClickPriorityOption(p: string) returns (call: Store.Option<ContextCall>)
      modifies this`priority, this`showPriorityDropdown
      ensures old(showPriorityDropdown) && p in PRIORITY_OPTIONS ==>
                priority == p && !showPriorityDropdown && call == Store.Some(Update(todo.id, todo.(priority := p)))
      ensures !(old(showPriorityDropdown) && p in PRIORITY_OPTIONS) ==>
                priority == old(priority) && showPriorityDropdown == old(showPriorityDropdown) && call.None?
      ensures old(PickersLocked()) && todo.completed ==> call.None?
      ensures old(PickersLocked()) ==> PickersLocked()
    {
      if showPriorityDropdown && p in PRIORITY_OPTIONS {
        var c := HandlePriorityChange(p);
        call := Store.Some(c);
      } else {
        call := Store.None;
      }
    }

    /** A click on a status entry: there is one only while the picker is
        open, and it carries one of the listed statuses. */
    method ClickStatusOption(s: string) returns (call: Store.Option<ContextCall>)
      modifies this`status, this`showStatusDropdown
      ensures old(showStatusDropdown) && s in STATUS_OPTIONS ==>
                status == s && !showStatusDropdown && call == Store.Some(Update(todo.id, todo.(status := s)))
      ensures !(old(showStatusDropdown) && s in STATUS_OPTIONS) ==>
                status == old(status) && showStatusDropdown == old(showStatusDropdown) && call.None?
      ensures old(PickersLocked()) && todo.completed ==> call.None?
      ensures old(PickersLocked()) ==> PickersLocked()
    {
      if showStatusDropdown && s in STATUS_OPTIONS {
        var c := HandleStatusChange(s);
        call := Store.Some(c);
      } else {
        call := Store.None;
      }
    }

    /** `handleClickOutside` on a document mousedown. `inPriorityRegion` says
        whether the target lies inside some `.priority-dropdown` element and
        `inStatusRegion` inside some `.status-dropdown` element, on any card of
        the page, not only this one; so a press inside another card's picker
        region leaves this card's picker of that kind open. Each picker closes
        when the press is outside every region of its kind; neither ever opens. */
    method HandleClickOutside(inPriorityRegion: bool, inStatusRegion: bool)
      modifies this`showPriorityDropdown, this`showStatusDropdown
      ensures showPriorityDropdown == (old(showPriorityDropdown) && inPriorityRegion)
      ensures showStatusDropdown == (old(showStatusDropdown) && inStatusRegion)
      ensures old(PickersLocked()) ==> PickersLocked()
    {
      if !inPriorityRegion {
        showPriorityDropdown := false;
      }
      if !inStatusRegion {
        showStatusDropdown := false;
      }
    }

    /** Typing in the title field: read-only once completed; nothing reaches the store. */
    method EditTitle(value: string)
      modifies this`title
      ensures title == if todo.completed then old(title) else value
    {
      if !todo.completed {
        title := value;
      }
    }

    /** Typing in the description field: read-only once completed; nothing reaches the store. */
    method EditDescription(value: string)
      modifies this`description
      ensures description == if todo.completed then old(description) else value
    {
      if !todo.completed {
        description := value;
      }
    }

    /** Picking a due date: read-only once completed; nothing reaches the store. */
    method EditDate(value: string)
      modifies this`date
      ensures date == if todo.completed then old(date) else value
    {
      if !todo.completed {
        date := value;
      }
    }
  }
}
