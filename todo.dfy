/** The to-do list of fend_mm3/index.js: a module-level array of tasks, the
    id of the task being edited, and one local-storage slot ("todos") that
    holds the whole list. Rendering, toasts and fade timers are left out;
    each delayed body runs as one atomic step. */
module Todo {
  import opened Text

  datatype Task = Task(id: string, text: string, completed: bool)

  predicate HasId(s: seq<Task>, id: string) {
    exists k :: 0 <= k < |s| && s[k].id == id
  }

  /** Number of tasks carrying `id`. */
  function CountId(s: seq<Task>, id: string): nat {
    if s == [] then 0 else (if s[0].id == id then 1 else 0) + CountId(s[1..], id)
  }

  /** `tasks.findIndex(task => task.id === id)`, None for -1. */
  function FindIndex(s: seq<Task>, id: string): (r: Option<nat>)
    ensures r.Some? ==> r.value < |s| && s[r.value].id == id
    ensures r.Some? ==> forall k :: 0 <= k < r.value ==> s[k].id != id
    ensures r.None? <==> !HasId(s, id)
  {
    if s == [] then None
    else if s[0].id == id then Some(0)
    else match FindIndex(s[1..], id)
      case None => None
      case Some(i) => Some(i + 1)
  }

  /** `tasks.splice(i, 1)` */
  function RemoveAt(s: seq<Task>, i: nat): seq<Task>
    requires i < |s|
  {
    s[..i] + s[i + 1..]
  }

  /** `tasks.filter(task => task.id !== id)` */
  function WithoutId(s: seq<Task>, id: string): (r: seq<Task>)
    ensures |r| == |s| - CountId(s, id)
    ensures forall k :: 0 <= k < |r| ==> r[k].id != id
  {
    if s == [] then []
    else if s[0].id == id then WithoutId(s[1..], id)
    else [s[0]] + WithoutId(s[1..], id)
  }

  /** The list after `toggleTaskCompletion(id)`: the first task with `id` is
      taken out, its flag flipped, and it goes to the end when now completed
      and to the front otherwise. An unknown id changes nothing. */
  function Toggled(s: seq<Task>, id: string): seq<Task>
  {
    match FindIndex(s, id)
    case None => s
    case Some(i) =>
      var u := s[i].(completed := !s[i].completed);
      if u.completed then RemoveAt(s, i) + [u] else [u] + RemoveAt(s, i)
  }

  /** The list after `saveEditedTask`: every task whose id is the current
      edit id gets the new text; nothing else changes. */
  function Edited(s: seq<Task>, current: Option<string>, newText: string): (r: seq<Task>)
    ensures |r| == |s|
    ensures forall k :: 0 <= k < |s| ==>
              && r[k].id == s[k].id && r[k].completed == s[k].completed
              && r[k].text == (if current == Some(s[k].id) then newText else s[k].text)
  {
    if s == [] then []
    else
      var t := if current == Some(s[0].id) then s[0].(text := newText) else s[0];
      [t] + Edited(s[1..], current, newText)
  }

  // ---------------------------------------------------------------------
  // Properties of the list operations

  /** Deleting keeps exactly the tasks with another id. */
  lemma {:induction false} WithoutIdMembers(s: seq<Task>, id: string, t: Task)
    ensures t in WithoutId(s, id) <==> t in s && t.id != id
  {
    if s != [] {
      WithoutIdMembers(s[1..], id, t);
      assert s == [s[0]] + s[1..];
    }
  }

  /** Deleting distributes over concatenation, so the kept tasks stay in
      their old relative order. */
  lemma {:induction false} WithoutIdConcat(a: seq<Task>, b: seq<Task>, id: string)
    ensures WithoutId(a + b, id) == WithoutId(a, id) + WithoutId(b, id)
  {
    if a != [] {
      assert (a + b)[1..] == a[1..] + b;
      WithoutIdConcat(a[1..], b, id);
    } else {
      assert a + b == b;
    }
  }

  /** Deleting an id that no task has leaves the list as it was. */
  lemma {:induction false} WithoutUnknownId(s: seq<Task>, id: string)
    requires !HasId(s, id)
    ensures WithoutId(s, id) == s
  {
    if s != [] {
      assert !HasId(s[1..], id) by {
        forall k | 0 <= k < |s| - 1 ensures s[1..][k].id != id { assert s[1..][k] == s[k + 1]; }
      }
      WithoutUnknownId(s[1..], id);
    }
  }

  lemma {:induction false} CountIdPositive(s: seq<Task>, id: string)
    ensures CountId(s, id) > 0 <==> HasId(s, id)
  {
    if s != [] {
      CountIdPositive(s[1..], id);
      if HasId(s, id) && s[0].id != id {
        var k :| 0 <= k < |s| && s[k].id == id;
        assert s[1..][k - 1].id == id;
      }
      if HasId(s[1..], id) {
        var k :| 0 <= k < |s| - 1 && s[1..][k].id == id;
        assert s[k + 1].id == id;
      }
    }
  }

  /** Deleting a present id shortens the list; an absent id keeps its length. */
  lemma {:induction false} DeleteShrinksIff(s: seq<Task>, id: string)
    ensures |WithoutId(s, id)| < |s| <==> HasId(s, id)
  {
    CountIdPositive(s, id);
  }

  /** Toggling an id that no task has is a no-op. */
  lemma {:induction false} ToggleUnknown(s: seq<Task>, id: string)
    requires !HasId(s, id)
    ensures Toggled(s, id) == s
  {
  }

  /** Toggling keeps the length and the tasks (one of them with its flag
      flipped), puts the toggled task last when it became completed and
      first otherwise, and keeps the others in their old order. */
  lemma {:induction false} ToggleSpec(s: seq<Task>, id: string, i: nat)
    requires FindIndex(s, id) == Some(i)
    ensures var r := Toggled(s, id);
            var u := s[i].(completed := !s[i].completed);
            && |r| == |s|
            && multiset(r) == multiset(s) - multiset{s[i]} + multiset{u}
            && (u.completed ==> r[|r| - 1] == u && r[..|r| - 1] == RemoveAt(s, i))
            && (!u.completed ==> r[0] == u && r[1..] == RemoveAt(s, i))
  {
    var u := s[i].(completed := !s[i].completed);
    var rest := RemoveAt(s, i);
    RemoveAtSplit(s, i);
    if u.completed {
      assert Toggled(s, id) == rest + [u];
      AppendOne(rest, u);
    } else {
      assert Toggled(s, id) == [u] + rest;
      PrependOne(u, rest);
    }
  }

  lemma AppendOne(rest: seq<Task>, u: Task)
    ensures var r := rest + [u];
            |r| == |rest| + 1 && multiset(r) == multiset(rest) + multiset{u}
            && r[|r| - 1] == u && r[..|r| - 1] == rest
  {
    assert (rest + [u])[..|rest|] == rest;
  }

  lemma PrependOne(u: Task, rest: seq<Task>)
    ensures var r := [u] + rest;
            |r| == |rest| + 1 && multiset(r) == multiset(rest) + multiset{u}
            && r[0] == u && r[1..] == rest
  {
    assert ([u] + rest)[1..] == rest;
  }

  /** Removing index `i` takes exactly that task out of the list. */
  lemma RemoveAtSplit(s: seq<Task>, i: nat)
    requires i < |s|
    ensures |RemoveAt(s, i)| == |s| - 1
    ensures multiset(s) == multiset(RemoveAt(s, i)) + multiset{s[i]}
  {
    assert s == s[..i] + [s[i]] + s[i + 1..];
  }

  /** When `id` names exactly one task, toggling twice restores its flag and
      the order of all the other tasks: the task ends last if it started
      completed and first if it started open. */
  lemma {:induction false} ToggleTwice(s: seq<Task>, id: string, i: nat)
    requires FindIndex(s, id) == Some(i)
    requires CountId(s, id) == 1
    ensures Toggled(Toggled(s, id), id)
            == if s[i].completed then RemoveAt(s, i) + [s[i]] else [s[i]] + RemoveAt(s, i)
  {
    var rest := RemoveAt(s, i);
    var u := s[i].(completed := !s[i].completed);
    RemoveOnlyCopy(s, id, i);
    if u.completed {
      var r := rest + [u];
      assert FindIndex(r, id) == Some(|rest|) by {
        assert [u][0].id == id;
        FindIndexAfter(rest, [u], id);
      }
      assert RemoveAt(r, |rest|) == rest;
    } else {
      var r := [u] + rest;
      assert FindIndex(r, id) == Some(0);
      assert RemoveAt(r, 0) == rest;
    }
  }

  /** Taking out the only task with `id` leaves no task with it. */
  lemma {:induction false} RemoveOnlyCopy(s: seq<Task>, id: string, i: nat)
    requires FindIndex(s, id) == Some(i)
    requires CountId(s, id) == 1
    ensures !HasId(RemoveAt(s, i), id)
  {
    var a, b := s[..i], s[i + 1..];
    assert s == a + ([s[i]] + b);
    CountIdConcat(a, [s[i]] + b, id);
    CountIdConcat([s[i]], b, id);
    assert CountId([s[i]], id) == 1 by { assert [s[i]][1..] == []; }
    CountIdConcat(a, b, id);
    CountIdPositive(a + b, id);
  }

  lemma {:induction false} CountIdConcat(a: seq<Task>, b: seq<Task>, id: string)
    ensures CountId(a + b, id) == CountId(a, id) + CountId(b, id)
  {
    if a != [] {
      assert (a + b)[1..] == a[1..] + b;
      CountIdConcat(a[1..], b, id);
    } else {
      assert a + b == b;
    }
  }

  lemma {:induction false} FindIndexAfter(a: seq<Task>, b: seq<Task>, id: string)
    requires !HasId(a, id) && HasId(b, id)
    ensures FindIndex(a + b, id) == Some(|a| + FindIndex(b, id).value)
  {
    if a == [] {
      assert a + b == b;
    } else {
      assert a[0].id != id;
      assert (a + b)[0] == a[0];
      assert (a + b)[1..] == a[1..] + b;
      assert !HasId(a[1..], id) by {
        forall k | 0 <= k < |a| - 1 ensures a[1..][k].id != id { assert a[1..][k] == a[k + 1]; }
      }
      FindIndexAfter(a[1..], b, id);
    }
  }

  /** Whether the edit form's submit handler, as written, saves: both the
      add-task input and the edit input must be non-blank. */
  predicate EditFormSaves(taskInputText: string, editInputText: string) {
    !AllWhiteSpace(taskInputText) && !AllWhiteSpace(editInputText)
  }

  /** The handler's guard reads the wrong input: with the add-task input
      empty, a non-blank edit is not saved, although the save button would
      save it. */
  lemma EditFormBlockedByTaskInput()
    ensures !AllWhiteSpace("Buy milk") && !EditFormSaves("", "Buy milk")
  {
    assert !IsWhiteSpace("Buy milk"[0]);
  }

  // ---------------------------------------------------------------------
  // The controller

  class TodoList {
    /** `tasks`, newest open task first */
    var tasks: seq<Task>
    /** `currentEditId`, None for null */
    var currentEditId: Option<string>
    /** the local-storage slot "todos"; None when nothing is stored */
    var stored: Option<seq<Task>>

    /** Module start-up: the list is empty, nothing is being edited, and the
        final `loadTasks()` call (index.js:331) reads the slot. */
    constructor (slot: Option<seq<Task>>)
      ensures stored == slot && currentEditId == None
      ensures tasks == if slot.Some? then slot.value else []
    {
      tasks := [];
      currentEditId := None;
      stored := slot;
      new;
      LoadTasks();
    }

    /** `loadTasks`: a stored value replaces the list; no stored value leaves
        the list as it was. */
    method LoadTasks()
      modifies this`tasks
      ensures tasks == if stored.Some? then stored.value else old(tasks)
    {
      if stored.Some? {
        tasks := stored.value;
      }
    }

    /** `saveTasks`: the slot now holds the whole list. */
    method SaveTasks()
      modifies this`stored
      ensures stored == Some(tasks)
    {
      stored := Some(tasks);
    }

    /** `addTask(text)` with the id `Date.now().toString()` taken from `now`:
        a new open task goes to the front and the list is saved. */
    method AddTask(text: string, now: nat)
      modifies this`tasks, this`stored
      ensures tasks == [Task(IntToString(now), text, false)] + old(tasks)
      ensures stored == Some(tasks)
    {
      var newTask := Task(IntToString(now), text, false);
      tasks := [newTask] + tasks;
      SaveTasks();
    }

    /** The add form's submit handler: blank input (after trimming) is
        rejected with no change; otherwise the trimmed text is added. */
    method SubmitTaskForm(input: string, now: nat) returns (accepted: bool)
      modifies this`tasks, this`stored
      ensures accepted <==> !AllWhiteSpace(input)
      ensures accepted ==> tasks == [Task(IntToString(now), Trim(input), false)] + old(tasks)
      ensures accepted ==> stored == Some(tasks)
      ensures !accepted ==> tasks == old(tasks) && stored == old(stored)
    {
      var text := Trim(input);
      TrimEmptyIff(input);
      if text == "" {
        accepted := false;
        return;
      }
      AddTask(text, now);
      accepted := true;
    }

    /** `deleteTask(id)` after its fade-out delay: every task with `id` goes,
        the rest stay in order, and the list is saved. */
    method DeleteTask(id: string)
      modifies this`tasks, this`stored
      ensures tasks == WithoutId(old(tasks), id)
      ensures stored == Some(tasks)
    {
      tasks := WithoutId(tasks, id);
      SaveTasks();
    }

    /** `toggleTaskCompletion(id)` after its delay: find the first task with
        `id`, splice it out, flip it, push it to the end or unshift it to the
        front, and save; an unknown id returns before saving. */
    method ToggleTaskCompletion(id: string)
      modifies this`tasks, this`stored
      ensures tasks == Toggled(old(tasks), id)
      ensures stored == if HasId(old(tasks), id) then Some(tasks) else old(stored)
    {
      var taskIndex := FindIndex(tasks, id);
      if taskIndex.None? {
        return;
      }
      var i := taskIndex.value;
      var updatedTask := tasks[i].(completed := !tasks[i].completed);
      tasks := tasks[..i] + tasks[i + 1..];
      if updatedTask.completed {
        tasks := tasks + [updatedTask];
      } else {
        tasks := [updatedTask] + tasks;
      }
      SaveTasks();
    }

    /** `openEditModal(id)`: when a task has `id` it becomes the one being
        edited and its text prefills the edit input. */
    method OpenEditModal(id: string) returns (prefill: Option<string>)
      modifies this`currentEditId
      ensures currentEditId == if HasId(tasks, id) then Some(id) else old(currentEditId)
      ensures prefill.Some? <==> HasId(tasks, id)
      ensures prefill.Some? ==> prefill.value == tasks[FindIndex(tasks, id).value].text
    {
      var k := FindIndex(tasks, id);
      if k.Some? {
        currentEditId := Some(id);
        prefill := Some(tasks[k.value].text);
      } else {
        prefill := None;
      }
    }

    /** `saveEditedTask` on the edit input's value: a blank edit is rejected
        with no change; otherwise each task with the current edit id gets the
        trimmed text and the list is saved. */
    method SaveEditedTask(input: string) returns (saved: bool)
      modifies this`tasks, this`stored
      ensures saved <==> !AllWhiteSpace(input)
      ensures saved ==> tasks == Edited(old(tasks), currentEditId, Trim(input)) && stored == Some(tasks)
      ensures !saved ==> tasks == old(tasks) && stored == old(stored)
    {
      var newText := Trim(input);
      TrimEmptyIff(input);
      if newText == "" {
        saved := false;
        return;
      }
      tasks := Edited(tasks, currentEditId, newText);
      SaveTasks();
      saved := true;
    }

    /** The edit form's submit handler as written: it tests the add-task
        input, not the edit input, before running `saveEditedTask` on the
        edit input. A blank add-task input blocks a valid edit. */
    method SubmitEditForm(taskInputText: string, editInputText: string) returns (saved: bool)
      modifies this`tasks, this`stored
      ensures saved <==> EditFormSaves(taskInputText, editInputText)
      ensures saved ==> tasks == Edited(old(tasks), currentEditId, Trim(editInputText)) && stored == Some(tasks)
      ensures !saved ==> tasks == old(tasks) && stored == old(stored)
    {
      var text := Trim(taskInputText);
      TrimEmptyIff(taskInputText);
      if text == "" {
        return false;
      }
      saved := SaveEditedTask(editInputText);
    }

    /** The edit form's submit handler as evidently intended: the edit input
        alone decides, as for the save button and the Enter key. */
    method SubmitEditFormIntended(editInputText: string) returns (saved: bool)
      modifies this`tasks, this`stored
      ensures saved <==> !AllWhiteSpace(editInputText)
      ensures saved ==> tasks == Edited(old(tasks), currentEditId, Trim(editInputText)) && stored == Some(tasks)
      ensures !saved ==> tasks == old(tasks) && stored == old(stored)
    {
      saved := SaveEditedTask(editInputText);
    }
  }

  /** Saving and then loading gives back the same list. */
  method SaveThenLoad(list: TodoList)
    modifies list`tasks, list`stored
    ensures list.tasks == old(list.tasks) && list.stored == Some(list.tasks)
  {
    list.SaveTasks();
    list.LoadTasks();
  }
}
