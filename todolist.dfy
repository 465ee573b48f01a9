/**
 * The task list screen: the in-memory mirror of the stored tasks, the
 * toggle (`map`) and delete (`filter`) updaters it applies to that
 * mirror, and the admin-gated load.
 */
module TodoList {
  import opened Wrappers
  import opened TodoTypes
  import opened Access

  /** `{ ...t, completed: !t.completed }` */
  function Flip(t: Task): (f: Task)
    ensures f.id == t.id && Details(f) == Details(t) && f.completed == !t.completed
  {
    t.(completed := !t.completed)
  }

  function Ids(tasks: seq<Task>): seq<string>
  {
    seq(|tasks|, i requires 0 <= i < |tasks| => tasks[i].id)
  }

  /** The store's invariant on its collection: no two tasks share an id. */
  predicate UniqueIds(tasks: seq<Task>)
  {
    forall i, j :: 0 <= i < j < |tasks| ==> tasks[i].id != tasks[j].id
  }

  /** How many tasks carry the given id. */
  function CountId(tasks: seq<Task>, id: string): nat
  {
    if tasks == [] then 0
    else (if tasks[0].id == id then 1 else 0) + CountId(tasks[1..], id)
  }

  /** `tasks.map(t => t.id === id ? { ...t, completed: !t.completed } : t)` */
  function Toggled(tasks: seq<Task>, id: string): (r: seq<Task>)
    ensures |r| == |tasks|
    ensures forall i :: 0 <= i < |tasks| ==> r[i].id == tasks[i].id && Details(r[i]) == Details(tasks[i])
    ensures forall i :: 0 <= i < |tasks| ==> (r[i].completed != tasks[i].completed <==> tasks[i].id == id)
  {
    if tasks == [] then []
    else [if tasks[0].id == id then Flip(tasks[0]) else tasks[0]] + Toggled(tasks[1..], id)
  }

  /** `tasks.filter(t => t.id !== id)` */
  function Without(tasks: seq<Task>, id: string): (r: seq<Task>)
    ensures |r| <= |tasks|
    ensures forall t :: t in r <==> t in tasks && t.id != id
  {
    if tasks == [] then []
    else if tasks[0].id == id then Without(tasks[1..], id)
    else [tasks[0]] + Without(tasks[1..], id)
  }

  /** Toggling keeps the order of ids, so the list renders the same rows in the same places. */
  lemma ToggledKeepsIds(tasks: seq<Task>, id: string)
    ensures Ids(Toggled(tasks, id)) == Ids(tasks)
  {
  }

  /** Toggling the same id twice gives back the original list. */
  lemma {:induction false} ToggledTwice(tasks: seq<Task>, id: string)
    ensures Toggled(Toggled(tasks, id), id) == tasks
  {
    var once := Toggled(tasks, id);
    var twice := Toggled(once, id);
    forall i | 0 <= i < |tasks| ensures twice[i] == tasks[i] {
      WithIdentityOfDetails(twice[i]);
      WithIdentityOfDetails(tasks[i]);
    }
  }

  /** Toggling an id that no task carries changes nothing. */
  lemma {:induction false} ToggledAbsent(tasks: seq<Task>, id: string)
    requires id !in Ids(tasks)
    ensures Toggled(tasks, id) == tasks
  {
    var r := Toggled(tasks, id);
    forall i | 0 <= i < |tasks| ensures r[i] == tasks[i] {
      assert Ids(tasks)[i] == tasks[i].id;
      WithIdentityOfDetails(r[i]);
      WithIdentityOfDetails(tasks[i]);
    }
  }

  lemma ToggledKeepsUnique(tasks: seq<Task>, id: string)
    requires UniqueIds(tasks)
    ensures UniqueIds(Toggled(tasks, id))
  {
  }

  /** The filter keeps the relative order of what it keeps: it distributes over concatenation. */
  lemma {:induction false} WithoutAppend(a: seq<Task>, b: seq<Task>, id: string)
    ensures Without(a + b, id) == Without(a, id) + Without(b, id)
  {
    if a == [] {
      assert a + b == b;
    } else {
      assert (a + b)[1..] == a[1..] + b;
      WithoutAppend(a[1..], b, id);
    }
  }

  /** The filter drops exactly the tasks carrying the id, so the result is shorter by their number. */
  lemma {:induction false} WithoutLength(tasks: seq<Task>, id: string)
    ensures |Without(tasks, id)| + CountId(tasks, id) == |tasks|
  {
    if tasks != [] {
      WithoutLength(tasks[1..], id);
    }
  }

  lemma {:induction false} CountIdAbsent(tasks: seq<Task>, id: string)
    ensures CountId(tasks, id) == 0 <==> id !in Ids(tasks)
  {
    if tasks != [] {
      CountIdAbsent(tasks[1..], id);
      assert Ids(tasks) == [tasks[0].id] + Ids(tasks[1..]);
    }
  }

  /** Deleting an id that no task carries changes nothing. */
  lemma {:induction false} WithoutAbsent(tasks: seq<Task>, id: string)
    requires id !in Ids(tasks)
    ensures Without(tasks, id) == tasks
  {
    if tasks != [] {
      assert Ids(tasks)[0] == tasks[0].id;
      assert Ids(tasks[1..]) == Ids(tasks)[1..];
      WithoutAbsent(tasks[1..], id);
    }
  }

  /** After a delete no task carries the id, so deleting it again changes nothing. */
  lemma WithoutTwice(tasks: seq<Task>, id: string)
    ensures id !in Ids(Without(tasks, id))
    ensures Without(Without(tasks, id), id) == Without(tasks, id)
  {
    var r := Without(tasks, id);
    forall i | 0 <= i < |r| ensures Ids(r)[i] != id {
      assert r[i] in r;
    }
    WithoutAbsent(r, id);
  }

  /** With unique ids, deleting an id that is present removes exactly one task. */
  lemma {:induction false} WithoutRemovesOne(tasks: seq<Task>, id: string)
    requires UniqueIds(tasks) && id in Ids(tasks)
    ensures |Without(tasks, id)| == |tasks| - 1
  {
    var rest := tasks[1..];
    assert Ids(rest) == Ids(tasks)[1..];
    if tasks[0].id == id {
      forall i | 0 <= i < |rest| ensures Ids(rest)[i] != id {
        assert rest[i] == tasks[i + 1];
      }
      WithoutAbsent(rest, id);
    } else {
      assert id in Ids(rest) by {
        var k :| 0 <= k < |tasks| && Ids(tasks)[k] == id;
        assert k != 0 && Ids(rest)[k - 1] == id;
      }
      WithoutRemovesOne(rest, id);
    }
  }

  lemma {:induction false} WithoutKeepsUnique(tasks: seq<Task>, id: string)
    requires UniqueIds(tasks)
    ensures UniqueIds(Without(tasks, id))
  {
    if tasks != [] {
      var rest := tasks[1..];
      WithoutKeepsUnique(rest, id);
      if tasks[0].id != id {
        var r := Without(rest, id);
        forall j | 0 <= j < |r| ensures r[j].id != tasks[0].id {
          assert r[j] in rest;
          var k :| 0 <= k < |rest| && rest[k] == r[j];
          assert tasks[k + 1] == r[j];
        }
      }
    }
  }

  /**
   * The list screen's state. `currentUser` holds the normalised identity
   * and decides between the task list and the "restricted" view.
   */
  class TodoListScreen {
    var tasks: seq<Task>
    var isLoading: bool
    var currentUser: Option<string>

    /** The screen shows "restricted access" instead of the list. */
    predicate Restricted(): (b: bool)
      reads this
      ensures currentUser.None? ==> b
    {
      currentUser != Some(ADMIN_USER)
    }

    /** A screen that shows the restricted view holds no tasks. */
    ghost predicate Valid()
      reads this
    {
      Restricted() ==> tasks == []
    }

    constructor ()
      ensures Valid()
      ensures tasks == [] && isLoading && currentUser == None
    {
      tasks := [];
      isLoading := true;
      currentUser := None;
    }

    /**
     * `loadData` on focus. `user` is what the session store returned and
     * `stored` what `loadTasks` returned, `None` when it failed. An admin
     * sees exactly the stored tasks; anyone else an empty list.
     */
    method LoadData(user: Option<string>, stored: Option<seq<Task>>)
      requires Valid()
      modifies this
      ensures Valid()
      ensures currentUser == NormalizedUser(user)
      ensures Restricted() <==> !IsAdmin(user)
      ensures !IsAdmin(user) ==> tasks == [] && !isLoading
      ensures IsAdmin(user) && stored.Some? ==> tasks == stored.value && !isLoading
      ensures IsAdmin(user) && stored.None? ==> tasks == old(tasks) && isLoading
    {
      isLoading := true;
      currentUser := NormalizedUser(user);
      if currentUser == Some(ADMIN_USER) {
        if stored.None? {
          return;
        }
        tasks := stored.value;
      } else {
        tasks := [];
      }
      isLoading := false;
    }

    /**
     * `handleToggle`: once the store has toggled the task (`storeOk`), the
     * mirror flips `completed` on the tasks with that id.
     */
    method HandleToggle(id: string, storeOk: bool)
      requires Valid()
      modifies this`tasks
      ensures Valid()
      ensures tasks == if storeOk then Toggled(old(tasks), id) else old(tasks)
    {
      if storeOk {
        tasks := Toggled(tasks, id);
      }
    }

    /**
     * `handleDelete`: the user confirms the dialog (`confirmed`), the store
     * deletes the task (`storeOk`), and then the mirror drops it.
     */
    method HandleDelete(id: string, confirmed: bool, storeOk: bool)
      requires Valid()
      modifies this`tasks
      ensures Valid()
      ensures tasks == if confirmed && storeOk then Without(old(tasks), id) else old(tasks)
    {
      if confirmed && storeOk {
        tasks := Without(tasks, id);
      }
    }
  }

  /** An admin's session: load one task, toggle it, delete it. */
  method AdminSession(t: Task)
  {
    var screen := new TodoListScreen();
    UpperPaddedAdmin();
    screen.LoadData(Some(" ADMIN "), Some([t]));
    assert screen.tasks == [t];
    screen.HandleToggle(t.id, true);
    ghost var toggled := screen.tasks;
    assert |toggled| == 1 && toggled[0].id == t.id && toggled[0].completed == !t.completed;
    assert Ids(toggled)[0] == t.id;
    WithoutRemovesOne(toggled, t.id);
    screen.HandleDelete(t.id, true, true);
    assert screen.tasks == [];
  }
}
