/** The task records shared by the list and create screens. */
module TodoTypes {

  /**
   * A JavaScript number. Coordinates and timestamps are carried and
   * compared for equality only; nothing does arithmetic on them.
   */
  type Number = real

  /** A field declared `f?: T | null`: missing, explicitly null, or set. */
  datatype Field<+T> = Undefined | Null | Value(value: T)

  /** A position fix: exactly latitude, longitude and timestamp. */
  datatype LocationData = LocationData(latitude: Number, longitude: Number, timestamp: Number)

  /** A stored task. `id`, `title` and `completed` are always there; photo and location may be missing or null. */
  datatype Task = Task(
    id: string,
    title: string,
    photoUri: Field<string>,
    location: Field<LocationData>,
    completed: bool)

  /** The payload the create screen hands to the store: a task without `id` and `completed`. */
  datatype NewTaskData = NewTaskData(
    title: string,
    photoUri: Field<string>,
    location: Field<LocationData>)

  /** The part of a task that a payload describes (a `Task` is structurally a `NewTaskData`). */
  function Details(t: Task): NewTaskData
  {
    NewTaskData(t.title, t.photoUri, t.location)
  }

  /** A task built from a payload and the two fields only the store supplies. */
  function WithIdentity(data: NewTaskData, id: string, completed: bool): Task
  {
    Task(id, data.title, data.photoUri, data.location, completed)
  }

  /** A payload's title, photo and location carry over unchanged into the task built from it. */
  lemma DetailsOfWithIdentity(data: NewTaskData, id: string, completed: bool)
    ensures Details(WithIdentity(data, id, completed)) == data
  {
  }

  /** A task is exactly its identity, its completion flag and its details. */
  lemma WithIdentityOfDetails(t: Task)
    ensures WithIdentity(Details(t), t.id, t.completed) == t
  {
  }
}
