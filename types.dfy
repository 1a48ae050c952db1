/** The records the client exchanges with the backend (constants/types.ts). */
module Types {
  import opened Wrappers

  /** A signed-in user; `token` is optional. */
  datatype User = User(email: string, name: string, token: Option<string>)

  /** Coordinates are carried through unchanged and never computed on. */
  datatype Location = Location(latitude: real, longitude: real)

  /** A task as the backend returns it; `id` is assigned by the backend. */
  datatype Task = Task(
    id: string,
    title: string,
    completed: bool,
    photoUri: string,
    location: Option<Location>,
    userEmail: string,
    createdAt: string)

  /** `Partial<Task>`: the fields an update request sets; `None` leaves a field out of the body. */
  datatype Patch = Patch(
    id: Option<string>,
    title: Option<string>,
    completed: Option<bool>,
    photoUri: Option<string>,
    location: Option<Location>,
    userEmail: Option<string>,
    createdAt: Option<string>)

  /** The patch `{ completed: c }`, the only one the client sends. */
  function CompletedOnly(c: bool): (p: Patch)
    ensures p.completed == Some(c)
    ensures p.id.None? && p.title.None? && p.photoUri.None? && p.location.None?
    ensures p.userEmail.None? && p.createdAt.None?
  {
    Patch(None, None, Some(c), None, None, None, None)
  }
}
