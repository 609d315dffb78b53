/** Records exchanged between the bulletin-board client and its hosted backend,
    and the shapes of the backend's answers that the client reacts to. */
module Records {

  datatype Option<T> = None | Some(value: T)

  /** A row of the `notifications` table. `createdAt` is the server's timestamp
      text; `author` is the e-mail of the signed-in user that posted it. */
  datatype Notification = Notification(
    id: int,
    title: string,
    message: string,
    createdAt: string,
    author: string)

  /** A row of the `batch` table, only ever read. */
  datatype Batch = Batch(
    id: string,
    cropType: string,
    variety: string,
    sowingDate: string,
    notes: string,
    blockchainHash: string,
    createdAt: string)

  /** The authenticated identity; the client only ever looks at its e-mail. */
  datatype User = User(email: string)

  /** The session carried by an auth-state event; its user may be missing. */
  datatype Session = Session(user: Option<User>)

  /** An opaque reference to the page element a popover is anchored to. */
  datatype Anchor = Anchor(element: nat)

  /** Whether a backend mutation or sign-in call reported an error. */
  datatype Outcome = Ok | Err

  /** The `{ data, error }` pair a select query resolves to. */
  datatype Fetched<T> = Fetched(error: bool, data: Option<seq<T>>)

  /** The list a select query delivers to the client: present only when there
      is no error and the data is not null. */
  function Delivered<T>(r: Fetched<T>): (d: Option<seq<T>>)
    ensures d.Some? <==> !r.error && r.data.Some?
    ensures d.Some? ==> d == r.data
  {
    if !r.error && r.data.Some? then r.data else None
  }

  /** The two build-time settings the client needs to reach its backend;
      an unset setting reads as the empty string. */
  datatype Env = Env(url: string, anonKey: string)

  predicate Configured(env: Env) {
    env.url != "" && env.anonKey != ""
  }
}
