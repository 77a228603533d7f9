/** Values that stand for what the hosted backend answers; the backend itself is not modelled. */
module Remote {

  datatype Option<T> = None | Some(value: T)

  /**
   * The outcome of one awaited backend call, as the pages see it: the call
   * resolved without an error, resolved with `{ error }` (whose message the
   * page shows), or threw (the page's `catch` branch).
   */
  datatype Reply = Ok | Err(message: string) | Threw

  /**
   * A target handed to `router.push`: a path and its query parameters, kept
   * as a map (their URL encoding and decoding are not modelled).
   */
  datatype Route = Route(path: string, query: map<string, string>)

  /** A route without query parameters. */
  function Path(path: string): Route {
    Route(path, map[])
  }

  /** The `user_metadata` fields the pages read; any of them may be absent. */
  datatype UserMetadata = UserMetadata(firstName: Option<string>, lastName: Option<string>, role: Option<string>)

  /** The signed-in user as the auth service returns it. */
  datatype AuthUser = AuthUser(id: string, email: Option<string>, metadata: UserMetadata)
}
