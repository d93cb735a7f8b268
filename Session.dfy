/** The backend's session objects, as far as this client reads them. */
module Session {
  import opened Wrappers

  /** `user.user_metadata`: only the `username` entry is read. */
  datatype Metadata = Metadata(username: Option<string>)

  /** The backend's user object: id, optional email, optional metadata. */
  datatype SessionUser = SessionUser(id: string, email: Option<string>, userMetadata: Option<Metadata>)

  /** A backend session. Opaque apart from its user; the token only distinguishes sessions. */
  datatype Session = Session(user: Option<SessionUser>, accessToken: string)

  /** A pushed auth event: its kind name (e.g. "SIGNED_IN") and an optional session. */
  datatype AuthEvent = AuthEvent(kind: string, session: Option<Session>)

  const SignedIn: string := "SIGNED_IN"
  const SignedOut: string := "SIGNED_OUT"

  /** `session?.user`: the user of a session that may be null. */
  function UserOf(s: Option<Session>): (u: Option<SessionUser>)
    ensures u.Some? <==> s.Some? && s.value.user.Some?
    ensures u.Some? ==> s.value.user == u
  {
    if s.Some? then s.value.user else None
  }
}
