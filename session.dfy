/** Who is signed in: the value App keeps in its `user` state. */
module Session {
  import opened Wrappers

  /** The user object the sign-in call returns. Opaque to this model: it is
      stored and passed on, never inspected or changed in place. */
  datatype Credential = Credential(email: string, token: string)

  /** `state.user`: `None` is `null` (nobody signed in). */
  type User = Option<Credential>
}
