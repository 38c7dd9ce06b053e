/** What the client and the backend share over HTTP: the `Authorization`
    header the client builds, the `user` object and auth response body the
    server returns, and JavaScript/Python truthiness of a string that may
    be absent. */
module Api {
  import opened Wrappers

  /** Truthiness of a value that is absent or a string, which Python and
      JavaScript agree on: absent and "" are falsy. */
  predicate Truthy(field: Option<string>) {
    field.Some? && field.value != ""
  }

  const BearerPrefix := "Bearer "

  /** The `Authorization` header the client sends with a token. */
  function BearerHeader(token: string): string {
    BearerPrefix + token
  }

  /** The `user` object returned with a token. */
  datatype User = User(id: int, username: string, email: string)

  /** The body of a successful register or login response. */
  datatype AuthResponse = AuthResponse(message: string, token: string, user: User)
}
