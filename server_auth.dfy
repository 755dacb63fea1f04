/** The server's request guard: a hard-coded token check in front of the resolvers. */
module ServerAuth {
  import opened Common

  /** The only accepted token. */
  const ValidToken: string := "secret"
  const UnauthorizedMessage: string := "Unauthorized"

  /** The part of a request the guard looks at: the `authtoken` header, if present. */
  datatype Request = Request(authtoken: Option<string>)

  /** How a call ended: it returned (with no value) after calling `next` the given number of
      times, or it threw an error with the given message. */
  datatype CheckOutcome = Returned(nextCalls: nat) | Threw(message: string)

  /** `authCheck` with the default no-op `next`. */
  function AuthCheck(req: Request): (outcome: CheckOutcome)
    ensures outcome.Returned? <==> req.authtoken == Some(ValidToken)
    ensures outcome.Returned? ==> outcome.nextCalls == 1
    ensures outcome.Threw? ==> outcome.message == UnauthorizedMessage
  {
    if !Filled(req.authtoken) then Threw(UnauthorizedMessage)
    else if req.authtoken.value != ValidToken then Threw(UnauthorizedMessage)
    else Returned(1)
  }

  /** A missing or empty header is refused before the token is compared. */
  lemma MissingTokenRefused()
    ensures AuthCheck(Request(None)) == Threw(UnauthorizedMessage)
    ensures AuthCheck(Request(Some(""))) == Threw(UnauthorizedMessage)
  {
  }

  /** The comparison is exact: a token that merely contains the secret is refused. */
  lemma NearMissRefused()
    ensures AuthCheck(Request(Some("secret "))).Threw?
    ensures AuthCheck(Request(Some("Secret"))).Threw?
  {
    assert "secret " != ValidToken;
    assert "Secret"[0] != ValidToken[0];
  }
}
