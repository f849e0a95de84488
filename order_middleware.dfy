/** The order service's `verifyToken` middleware: it needs an Authorization
    header of the form "Bearer <token>", verifies the token and either
    answers once or hands the decoded payload to the next handler. */
module OrderMiddleware {

  import opened Wrappers
  import opened Text
  import opened Http

  /** What the middleware does with one request: answer it, or call `next`
      with `req.user` set to the decoded payload. */
  datatype Outcome<P> = Respond(status: int, message: string) | Next(user: P)

  const MissingTokenMessage: string := "No autorizado. Token faltante o inválido."
  const BadTokenMessage: string := "Token inválido o expirado."

  /** The header passes the test with the space: "Bearer " exactly. */
  predicate HasBearerScheme(header: Option<string>) {
    Truthy(header) && StartsWith(header.value, "Bearer ")
  }

  /** `authHeader.split(' ')[1]`; defined whenever the header passed the test. */
  function TokenOf(header: string): Option<string> {
    Field(header, ' ', 1)
  }

  /** `jwt.verify(token, secret)`: it throws on an empty token before the
      secret is consulted; otherwise `verify` decides (the payload, or `None`
      when it throws). */
  function Decode<P>(token: string, verify: string -> Option<P>): Option<P> {
    if token == "" then None else verify(token)
  }

  /** `verifyToken`; `verify` is `jwt.verify` with the service's secret. */
  function VerifyToken<P>(header: Option<string>, verify: string -> Option<P>): (r: Outcome<P>)
    ensures !HasBearerScheme(header) <==> r == Respond(401, MissingTokenMessage)
    ensures HasBearerScheme(header) ==> TokenOf(header.value).Some?
    ensures r.Next? <==>
      && HasBearerScheme(header)
      && TokenOf(header.value).value != ""
      && verify(TokenOf(header.value).value).Some?
    ensures r.Next? ==> r.user == verify(TokenOf(header.value).value).value
    ensures HasBearerScheme(header) && TokenOf(header.value).value == "" ==> r == Respond(403, BadTokenMessage)
    ensures HasBearerScheme(header) && verify(TokenOf(header.value).value).None? ==>
      r == Respond(403, BadTokenMessage)
  {
    if !HasBearerScheme(header) then Respond(401, MissingTokenMessage)
    else
      BearerHasSecondField(header.value);
      match Decode(TokenOf(header.value).value, verify)
      case None => Respond(403, BadTokenMessage)
      case Some(payload) => Next(payload)
  }

  /** A header that starts with "Bearer " has a second field. */
  lemma BearerHasSecondField(header: string)
    requires StartsWith(header, "Bearer ")
    ensures TokenOf(header).Some?
  {
    assert header == "Bearer" + [' '] + header[7..] by {
      assert header[..7] == "Bearer ";
    }
    SplitAfterFirstField("Bearer", ' ', header[7..]);
  }

  /** For "Bearer <t>" with no further space, the token handed to `verify`
      is exactly `t`. */
  lemma {:induction false} TokenAfterScheme(t: string)
    requires ' ' !in t
    ensures TokenOf("Bearer " + t) == Some(t)
  {
    assert "Bearer " + t == "Bearer" + [' '] + t;
    SplitAfterFirstField("Bearer", ' ', t);
    SplitWithoutSeparator(t, ' ');
  }

  /** "Bearer " with nothing after the space hands `jwt.verify` the empty
      token, which always draws 403, whatever the secret. */
  lemma EmptyTokenRefused<P>(verify: string -> Option<P>)
    ensures VerifyToken(Some("Bearer "), verify) == Respond(403, BadTokenMessage)
  {
    assert "Bearer " + "" == "Bearer ";
    TokenAfterScheme("");
    assert "Bearer "[..7] == "Bearer ";
  }

  /** Every request ends in exactly one of: a 401, a 403, or `next`. The
      header "Bearer" without the space is refused before any verification. */
  lemma OneOutcome<P>(header: Option<string>, verify: string -> Option<P>)
    ensures var r := VerifyToken(header, verify);
      r.Next? || (r.Respond? && (r.status == 401 || r.status == 403))
    ensures VerifyToken(Some("Bearer"), verify) == Respond(401, MissingTokenMessage)
  {
  }
}
