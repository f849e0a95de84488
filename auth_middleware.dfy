/** The auth service's `protect` middleware. A mutable `token` is set inside
    the Bearer branch and read again after it, and each `res.status().json()`
    is one entry of the response log, so one request can draw two answers. */
module AuthMiddleware {

  import opened Wrappers
  import opened Text
  import opened Http

  /** One `res.status(status).json({ message })` call. */
  datatype Response = Response(status: int, message: string)

  /** Everything one run of the middleware does. */
  datatype Run<P> = Run(responses: seq<Response>, nextCalled: bool, user: Option<P>)

  const FailedMessage: string := "No autorizado, token fallido"
  const NoTokenMessage: string := "No autorizado, no hay token"

  /** The branch test: a truthy header starting with "Bearer", no space required. */
  predicate PassesPrefix(header: Option<string>) {
    Truthy(header) && StartsWith(header.value, "Bearer")
  }

  /** `jwt.verify(token, secret)`: it throws on a missing or empty token
      before consulting the secret; otherwise `verify` decides. */
  function Decode<P>(token: Option<string>, verify: string -> Option<P>): Option<P> {
    if Truthy(token) then verify(token.value) else None
  }

  /** The run of `protect`, step by step: what the token holds after the
      branch, what the branch emitted, and the final `if (!token)`. */
  function ProtectSpec<P>(header: Option<string>, verify: string -> Option<P>): Run<P> {
    var token := if PassesPrefix(header) then Field(header.value, ' ', 1) else None;
    var inBranch :=
      if !PassesPrefix(header) then Run([], false, None)
      else
        match Decode(token, verify)
        case Some(payload) => Run([], true, Some(payload))
        case None => Run([Response(401, FailedMessage)], false, None);
    if Truthy(token) then inBranch
    else Run(inBranch.responses + [Response(401, NoTokenMessage)], inBranch.nextCalled, inBranch.user)
  }

  /** `protect(req, res, next)`, executed statement by statement. */
  method Protect<P>(header: Option<string>, verify: string -> Option<P>) returns (run: Run<P>)
    ensures run == ProtectSpec(header, verify)
    ensures !Truthy(header) ==> run == Run([Response(401, NoTokenMessage)], false, None)
    ensures run.nextCalled ==> run.responses == [] && run.user.Some?
  {
    var token: Option<string> := None;
    var responses: seq<Response> := [];
    var nextCalled := false;
    var user: Option<P> := None;
    if PassesPrefix(header) {
      token := Field(header.value, ' ', 1);
      var decoded := Decode(token, verify);
      if decoded.Some? {
        user := decoded;
        nextCalled := true;
      } else {
        responses := responses + [Response(401, FailedMessage)];
      }
    }
    if !Truthy(token) {
      responses := responses + [Response(401, NoTokenMessage)];
    }
    run := Run(responses, nextCalled, user);
  }

  /** A run that calls `next` answered nothing: `req.user` is the payload of
      the header's second field. */
  lemma NextMeansVerified<P>(header: Option<string>, verify: string -> Option<P>)
    ensures ProtectSpec(header, verify).nextCalled <==>
      PassesPrefix(header) && Truthy(Field(header.value, ' ', 1))
      && verify(Field(header.value, ' ', 1).value).Some?
    ensures ProtectSpec(header, verify).nextCalled ==>
      ProtectSpec(header, verify).responses == []
      && ProtectSpec(header, verify).user == verify(Field(header.value, ' ', 1).value)
  {
  }

  /** A non-empty token that fails verification draws the one 401 "token fallido". */
  lemma FailedTokenAnswersOnce<P>(header: Option<string>, verify: string -> Option<P>)
    requires PassesPrefix(header) && Truthy(Field(header.value, ' ', 1))
    requires verify(Field(header.value, ' ', 1).value).None?
    ensures ProtectSpec(header, verify) == Run([Response(401, FailedMessage)], false, None)
  {
  }

  /** "Bearerxyz" passes the prefix test, although it names no Bearer scheme. */
  lemma PrefixWithoutSpace()
    ensures PassesPrefix(Some("Bearerxyz"))
  {
    assert "Bearerxyz"[..6] == "Bearer";
  }

  /** A header that passes the prefix test but holds no space has no second
      field, so `protect` answers twice: the 401 of the failed verification
      and then the 401 for the missing token. */
  lemma {:induction false} DoubleResponse<P>(header: string, verify: string -> Option<P>)
    requires StartsWith(header, "Bearer") && ' ' !in header
    ensures ProtectSpec(Some(header), verify).responses ==
      [Response(401, FailedMessage), Response(401, NoTokenMessage)]
  {
    SplitWithoutSeparator(header, ' ');
  }

  /** The smallest instance: the bare header "Bearer". */
  lemma BareBearerAnswersTwice<P>(verify: string -> Option<P>)
    ensures |ProtectSpec(Some("Bearer"), verify).responses| == 2
  {
    assert "Bearer"[..6] == "Bearer";
    assert ' ' !in "Bearer";
    DoubleResponse("Bearer", verify);
  }

  /** `protect` as evidently intended: at most one answer per request, the
      missing-token 401 taking the place of the failed-verification one. */
  function ProtectOnce<P>(header: Option<string>, verify: string -> Option<P>): (run: Run<P>)
    ensures run.nextCalled <==> ProtectSpec(header, verify).nextCalled
    ensures run.nextCalled ==> run == ProtectSpec(header, verify)
    ensures !run.nextCalled ==> |run.responses| == 1 && run.user.None?
    ensures run.responses == [Response(401, NoTokenMessage)] <==>
      !(PassesPrefix(header) && Truthy(Field(header.value, ' ', 1)))
  {
    var token := if PassesPrefix(header) then Field(header.value, ' ', 1) else None;
    if !Truthy(token) then Run([Response(401, NoTokenMessage)], false, None)
    else
      match verify(token.value)
      case Some(payload) => Run([], true, Some(payload))
      case None => Run([Response(401, FailedMessage)], false, None)
  }

  /** The corrected middleware, executed statement by statement: it returns
      after the first answer. */
  method ProtectCorrected<P>(header: Option<string>, verify: string -> Option<P>) returns (run: Run<P>)
    ensures run == ProtectOnce(header, verify)
    ensures |run.responses| + (if run.nextCalled then 1 else 0) == 1
  {
    var token: Option<string> := None;
    if PassesPrefix(header) {
      token := Field(header.value, ' ', 1);
    }
    if !Truthy(token) {
      return Run([Response(401, NoTokenMessage)], false, None);
    }
    var decoded := verify(token.value);
    if decoded.None? {
      return Run([Response(401, FailedMessage)], false, None);
    }
    run := Run([], true, decoded);
  }
}
