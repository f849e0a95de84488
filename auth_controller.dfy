/** The auth service's HTTP handlers: exact message tests decide between the
    client error and 500. */
module AuthController {

  import opened Wrappers
  import opened Http
  import opened AuthService

  /** A user as `User.find().select('-password')` returns it. */
  datatype PublicUser = PublicUser(id: nat, name: string, email: string)

  /** `register`: 201 with the answer; 400 only for exactly 'El usuario ya existe'. */
  function RegisterReply(outcome: Result<AuthReply, Error>): (r: Reply<AuthReply>)
    ensures r.status == 201 <==> outcome.Success?
    ensures r.status == 400 <==> outcome.Failure? && outcome.error.message == UserExistsMessage
    ensures r.status == 500 <==> outcome.Failure? && outcome.error.message != UserExistsMessage
    ensures outcome.Success? ==> r.body == Data(outcome.value)
    ensures outcome.Failure? ==> r.body == Message(outcome.error.message)
  {
    match outcome
    case Success(data) => Reply(201, Data(data))
    case Failure(e) => MessageReply(if e.message == UserExistsMessage then 400 else 500, e.message)
  }

  /** `login`: 200 with the answer; 401 only for exactly 'Credenciales inválidas'. */
  function LoginReply(outcome: Result<AuthReply, Error>): (r: Reply<AuthReply>)
    ensures r.status == 200 <==> outcome.Success?
    ensures r.status == 401 <==> outcome.Failure? && outcome.error.message == InvalidCredentialsMessage
    ensures r.status == 500 <==> outcome.Failure? && outcome.error.message != InvalidCredentialsMessage
    ensures outcome.Success? ==> r.body == Data(outcome.value)
    ensures outcome.Failure? ==> r.body == Message(outcome.error.message)
  {
    match outcome
    case Success(data) => Reply(200, Data(data))
    case Failure(e) => MessageReply(if e.message == InvalidCredentialsMessage then 401 else 500, e.message)
  }

  /** `getUsers`: every stored user without its password, or 500. */
  function GetUsers(outcome: Result<seq<User>, Error>): (r: Reply<seq<PublicUser>>)
    ensures r.status == 200 <==> outcome.Success?
    ensures r.status == 500 <==> outcome.Failure?
    ensures outcome.Failure? ==> r.body == Message(outcome.error.message)
    ensures outcome.Success? ==> r.body.Data? && |r.body.payload| == |outcome.value|
    ensures outcome.Success? ==> forall i :: 0 <= i < |outcome.value| ==>
      r.body.payload[i] == PublicUser(outcome.value[i].id, outcome.value[i].name, outcome.value[i].email)
  {
    match outcome
    case Success(users) => Reply(200, Data(seq(|users|, i requires 0 <= i < |users| => PublicUser(users[i].id, users[i].name, users[i].email))))
    case Failure(e) => MessageReply(500, e.message)
  }

  /** Against the modelled service, which has no database or bcrypt failure:
      registration answers 201 or 400 and nothing else, login answers 200 or
      401, and each message is only recognised by its own handler. */
  lemma ServiceMessagesMapExactly(users: seq<User>, name: string, email: string, password: string, salt: string,
                                  hash: Hasher, compare: Comparer, sign: Signer)
    ensures var reg := Register(users, name, email, password, salt, hash, sign);
      RegisterReply(if reg.Success? then Success(reg.value.1) else Failure(reg.error)).status in {201, 400}
    ensures LoginReply(Login(users, email, password, compare, sign)).status in {200, 401}
    ensures RegisterReply(Failure(Thrown(InvalidCredentialsMessage))).status == 500
    ensures LoginReply(Failure(Thrown(UserExistsMessage))).status == 500
  {
  }
}
