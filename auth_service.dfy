/** The auth service: registration stores a salted hash of the password and
    answers the new user's public fields with a token; login looks the email
    up and compares the password against the stored hash. Hashing, comparing
    and token signing are parameters (bcrypt and jsonwebtoken). */
module AuthService {

  import opened Wrappers
  import opened Http

  /** A stored user; `id` is the id the store gives it. */
  datatype User = User(id: nat, name: string, email: string, password: string)

  /** What register and login answer: the public fields and a token. There
      is no password field. */
  datatype AuthReply = AuthReply(id: nat, name: string, email: string, token: string)

  /** `bcrypt.hash(password, salt)` */
  type Hasher = (string, string) -> string
  /** `bcrypt.compare(password, hashed)` */
  type Comparer = (string, string) -> bool
  /** `jwt.sign({ id }, secret, { expiresIn: '1h' })` */
  type Signer = nat -> string

  const UserExistsMessage: string := "El usuario ya existe"
  const InvalidCredentialsMessage: string := "Credenciales inválidas"

  /** `generateToken(id)` */
  function GenerateToken(sign: Signer, id: nat): string {
    sign(id)
  }

  /** The answer built from a stored user: its public fields and its token. */
  function PublicReply(u: User, sign: Signer): AuthReply {
    AuthReply(u.id, u.name, u.email, GenerateToken(sign, u.id))
  }

  /** `User.findOne({ email })`: the first stored user with that email. */
  function FindByEmail(users: seq<User>, email: string): (r: Option<nat>)
    ensures r.Some? ==> r.value < |users| && users[r.value].email == email
    ensures r.Some? ==> forall j :: 0 <= j < r.value ==> users[j].email != email
    ensures r.None? <==> forall j :: 0 <= j < |users| ==> users[j].email != email
    decreases |users|
  {
    if users == [] then None
    else if users[0].email == email then Some(0)
    else
      match FindByEmail(users[1..], email)
      case None => None
      case Some(k) => Some(k + 1)
  }

  /** No two stored users share an email. */
  predicate UniqueEmails(users: seq<User>) {
    forall i, j :: 0 <= i < j < |users| ==> users[i].email != users[j].email
  }

  /** Stored ids are the positions the store gave them. */
  predicate IdsArePositions(users: seq<User>) {
    forall i :: 0 <= i < |users| ==> users[i].id == i
  }

  /** `registerUser`: the new store and the answer, or 'El usuario ya existe'. */
  function Register(users: seq<User>, name: string, email: string, password: string, salt: string,
                    hash: Hasher, sign: Signer): (r: Result<(seq<User>, AuthReply), Error>)
    ensures r.Failure? <==> exists j :: 0 <= j < |users| && users[j].email == email
    ensures r.Failure? ==> r.error == Thrown(UserExistsMessage)
    ensures r.Success? ==> |r.value.0| == |users| + 1 && r.value.0[..|users|] == users
    ensures r.Success? ==> r.value.0[|users|] == User(|users|, name, email, hash(password, salt))
    ensures r.Success? ==> r.value.1 == AuthReply(|users|, name, email, sign(|users|))
  {
    if FindByEmail(users, email).Some? then Failure(Thrown(UserExistsMessage))
    else
      var user := User(|users|, name, email, hash(password, salt));
      assert (users + [user])[..|users|] == users;
      Success((users + [user], PublicReply(user, sign)))
  }

  /** `loginUser`: the stored user's answer when the email is known and the
      password matches its hash; the same error otherwise. */
  function Login(users: seq<User>, email: string, password: string, compare: Comparer, sign: Signer): (r: Result<AuthReply, Error>)
    ensures r.Success? <==> FindByEmail(users, email).Some? && compare(password, users[FindByEmail(users, email).value].password)
    ensures r.Failure? ==> r.error == Thrown(InvalidCredentialsMessage)
    ensures r.Success? ==> r.value == PublicReply(users[FindByEmail(users, email).value], sign)
    ensures r.Success? ==> r.value.email == email && r.value.token == sign(r.value.id)
  {
    match FindByEmail(users, email)
    case Some(k) =>
      if compare(password, users[k].password) then Success(PublicReply(users[k], sign))
      else Failure(Thrown(InvalidCredentialsMessage))
    case None => Failure(Thrown(InvalidCredentialsMessage))
  }

  /** The users collection. */
  class UserStore {
    var users: seq<User>

    constructor ()
      ensures users == []
    {
      users := [];
    }

    /** `registerUser`: nothing is added when the email is already stored. */
    method RegisterUser(name: string, email: string, password: string, salt: string, hash: Hasher, sign: Signer)
      returns (r: Result<AuthReply, Error>)
      modifies this
      ensures Register(old(users), name, email, password, salt, hash, sign).Failure? ==>
        r == Failure(Thrown(UserExistsMessage)) && users == old(users)
      ensures Register(old(users), name, email, password, salt, hash, sign).Success? ==>
        && users == Register(old(users), name, email, password, salt, hash, sign).value.0
        && r == Success(Register(old(users), name, email, password, salt, hash, sign).value.1)
    {
      if FindByEmail(users, email).Some? {
        return Failure(Thrown(UserExistsMessage));
      }
      var user := User(|users|, name, email, hash(password, salt));
      users := users + [user];
      r := Success(PublicReply(user, sign));
    }

    /** `loginUser`: reads the store only. */
    method LoginUser(email: string, password: string, compare: Comparer, sign: Signer) returns (r: Result<AuthReply, Error>)
      ensures r == Login(users, email, password, compare, sign)
      ensures r.Success? ==> exists j :: 0 <= j < |users| && users[j].email == email && compare(password, users[j].password)
    {
      var found := FindByEmail(users, email);
      if found.Some? && compare(password, users[found.value].password) {
        r := Success(PublicReply(users[found.value], sign));
      } else {
        r := Failure(Thrown(InvalidCredentialsMessage));
      }
    }
  }

  // ---------------------------------------------------------------------------
  // Properties
  // ---------------------------------------------------------------------------

  /** An unknown email and a wrong password are told apart by nothing. */
  lemma SameErrorForBothRejections(users: seq<User>, email: string, password: string, compare: Comparer, sign: Signer)
    ensures FindByEmail(users, email).None? ==>
      Login(users, email, password, compare, sign) == Failure(Thrown(InvalidCredentialsMessage))
    ensures FindByEmail(users, email).Some? && !compare(password, users[FindByEmail(users, email).value].password) ==>
      Login(users, email, password, compare, sign) == Failure(Thrown(InvalidCredentialsMessage))
  {
  }

  /** Registration keeps emails unique and ids equal to positions. */
  lemma RegisterKeepsInvariants(users: seq<User>, name: string, email: string, password: string, salt: string,
                                hash: Hasher, sign: Signer)
    requires UniqueEmails(users) && IdsArePositions(users)
    ensures var r := Register(users, name, email, password, salt, hash, sign);
      r.Success? ==> UniqueEmails(r.value.0) && IdsArePositions(r.value.0)
  {
    var r := Register(users, name, email, password, salt, hash, sign);
    if r.Success? {
      var after := r.value.0;
      assert forall i :: 0 <= i < |users| ==> after[i] == users[i];
    }
  }

  /** With a comparer that accepts every password against its own hash,
      logging in right after registering succeeds and names the new user. */
  lemma RegisterThenLogin(users: seq<User>, name: string, email: string, password: string, salt: string,
                          hash: Hasher, compare: Comparer, sign: Signer)
    requires forall p :: compare(p, hash(p, salt))
    requires Register(users, name, email, password, salt, hash, sign).Success?
    ensures var after := Register(users, name, email, password, salt, hash, sign).value.0;
      Login(after, email, password, compare, sign) == Success(Register(users, name, email, password, salt, hash, sign).value.1)
  {
    var after := Register(users, name, email, password, salt, hash, sign).value.0;
    assert after == users + [User(|users|, name, email, hash(password, salt))];
    assert FindByEmail(after, email) == Some(|users|) by {
      assert forall j :: 0 <= j < |users| ==> after[j] == users[j];
    }
  }
}
