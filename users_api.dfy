/**
 * The user routes: the list of every user without their password hashes, newest first,
 * and creation of a user with a unique email address, whose password is stored only as its
 * hash, together with an activity-log entry attributed to the caller.
 */
module UsersApi {
  import opened Common
  import opened Domain
  import opened Store
  import opened Validation
  import opened Http

  /** The columns the routes select: a user as the API shows it, without `hashedPassword`. */
  datatype PublicUser = PublicUser(id: string, name: string, email: string)

  function Public(u: User): PublicUser {
    PublicUser(u.id, u.name, u.email)
  }

  /** The `email` column is unique: no two users share an address. */
  predicate UniqueEmails(users: seq<User>) {
    forall i, j :: 0 <= i < j < |users| ==> users[i].email != users[j].email
  }

  /** `prisma.user.findUnique({ where: { email } })`. */
  function UserByEmail(users: seq<User>, email: string): (r: Option<User>)
    ensures r.None? <==> forall i :: 0 <= i < |users| ==> users[i].email != email
    ensures r.Some? ==> r.value in users && r.value.email == email
  {
    var k := IndexWhere(users, (u: User) => u.email == email);
    if k.None? then None else Some(users[k.value])
  }

  /** In a table of unique addresses, the lookup finds the one user with that address. */
  lemma UserByEmailUnique(users: seq<User>, i: nat)
    requires UniqueEmails(users) && i < |users|
    ensures UserByEmail(users, users[i].email) == Some(users[i])
  {
    var k := IndexWhere(users, (u: User) => u.email == users[i].email);
    assert k == Some(i);
  }

  // ---------------------------------------------------------------- GET /api/users

  /** `GET /api/users`: 401 without a session, otherwise every user, newest first, without the hash. */
  function ListUsers(users: seq<User>, session: Option<Session>): (r: Response<seq<PublicUser>>)
    ensures session.None? <==> r == Failure(401, Given(Unauthorized))
    ensures r.Success? ==>
      && r.status == 200 && |r.body| == |users|
      && forall i :: 0 <= i < |users| ==>
           var u := users[|users| - 1 - i];
           r.body[i].id == u.id && r.body[i].name == u.name && r.body[i].email == u.email
  {
    if session.None? then Failure(401, Given(Unauthorized))
    else Success(200, seq(|users|, i requires 0 <= i < |users| => Public(users[|users| - 1 - i])))
  }

  // ---------------------------------------------------------------- POST /api/users

  const EmailTaken := "Bu email adresi zaten kullanılıyor"

  /** The activity-log entry of a created user, attributed to the caller who created it. */
  function UserLog(u: User, callerId: string): ActivityLog {
    ActivityLog("created", "user", u.id, callerId, UserCreated(u.name, u.email))
  }

  /**
   * `POST /api/users`: 401 without a session; 400 with the first issue's message for a body
   * the schema refuses; 400 when the address is already registered; none of these changes
   * anything. Otherwise one user is stored with `hash` of the password in place of the
   * password, one "created" log entry is attributed to the caller, and the new user is
   * answered with 201 without the hash. Unique addresses stay unique.
   *
   * `hash` is the password hashing (bcrypt with cost 10), whose salt is part of its value.
   */
  method CreateUser(db: Db, session: Option<Session>, body: Json, isEmail: string -> bool,
                    hash: string -> string, id: string)
    returns (resp: Response<PublicUser>)
    modifies db`users, db`logs
    ensures session.None? ==> resp == Failure(401, Given(Unauthorized))
    ensures session.Some? && ParseUser(body, isEmail).Reject? ==>
      resp == Failure(400, ParseUser(body, isEmail).message)
    ensures session.Some? && ParseUser(body, isEmail).Pass? && UserByEmail(old(db.users), ParseUser(body, isEmail).value.email).Some? ==>
      resp == Failure(400, Given(EmailTaken))
    ensures resp.Failure? ==> db.users == old(db.users) && db.logs == old(db.logs)
    ensures session.Some? && ParseUser(body, isEmail).Pass? && UserByEmail(old(db.users), ParseUser(body, isEmail).value.email).None? ==>
      var data := ParseUser(body, isEmail).value;
      var u := User(id, data.name, data.email, hash(data.password));
      && db.users == old(db.users) + [u]
      && db.logs == old(db.logs) + [UserLog(u, session.value.userId)]
      && resp == Success(201, PublicUser(id, data.name, data.email))
    ensures UniqueEmails(old(db.users)) ==> UniqueEmails(db.users)
  {
    if session.None? {
      return Failure(401, Given(Unauthorized));
    }
    var parsed := ParseUser(body, isEmail);
    if parsed.Reject? {
      return Failure(400, parsed.message);
    }
    var data := parsed.value;
    if UserByEmail(db.users, data.email).Some? {
      return Failure(400, Given(EmailTaken));
    }
    var u := User(id, data.name, data.email, hash(data.password));
    db.users := db.users + [u];
    db.logs := db.logs + [UserLog(u, session.value.userId)];
    resp := Success(201, Public(u));
  }

  /**
   * After a user is created, the address finds that user, so a second request with the
   * same address is refused.
   */
  lemma CreatedFoundByEmail(users: seq<User>, u: User)
    requires UniqueEmails(users) && UserByEmail(users, u.email).None?
    ensures UniqueEmails(users + [u])
    ensures UserByEmail(users + [u], u.email) == Some(u)
  {
    UserByEmailUnique(users + [u], |users|);
  }
}
