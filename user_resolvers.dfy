/** The user resolvers: `me` and the find-or-create `userCreate`. */
module UserResolvers {
  import opened Common
  import opened ServerAuth
  import opened UserModel

  /** `me`: the guard, then a constant name. A thrown guard error becomes the result's error. */
  function Me(req: Request): (r: Result<string, string>)
    ensures r.Ok? <==> req.authtoken == Some(ValidToken)
    ensures r.Ok? ==> r.value == "Ray"
    ensures r.Err? ==> r.error == UnauthorizedMessage
  {
    match AuthCheck(req)
    case Returned(_) => Ok("Ray")
    case Threw(message) => Err(message)
  }

  /** `findOne({ email })`: the first stored user with that email. */
  function FindOneByEmail(users: seq<User>, email: string): (found: Option<User>)
    ensures found.Some? ==> found.value in users && found.value.email == email
    ensures found.None? <==> forall i :: 0 <= i < |users| ==> users[i].email != email
  {
    if users == [] then None
    else if users[0].email == email then Some(users[0])
    else
      assert forall i :: 1 <= i < |users| ==> users[i] == users[1..][i - 1];
      FindOneByEmail(users[1..], email)
  }

  /** A user that is stored last and whose email no earlier user has is found by it. */
  lemma {:induction false} FindsNewlySaved(users: seq<User>, u: User)
    requires forall i :: 0 <= i < |users| ==> users[i].email != u.email
    ensures FindOneByEmail(users + [u], u.email) == Some(u)
  {
    if users != [] {
      assert (users + [u])[1..] == users[1..] + [u];
      FindsNewlySaved(users[1..], u);
    } else {
      assert [] + [u] == [u];
    }
  }

  /** No stored user already has the generated id or the generated username. */
  predicate KeysFree(users: seq<User>, id: string, username: string)
  {
    forall i :: 0 <= i < |users| ==> users[i].id != id && users[i].username != username
  }

  datatype CreateError = AuthFailed(message: string) | Invalid(errors: seq<FieldError>) | Duplicate(key: string)

  /** `userCreate` for the principal's `email` (an input here: the guard returns no user).
      `freshId` and `generatedUsername` stand for the generated `_id` and the 12-character
      generated username; `now` for the timestamp. Returns the result and the collection
      after the call. */
  function FindOrCreate(users: seq<User>, req: Request, email: string, freshId: string,
                        generatedUsername: string, now: int): (out: (Result<User, CreateError>, seq<User>))
    requires |generatedUsername| == 12
    ensures AuthCheck(req).Threw? ==> out == (Err(AuthFailed(UnauthorizedMessage)), users)
    ensures AuthCheck(req).Returned? && FindOneByEmail(users, email).Some? ==>
      out == (Ok(FindOneByEmail(users, email).value), users)
    ensures out.0.Ok? ==> out.0.value.email == email
    ensures out.0.Err? ==> out.1 == users
    ensures out.1 == users || out.1 == users + [out.0.value]
    ensures out.1 != users ==>
      out.0.Ok? && out.0.value.username == generatedUsername && |out.0.value.username| == 12 &&
      FindOneByEmail(users, email).None?
    ensures (AuthCheck(req).Returned? && FindOneByEmail(users, email).None? && email != "" &&
             KeysFree(users, freshId, generatedUsername)) ==>
      var u := User(freshId, generatedUsername, None, email, DefaultImages, None, now, now);
      out == (Ok(u), users + [u])
    ensures (AuthCheck(req).Returned? && FindOneByEmail(users, email).None? && email != "" &&
             !KeysFree(users, freshId, generatedUsername)) ==>
      out == (Err(Duplicate(
        if exists i :: 0 <= i < |users| && users[i].id == freshId then "_id" else "username")), users)
    ensures out.0.Err? && out.0.error.Duplicate? ==>
      AuthCheck(req).Returned? && FindOneByEmail(users, email).None? &&
      ((out.0.error.key == "_id" && exists i :: 0 <= i < |users| && users[i].id == freshId) ||
       (out.0.error.key == "username" && exists i :: 0 <= i < |users| && users[i].username == generatedUsername))
  {
    match AuthCheck(req)
    case Threw(message) => (Err(AuthFailed(message)), users)
    case Returned(_) =>
      match FindOneByEmail(users, email)
      case Some(user) => (Ok(user), users)
      case None =>
        match NewUser(UserFields(None, Some(generatedUsername), None, Some(email), None, None), freshId, now)
        case Err(errors) => (Err(Invalid(errors)), users)
        case Ok(doc) =>
          match Save(users, doc)
          case Err(key) => (Err(Duplicate(key)), users)
          case Ok(saved) => (Ok(doc), saved)
  }

  /** `userCreate` keeps the collection valid and never changes a stored user. */
  lemma FindOrCreateKeepsValid(users: seq<User>, req: Request, email: string, freshId: string,
                               generatedUsername: string, now: int)
    requires ValidCollection(users) && |generatedUsername| == 12
    ensures var out := FindOrCreate(users, req, email, freshId, generatedUsername, now);
      ValidCollection(out.1) && out.1[..|users|] == users && |out.1| <= |users| + 1
  {
    var out := FindOrCreate(users, req, email, freshId, generatedUsername, now);
    if out.1 != users {
      var doc := out.0.value;
      assert doc == NewUser(UserFields(None, Some(generatedUsername), None, Some(email), None, None), freshId, now).value;
      NewUserIsWellFormed(UserFields(None, Some(generatedUsername), None, Some(email), None, None), freshId, now);
      SaveKeepsCollectionValid(users, doc);
    }
  }

  /** Calling twice with the same email: the second call saves nothing and returns the user
      the first call returned. */
  lemma {:induction false} SecondCallFindsFirst(users: seq<User>, req: Request, email: string,
      id1: string, name1: string, now1: int, id2: string, name2: string, now2: int)
    requires |name1| == 12 && |name2| == 12
    requires FindOrCreate(users, req, email, id1, name1, now1).0.Ok?
    ensures var first := FindOrCreate(users, req, email, id1, name1, now1);
      FindOrCreate(first.1, req, email, id2, name2, now2) == first
  {
    var first := FindOrCreate(users, req, email, id1, name1, now1);
    if first.1 != users {
      FindsNewlySaved(users, first.0.value);
    }
  }

  /** An empty principal email finds nobody in a valid collection and fails the schema's
      required check, so nothing is saved. */
  lemma EmptyEmailIsRejected(users: seq<User>, req: Request, freshId: string, generatedUsername: string, now: int)
    requires ValidCollection(users) && |generatedUsername| == 12 && AuthCheck(req).Returned?
    ensures FindOrCreate(users, req, "", freshId, generatedUsername, now)
      == (Err(Invalid([FieldError("email", RequiredMessage("email"))])), users)
  {
    assert FindOneByEmail(users, "").None?;
    var fields := UserFields(None, Some(generatedUsername), None, Some(""), None, None);
    assert Filled(fields.username) && !Filled(fields.email);
    var missing := [FieldError("email", RequiredMessage("email"))];
    assert [] + missing == missing;
    assert MissingRequired(fields) == missing;
    assert NewUser(fields, freshId, now) == Err(missing);
  }

  /** The collection the resolvers save into. */
  class UserCollection {
    var users: seq<User>

    ghost predicate Valid()
      reads this
    {
      ValidCollection(users)
    }

    constructor (initial: seq<User>)
      requires ValidCollection(initial)
      ensures Valid() && users == initial
    {
      users := initial;
    }

    /** `userCreate`: find by email, else validate and save a new user. */
    method UserCreate(req: Request, email: string, freshId: string, generatedUsername: string, now: int)
      returns (r: Result<User, CreateError>)
      requires Valid() && |generatedUsername| == 12
      modifies this
      ensures Valid()
      ensures (r, users) == FindOrCreate(old(users), req, email, freshId, generatedUsername, now)
      ensures (AuthCheck(req).Returned? && FindOneByEmail(old(users), email).None? && email != "" &&
               KeysFree(old(users), freshId, generatedUsername)) ==>
        var u := User(freshId, generatedUsername, None, email, DefaultImages, None, now, now);
        r == Ok(u) && users == old(users) + [u]
    {
      FindOrCreateKeepsValid(users, req, email, freshId, generatedUsername, now);
      var check := AuthCheck(req);
      if check.Threw? {
        return Err(AuthFailed(check.message));
      }
      var existing := FindOneByEmail(users, email);
      if existing.Some? {
        return Ok(existing.value);
      }
      var fields := UserFields(None, Some(generatedUsername), None, Some(email), None, None);
      var doc := NewUser(fields, freshId, now);
      if doc.Err? {
        return Err(Invalid(doc.error));
      }
      var saved := Save(users, doc.value);
      if saved.Err? {
        return Err(Duplicate(saved.error));
      }
      users := saved.value;
      r := Ok(doc.value);
    }
  }
}
