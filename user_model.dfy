/** The server's user schema and the uniqueness its indexes enforce on the collection. */
module UserModel {
  import opened Common

  datatype UserFields = UserFields(
    id: Option<string>,
    username: Option<string>,
    name: Option<string>,
    email: Option<string>,
    images: Option<seq<Image>>,
    about: Option<string>)

  datatype User = User(
    id: string,
    username: string,
    name: Option<string>,
    email: string,
    images: seq<Image>,
    about: Option<string>,
    createdAt: int,
    updatedAt: int)

  /** The `images` default: the sample image alone. */
  const DefaultImages: seq<Image> := [SampleImage]

  /** The required-field errors, in schema order (username before email). */
  function MissingRequired(fields: UserFields): (errors: seq<FieldError>)
    ensures |errors| <= 2
    ensures FieldError("username", RequiredMessage("username")) in errors <==> !Filled(fields.username)
    ensures FieldError("email", RequiredMessage("email")) in errors <==> !Filled(fields.email)
    ensures forall i :: 0 <= i < |errors| ==> errors[i].path == "username" || errors[i].path == "email"
  {
    var u := if Filled(fields.username) then [] else [FieldError("username", RequiredMessage("username"))];
    var e := if Filled(fields.email) then [] else [FieldError("email", RequiredMessage("email"))];
    assert "username"[0] != "email"[0];
    u + e
  }

  /** A new user document: `_id` defaults to `freshId`, `images` to the sample image,
      `name` and `about` stay optional, and `username` and `email` are required. */
  function NewUser(fields: UserFields, freshId: string, now: int): (r: Result<User, seq<FieldError>>)
    ensures r.Ok? <==> Filled(fields.username) && Filled(fields.email)
    ensures r.Err? ==> r.error == MissingRequired(fields) && |r.error| > 0
    ensures r.Ok? ==> r.value.username == fields.username.value && r.value.email == fields.email.value
    ensures r.Ok? ==> r.value.id == (if fields.id.Some? then fields.id.value else freshId)
    ensures r.Ok? ==> r.value.images == (if fields.images.Some? then fields.images.value else DefaultImages)
    ensures r.Ok? ==> r.value.name == fields.name && r.value.about == fields.about
    ensures r.Ok? ==> r.value.createdAt == r.value.updatedAt == now
  {
    var missing := MissingRequired(fields);
    if missing != [] then Err(missing)
    else
      Ok(User(
        if fields.id.Some? then fields.id.value else freshId,
        fields.username.value,
        fields.name,
        fields.email.value,
        if fields.images.Some? then fields.images.value else DefaultImages,
        fields.about,
        now, now))
  }

  /** A stored user has its required fields. */
  predicate WellFormed(u: User)
  {
    u.username != "" && u.email != ""
  }

  /** The collection's invariant: every user well formed, and no two users share an id, a
      username or an email. */
  predicate ValidCollection(users: seq<User>)
  {
    && (forall i :: 0 <= i < |users| ==> WellFormed(users[i]))
    && (forall i, j :: 0 <= i < j < |users| ==>
          users[i].id != users[j].id && users[i].username != users[j].username &&
          users[i].email != users[j].email)
  }

  /** Saving a document: a unique index refuses a second document with the same key. The
      first conflicting key in schema order is reported. */
  function Save(users: seq<User>, u: User): (r: Result<seq<User>, string>)
    ensures r.Ok? <==> forall i :: 0 <= i < |users| ==>
      users[i].id != u.id && users[i].username != u.username && users[i].email != u.email
    ensures r.Ok? ==> r.value == users + [u]
    ensures r.Err? ==> r.error == "_id" || r.error == "username" || r.error == "email"
    ensures r == Err("_id") <==> exists i :: 0 <= i < |users| && users[i].id == u.id
    ensures r == Err("username") ==> exists i :: 0 <= i < |users| && users[i].username == u.username
    ensures r == Err("email") ==> exists i :: 0 <= i < |users| && users[i].email == u.email
    ensures r == Err("username") <==>
      (forall i :: 0 <= i < |users| ==> users[i].id != u.id) &&
      (exists i :: 0 <= i < |users| && users[i].username == u.username)
  {
    if exists i :: 0 <= i < |users| && users[i].id == u.id then Err("_id")
    else if exists i :: 0 <= i < |users| && users[i].username == u.username then Err("username")
    else if exists i :: 0 <= i < |users| && users[i].email == u.email then Err("email")
    else Ok(users + [u])
  }

  /** Saving a well-formed document keeps the collection valid. */
  lemma SaveKeepsCollectionValid(users: seq<User>, u: User)
    requires ValidCollection(users) && WellFormed(u)
    ensures Save(users, u).Ok? ==> ValidCollection(Save(users, u).value)
  {
  }

  /** A validated document is well formed. */
  lemma NewUserIsWellFormed(fields: UserFields, freshId: string, now: int)
    ensures NewUser(fields, freshId, now).Ok? ==> WellFormed(NewUser(fields, freshId, now).value)
  {
  }
}
