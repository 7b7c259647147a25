/**
  The user document of models/userschema.js with the passport-local-mongoose
  plugin (`usernameField: 'email'`), and the collection it lives in, seen as
  a map from e-mail address to document.
*/
module UserSchema {
  import opened Wrappers
  import opened Hex

  type Email = string

  /**
    What the plugin stores for a password: salt and pbkdf2 digest. The digest
    is kept symbolic (the password itself stands in for it), so the model
    treats the hash as collision-free; nothing here reads `secret` except
    `Verify`.
  */
  datatype Credential = Credential(secret: string, salt: seq<byte>)

  /** `setPassword`: digest of the password under a fresh salt. */
  function Hash(password: string, salt: seq<byte>): (c: Credential)
    ensures c.salt == salt
  {
    Credential(password, salt)
  }

  /** `authenticate`: rehash the candidate with the stored salt and compare. */
  predicate Verify(password: string, c: Credential): (ok: bool)
    ensures ok ==> c.secret == password
  {
    Hash(password, c.salt) == c
  }

  lemma VerifyHash(password: string, candidate: string, salt: seq<byte>)
    ensures Verify(candidate, Hash(password, salt)) <==> candidate == password
  {
  }

  /**
    One document. `email` is required and unique; `userName` is a declared
    field; the reset fields are optional, and timestamps are milliseconds.
    The schema's `password` field is never written by the code and is
    not modelled.
  */
  datatype User = User(
    email: Email,
    userName: Option<string>,
    credential: Credential,
    resetPasswordToken: Option<string>,
    resetPasswordExpires: Option<int>)

  /** A document as `register` creates it: no reset pending. */
  function NewUser(email: Email, credential: Credential): User {
    User(email, None, credential, None, None)
  }

  /** Token and expiry are present together or absent together. */
  predicate ResetFieldsPaired(u: User) {
    u.resetPasswordToken.Some? <==> u.resetPasswordExpires.Some?
  }

  /** `required: true`: a falsy (empty) e-mail is refused. */
  predicate WellFormed(u: User) {
    u.email != "" && ResetFieldsPaired(u)
  }

  /**
    The collection: each document is filed under its own e-mail address,
    which is what the unique index on `email` guarantees.
  */
  ghost predicate StoreValid(users: map<Email, User>): (ok: bool)
    ensures ok ==> forall e | e in users :: users[e].email != ""
    ensures ok ==> forall a, b | a in users && b in users && a != b :: users[a].email != users[b].email
  {
    forall e | e in users :: users[e].email == e && WellFormed(users[e])
  }

  /** No two documents of a valid store share an e-mail address. */
  lemma NoSharedEmail(users: map<Email, User>, a: Email, b: Email)
    requires StoreValid(users)
    requires a in users && b in users && a != b
    ensures users[a].email != users[b].email
  {
  }

  /**
    Inserting a new document: the unique index refuses a second document
    with an e-mail already present instead of overwriting it.
  */
  function Create(users: map<Email, User>, u: User): (r: Option<map<Email, User>>)
    ensures r.Some? <==> u.email !in users
    ensures r.Some? ==> r.value.Keys == users.Keys + {u.email} && r.value[u.email] == u
    ensures r.Some? ==> forall e | e in users :: r.value[e] == users[e]
    ensures r.Some? && StoreValid(users) && WellFormed(u) ==> StoreValid(r.value)
  {
    if u.email in users then None else Some(users[u.email := u])
  }

  /**
    `save()` of a document fetched under key `id`, after changing fields
    other than its e-mail address.
  */
  function Save(users: map<Email, User>, id: Email, u: User): (r: map<Email, User>)
    requires id in users
    ensures r.Keys == users.Keys && r[id] == u
    ensures forall e | e in users && e != id :: r[e] == users[e]
    ensures StoreValid(users) && u.email == users[id].email && WellFormed(u) ==> StoreValid(r)
  {
    users[id := u]
  }
}
