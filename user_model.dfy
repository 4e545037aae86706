/** The User document (models/users.js): its shape, the `isAdmin` default,
    the unique indexes on `name` and `email`, and the signup validator. */
module UserModel {
  import opened Common
  import opened Joi

  /** A stored user; `password` holds the bcrypt hash. The schema spells the
      telephone field `telephonNumber`. */
  datatype User = User(
    name: string,
    email: string,
    telephonNumber: string,
    isAdmin: bool,
    password: string)

  /** A user as `select("-password")` returns it. */
  datatype PublicUser = PublicUser(name: string, email: string, telephonNumber: string, isAdmin: bool)

  function Public(u: User): (p: PublicUser)
    ensures p.name == u.name && p.email == u.email
    ensures p.telephonNumber == u.telephonNumber && p.isAdmin == u.isAdmin
  {
    PublicUser(u.name, u.email, u.telephonNumber, u.isAdmin)
  }

  /** The schema default of `isAdmin`. */
  const DefaultIsAdmin: bool := false

  /** `new UserModel({...})` given no `isAdmin`: the default applies. */
  function NewUser(name: string, email: string, telephonNumber: string, password: string): (u: User)
    ensures !u.isAdmin
    ensures u.name == name && u.email == email
    ensures u.telephonNumber == telephonNumber && u.password == password
  {
    User(name, email, telephonNumber, DefaultIsAdmin, password)
  }

  /** The unique index on `email`. */
  ghost predicate UniqueEmails(users: map<Id, User>)
  {
    forall a, b :: a in users && b in users && a != b ==> users[a].email != users[b].email
  }

  /** The unique index on `name`. */
  ghost predicate UniqueNames(users: map<Id, User>)
  {
    forall a, b :: a in users && b in users && a != b ==> users[a].name != users[b].name
  }

  /** `UserModel.findOne({email})` finds a document. */
  predicate EmailTaken(users: map<Id, User>, email: string)
  {
    exists k :: k in users && users[k].email == email
  }

  predicate NameTaken(users: map<Id, User>, name: string)
  {
    exists k :: k in users && users[k].name == name
  }

  /** Inserting a user whose email and name are both unused keeps both
      indexes unique, and the insertion is exactly what `findOne` then sees. */
  lemma InsertKeepsUnique(users: map<Id, User>, id: Id, u: User)
    requires UniqueEmails(users) && UniqueNames(users)
    requires id !in users
    requires !EmailTaken(users, u.email) && !NameTaken(users, u.name)
    ensures UniqueEmails(users[id := u]) && UniqueNames(users[id := u])
    ensures EmailTaken(users[id := u], u.email)
  {
    var m := users[id := u];
    forall a, b | a in m && b in m && a != b
      ensures m[a].email != m[b].email && m[a].name != m[b].name
    {
      if a == id {
        assert b in users && users[b] == m[b];
      } else if b == id {
        assert a in users && users[a] == m[a];
      }
    }
    assert m[id].email == u.email;
  }

  /** The Joi schema of `validation` (signup). */
  const UserSchema: Schema := map[
    "name" := Rule(JoiString(3, Some(250), false), true),
    "email" := Rule(JoiString(0, None, true), true),
    "telephoneNumber" := Rule(JoiString(10, Some(13), false), true),
    "password" := Rule(JoiString(8, None, false), true)
  ]

  /** `validation(data)` reports no error. */
  function UserValidation(isEmail: string -> bool, body: Body): (ok: bool)
    ensures ok ==> forall k :: k in body ==> k in {"name", "email", "telephoneNumber", "password"}
    ensures ok ==> "name" in body && body["name"].JStr? && 3 <= Utf16Len(body["name"].s) <= 250
    ensures ok ==> "email" in body && body["email"].JStr? && body["email"].s != "" && isEmail(body["email"].s)
    ensures ok ==> "telephoneNumber" in body && body["telephoneNumber"].JStr?
                   && 10 <= Utf16Len(body["telephoneNumber"].s) <= 13
    ensures ok ==> "password" in body && body["password"].JStr? && Utf16Len(body["password"].s) >= 8
  {
    if Accepts(isEmail, UserSchema, body) then
      AcceptedKey(isEmail, UserSchema, body, "name");
      AcceptedKey(isEmail, UserSchema, body, "email");
      AcceptedKey(isEmail, UserSchema, body, "telephoneNumber");
      AcceptedKey(isEmail, UserSchema, body, "password");
      true
    else
      false
  }

  /** The four fields within their bounds, counted in UTF-16 units, are also
      enough. */
  lemma UserValidationComplete(isEmail: string -> bool, name: string, email: string, tel: string, pw: string)
    requires 3 <= Utf16Len(name) <= 250 && email != "" && isEmail(email)
    requires 10 <= Utf16Len(tel) <= 13 && Utf16Len(pw) >= 8
    ensures UserValidation(isEmail, map["name" := JStr(name), "email" := JStr(email),
                                        "telephoneNumber" := JStr(tel), "password" := JStr(pw)])
  {
    var b0: Body := map[];
    AdmitKey(isEmail, UserSchema, b0, "name", JStr(name));
    var b1 := b0["name" := JStr(name)];
    AdmitKey(isEmail, UserSchema, b1, "email", JStr(email));
    var b2 := b1["email" := JStr(email)];
    AdmitKey(isEmail, UserSchema, b2, "telephoneNumber", JStr(tel));
    var b3 := b2["telephoneNumber" := JStr(tel)];
    AdmitKey(isEmail, UserSchema, b3, "password", JStr(pw));
  }
}
