/** The signup handler of auth/signup.js: a validated insertion into the
    user collection guarded by an email lookup, under the unique indexes. */
module Signup {
  import opened Common
  import opened Joi
  import opened UserModel
  import opened Database

  /** `POST /signup`. `hash` stands for `bcrypt.hash` and `salt` for the
      result of `bcrypt.genSalt(10)`. An invalid body is 400, an email already
      stored is 400; a name already stored passes the lookup but breaks the
      unique index, so `save()` throws. Otherwise exactly one non-admin user is
      added, holding `hash(password, salt)` in place of the password. */
  method Signup(db: Store, isEmail: string -> bool, hash: (string, string) -> string,
                salt: string, body: Body)
    returns (status: Status, created: Option<Id>)
    requires db.Valid()
    modifies db`users, db`nextId
    ensures db.Valid()
    ensures !UserValidation(isEmail, body) ==>
              status == BadRequest && created == None && db.users == old(db.users)
    ensures UserValidation(isEmail, body) && EmailTaken(old(db.users), body["email"].s) ==>
              status == BadRequest && created == None && db.users == old(db.users)
    ensures UserValidation(isEmail, body) && !EmailTaken(old(db.users), body["email"].s)
            && NameTaken(old(db.users), body["name"].s) ==>
              status == Crash && created == None && db.users == old(db.users)
    ensures UserValidation(isEmail, body) && !EmailTaken(old(db.users), body["email"].s)
            && !NameTaken(old(db.users), body["name"].s) ==>
              && status == Created && created == Some(old(db.nextId))
              && created.value !in old(db.users)
              && db.users == old(db.users)[created.value := NewUser(
                   body["name"].s, body["email"].s, body["telephoneNumber"].s,
                   hash(body["password"].s, salt))]
              && !db.users[created.value].isAdmin
    ensures created.None? ==> db.nextId == old(db.nextId)
    ensures created.Some? ==> db.nextId == old(db.nextId) + 1
  {
    if !UserValidation(isEmail, body) {
      return BadRequest, None;
    }
    var name, email := body["name"].s, body["email"].s;
    if EmailTaken(db.users, email) {
      return BadRequest, None;
    }
    if NameTaken(db.users, name) {
      // the duplicate-key error of the unique index on `name`
      return Crash, None;
    }
    var u := NewUser(name, email, body["telephoneNumber"].s, hash(body["password"].s, salt));
    var id := db.nextId;
    InsertKeepsUnique(db.users, id, u);
    db.users := db.users[id := u];
    db.nextId := db.nextId + 1;
    return Created, Some(id);
  }
}
