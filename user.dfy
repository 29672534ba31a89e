/**
 * The user rules of controllers/user.js: the registration checks, applied in a
 * fixed order, the duplicate-email refusal, the password length check of a
 * password change, promotion to admin, and the removal of the password from
 * every user object a response carries.
 */
module UserController {
  import opened Wrappers
  import opened Api

  /** Length a mobile number must have. */
  const MobileNoLength := 11
  /** Shortest password accepted. */
  const MinPasswordLength := 8
  /** The field of a user object that a response must never carry. */
  const PasswordField := "password"

  /** A stored user; `password` holds the bcrypt hash. */
  datatype User = User(firstName: string, lastName: string, email: string, mobileNo: string, password: string, isAdmin: bool)

  /** The fields of a registration request; `None` is a field the body leaves out. */
  datatype Registration = Registration(
    firstName: Option<string>, lastName: Option<string>, email: Option<string>,
    mobileNo: Option<string>, password: Option<string>)

  /** The check that refused a registration, in the order the checks run. */
  datatype RegistrationError = EmailInvalid | MobileNoInvalid | PasswordTooShort | DetailsInvalid

  /** A value of a user object as `toObject()` produces it. */
  datatype FieldValue = Text(text: string) | Flag(flag: bool) | Id(id: ObjectId)

  predicate ValidEmail(email: Option<string>) {
    email.Some? && email.value != "" && '@' in email.value
  }

  predicate ValidMobileNo(mobileNo: Option<string>) {
    mobileNo.Some? && |mobileNo.value| == MobileNoLength
  }

  predicate ValidPassword(password: Option<string>) {
    password.Some? && password.value != "" && |password.value| >= MinPasswordLength
  }

  predicate ValidNames(firstName: Option<string>, lastName: Option<string>) {
    firstName.Some? && firstName.value != "" && lastName.Some? && lastName.value != ""
  }

  /** registerUser's checks (controllers/user.js:11-26); the first check that fails decides the error. */
  function CheckRegistration(req: Registration): (r: Option<RegistrationError>)
    ensures r == None <==>
      ValidEmail(req.email) && ValidMobileNo(req.mobileNo) && ValidPassword(req.password) && ValidNames(req.firstName, req.lastName)
    ensures r == Some(EmailInvalid) <==> !ValidEmail(req.email)
    ensures r == Some(MobileNoInvalid) <==> ValidEmail(req.email) && !ValidMobileNo(req.mobileNo)
    ensures r == Some(PasswordTooShort) <==>
      ValidEmail(req.email) && ValidMobileNo(req.mobileNo) && !ValidPassword(req.password)
    ensures r == Some(DetailsInvalid) <==>
      ValidEmail(req.email) && ValidMobileNo(req.mobileNo) && ValidPassword(req.password)
      && !ValidNames(req.firstName, req.lastName)
  {
    if !ValidEmail(req.email) then Some(EmailInvalid)
    else if !ValidMobileNo(req.mobileNo) then Some(MobileNoInvalid)
    else if !ValidPassword(req.password) then Some(PasswordTooShort)
    else if !ValidNames(req.firstName, req.lastName) then Some(DetailsInvalid)
    else None
  }

  /** `savedUser.toObject()`: every stored field, the password hash included. */
  function ToObject(id: ObjectId, u: User): map<string, FieldValue>
  {
    map["_id" := Id(id), "firstName" := Text(u.firstName), "lastName" := Text(u.lastName),
        "email" := Text(u.email), "mobileNo" := Text(u.mobileNo), PasswordField := Text(u.password),
        "isAdmin" := Flag(u.isAdmin)]
  }

  /** `delete userObj.password` (and the rest-pattern of getUserDetails): every field but the password. */
  function WithoutPassword(obj: map<string, FieldValue>): (r: map<string, FieldValue>)
    ensures PasswordField !in r
    ensures forall k :: k in r <==> k in obj && k != PasswordField
    ensures forall k :: k in r ==> r[k] == obj[k]
  {
    obj - {PasswordField}
  }

  /** The user object a response carries. */
  function PublicView(id: ObjectId, u: User): map<string, FieldValue>
  {
    WithoutPassword(ToObject(id, u))
  }

  /** A response's user object has every field of the user except the password, whatever the hash is. */
  lemma PublicViewHidesOnlyPassword(id: ObjectId, u: User)
    ensures var v := PublicView(id, u);
      && PasswordField !in v
      && v.Keys == {"_id", "firstName", "lastName", "email", "mobileNo", "isAdmin"}
      && v["_id"] == Id(id) && v["email"] == Text(u.email) && v["isAdmin"] == Flag(u.isAdmin)
      && v["firstName"] == Text(u.firstName) && v["lastName"] == Text(u.lastName) && v["mobileNo"] == Text(u.mobileNo)
      && forall hash :: PublicView(id, u.(password := hash)) == v
  {
    var v := PublicView(id, u);
    assert v.Keys == ToObject(id, u).Keys - {PasswordField};
    forall hash ensures PublicView(id, u.(password := hash)) == v {
      assert ToObject(id, u.(password := hash)) == ToObject(id, u)[PasswordField := Text(hash)];
    }
  }

  /** Whether some stored user has this email (`User.findOne({ email })`). */
  predicate EmailTaken(users: map<ObjectId, User>, email: string) {
    exists id :: id in users && users[id].email == email
  }

  /** No two stored users share an email. */
  ghost predicate UniqueEmails(users: map<ObjectId, User>) {
    forall a, b :: a in users && b in users && a != b ==> users[a].email != users[b].email
  }

  /** setAsAdmin (controllers/user.js:118-141) on the collection. */
  function SetAsAdminRule(users: map<ObjectId, User>, id: ObjectId): (int, map<ObjectId, User>)
  {
    if id !in users then (NotFound, users)
    else (Ok, users[id := users[id].(isAdmin := true)])
  }

  /** getUserDetails (controllers/user.js:91-114): the user's object without the password, or 404. */
  function GetUserDetails(users: map<ObjectId, User>, id: ObjectId): (r: Outcome<map<string, FieldValue>>)
    ensures r.Failure? <==> id !in users
    ensures r.Failure? ==> r.status == NotFound
    ensures r.Success? ==>
      r.status == Ok && PasswordField !in r.value && "email" in r.value && "_id" in r.value
      && r.value["email"] == Text(users[id].email) && r.value["_id"] == Id(id)
    ensures r.Success? ==> r.value == PublicView(id, users[id])
  {
    if id !in users then Failure(NotFound) else Success(Ok, PublicView(id, users[id]))
  }

  // ===== what the rules promise =====

  /** Promotion is idempotent, and it changes only the flag of that one user. */
  lemma SetAsAdminIdempotent(users: map<ObjectId, User>, id: ObjectId)
    ensures SetAsAdminRule(SetAsAdminRule(users, id).1, id) == SetAsAdminRule(users, id)
    ensures id !in users ==> SetAsAdminRule(users, id) == (NotFound, users)
    ensures id in users ==>
      var after := SetAsAdminRule(users, id).1;
      after.Keys == users.Keys && after[id] == users[id].(isAdmin := true)
      && forall other :: other in users && other != id ==> after[other] == users[other]
  {
    if id in users {
      var once := users[id := users[id].(isAdmin := true)];
      assert once[id := once[id].(isAdmin := true)] == once;
    }
  }

  /** A password shorter than eight characters is refused, whatever else the registration holds. */
  lemma ShortPasswordRefused(req: Registration)
    requires ValidEmail(req.email) && ValidMobileNo(req.mobileNo)
    requires req.password.Some? && |req.password.value| < MinPasswordLength
    ensures CheckRegistration(req) == Some(PasswordTooShort)
  {
  }

  // ===== the collection =====

  /** The user collection, with the next id to hand out. */
  class Directory {
    var users: map<ObjectId, User>
    var nextId: ObjectId

    ghost predicate Valid()
      reads this
    {
      (forall id :: id in users ==> id < nextId) && UniqueEmails(users)
    }

    constructor ()
      ensures Valid() && users == map[]
    {
      users := map[];
      nextId := 0;
    }

    /**
     * registerUser: the four checks (400), the duplicate email (409), then a new
     * non-admin user whose password is `passwordHash`, the hash of the request's
     * password; the response carries the user without the password.
     */
    method Register(req: Registration, passwordHash: string) returns (status: int, error: Option<RegistrationError>, body: Option<map<string, FieldValue>>)
      requires Valid()
      modifies this
      ensures Valid()
      ensures error == CheckRegistration(req)
      ensures error.Some? ==> status == BadRequest && body == None && users == old(users)
      ensures error.None? && EmailTaken(old(users), req.email.value) ==>
        status == Conflict && body == None && users == old(users)
      ensures error.None? && !EmailTaken(old(users), req.email.value) ==>
        var u := User(req.firstName.value, req.lastName.value, req.email.value, req.mobileNo.value, passwordHash, false);
        && status == Created
        && old(nextId) !in old(users)
        && users == old(users)[old(nextId) := u]
        && body == Some(PublicView(old(nextId), u))
      ensures body.Some? ==> PasswordField !in body.value
    {
      error := CheckRegistration(req);
      if error.Some? {
        return BadRequest, error, None;
      }
      if EmailTaken(users, req.email.value) {
        return Conflict, error, None;
      }
      var u := User(req.firstName.value, req.lastName.value, req.email.value, req.mobileNo.value, passwordHash, false);
      var id := nextId;
      users := users[id := u];
      nextId := nextId + 1;
      var obj := ToObject(id, u);
      body := Some(WithoutPassword(obj));
      status := Created;
    }

    /** updatePassword: a missing or short password is refused (400) before the user is looked up (404). */
    method UpdatePassword(userId: ObjectId, newPassword: Option<string>, passwordHash: string) returns (status: int)
      requires Valid()
      modifies this
      ensures Valid() && nextId == old(nextId)
      ensures !ValidPassword(newPassword) ==> status == BadRequest && users == old(users)
      ensures ValidPassword(newPassword) && userId !in old(users) ==> status == NotFound && users == old(users)
      ensures ValidPassword(newPassword) && userId in old(users) ==>
        status == Ok && users == old(users)[userId := old(users)[userId].(password := passwordHash)]
    {
      if !ValidPassword(newPassword) {
        return BadRequest;
      }
      if userId !in users {
        return NotFound;
      }
      users := users[userId := users[userId].(password := passwordHash)];
      status := Ok;
    }

    /** setAsAdmin: `findByIdAndUpdate(id, { isAdmin: true })`. */
    method SetAsAdmin(id: ObjectId) returns (status: int)
      requires Valid()
      modifies this
      ensures Valid() && nextId == old(nextId)
      ensures (status, users) == SetAsAdminRule(old(users), id)
    {
      if id !in users {
        return NotFound;
      }
      users := users[id := users[id].(isAdmin := true)];
      status := Ok;
    }
  }
}
