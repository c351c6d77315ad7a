/**
 * POST /api/auth/signup (src/app/api/auth/signup/route.ts): account creation, with the
 * User schema's `lowercase`/`trim` setters and `required` validators
 * (src/models/User.ts) applied as `User.findOne` and `User.create` apply them.
 */
module SignupApi {
  import opened Common
  import opened Wire
  import opened Store

  /** A thrown JavaScript error as the route's catch block reads it. */
  datatype JsError = JsError(message: Option<string>, code: Option<int>)

  /** The catch block's message: configuration errors, duplicate keys, else the error's own message. */
  function ErrorMessage(e: JsError): (r: string)
    ensures e.message.Some? && Contains(e.message.value, "MONGODB_URI") ==> r == "Database configuration error"
    ensures !(e.message.Some? && Contains(e.message.value, "MONGODB_URI")) && e.code == Some(11000) ==>
      r == "User with this email already exists"
    ensures !(e.message.Some? && Contains(e.message.value, "MONGODB_URI")) && e.code != Some(11000) ==>
      r == if Present(e.message) then e.message.value else "Internal server error"
    ensures r != ""
  {
    if e.message.Some? && Contains(e.message.value, "MONGODB_URI") then "Database configuration error"
    else if e.code == Some(11000) then "User with this email already exists"
    else if Present(e.message) then e.message.value
    else "Internal server error"
  }

  /** The `email` schema path's setters, `lowercase` then `trim`. */
  function NormalEmail(email: string): string {
    Trim(ToLower(email))
  }

  /** A lower-cased string has no upper-case letter left. */
  lemma LowerStaysLower(s: string)
    ensures forall j :: 0 <= j < |ToLower(s)| ==> LowerChar(ToLower(s)[j]) == ToLower(s)[j]
  {
    var low := ToLower(s);
    forall j | 0 <= j < |low| ensures LowerChar(low[j]) == low[j] {
      assert low[j] == LowerChar(s[j]);
    }
  }

  /** Trimming a string without upper-case letters leaves none. */
  lemma TrimKeepsLower(low: string)
    requires forall j :: 0 <= j < |low| ==> LowerChar(low[j]) == low[j]
    ensures ToLower(Trim(low)) == Trim(low)
  {
    var start := TrimStart(low);
    var t := TrimEnd(start);
    TrimStartSuffix(low);
    TrimEndPrefix(start);
    forall i | 0 <= i < |t| ensures LowerChar(t[i]) == t[i] {
      assert t[i] == start[i];
      assert start[i] == low[|low| - |start| + i];
    }
  }

  /** An email already normalised is its own normal form: what is stored is what later lookups compare. */
  lemma NormalEmailIdempotent(email: string)
    ensures NormalEmail(NormalEmail(email)) == NormalEmail(email)
  {
    LowerStaysLower(email);
    TrimKeepsLower(ToLower(email));
    TrimIdempotent(ToLower(email));
  }

  /** Emails that differ only in letter case normalise alike. */
  lemma NormalEmailIgnoresCase(a: string, b: string)
    requires ToLower(a) == ToLower(b)
    ensures NormalEmail(a) == NormalEmail(b)
  {
  }

  /** The message of the `ValidationError` that `User.create` throws when a required path is blank after trimming. */
  function ValidationMessage(emailBlank: bool, nameBlank: bool): string
    requires emailBlank || nameBlank
  {
    "User validation failed: "
      + (if emailBlank then "email: Path `email` is required." else "")
      + (if emailBlank && nameBlank then ", " else "")
      + (if nameBlank then "name: Path `name` is required." else "")
  }

  /** The `user` object of a 201 reply. */
  datatype Created = Created(id: UserId, email: string, name: string)

  /** The account `User.create` stores: hashed password at cost 12, offline, not an agent. */
  function NewAccount(id: UserId, email: string, password: string, name: string,
                      location: Option<Location>, deviceInfo: Option<DeviceInfo>, now: Time): UserDoc {
    UserDoc(id, NormalEmail(email), Bcrypt(password, 12), Trim(name), None, false, None,
            location, deviceInfo, false, now, now, now)
  }

  /** The request's checks before the store is written, in the route's order. */
  function Check(users: seq<UserDoc>, email: Option<string>, password: Option<string>, name: Option<string>,
                 connectFault: Option<JsError>): (r: Option<Reply<Created>>)
    ensures r.Some? ==> r.value.Fail?
    ensures !Present(email) || !Present(password) || !Present(name) ==>
      r == Some(Fail(400, "Email, password, and name are required"))
    ensures Present(email) && Present(password) && Present(name) && |password.value| < 6 ==>
      r == Some(Fail(400, "Password must be at least 6 characters"))
    ensures Present(email) && Present(password) && Present(name) && |password.value| >= 6 ==>
      && (connectFault.Some? ==> r == Some(Fail(500, ErrorMessage(connectFault.value))))
      && (connectFault.None? && EmailTaken(users, NormalEmail(email.value)) ==>
            r == Some(Fail(400, "User with this email already exists")))
      && (connectFault.None? && !EmailTaken(users, NormalEmail(email.value))
            && (NormalEmail(email.value) == "" || Trim(name.value) == "") ==>
            r == Some(Fail(500, ValidationMessage(NormalEmail(email.value) == "", Trim(name.value) == ""))))
      && ((connectFault.None? && !EmailTaken(users, NormalEmail(email.value))
           && NormalEmail(email.value) != "" && Trim(name.value) != "") ==> r.None?)
  {
    if !Present(email) || !Present(password) || !Present(name) then Some(Fail(400, "Email, password, and name are required"))
    else if |password.value| < 6 then Some(Fail(400, "Password must be at least 6 characters"))
    else if connectFault.Some? then Some(Fail(500, ErrorMessage(connectFault.value)))
    else if EmailTaken(users, NormalEmail(email.value)) then Some(Fail(400, "User with this email already exists"))
    else if NormalEmail(email.value) == "" || Trim(name.value) == "" then
      Some(Fail(500, ValidationMessage(NormalEmail(email.value) == "", Trim(name.value) == "")))
    else None
  }

  /**
   * The handler: every failed check leaves the store as it was; otherwise exactly the new
   * account is added and its id, normalised email and trimmed name are returned with 201.
   * The plain password is never stored.
   */
  method Post(db: Db, email: Option<string>, password: Option<string>, name: Option<string>,
              location: Option<Location>, deviceInfo: Option<DeviceInfo>, connectFault: Option<JsError>,
              newId: UserId, now: Time)
    returns (reply: Reply<Created>)
    requires db.Valid() && !db.HasUserId(newId)
    modifies db`users
    ensures db.Valid()
    ensures var early := Check(old(db.users), email, password, name, connectFault);
      && (early.Some? ==> reply == early.value && unchanged(db))
      && (early.None? ==>
            && db.users == old(db.users) + [NewAccount(newId, email.value, password.value, name.value, location, deviceInfo, now)]
            && reply == Ok(201, Created(newId, NormalEmail(email.value), Trim(name.value))))
    ensures forall i :: 0 <= i < |db.users| && db.users[i] !in old(db.users) ==> db.users[i].password == Bcrypt(password.value, 12)
  {
    var early := Check(db.users, email, password, name, connectFault);
    if early.Some? {
      return early.value;
    }
    var account := NewAccount(newId, email.value, password.value, name.value, location, deviceInfo, now);
    var ok := db.InsertUser(account);
    if !ok {
      // the duplicate-key error 11000, reachable only when another request wins a race
      assert false;
    }
    reply := Ok(201, Created(newId, account.email, account.name));
  }

  /** After a sign-up, the stored collection holds the address in every letter case the user may type it. */
  lemma AccountHoldsEmail(us: seq<UserDoc>, id: UserId, email: string, email': string, password: string,
                          name: string, location: Option<Location>, deviceInfo: Option<DeviceInfo>, now: Time)
    requires ToLower(email) == ToLower(email')
    ensures EmailTaken(us + [NewAccount(id, email, password, name, location, deviceInfo, now)], NormalEmail(email'))
  {
    NormalEmailIgnoresCase(email, email');
    assert (us + [NewAccount(id, email, password, name, location, deviceInfo, now)])[|us|].email == NormalEmail(email');
  }

  /**
   * One address holds one account: once a sign-up has added its account, a second
   * sign-up with the same email, in any letter case, is refused with 400 before anything
   * is written.
   */
  lemma SameEmailSignsUpOnce(us: seq<UserDoc>, id: UserId, email: string, email': string, password: string,
                             password': string, name: string, name': string,
                             location: Option<Location>, deviceInfo: Option<DeviceInfo>, now: Time)
    requires Check(us, Some(email), Some(password), Some(name), None).None?
    requires ToLower(email) == ToLower(email') && email' != "" && |password'| >= 6 && name' != ""
    ensures Check(us + [NewAccount(id, email, password, name, location, deviceInfo, now)], Some(email'), Some(password'), Some(name'), None)
            == Some(Fail(400, "User with this email already exists"))
  {
    AccountHoldsEmail(us, id, email, email', password, name, location, deviceInfo, now);
  }
}
