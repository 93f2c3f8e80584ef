/**
 * The user handlers as sequential steps on the store: each reads the
 * documents it needs, refuses or writes them in place, and is proved to
 * leave the store and answer exactly as its function in `Identity` says.
 */
module UserHandlers {
  import opened Text
  import opened Validation
  import opened Documents
  import opened Identity

  /** The required-fields loop both create handlers start with. */
  method FindMissing(body: map<string, string>) returns (missing: Option<string>)
    ensures missing == FirstMissing(body, RequiredFields)
  {
    var i := 0;
    while i < |RequiredFields|
      invariant 0 <= i <= |RequiredFields|
      invariant FirstMissing(body, RequiredFields) == FirstMissing(body, RequiredFields[i..])
    {
      assert RequiredFields[i..][1..] == RequiredFields[i + 1..];
      if !Present(body, RequiredFields[i]) {
        return Some(RequiredFields[i]);
      }
      i := i + 1;
    }
    return None;
  }

  /** `create_user_with_login` (Flask): the user, both markers and a login entry, or nothing. */
  method CreateUserWithLogin(db: Firestore, body: map<string, string>, userAgent: Option<string>, ip: string)
    returns (reply: Reply<User>)
    modifies db
    ensures db.Snapshot() == CreateWithLogin(old(db.Snapshot()), body, userAgent, ip).db
    ensures reply == CreateWithLogin(old(db.Snapshot()), body, userAgent, ip).reply
    ensures PhonesMarked(old(db.Snapshot())) && EmailsMarked(old(db.Snapshot())) ==>
              PhonesMarked(db.Snapshot()) && EmailsMarked(db.Snapshot())
  {
    if PhonesMarked(db.Snapshot()) && EmailsMarked(db.Snapshot()) {
      CreateWithLoginKeepsMarked(db.Snapshot(), body, userAgent, ip);
    }
    var missing := FindMissing(body);
    if missing.Some? {
      return Err(400, MissingField(missing.value));
    }
    var p := ReadProfile(body);
    if !ValidEmail(p.email) {
      return Err(400, InvalidEmail);
    }
    if !ValidPhone(p.phoneNumber) {
      return Err(400, InvalidPhone);
    }
    reply := CreateUserTransaction(db, p, userAgent, ip);
  }

  /** The `create_user_and_login` transaction: read the user and both markers, then write all four documents. */
  method CreateUserTransaction(db: Firestore, p: Profile, userAgent: Option<string>, ip: string) returns (reply: Reply<User>)
    modifies db
    ensures db.Snapshot() == CommitWithMarkers(old(db.Snapshot()), p, userAgent, ip).db
    ensures reply == CommitWithMarkers(old(db.Snapshot()), p, userAgent, ip).reply
  {
    var phoneKey := NormalizePhoneForPath(p.phoneNumber);
    var emailKey := NormalizeEmailForPath(p.email);
    if p.uid in db.users {
      return Err(409, UserExists);
    }
    if phoneKey in db.usersByPhone {
      return Err(409, PhoneTaken);
    }
    if emailKey in db.usersByEmail {
      return Err(409, EmailTaken);
    }
    var user := NewUser(p);
    db.users := db.users[p.uid := user];
    db.usersByPhone := db.usersByPhone[phoneKey := Marker(p.uid, p.phoneNumber)];
    db.usersByEmail := db.usersByEmail[emailKey := Marker(p.uid, p.email)];
    db.loginHistory := db.loginHistory + [LoginEntry(p.uid, Some(p.phoneNumber), Some(userAgent.GetOr("unknown")), ip)];
    reply := Ok(201, user);
  }

  /** `register_user`: checks by query, writes the user document only. */
  method RegisterUser(db: Firestore, body: map<string, string>) returns (reply: Reply<User>)
    modifies db
    ensures db.Snapshot() == Register(old(db.Snapshot()), body).db
    ensures reply == Register(old(db.Snapshot()), body).reply
  {
    var missing := FindMissing(body);
    if missing.Some? {
      return Err(400, MissingField(missing.value));
    }
    var p := ReadProfile(body);
    reply := RegisterProfile(db, p);
  }

  /** The checks and the write of `register_user` once the profile is read. */
  method RegisterProfile(db: Firestore, p: Profile) returns (reply: Reply<User>)
    modifies db
    ensures db.Snapshot() == AdmitLoose(old(db.Snapshot()), p).db
    ensures reply == AdmitLoose(old(db.Snapshot()), p).reply
  {
    if !ValidEmail(p.email) {
      return Err(400, InvalidEmail);
    }
    if !ValidPhone(p.phoneNumber) {
      return Err(400, InvalidPhone);
    }
    if p.uid in db.users {
      return Err(409, UserExists);
    }
    if PhoneInUse(db.Snapshot(), p.phoneNumber) {
      return Err(409, PhoneTaken);
    }
    if EmailInUse(db.Snapshot(), p.email) {
      return Err(409, EmailTaken);
    }
    var user := NewUser(p);
    db.users := db.users[p.uid := user];
    reply := Ok(201, user);
  }

  /** `update_user`: 400 without a uid or a body, 404 for an unknown user, then the changes the body asks for. */
  method UpdateUser(db: Firestore, uid: string, body: map<string, string>) returns (reply: Reply<User>)
    modifies db
    ensures db.Snapshot() == Update(old(db.Snapshot()), uid, body).db
    ensures reply == Update(old(db.Snapshot()), uid, body).reply
    ensures PhonesMarked(old(db.Snapshot())) && EmailsMarked(old(db.Snapshot())) ==>
              PhonesMarked(db.Snapshot()) && EmailsMarked(db.Snapshot())
  {
    if PhonesMarked(db.Snapshot()) && EmailsMarked(db.Snapshot()) {
      UpdateKeepsPhoneAndMarked(db.Snapshot(), uid, body);
    }
    if uid == "" {
      return Err(400, UidRequired);
    }
    if |body| == 0 {
      return Err(400, BodyRequired);
    }
    if uid !in db.users {
      return Err(404, UserNotFound);
    }
    var changes := ReadChanges(body);
    reply := ApplyUserChanges(db, uid, changes);
  }

  /**
   * The checks and writes of `update_user` for an existing user: a new
   * email must be well formed and unclaimed; its marker replaces the old
   * one before the user document is written.
   */
  method ApplyUserChanges(db: Firestore, uid: string, c: Changes) returns (reply: Reply<User>)
    requires uid in db.users
    modifies db
    ensures db.Snapshot() == ApplyChanges(old(db.Snapshot()), uid, c).db
    ensures reply == ApplyChanges(old(db.Snapshot()), uid, c).reply
  {
    if c.email != "" && !ValidEmail(c.email) {
      return Err(400, InvalidEmail);
    }
    var u := db.users[uid];
    var emailChanges := c.email != "" && c.email != u.email;
    if emailChanges && NormalizeEmailForPath(c.email) in db.usersByEmail {
      return Err(409, EmailTaken);
    }
    if c.name == "" && c.email == "" && c.address == "" {
      return Err(400, NoValidFields);
    }
    var updated := u;
    if c.name != "" {
      updated := updated.(name := c.name);
    }
    if c.email != "" {
      updated := updated.(email := c.email);
    }
    if c.address != "" {
      updated := updated.(address := c.address);
    }
    if emailChanges {
      if u.email != "" {
        db.usersByEmail := db.usersByEmail - {NormalizeEmailForPath(u.email)};
      }
      db.usersByEmail := db.usersByEmail[NormalizeEmailForPath(c.email) := Marker(uid, c.email)];
    }
    db.users := db.users[uid := updated];
    reply := Ok(200, updated);
  }

  /** `unregister_user`: deletes the user document, leaving its markers. */
  method UnregisterUser(db: Firestore, uid: string) returns (reply: Reply<()>)
    modifies db
    ensures db.Snapshot() == Unregister(old(db.Snapshot()), uid).db
    ensures reply == Unregister(old(db.Snapshot()), uid).reply
  {
    if uid == "" {
      return Err(400, UidRequired);
    }
    if uid !in db.users {
      return Err(404, UserNotFound);
    }
    db.users := db.users - {uid};
    reply := Ok(200, ());
  }

  /** Lambda `create_user_with_login`: the user and a login entry, checked by uid only. */
  method LambdaCreateUserWithLogin(db: Firestore, body: map<string, string>, ip: string) returns (reply: Reply<User>)
    modifies db
    ensures db.Snapshot() == LambdaCreateWithLogin(old(db.Snapshot()), body, ip).db
    ensures reply == LambdaCreateWithLogin(old(db.Snapshot()), body, ip).reply
  {
    var missing := FindMissing(body);
    if missing.Some? {
      return Err(400, MissingField(missing.value));
    }
    var p := ReadProfile(body);
    reply := LambdaCreateUserTransaction(db, p, ip);
  }

  /** The `create_user_transaction` of the Lambda back end. */
  method LambdaCreateUserTransaction(db: Firestore, p: Profile, ip: string) returns (reply: Reply<User>)
    modifies db
    ensures db.Snapshot() == LambdaAdmit(old(db.Snapshot()), p, ip).db
    ensures reply == LambdaAdmit(old(db.Snapshot()), p, ip).reply
  {
    if p.uid in db.users {
      return Err(400, UserExists);
    }
    var user := User(p.uid, p.name, p.email, p.phoneNumber, p.address, Some("student"), NoSubscription);
    db.users := db.users[p.uid := user];
    db.loginHistory := db.loginHistory + [LoginEntry(p.uid, None, None, ip)];
    reply := Ok(201, user);
  }

  /** Lambda `update_user_profile`: each key the body carries overwrites the stored field. */
  method LambdaUpdateUserProfile(db: Firestore, uid: string, body: map<string, string>) returns (reply: Reply<User>)
    modifies db
    ensures db.Snapshot() == LambdaUpdateProfile(old(db.Snapshot()), uid, body).db
    ensures reply == LambdaUpdateProfile(old(db.Snapshot()), uid, body).reply
  {
    if uid !in db.users {
      return Err(404, UserNotFound);
    }
    var updated := db.users[uid];
    if "name" in body {
      updated := updated.(name := Strip(body["name"]));
    }
    if "email" in body {
      updated := updated.(email := Lower(Strip(body["email"])));
    }
    if "address" in body {
      updated := updated.(address := Strip(body["address"]));
    }
    db.users := db.users[uid := updated];
    reply := Ok(200, updated);
  }
}
