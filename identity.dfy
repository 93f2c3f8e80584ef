/**
 * Identity registration: what the user handlers of both back ends do to the
 * `users` collection, the two uniqueness-marker collections and
 * `loginHistory`, stated as functions from the store before a request to the
 * store after it and the reply.
 */
module Identity {
  import opened Text
  import opened Validation
  import opened Documents

  /** The fields both create handlers demand, in the order they check them. */
  const RequiredFields: seq<string> := ["uid", "name", "email", "phoneNumber", "address"]

  /** `data.get(field)` is truthy. */
  predicate Present(body: map<string, string>, field: string) {
    field in body && body[field] != ""
  }

  /** `data.get(field) or ''`. */
  function Field(body: map<string, string>, field: string): (value: string) {
    if field in body then body[field] else ""
  }

  /** The first of `fields` the body lacks. */
  function FirstMissing(body: map<string, string>, fields: seq<string>): (r: Option<string>)
    ensures r.Some? ==> r.value in fields && !Present(body, r.value)
    ensures r.Some? ==> exists i :: 0 <= i < |fields| && fields[i] == r.value && forall j :: 0 <= j < i ==> Present(body, fields[j])
    ensures r.None? <==> forall i :: 0 <= i < |fields| ==> Present(body, fields[i])
  {
    if fields == [] then None
    else if !Present(body, fields[0]) then Some(fields[0])
    else FirstMissing(body, fields[1..])
  }

  /** The profile a create handler reads from a complete body: `uid` as sent, the rest stripped, the email lower-cased. */
  datatype Profile = Profile(uid: string, name: string, email: string, phoneNumber: string, address: string)

  function ReadProfile(body: map<string, string>): (p: Profile) {
    Profile(Field(body, "uid"), Strip(Field(body, "name")), Lower(Strip(Field(body, "email"))),
            Strip(Field(body, "phoneNumber")), Strip(Field(body, "address")))
  }

  /** The subscription a Flask registration starts with: inactive, fee waived, 100 cents a month, no renewal. */
  const InitialSubscription := Subscription(Some(false), Some(true), Some(100), None, None)

  function NewUser(p: Profile): (u: User) {
    User(p.uid, p.name, p.email, p.phoneNumber, p.address, None, InitialSubscription)
  }

  /**
   * `create_user_with_login` (api/app.py:214-366): validate, then in one
   * transaction read the user and both markers, abort on any that exists,
   * otherwise write the user, both markers and one login entry.
   */
  function CreateWithLogin(st: Db, body: map<string, string>, userAgent: Option<string>, ip: string): (r: Step<User>)
    ensures r.reply.Err? ==> r.db == st
  {
    var missing := FirstMissing(body, RequiredFields);
    if missing.Some? then Step(st, Err(400, MissingField(missing.value)))
    else AdmitWithMarkers(st, ReadProfile(body), userAgent, ip)
  }

  /** The validation and the transaction of `create_user_with_login`, once the profile is read. */
  function AdmitWithMarkers(st: Db, p: Profile, userAgent: Option<string>, ip: string): (r: Step<User>)
    ensures r.reply.Err? ==> r.db == st
  {
    if !ValidEmail(p.email) then Step(st, Err(400, InvalidEmail))
    else if !ValidPhone(p.phoneNumber) then Step(st, Err(400, InvalidPhone))
    else CommitWithMarkers(st, p, userAgent, ip)
  }

  /** The transaction of `create_user_with_login`: refuse a taken uid, phone key or email key, else write all four documents. */
  function CommitWithMarkers(st: Db, p: Profile, userAgent: Option<string>, ip: string): (r: Step<User>)
    ensures r.reply.Err? ==> r.db == st
  {
    var phoneKey := NormalizePhoneForPath(p.phoneNumber);
    var emailKey := NormalizeEmailForPath(p.email);
    if p.uid in st.users then Step(st, Err(409, UserExists))
    else if phoneKey in st.usersByPhone then Step(st, Err(409, PhoneTaken))
    else if emailKey in st.usersByEmail then Step(st, Err(409, EmailTaken))
    else
      var user := NewUser(p);
      var login := LoginEntry(p.uid, Some(p.phoneNumber), Some(userAgent.GetOr("unknown")), ip);
      Step(st.(users := st.users[p.uid := user],
               usersByPhone := st.usersByPhone[phoneKey := Marker(p.uid, p.phoneNumber)],
               usersByEmail := st.usersByEmail[emailKey := Marker(p.uid, p.email)],
               loginHistory := st.loginHistory + [login]),
           Ok(201, user))
  }

  /** A user document already holds this phone number (the `where('phoneNumber', '==', ...)` query). */
  predicate PhoneInUse(st: Db, phone: string) {
    exists id :: id in st.users && st.users[id].phoneNumber == phone
  }

  /** A user document already holds this email. */
  predicate EmailInUse(st: Db, email: string) {
    exists id :: id in st.users && st.users[id].email == email
  }

  /**
   * `register_user` (api/app.py:369-479): the same checks, made by separate
   * reads and queries over `users`; writes the user only, with no markers and
   * no login entry.
   */
  function Register(st: Db, body: map<string, string>): (r: Step<User>)
    ensures r.reply.Err? ==> r.db == st
  {
    var missing := FirstMissing(body, RequiredFields);
    if missing.Some? then Step(st, Err(400, MissingField(missing.value)))
    else AdmitLoose(st, ReadProfile(body))
  }

  /** The validation and the writes of `register_user`, once the profile is read. */
  function AdmitLoose(st: Db, p: Profile): (r: Step<User>)
    ensures r.reply.Err? ==> r.db == st
  {
    if !ValidEmail(p.email) then Step(st, Err(400, InvalidEmail))
    else if !ValidPhone(p.phoneNumber) then Step(st, Err(400, InvalidPhone))
    else if p.uid in st.users then Step(st, Err(409, UserExists))
    else if PhoneInUse(st, p.phoneNumber) then Step(st, Err(409, PhoneTaken))
    else if EmailInUse(st, p.email) then Step(st, Err(409, EmailTaken))
    else
      var user := NewUser(p);
      Step(st.(users := st.users[p.uid := user]), Ok(201, user))
  }

  /** The email markers after a user changes address: the old key removed (if there was an old email), the new key pointing at the user. */
  function SwapEmailMarker(markers: map<string, Marker>, oldEmail: string, newEmail: string, uid: string): (m: map<string, Marker>)
    ensures NormalizeEmailForPath(newEmail) in m && m[NormalizeEmailForPath(newEmail)] == Marker(uid, newEmail)
    ensures forall k :: k in m && k != NormalizeEmailForPath(newEmail) ==> k in markers && m[k] == markers[k]
    ensures forall k :: k in markers && k != NormalizeEmailForPath(newEmail) && (oldEmail == "" || k != NormalizeEmailForPath(oldEmail)) ==> k in m
    ensures oldEmail != "" && NormalizeEmailForPath(oldEmail) != NormalizeEmailForPath(newEmail) ==> NormalizeEmailForPath(oldEmail) !in m
  {
    var kept := if oldEmail != "" then markers - {NormalizeEmailForPath(oldEmail)} else markers;
    kept[NormalizeEmailForPath(newEmail) := Marker(uid, newEmail)]
  }

  /** What an `update_user` body asks for: each field stripped ("" when absent or blank), the email also lower-cased. */
  datatype Changes = Changes(name: string, email: string, address: string)

  function ReadChanges(body: map<string, string>): (c: Changes) {
    Changes(if "name" in body then Strip(body["name"]) else "",
            if "email" in body then Lower(Strip(body["email"])) else "",
            if "address" in body then Strip(body["address"]) else "")
  }

  /**
   * `update_user` (api/app.py:693-817): name, email and address may change;
   * the phone never does. A changed email must validate and must not have a
   * marker yet; its marker then replaces the old one.
   */
  function Update(st: Db, uid: string, body: map<string, string>): (r: Step<User>)
    ensures r.reply.Err? ==> r.db == st
  {
    if uid == "" then Step(st, Err(400, UidRequired))
    else if |body| == 0 then Step(st, Err(400, BodyRequired))
    else if uid !in st.users then Step(st, Err(404, UserNotFound))
    else ApplyChanges(st, uid, ReadChanges(body))
  }

  /** The checks and writes of `update_user` for an existing user, once the body is read. */
  function ApplyChanges(st: Db, uid: string, c: Changes): (r: Step<User>)
    requires uid in st.users
    ensures r.reply.Err? ==> r.db == st
  {
    if c.email != "" && !ValidEmail(c.email) then Step(st, Err(400, InvalidEmail))
    else CommitChanges(st, uid, c)
  }

  /** The writes of `update_user` once the email (if any) is well formed. */
  function CommitChanges(st: Db, uid: string, c: Changes): (r: Step<User>)
    requires uid in st.users
    ensures r.reply.Err? ==> r.db == st
  {
    var u := st.users[uid];
    var emailChanges := c.email != "" && c.email != u.email;
    if emailChanges && NormalizeEmailForPath(c.email) in st.usersByEmail then Step(st, Err(409, EmailTaken))
    else if c.name == "" && c.email == "" && c.address == "" then Step(st, Err(400, NoValidFields))
    else
      var u' := u.(name := if c.name != "" then c.name else u.name,
                   email := if c.email != "" then c.email else u.email,
                   address := if c.address != "" then c.address else u.address);
      var markers := if emailChanges then SwapEmailMarker(st.usersByEmail, u.email, c.email, uid) else st.usersByEmail;
      Step(st.(users := st.users[uid := u'], usersByEmail := markers), Ok(200, u'))
  }

  /** `unregister_user` (api/app.py:2076-2118): deletes the user document and nothing else. */
  function Unregister(st: Db, uid: string): (r: Step<()>)
    ensures r.reply.Err? ==> r.db == st
  {
    if uid == "" then Step(st, Err(400, UidRequired))
    else if uid !in st.users then Step(st, Err(404, UserNotFound))
    else Step(st.(users := st.users - {uid}), Ok(200, ()))
  }

  /**
   * Lambda `create_user_with_login` (lambda/main.py:281-347): no format
   * validation and no markers; the transaction only checks the uid, and a
   * clash is a 400. The user gets role "student" and no subscription.
   */
  function LambdaCreateWithLogin(st: Db, body: map<string, string>, ip: string): (r: Step<User>)
    ensures r.reply.Err? ==> r.db == st
  {
    var missing := FirstMissing(body, RequiredFields);
    if missing.Some? then Step(st, Err(400, MissingField(missing.value)))
    else LambdaAdmit(st, ReadProfile(body), ip)
  }

  /** The transaction of the Lambda `create_user_with_login`, once the profile is read. */
  function LambdaAdmit(st: Db, p: Profile, ip: string): (r: Step<User>)
    ensures r.reply.Err? ==> r.db == st
  {
    if p.uid in st.users then Step(st, Err(400, UserExists))
    else
      var user := User(p.uid, p.name, p.email, p.phoneNumber, p.address, Some("student"), NoSubscription);
      Step(st.(users := st.users[p.uid := user],
               loginHistory := st.loginHistory + [LoginEntry(p.uid, None, None, ip)]),
           Ok(201, user))
  }

  /**
   * Lambda `update_user_profile` (lambda/main.py:380-413): overwrites each of
   * name, email and address the body carries (blank values included), without
   * validation and without touching the markers.
   */
  function LambdaUpdateProfile(st: Db, uid: string, body: map<string, string>): (r: Step<User>)
    ensures r.reply.Err? ==> r.db == st
  {
    if uid !in st.users then Step(st, Err(404, UserNotFound))
    else
      var u := st.users[uid];
      var u' := u.(name := if "name" in body then Strip(body["name"]) else u.name,
                   email := if "email" in body then Lower(Strip(body["email"])) else u.email,
                   address := if "address" in body then Strip(body["address"]) else u.address);
      Step(st.(users := st.users[uid := u']), Ok(200, u'))
  }

  // ---------------------------------------------------------------------
  // Properties

  /** Every user's phone marker exists and points back at that user. */
  ghost predicate PhonesMarked(st: Db) {
    forall uid :: uid in st.users ==>
      NormalizePhoneForPath(st.users[uid].phoneNumber) in st.usersByPhone &&
      st.usersByPhone[NormalizePhoneForPath(st.users[uid].phoneNumber)].uid == uid
  }

  /** Every user's email marker exists and points back at that user. */
  ghost predicate EmailsMarked(st: Db) {
    forall uid :: uid in st.users ==>
      NormalizeEmailForPath(st.users[uid].email) in st.usersByEmail &&
      st.usersByEmail[NormalizeEmailForPath(st.users[uid].email)].uid == uid
  }

  /** While every user holds its phone marker, no two users share a phone. */
  lemma MarkedPhonesDistinct(st: Db, a: string, b: string)
    requires PhonesMarked(st)
    requires a in st.users && b in st.users && a != b
    ensures st.users[a].phoneNumber != st.users[b].phoneNumber
  {
    var ka := NormalizePhoneForPath(st.users[a].phoneNumber);
    var kb := NormalizePhoneForPath(st.users[b].phoneNumber);
    assert st.usersByPhone[ka].uid == a && st.usersByPhone[kb].uid == b;
  }

  /**
   * The checks of `create_user_with_login` once the body is complete, in their
   * order: email format, phone format, an existing uid, an existing phone
   * marker, an existing email marker.
   */
  lemma AdmitWithMarkersConflicts(st: Db, p: Profile, userAgent: Option<string>, ip: string)
    ensures var r := AdmitWithMarkers(st, p, userAgent, ip);
      var phoneKey := NormalizePhoneForPath(p.phoneNumber);
      var emailKey := NormalizeEmailForPath(p.email);
      && (!ValidEmail(p.email) ==> r.reply == Err(400, InvalidEmail))
      && (ValidEmail(p.email) && !ValidPhone(p.phoneNumber) ==> r.reply == Err(400, InvalidPhone))
      && (ValidEmail(p.email) && ValidPhone(p.phoneNumber) ==>
            && (p.uid in st.users ==> r.reply == Err(409, UserExists))
            && (p.uid !in st.users && phoneKey in st.usersByPhone ==> r.reply == Err(409, PhoneTaken))
            && (p.uid !in st.users && phoneKey !in st.usersByPhone && emailKey in st.usersByEmail ==>
                  r.reply == Err(409, EmailTaken)))
      && (r.reply.Ok? <==> ValidEmail(p.email) && ValidPhone(p.phoneNumber) && p.uid !in st.users
                           && phoneKey !in st.usersByPhone && emailKey !in st.usersByEmail)
  {
  }

  /**
   * A successful `create_user_with_login` writes exactly the user (with the
   * initial subscription), both markers pointing at it and one login entry.
   */
  lemma AdmitWithMarkersWrites(st: Db, p: Profile, userAgent: Option<string>, ip: string)
    requires AdmitWithMarkers(st, p, userAgent, ip).reply.Ok?
    ensures var r := AdmitWithMarkers(st, p, userAgent, ip);
      var u := r.reply.value;
      && r.reply.code == 201
      && u.uid == p.uid && u.name == p.name && u.email == p.email && u.phoneNumber == p.phoneNumber
      && u.address == p.address && u.role.None?
      && u.subscription == Subscription(Some(false), Some(true), Some(100), None, None)
      && r.db == st.(users := st.users[p.uid := u],
                     usersByPhone := st.usersByPhone[NormalizePhoneForPath(p.phoneNumber) := Marker(p.uid, p.phoneNumber)],
                     usersByEmail := st.usersByEmail[NormalizeEmailForPath(p.email) := Marker(p.uid, p.email)],
                     loginHistory := st.loginHistory + [LoginEntry(p.uid, Some(p.phoneNumber), Some(userAgent.GetOr("unknown")), ip)])
  {
  }

  /** The transaction of `create_user_with_login` keeps every user holding its own phone and email markers. */
  lemma CommitWithMarkersKeepsMarked(st: Db, p: Profile, userAgent: Option<string>, ip: string)
    requires PhonesMarked(st) && EmailsMarked(st)
    ensures PhonesMarked(CommitWithMarkers(st, p, userAgent, ip).db)
    ensures EmailsMarked(CommitWithMarkers(st, p, userAgent, ip).db)
  {
    var r := CommitWithMarkers(st, p, userAgent, ip);
    if r.reply.Ok? {
      forall uid | uid in r.db.users
        ensures NormalizePhoneForPath(r.db.users[uid].phoneNumber) in r.db.usersByPhone
        ensures r.db.usersByPhone[NormalizePhoneForPath(r.db.users[uid].phoneNumber)].uid == uid
        ensures NormalizeEmailForPath(r.db.users[uid].email) in r.db.usersByEmail
        ensures r.db.usersByEmail[NormalizeEmailForPath(r.db.users[uid].email)].uid == uid
      {
        if uid != p.uid {
          assert r.db.users[uid] == st.users[uid];
          assert NormalizePhoneForPath(st.users[uid].phoneNumber) in st.usersByPhone;
          assert NormalizeEmailForPath(st.users[uid].email) in st.usersByEmail;
        }
      }
    }
  }

  /** `create_user_with_login` keeps every user holding its own phone and email markers. */
  lemma CreateWithLoginKeepsMarked(st: Db, body: map<string, string>, userAgent: Option<string>, ip: string)
    requires PhonesMarked(st) && EmailsMarked(st)
    ensures PhonesMarked(CreateWithLogin(st, body, userAgent, ip).db)
    ensures EmailsMarked(CreateWithLogin(st, body, userAgent, ip).db)
  {
    var r := CreateWithLogin(st, body, userAgent, ip);
    if FirstMissing(body, RequiredFields).None? {
      var p := ReadProfile(body);
      if ValidEmail(p.email) && ValidPhone(p.phoneNumber) {
        assert r == CommitWithMarkers(st, p, userAgent, ip);
        CommitWithMarkersKeepsMarked(st, p, userAgent, ip);
      }
    }
  }

  /** The writes of `update_user` never change the phone number and keep the markers consistent with the users. */
  lemma CommitChangesKeepsPhoneAndMarked(st: Db, uid: string, c: Changes)
    requires uid in st.users
    requires PhonesMarked(st) && EmailsMarked(st)
    ensures var r := CommitChanges(st, uid, c);
      && (r.reply.Ok? ==> r.reply.value.phoneNumber == st.users[uid].phoneNumber && r.reply.value.uid == st.users[uid].uid)
      && (r.reply.Ok? ==> r.db.users == st.users[uid := r.reply.value] && r.db.usersByPhone == st.usersByPhone)
      && PhonesMarked(r.db) && EmailsMarked(r.db)
  {
    var r := CommitChanges(st, uid, c);
    if r.reply.Ok? {
      var u := st.users[uid];
      var newKey := NormalizeEmailForPath(c.email);
      var oldKey := NormalizeEmailForPath(u.email);
      forall v | v in r.db.users
        ensures NormalizeEmailForPath(r.db.users[v].email) in r.db.usersByEmail
        ensures r.db.usersByEmail[NormalizeEmailForPath(r.db.users[v].email)].uid == v
      {
        if v != uid && c.email != "" && c.email != u.email {
          var k := NormalizeEmailForPath(st.users[v].email);
          assert k in st.usersByEmail && st.usersByEmail[k].uid == v;
          assert k != newKey;
          assert k != oldKey;
        }
      }
    }
  }

  /** `update_user` never changes the phone number and keeps every user holding its own markers. */
  lemma UpdateKeepsPhoneAndMarked(st: Db, uid: string, body: map<string, string>)
    requires PhonesMarked(st) && EmailsMarked(st)
    ensures var r := Update(st, uid, body);
      && (r.reply.Ok? ==> uid in st.users && r.reply.value.phoneNumber == st.users[uid].phoneNumber
                          && r.db.users == st.users[uid := r.reply.value]
                          && r.db.users[uid].phoneNumber == st.users[uid].phoneNumber)
      && PhonesMarked(r.db) && EmailsMarked(r.db)
  {
    if uid != "" && |body| > 0 && uid in st.users {
      CommitChangesKeepsPhoneAndMarked(st, uid, ReadChanges(body));
    }
  }

  /**
   * The outcome of `update_user` for an existing user: 400 for a malformed
   * email, 409 for an email whose marker exists, 400 when nothing is left to
   * change, otherwise each non-blank field replaces the stored one.
   */
  lemma ApplyChangesOutcome(st: Db, uid: string, c: Changes)
    requires uid in st.users
    ensures var r := ApplyChanges(st, uid, c);
      var u := st.users[uid];
      && (c.email != "" && !ValidEmail(c.email) ==> r.reply == Err(400, InvalidEmail))
      && (c.email != "" && ValidEmail(c.email) && c.email != u.email && NormalizeEmailForPath(c.email) in st.usersByEmail ==>
            r.reply == Err(409, EmailTaken))
      && (c.email == "" && c.name == "" && c.address == "" ==> r.reply == Err(400, NoValidFields))
      && (r.reply.Ok? <==> (c.email != "" || c.name != "" || c.address != "")
                           && (c.email != "" ==> ValidEmail(c.email))
                           && (c.email != "" && c.email != u.email ==> NormalizeEmailForPath(c.email) !in st.usersByEmail))
      && (r.reply.Ok? ==> r.reply.code == 200
                          && r.reply.value == u.(name := if c.name != "" then c.name else u.name,
                                                 email := if c.email != "" then c.email else u.email,
                                                 address := if c.address != "" then c.address else u.address)
                          && r.db == st.(users := st.users[uid := r.reply.value], usersByEmail := r.db.usersByEmail))
  {
  }

  /**
   * An email change: the new email's marker did not exist and now points at
   * the user; the old email's marker is gone unless the two emails share a
   * key, and every other marker stays. The old key is deleted whoever it
   * points at.
   */
  lemma CommitChangesSwapsEmailMarker(st: Db, uid: string, c: Changes)
    requires uid in st.users
    requires CommitChanges(st, uid, c).reply.Ok?
    requires c.email != "" && c.email != st.users[uid].email
    ensures var r := CommitChanges(st, uid, c);
      var oldEmail := st.users[uid].email;
      var newKey := NormalizeEmailForPath(c.email);
      && NormalizeEmailForPath(c.email) !in st.usersByEmail
      && r.db.usersByEmail[newKey] == Marker(uid, c.email)
      && (oldEmail != "" && NormalizeEmailForPath(oldEmail) != newKey ==> NormalizeEmailForPath(oldEmail) !in r.db.usersByEmail)
      && (forall k :: k in st.usersByEmail && (oldEmail == "" || k != NormalizeEmailForPath(oldEmail)) ==>
            k in r.db.usersByEmail && r.db.usersByEmail[k] == st.usersByEmail[k])
  {
  }

  /** An `update_user` body that carries no non-blank name, email or address is refused with 400 after the user is found. */
  lemma UpdateWithoutFieldsRefused(st: Db, uid: string, body: map<string, string>)
    requires uid != "" && |body| > 0 && uid in st.users
    requires forall k :: k in body && (k == "name" || k == "email" || k == "address") ==> Strip(body[k]) == ""
    ensures Update(st, uid, body) == Step(st, Err(400, NoValidFields))
  {
    var c := ReadChanges(body);
    assert c.name == "" && c.address == "";
    assert c.email == "";
  }

  /**
   * `unregister_user` refuses a blank uid (400) and an unknown one (404);
   * otherwise it removes the user document and nothing else, leaving both
   * markers, so every user still left keeps its markers.
   */
  lemma UnregisterLeavesMarkers(st: Db, uid: string)
    requires PhonesMarked(st) && EmailsMarked(st)
    ensures var r := Unregister(st, uid);
      && (uid == "" ==> r.reply == Err(400, UidRequired))
      && (uid != "" && uid !in st.users ==> r.reply == Err(404, UserNotFound))
      && (r.reply.Ok? <==> uid != "" && uid in st.users)
      && (r.reply.Ok? ==> r.reply.code == 200 && r.db == st.(users := st.users - {uid}))
      && r.db.usersByPhone == st.usersByPhone && r.db.usersByEmail == st.usersByEmail
      && PhonesMarked(r.db) && EmailsMarked(r.db)
  {
  }

  /**
   * Because `unregister_user` leaves the markers behind, registering the same
   * profile again after a successful registration and unregistration is
   * refused as a phone conflict: the number stays taken for good.
   */
  lemma ReRegistrationAfterUnregisterConflicts(st: Db, p: Profile, ua: Option<string>, ip: string,
                                               ua2: Option<string>, ip2: string)
    requires p.uid != ""
    requires AdmitWithMarkers(st, p, ua, ip).reply.Ok?
    ensures var s1 := AdmitWithMarkers(st, p, ua, ip).db;
      var s2 := Unregister(s1, p.uid);
      && s2.reply.Ok?
      && AdmitWithMarkers(s2.db, p, ua2, ip2).reply == Err(409, PhoneTaken)
  {
    AdmitWithMarkersWrites(st, p, ua, ip);
  }

  /**
   * The loose path writes the user only: no marker and no login entry. A
   * user it admits therefore lacks its phone marker.
   */
  lemma AdmitLooseWritesNoMarkers(st: Db, p: Profile)
    ensures var r := AdmitLoose(st, p);
      && r.db.usersByPhone == st.usersByPhone && r.db.usersByEmail == st.usersByEmail
      && r.db.loginHistory == st.loginHistory
      && (r.reply.Ok? <==> ValidEmail(p.email) && ValidPhone(p.phoneNumber) && p.uid !in st.users
                           && !PhoneInUse(st, p.phoneNumber) && !EmailInUse(st, p.email))
      && (r.reply.Ok? ==> r.db.users == st.users[p.uid := NewUser(p)])
      && (r.reply.Ok? && NormalizePhoneForPath(p.phoneNumber) !in st.usersByPhone ==> !PhonesMarked(r.db))
  {
    var r := AdmitLoose(st, p);
    if r.reply.Ok? {
      assert p.uid in r.db.users && r.db.users[p.uid].phoneNumber == p.phoneNumber;
    }
  }

  /**
   * The loose path and the atomic path disagree on what "taken" means: after
   * `register_user` admits a phone, `create_user_with_login` admits the same
   * phone for another uid, and two users share it.
   */
  lemma LoosePathAllowsDuplicatePhone(st: Db, p: Profile, q: Profile, ua: Option<string>, ip: string)
    requires AdmitLoose(st, p).reply.Ok?
    requires q.phoneNumber == p.phoneNumber && q.uid != p.uid && q.uid !in st.users && ValidEmail(q.email)
    requires NormalizePhoneForPath(q.phoneNumber) !in st.usersByPhone && NormalizeEmailForPath(q.email) !in st.usersByEmail
    ensures var s1 := AdmitLoose(st, p).db;
      var s2 := AdmitWithMarkers(s1, q, ua, ip);
      && s2.reply.Ok?
      && p.uid in s2.db.users && q.uid in s2.db.users
      && s2.db.users[p.uid].phoneNumber == s2.db.users[q.uid].phoneNumber
  {
    AdmitLooseWritesNoMarkers(st, p);
    var s1 := AdmitLoose(st, p).db;
    assert ValidPhone(q.phoneNumber);
    assert q.uid !in s1.users;
    AdmitWithMarkersConflicts(s1, q, ua, ip);
    AdmitWithMarkersWrites(s1, q, ua, ip);
  }

  /**
   * Lambda registration conflicts only on an existing uid (with a 400): any
   * profile with a new uid is accepted, whatever its phone and email, and no
   * marker is read or written.
   */
  lemma LambdaAdmitOnlyChecksUid(st: Db, p: Profile, ip: string)
    ensures var r := LambdaAdmit(st, p, ip);
      && (r.reply.Ok? <==> p.uid !in st.users)
      && (r.reply.Err? ==> r.reply == Err(400, UserExists))
      && r.db.usersByPhone == st.usersByPhone && r.db.usersByEmail == st.usersByEmail
      && (r.reply.Ok? ==> r.reply.value.role == Some("student") && r.reply.value.subscription == NoSubscription
                          && r.db.users == st.users[p.uid := r.reply.value]
                          && r.db.loginHistory == st.loginHistory + [LoginEntry(p.uid, None, None, ip)])
  {
  }

  /**
   * Lambda profile update: 404 exactly for an unknown user; otherwise each of
   * name, email and address the body carries is stored stripped (the email
   * also lower-cased), blank or not, the others stay, and nothing else in the
   * store changes: not the phone and not any marker.
   */
  lemma LambdaUpdateProfileFields(st: Db, uid: string, body: map<string, string>)
    ensures var r := LambdaUpdateProfile(st, uid, body);
      && (r.reply.Err? <==> uid !in st.users)
      && (r.reply.Err? ==> r.reply == Err(404, UserNotFound))
      && r.db.usersByPhone == st.usersByPhone && r.db.usersByEmail == st.usersByEmail
      && (r.reply.Ok? ==>
            var u := st.users[uid];
            var v := r.reply.value;
            && r.reply.code == 200
            && r.db == st.(users := st.users[uid := v])
            && v == u.(name := v.name, email := v.email, address := v.address)
            && ("name" in body ==> v.name == Strip(body["name"])) && ("name" !in body ==> v.name == u.name)
            && ("email" in body ==> v.email == Lower(Strip(body["email"]))) && ("email" !in body ==> v.email == u.email)
            && ("address" in body ==> v.address == Strip(body["address"])) && ("address" !in body ==> v.address == u.address))
  {
  }
}
