/**
 * The admin account endpoints of the backend (backend/main.py): registration,
 * email verification, and login, over the in-memory store. The clock, the
 * random sources and SHA-256 are parameters.
 */
module AdminApi {
  import opened Wrappers
  import opened Text
  import opened Passwords
  import opened MemoryStore

  /** A reading of `datetime.now()`: seconds, its ISO-8601 form, and its `%Y%m%d` form. */
  datatype Clock = Clock(seconds: int, iso: string, date: string)

  /** `timedelta(days=7)` in seconds. */
  const VerificationWindow := 7 * 24 * 60 * 60

  const PendingVerification := "pending_verification"
  const Active := "active"

  /** An HTTP error the endpoint raises. */
  datatype Failure = Failure(status: int, detail: string)

  datatype Registration = Registration(name: string, email: string, password: string, department: Option<string>)

  datatype RegisterResult =
    | RegisterFailed(failure: Failure)
    | Registered(adminId: string, name: string, email: string, status: string, verificationToken: Option<string>)

  /**
   * The record `register_admin` builds: pending, unverified, without an
   * employee id, holding the token and its expiry seven days ahead.
   */
  function NewAdminRecord(reg: Registration, token: string, salt: seq<Byte>, sha256: Digest,
                          uuid: string, now: Clock): (a: Admin)
    ensures a.status == PendingVerification && !a.emailVerified && a.employeeId == None
    ensures a.verificationToken == Some(token) && a.verificationExpires == Some(now.seconds + VerificationWindow)
    ensures a.email == reg.email && a.name == reg.name && a.role == "admin" && a.lastLogin == None
    ensures VerifyPassword(reg.password, a.passwordHash, sha256)
  {
    HashThenVerify(reg.password, salt, sha256);
    Admin(
      adminId := uuid, employeeId := None, name := reg.name, email := reg.email,
      passwordHash := HashPassword(reg.password, salt, sha256), department := reg.department,
      role := "admin", status := PendingVerification, emailVerified := false,
      verificationToken := Some(token), verificationExpires := Some(now.seconds + VerificationWindow),
      createdAt := now.iso, updatedAt := now.iso, lastLogin := None)
  }

  /**
   * `register_admin`: 400 for a known email; otherwise stores the new record
   * and returns it, with the token only when email sending is not configured.
   */
  method Register(store: Store, reg: Registration, token: string, salt: seq<Byte>, sha256: Digest,
                  uuid: string, now: Clock, smtpConfigured: bool) returns (r: RegisterResult)
    modifies store
    ensures r.RegisterFailed? <==> old(store.Lookup(ByEmail(reg.email))).Some?
    ensures r.RegisterFailed? ==> r.failure == Failure(400, "Email already exists") && store.admins == old(store.admins)
    ensures r.Registered? ==>
      && r.adminId == NatToString(|old(store.admins)| + 1)
      && store.admins == old(store.admins) + [NewAdminRecord(reg, token, salt, sha256, uuid, now).(adminId := r.adminId)]
      && r.status == PendingVerification
      && r.verificationToken == (if smtpConfigured then None else Some(token))
    ensures store.transcripts == old(store.transcripts) && store.orders == old(store.orders)
    ensures store.feedback == old(store.feedback)
  {
    var existing := store.GetAdminByEmail(reg.email);
    if existing.Some? {
      return RegisterFailed(Failure(400, "Email already exists"));
    }
    var record := NewAdminRecord(reg, token, salt, sha256, uuid, now);
    NoDuplicateForNewRecord(store.admins, record);
    var created := store.CreateAdmin(record);
    r := Registered(created.adminId, reg.name, reg.email, PendingVerification,
                    if smtpConfigured then None else Some(token));
  }

  /** A record with a fresh email and no employee id passes the duplicate check of `create_admin`. */
  lemma NoDuplicateForNewRecord(admins: seq<Admin>, a: Admin)
    requires FirstMatch(admins, ByEmail(a.email)).None?
    requires a.employeeId == None
    ensures CreateCheck(admins, a).None?
  {
  }

  /** `EMP` + the date + three random bytes in upper-case hex. */
  function EmployeeIdFor(date: string, rand: seq<Byte>): (id: string)
    ensures |id| == 3 + |date| + 2 * |rand| && id[..3] == "EMP" && id[3..3 + |date|] == date
    ensures forall i :: 3 + |date| <= i < |id| ==> '0' <= id[i] <= '9' || 'A' <= id[i] <= 'F'
  {
    "EMP" + date + Upper(Hex(rand))
  }

  datatype VerifyResult =
    | VerifyFailed(failure: Failure)
    | VerifiedAdmin(name: string, email: string, employeeId: string, status: string)

  /** The outcome of `verify_admin_email` for a list of admins, before any change. */
  function VerifyOutcome(admins: seq<Admin>, token: string, now: Clock, rand: seq<Byte>): (r: VerifyResult)
    ensures r.VerifyFailed? ==> r.failure.status == 400
    ensures r.VerifyFailed? <==>
      token == "" || FirstMatch(admins, ByToken(token)).None? ||
      (var a := admins[FirstMatch(admins, ByToken(token)).value];
       a.verificationExpires.Some? && now.seconds > a.verificationExpires.value)
    ensures r.VerifiedAdmin? ==> r.employeeId == EmployeeIdFor(now.date, rand) && r.status == Active
  {
    if token == "" then VerifyFailed(Failure(400, "Verification token is required"))
    else match FirstMatch(admins, ByToken(token))
      case None => VerifyFailed(Failure(400, "Invalid or expired verification token"))
      case Some(i) =>
        var a := admins[i];
        if a.verificationExpires.Some? && now.seconds > a.verificationExpires.value then
          VerifyFailed(Failure(400, "Verification token has expired"))
        else
          VerifiedAdmin(a.name, a.email, EmployeeIdFor(now.date, rand), Active)
  }

  /**
   * `verify_admin_email`: on success the admin holding the token becomes
   * verified and active with a new employee id, and the token is spent; on
   * failure nothing changes.
   */
  method VerifyEmail(store: Store, token: string, now: Clock, rand: seq<Byte>) returns (r: VerifyResult)
    modifies store
    ensures r == VerifyOutcome(old(store.admins), token, now, rand)
    ensures r.VerifyFailed? ==> store.admins == old(store.admins)
    ensures r.VerifiedAdmin? ==>
      store.admins == WithVerification(old(store.admins), token, true, Active, Some(r.employeeId), now.iso)
    ensures store.transcripts == old(store.transcripts) && store.orders == old(store.orders)
    ensures store.feedback == old(store.feedback)
  {
    if token == "" {
      return VerifyFailed(Failure(400, "Verification token is required"));
    }
    var admin := store.GetAdminByVerificationToken(token);
    if admin.None? {
      return VerifyFailed(Failure(400, "Invalid or expired verification token"));
    }
    var a := admin.value;
    if a.verificationExpires.Some? && now.seconds > a.verificationExpires.value {
      return VerifyFailed(Failure(400, "Verification token has expired"));
    }
    var employeeId := EmployeeIdFor(now.date, rand);
    var updated := store.UpdateAdminVerification(token, true, Active, Some(employeeId), now.iso);
    r := VerifiedAdmin(updated.value.name, updated.value.email, employeeId, Active);
  }

  /** The body of a login request; a missing key reads as "" (`credentials.get(key, "")`). */
  datatype Credentials = Credentials(email: string, password: string, employeeId: string, userType: string)

  datatype LoginResult =
    | LoginFailed(failure: Failure)
    | AdminSession(id: string, name: string, email: string, employeeId: string, department: Option<string>, token: string)
    | DevSession(email: string, token: string)

  const DevEmail := "dev@bookwise.com"
  const MissingFields := "Employee ID and password required for admin login"
  const InvalidCredentials := "Invalid admin credentials"
  const NotVerified := "Admin account is not verified. Please wait for administrator approval."
  const NotActive := "Admin account is not active. Please contact administrator."

  /**
   * The outcome of `login`, checked in order: missing fields (400), unknown
   * employee id (401), wrong password (401), unverified (403), not active (403).
   */
  function LoginOutcome(admins: seq<Admin>, c: Credentials, sha256: Digest, sessionBytes: seq<Byte>): (r: LoginResult)
    ensures c.userType != "admin" <==> r.DevSession?
    ensures r.DevSession? ==> r.email == (if c.email != "" then c.email else DevEmail) && r.token == "dev_token_123"
    ensures c.userType == "admin" && (c.employeeId == "" || c.password == "") ==> r == LoginFailed(Failure(400, MissingFields))
    ensures c.userType == "admin" && c.employeeId != "" && c.password != "" ==>
      var m := FirstMatch(admins, ByEmployeeId(c.employeeId));
      && (m.None? ==> r == LoginFailed(Failure(401, InvalidCredentials)))
      && (m.Some? && !VerifyPassword(c.password, admins[m.value].passwordHash, sha256) ==>
            r == LoginFailed(Failure(401, InvalidCredentials)))
      && (m.Some? && VerifyPassword(c.password, admins[m.value].passwordHash, sha256) && !admins[m.value].emailVerified ==>
            r == LoginFailed(Failure(403, NotVerified)))
      && ((m.Some? && VerifyPassword(c.password, admins[m.value].passwordHash, sha256) && admins[m.value].emailVerified &&
           admins[m.value].status != Active) ==> r == LoginFailed(Failure(403, NotActive)))
    ensures r.AdminSession? <==>
      c.userType == "admin" && c.employeeId != "" && c.password != "" &&
      FirstMatch(admins, ByEmployeeId(c.employeeId)).Some? &&
      (var a := admins[FirstMatch(admins, ByEmployeeId(c.employeeId)).value];
       VerifyPassword(c.password, a.passwordHash, sha256) && a.emailVerified && a.status == Active)
    ensures r.AdminSession? ==> r.employeeId == c.employeeId && r.token == "admin_token_" + Hex(sessionBytes)
  {
    if c.userType != "admin" then
      DevSession(if c.email != "" then c.email else DevEmail, "dev_token_123")
    else if c.employeeId == "" || c.password == "" then
      LoginFailed(Failure(400, MissingFields))
    else match FirstMatch(admins, ByEmployeeId(c.employeeId))
      case None => LoginFailed(Failure(401, InvalidCredentials))
      case Some(i) =>
        var a := admins[i];
        if !VerifyPassword(c.password, a.passwordHash, sha256) then LoginFailed(Failure(401, InvalidCredentials))
        else if !a.emailVerified then
          LoginFailed(Failure(403, NotVerified))
        else if a.status != Active then
          LoginFailed(Failure(403, NotActive))
        else AdminSession(a.adminId, a.name, a.email, c.employeeId, a.department, "admin_token_" + Hex(sessionBytes))
  }

  /** `login`: only a successful admin login changes the store, and only that admin's `last_login`. */
  method Login(store: Store, c: Credentials, sha256: Digest, sessionBytes: seq<Byte>, now: Clock) returns (r: LoginResult)
    modifies store
    ensures r == LoginOutcome(old(store.admins), c, sha256, sessionBytes)
    ensures r.AdminSession? ==> store.admins == WithLastLogin(old(store.admins), c.employeeId, now.iso)
    ensures !r.AdminSession? ==> store.admins == old(store.admins)
    ensures store.transcripts == old(store.transcripts) && store.orders == old(store.orders)
    ensures store.feedback == old(store.feedback)
  {
    if c.userType != "admin" {
      return DevSession(if c.email != "" then c.email else DevEmail, "dev_token_123");
    }
    if c.employeeId == "" || c.password == "" {
      return LoginFailed(Failure(400, MissingFields));
    }
    var admin := store.GetAdminByEmployeeId(c.employeeId);
    if admin.None? {
      return LoginFailed(Failure(401, InvalidCredentials));
    }
    var a := admin.value;
    if !VerifyPassword(c.password, a.passwordHash, sha256) {
      return LoginFailed(Failure(401, InvalidCredentials));
    }
    if !a.emailVerified {
      return LoginFailed(Failure(403, NotVerified));
    }
    if a.status != Active {
      return LoginFailed(Failure(403, NotActive));
    }
    var _ := store.UpdateAdminLastLogin(c.employeeId, now.iso);
    r := AdminSession(a.adminId, a.name, a.email, c.employeeId, a.department, "admin_token_" + Hex(sessionBytes));
  }

  /** A token verifies until seven days after registration, the last second included, and not later. */
  lemma TokenExpiry(reg: Registration, token: string, salt: seq<Byte>, sha256: Digest, uuid: string,
                    registeredAt: Clock, now: Clock, rand: seq<Byte>)
    requires token != ""
    ensures var a := NewAdminRecord(reg, token, salt, sha256, uuid, registeredAt);
      VerifyOutcome([a], token, now, rand).VerifiedAdmin? <==> now.seconds <= registeredAt.seconds + VerificationWindow
  {
    var a := NewAdminRecord(reg, token, salt, sha256, uuid, registeredAt);
    assert FirstMatch([a], ByToken(token)) == Some(0);
  }

  /**
   * Register, verify and log in: an account registered with a fresh email,
   * verified in time with an employee id no other admin holds, accepts its
   * password for that employee id.
   */
  lemma {:induction false} RegisterVerifyLogin(admins: seq<Admin>, reg: Registration, token: string, salt: seq<Byte>,
                                               sha256: Digest, uuid: string, registeredAt: Clock, verifiedAt: Clock,
                                               rand: seq<Byte>, sessionBytes: seq<Byte>)
    requires token != "" && reg.password != ""
    requires forall j :: 0 <= j < |admins| ==> admins[j].verificationToken != Some(token)
    requires forall j :: 0 <= j < |admins| ==> admins[j].employeeId != Some(EmployeeIdFor(verifiedAt.date, rand))
    requires verifiedAt.seconds <= registeredAt.seconds + VerificationWindow
    ensures var a := NewAdminRecord(reg, token, salt, sha256, uuid, registeredAt).(adminId := NatToString(|admins| + 1));
      var registered := admins + [a];
      var eid := EmployeeIdFor(verifiedAt.date, rand);
      && VerifyOutcome(registered, token, verifiedAt, rand).VerifiedAdmin?
      && LoginOutcome(WithVerification(registered, token, true, Active, Some(eid), verifiedAt.iso),
                      Credentials("", reg.password, eid, "admin"), sha256, sessionBytes).AdminSession?
  {
    var a := NewAdminRecord(reg, token, salt, sha256, uuid, registeredAt).(adminId := NatToString(|admins| + 1));
    var registered := admins + [a];
    var eid := EmployeeIdFor(verifiedAt.date, rand);
    var n := |admins|;
    FirstMatchIs(registered, ByToken(token), n);
    var verified := WithVerification(registered, token, true, Active, Some(eid), verifiedAt.iso);
    assert verified[n] == Verified(a, true, Active, Some(eid), verifiedAt.iso);
    assert verified[n].employeeId == Some(eid) by {
      assert eid != "";
    }
    forall j | 0 <= j < n ensures !Matches(verified[j], ByEmployeeId(eid)) {
      assert verified[j] == registered[j] == admins[j];
    }
    FirstMatchIs(verified, ByEmployeeId(eid), n);
  }

  /** A pending account (no employee id yet) can never log in as admin. */
  lemma PendingCannotLogIn(admins: seq<Admin>, c: Credentials, sha256: Digest, sessionBytes: seq<Byte>)
    requires forall j :: 0 <= j < |admins| ==> admins[j].employeeId == None
    ensures !LoginOutcome(admins, c, sha256, sessionBytes).AdminSession?
  {
    if c.userType == "admin" && c.employeeId != "" && c.password != "" {
      assert FirstMatch(admins, ByEmployeeId(c.employeeId)).None?;
    }
  }
}
