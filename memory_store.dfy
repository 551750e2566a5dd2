/**
 * The in-memory fallback of the backend's storage service
 * (backend/database.py, the `use_memory` branches): transcripts per room,
 * one order document per room, a feedback list and an admin list.
 */
module MemoryStore {
  import opened Wrappers
  import opened Text
  import opened StableSort

  /** A stored transcript item; `timestamp` is the client's time in seconds. */
  datatype Transcript = Transcript(
    id: string, role: string, message: string, timestamp: Option<real>, createdAt: real, roomId: string)

  /** A value of an order document (a JSON-like dictionary). */
  datatype Value = Null | Str(s: string) | Num(n: int) | Bool(b: bool) | Instant(iso: string)

  /**
   * The keys of an order document: the snake_case names the backend reads
   * and writes, and any other name a client sends.
   */
  datatype Key =
    | OrderIdKey | CustomerIdKey | CustomerNameKey | BookTitleKey | AuthorKey | GenreKey | QuantityKey
    | PaymentMethodKey | DeliveryOptionKey | DeliveryAddressKey | OrderStatusKey | OrderDateKey
    | SpecialRequestsKey | RoomIdKey
    | OtherKey(name: string)

  type Doc = map<Key, Value>

  /** A stored feedback entry; `feedbackDate` is a point in time, later is larger. */
  datatype Feedback = Feedback(
    feedbackId: string, roomId: string, customerId: Option<string>, customerName: Option<string>,
    rating: int, feedbackText: Option<string>, feedbackDate: int)

  /**
   * A stored admin account. `verificationExpires` is a point in time in
   * seconds; `createdAt`, `updatedAt` and `lastLogin` are ISO-8601 strings.
   */
  datatype Admin = Admin(
    adminId: string, employeeId: Option<string>, name: string, email: string, passwordHash: string,
    department: Option<string>, role: string, status: string, emailVerified: bool,
    verificationToken: Option<string>, verificationExpires: Option<int>,
    createdAt: string, updatedAt: string, lastLogin: Option<string>)

  /** The three ways the store looks an admin up: `admin.get(field) == value`. */
  datatype AdminKey = ByEmail(email: string) | ByEmployeeId(employeeId: string) | ByToken(token: string)

  predicate Matches(a: Admin, key: AdminKey)
  {
    match key
    case ByEmail(e) => a.email == e
    case ByEmployeeId(e) => a.employeeId == Some(e)
    case ByToken(t) => a.verificationToken == Some(t)
  }

  /** The index of the first admin matching `key`. */
  function FirstMatch(admins: seq<Admin>, key: AdminKey): (r: Option<nat>)
    ensures r.Some? ==> r.value < |admins| && Matches(admins[r.value], key)
    ensures r.Some? ==> forall j :: 0 <= j < r.value ==> !Matches(admins[j], key)
    ensures r.None? <==> forall j :: 0 <= j < |admins| ==> !Matches(admins[j], key)
    decreases |admins|
  {
    if admins == [] then None
    else if Matches(admins[0], key) then Some(0)
    else match FirstMatch(admins[1..], key)
      case None => None
      case Some(i) => Some(i + 1)
  }

  /** Why `create_admin` refuses a record. */
  datatype CreateError = EmailExists | EmployeeIdExists

  /**
   * The duplicate check of `create_admin`: the first stored admin with the
   * same email or (when the new one has a truthy employee id) the same
   * employee id decides, the email being checked first on each admin.
   */
  function CreateCheck(admins: seq<Admin>, a: Admin): (r: Option<CreateError>)
    ensures r.None? <==> forall j :: 0 <= j < |admins| ==>
      admins[j].email != a.email && !(EmployeeIdTruthy(a) && admins[j].employeeId == a.employeeId)
    ensures r == Some(EmailExists) ==> exists j :: 0 <= j < |admins| && admins[j].email == a.email
    decreases |admins|
  {
    if admins == [] then None
    else if admins[0].email == a.email then Some(EmailExists)
    else if EmployeeIdTruthy(a) && admins[0].employeeId == a.employeeId then Some(EmployeeIdExists)
    else CreateCheck(admins[1..], a)
  }

  predicate EmployeeIdTruthy(a: Admin)
  {
    a.employeeId.Some? && a.employeeId.value != ""
  }

  /** The sort key of `get_transcripts`: `x.get("timestamp", 0)`. */
  function TimestampKey(t: Transcript): real
  {
    t.timestamp.GetOr(0.0)
  }

  function Earlier(a: real, b: real): bool
  {
    a < b
  }

  /** `reverse=True` on `feedback_date`: a later date sorts first. */
  function FeedbackDate(f: Feedback): int
  {
    f.feedbackDate
  }

  function Later(a: int, b: int): bool
  {
    a > b
  }

  /** `reverse=True` on `created_at`: a lexicographically larger string sorts first. */
  function CreatedAt(a: Admin): string
  {
    a.createdAt
  }

  function Newer(a: string, b: string): bool
  {
    StrLess(b, a)
  }

  function FeedbackRoom(f: Feedback): string
  {
    f.roomId
  }

  function FeedbackCustomer(f: Feedback): Option<string>
  {
    f.customerId
  }

  lemma EarlierIsStrictWeakOrder()
    ensures StrictWeakOrder(Earlier)
  {
  }

  lemma LaterIsStrictWeakOrder()
    ensures StrictWeakOrder(Later)
  {
  }

  /** Descending string order is a strict weak order, from the properties of Python's `<`. */
  lemma NewerIsStrictWeakOrder()
    ensures StrictWeakOrder(Newer)
  {
    forall a, b | Newer(a, b) ensures !Newer(b, a) {
      StrLessAsymmetric(b, a);
    }
    forall a, b, c | !Newer(a, b) && !Newer(b, c) ensures !Newer(a, c) {
      StrLessNegativelyTransitive(c, b, a);
    }
  }

  /** The in-memory store. */
  class Store {
    var transcripts: map<string, seq<Transcript>>
    var orders: map<string, Doc>
    var feedback: seq<Feedback>
    var admins: seq<Admin>

    /** Admin ids follow the list position (`str(len + 1)` at creation), and emails are distinct. */
    ghost predicate Valid()
      reads this
    {
      && (forall i :: 0 <= i < |admins| ==> admins[i].adminId == NatToString(i + 1))
      && (forall i, j :: 0 <= i < j < |admins| ==> admins[i].email != admins[j].email)
    }

    constructor()
      ensures transcripts == map[] && orders == map[] && feedback == [] && admins == []
      ensures Valid()
    {
      transcripts := map[];
      orders := map[];
      feedback := [];
      admins := [];
    }

    /** The stored transcripts of a room, in insertion order (`[]` for an unknown room). */
    function RoomTranscripts(roomId: string): seq<Transcript>
      reads this
    {
      if roomId in transcripts then transcripts[roomId] else []
    }

    /** `store_transcript`: tags the item with its room, appends it, and returns `memory_<count>`. */
    method StoreTranscript(roomId: string, t: Transcript) returns (receipt: string)
      modifies this
      ensures transcripts == old(transcripts)[roomId := old(RoomTranscripts(roomId)) + [t.(roomId := roomId)]]
      ensures receipt == "memory_" + NatToString(|RoomTranscripts(roomId)|)
      ensures orders == old(orders) && feedback == old(feedback) && admins == old(admins)
    {
      var list := RoomTranscripts(roomId) + [t.(roomId := roomId)];
      transcripts := transcripts[roomId := list];
      receipt := "memory_" + NatToString(|list|);
    }

    /** `get_transcripts`: the room's items ascending by timestamp, ties in insertion order. */
    function GetTranscripts(roomId: string): (r: seq<Transcript>)
      reads this
      ensures SortedBy(r, TimestampKey, Earlier)
      ensures multiset(r) == multiset(RoomTranscripts(roomId))
      ensures forall k :: WithKey(r, TimestampKey, k) == WithKey(RoomTranscripts(roomId), TimestampKey, k)
    {
      EarlierIsStrictWeakOrder();
      SortByCorrect(RoomTranscripts(roomId), TimestampKey, Earlier);
      SortBy(RoomTranscripts(roomId), TimestampKey, Earlier)
    }

    /** `store_order`: replaces the room's order with the document tagged by its room. */
    method StoreOrder(roomId: string, doc: Doc) returns (n: int)
      modifies this
      ensures orders == old(orders)[roomId := doc[RoomIdKey := Str(roomId)]]
      ensures n == 1
      ensures transcripts == old(transcripts) && feedback == old(feedback) && admins == old(admins)
    {
      orders := orders[roomId := doc[RoomIdKey := Str(roomId)]];
      n := 1;
    }

    /** `get_order`. */
    function GetOrder(roomId: string): (r: Option<Doc>)
      reads this
      ensures r.Some? <==> roomId in orders
      ensures r.Some? ==> r.value == orders[roomId]
    {
      if roomId in orders then Some(orders[roomId]) else None
    }

    /** `store_feedback`: appends and returns the new length. */
    method StoreFeedback(f: Feedback) returns (n: int)
      modifies this
      ensures feedback == old(feedback) + [f]
      ensures n == |feedback|
      ensures transcripts == old(transcripts) && orders == old(orders) && admins == old(admins)
      ensures forall room :: GetFeedbackByRoom(room) == old(GetFeedbackByRoom(room)) + (if f.roomId == room then [f] else [])
      ensures forall c :: GetFeedbackByCustomer(c) == old(GetFeedbackByCustomer(c)) + (if f.customerId == Some(c) then [f] else [])
    {
      ghost var before := feedback;
      feedback := feedback + [f];
      n := |feedback|;
      forall room ensures WithKey(before + [f], FeedbackRoom, room) == WithKey(before, FeedbackRoom, room) + (if f.roomId == room then [f] else []) {
        WithKeySnoc(before, f, FeedbackRoom, room);
      }
      forall c ensures WithKey(before + [f], FeedbackCustomer, Some(c)) ==
        WithKey(before, FeedbackCustomer, Some(c)) + (if f.customerId == Some(c) then [f] else [])
      {
        WithKeySnoc(before, f, FeedbackCustomer, Some(c));
      }
    }

    /** `get_all_feedback`: newest first, equal dates in insertion order. */
    function GetAllFeedback(): (r: seq<Feedback>)
      reads this
      ensures SortedBy(r, FeedbackDate, Later)
      ensures multiset(r) == multiset(feedback)
      ensures forall k :: WithKey(r, FeedbackDate, k) == WithKey(feedback, FeedbackDate, k)
    {
      LaterIsStrictWeakOrder();
      SortByCorrect(feedback, FeedbackDate, Later);
      SortBy(feedback, FeedbackDate, Later)
    }

    /** `get_feedback_by_room`: the room's entries in insertion order (this branch does not sort). */
    function GetFeedbackByRoom(roomId: string): (r: seq<Feedback>)
      reads this
      ensures forall i :: 0 <= i < |r| ==> r[i] in feedback && r[i].roomId == roomId
      ensures forall i :: 0 <= i < |feedback| && feedback[i].roomId == roomId ==> feedback[i] in r
      ensures forall x :: multiset(r)[x] == if x.roomId == roomId then multiset(feedback)[x] else 0
      ensures feedback == [] ==> r == []
    {
      forall x ensures multiset(WithKey(feedback, FeedbackRoom, roomId))[x] ==
        if x.roomId == roomId then multiset(feedback)[x] else 0
      {
        WithKeyCount(feedback, FeedbackRoom, roomId, x);
      }
      WithKey(feedback, FeedbackRoom, roomId)
    }

    /** `get_feedback_by_customer`: entries whose customer id equals the given one, in insertion order. */
    function GetFeedbackByCustomer(customerId: string): (r: seq<Feedback>)
      reads this
      ensures forall i :: 0 <= i < |r| ==> r[i] in feedback && r[i].customerId == Some(customerId)
      ensures forall i :: 0 <= i < |feedback| && feedback[i].customerId == Some(customerId) ==> feedback[i] in r
      ensures forall x :: multiset(r)[x] == if x.customerId == Some(customerId) then multiset(feedback)[x] else 0
      ensures feedback == [] ==> r == []
    {
      forall x ensures multiset(WithKey(feedback, FeedbackCustomer, Some(customerId)))[x] ==
        if x.customerId == Some(customerId) then multiset(feedback)[x] else 0
      {
        WithKeyCount(feedback, FeedbackCustomer, Some(customerId), x);
      }
      WithKey(feedback, FeedbackCustomer, Some(customerId))
    }

    /** The admin `FindAdmin` returns, as a function of the list. */
    function Lookup(key: AdminKey): (r: Option<Admin>)
      reads this
      ensures r.Some? <==> exists j :: 0 <= j < |admins| && Matches(admins[j], key)
      ensures r.Some? ==> Matches(r.value, key) && r.value in admins
    {
      match FirstMatch(admins, key)
      case None => None
      case Some(i) => Some(admins[i])
    }

    /** The loop shared by the `get_admin_by_*` lookups: the first admin that matches. */
    method FindAdmin(key: AdminKey) returns (r: Option<Admin>)
      ensures r == Lookup(key)
    {
      var i := 0;
      while i < |admins|
        invariant 0 <= i <= |admins|
        invariant forall j :: 0 <= j < i ==> !Matches(admins[j], key)
      {
        if Matches(admins[i], key) {
          assert FirstMatch(admins, key) == Some(i) by {
            FirstMatchIs(admins, key, i);
          }
          return Some(admins[i]);
        }
        i := i + 1;
      }
      return None;
    }

    /** `get_admin_by_employee_id`. */
    method GetAdminByEmployeeId(employeeId: string) returns (r: Option<Admin>)
      ensures r == Lookup(ByEmployeeId(employeeId))
      ensures r.Some? ==> r.value.employeeId == Some(employeeId)
    {
      r := FindAdmin(ByEmployeeId(employeeId));
    }

    /** `get_admin_by_email`. */
    method GetAdminByEmail(email: string) returns (r: Option<Admin>)
      ensures r == Lookup(ByEmail(email))
      ensures r.Some? ==> r.value.email == email
      ensures Valid() && r.Some? ==> forall j :: 0 <= j < |admins| && admins[j].email == email ==> admins[j] == r.value
    {
      r := FindAdmin(ByEmail(email));
    }

    /** `get_admin_by_verification_token`. */
    method GetAdminByVerificationToken(token: string) returns (r: Option<Admin>)
      ensures r == Lookup(ByToken(token))
      ensures r.Some? ==> r.value.verificationToken == Some(token)
    {
      r := FindAdmin(ByToken(token));
    }

    /**
     * `create_admin`: refuses a duplicate, otherwise numbers the record by
     * its position and appends it.
     */
    method CreateAdmin(a: Admin) returns (r: Result)
      modifies this
      ensures r == (if CreateCheck(old(admins), a).Some? then Refused(CreateCheck(old(admins), a).value)
                    else Created(NatToString(|old(admins)| + 1)))
      ensures r.Created? ==> admins == old(admins) + [a.(adminId := r.adminId)]
      ensures r.Refused? ==> admins == old(admins)
      ensures transcripts == old(transcripts) && orders == old(orders) && feedback == old(feedback)
      ensures old(Valid()) ==> Valid()
      ensures old(Valid()) && r.Created? ==> forall j :: 0 <= j < |old(admins)| ==> old(admins)[j].adminId != r.adminId
    {
      var i := 0;
      while i < |admins|
        invariant 0 <= i <= |admins|
        invariant CreateCheck(admins, a) == CreateCheck(admins[i..], a)
      {
        assert admins[i..][1..] == admins[i + 1..];
        if admins[i].email == a.email {
          return Refused(EmailExists);
        }
        if EmployeeIdTruthy(a) && admins[i].employeeId == a.employeeId {
          return Refused(EmployeeIdExists);
        }
        i := i + 1;
      }
      var id := NatToString(|admins| + 1);
      forall j | 0 <= j < |admins| && admins[j].adminId == NatToString(j + 1) ensures admins[j].adminId != id {
        if admins[j].adminId == id {
          NatToStringInjective(j + 1, |admins| + 1);
        }
      }
      admins := admins + [a.(adminId := id)];
      r := Created(id);
    }

    /** `update_admin_last_login`: sets `last_login` on the first admin with the employee id. */
    method UpdateAdminLastLogin(employeeId: string, lastLogin: string) returns (ok: bool)
      modifies this
      ensures ok == FirstMatch(old(admins), ByEmployeeId(employeeId)).Some?
      ensures admins == WithLastLogin(old(admins), employeeId, lastLogin)
      ensures transcripts == old(transcripts) && orders == old(orders) && feedback == old(feedback)
      ensures old(Valid()) ==> Valid()
    {
      var i := 0;
      while i < |admins|
        invariant 0 <= i <= |admins|
        invariant forall j :: 0 <= j < i ==> !Matches(admins[j], ByEmployeeId(employeeId))
      {
        if Matches(admins[i], ByEmployeeId(employeeId)) {
          FirstMatchIs(admins, ByEmployeeId(employeeId), i);
          admins := admins[i := admins[i].(lastLogin := Some(lastLogin))];
          return true;
        }
        i := i + 1;
      }
      return false;
    }

    /**
     * `update_admin_verification`: on the first admin holding the token, sets
     * the flag and status, clears the token and its expiry, stamps
     * `updated_at`, and assigns the employee id when it is truthy.
     */
    method UpdateAdminVerification(token: string, emailVerified: bool, status: string,
                                   employeeId: Option<string>, now: string) returns (r: Option<Admin>)
      modifies this
      ensures admins == WithVerification(old(admins), token, emailVerified, status, employeeId, now)
      ensures r.None? <==> FirstMatch(old(admins), ByToken(token)).None?
      ensures r.Some? ==> r.value == admins[FirstMatch(old(admins), ByToken(token)).value]
      ensures transcripts == old(transcripts) && orders == old(orders) && feedback == old(feedback)
      ensures old(Valid()) ==> Valid()
    {
      var i := 0;
      while i < |admins|
        invariant 0 <= i <= |admins|
        invariant forall j :: 0 <= j < i ==> !Matches(admins[j], ByToken(token))
      {
        if Matches(admins[i], ByToken(token)) {
          FirstMatchIs(admins, ByToken(token), i);
          var a := Verified(admins[i], emailVerified, status, employeeId, now);
          admins := admins[i := a];
          return Some(a);
        }
        i := i + 1;
      }
      return None;
    }

    /** `get_all_admins`: newest `created_at` first, equal stamps in insertion order. */
    function GetAllAdmins(): (r: seq<Admin>)
      reads this
      ensures SortedBy(r, CreatedAt, Newer)
      ensures multiset(r) == multiset(admins)
      ensures forall k :: WithKey(r, CreatedAt, k) == WithKey(admins, CreatedAt, k)
    {
      NewerIsStrictWeakOrder();
      SortByCorrect(admins, CreatedAt, Newer);
      SortBy(admins, CreatedAt, Newer)
    }
  }

  datatype Result = Created(adminId: string) | Refused(error: CreateError)

  /** The first match is at `i` when `i` matches and nothing before it does. */
  lemma {:induction false} FirstMatchIs(admins: seq<Admin>, key: AdminKey, i: nat)
    requires i < |admins| && Matches(admins[i], key)
    requires forall j :: 0 <= j < i ==> !Matches(admins[j], key)
    ensures FirstMatch(admins, key) == Some(i)
  {
    var r := FirstMatch(admins, key);
    assert r.Some?;
  }

  /** The admin list after `update_admin_last_login`. */
  function WithLastLogin(admins: seq<Admin>, employeeId: string, lastLogin: string): (r: seq<Admin>)
    ensures |r| == |admins|
  {
    match FirstMatch(admins, ByEmployeeId(employeeId))
    case None => admins
    case Some(i) => admins[i := admins[i].(lastLogin := Some(lastLogin))]
  }

  /** One admin record after verification. */
  function Verified(a: Admin, emailVerified: bool, status: string, employeeId: Option<string>, now: string): (v: Admin)
    ensures v.emailVerified == emailVerified && v.status == status
    ensures v.verificationToken == None && v.verificationExpires == None && v.updatedAt == now
    ensures v.employeeId == (if employeeId.Some? && employeeId.value != "" then employeeId else a.employeeId)
    ensures v.adminId == a.adminId && v.email == a.email && v.name == a.name && v.passwordHash == a.passwordHash
    ensures v.createdAt == a.createdAt && v.lastLogin == a.lastLogin
  {
    a.(emailVerified := emailVerified, status := status, verificationToken := None, verificationExpires := None,
       updatedAt := now,
       employeeId := if employeeId.Some? && employeeId.value != "" then employeeId else a.employeeId)
  }

  /** The admin list after `update_admin_verification`. */
  function WithVerification(admins: seq<Admin>, token: string, emailVerified: bool, status: string,
                            employeeId: Option<string>, now: string): (r: seq<Admin>)
    ensures |r| == |admins|
  {
    match FirstMatch(admins, ByToken(token))
    case None => admins
    case Some(i) => admins[i := Verified(admins[i], emailVerified, status, employeeId, now)]
  }

  /** Only the first admin with the employee id changes, and only its `last_login`. */
  lemma LastLoginChangesOneRecord(admins: seq<Admin>, employeeId: string, lastLogin: string, j: nat)
    requires j < |admins|
    ensures var r := WithLastLogin(admins, employeeId, lastLogin);
      if FirstMatch(admins, ByEmployeeId(employeeId)) == Some(j)
      then r[j] == admins[j].(lastLogin := Some(lastLogin)) && r[j].lastLogin == Some(lastLogin)
      else r[j] == admins[j]
  {
  }

  /** A verification token works once: after it is used no admin holds it any more. */
  lemma {:induction false} TokenSingleUse(admins: seq<Admin>, token: string, emailVerified: bool, status: string,
                                          employeeId: Option<string>, now: string)
    requires forall i, j :: 0 <= i < j < |admins| && Matches(admins[i], ByToken(token)) ==> !Matches(admins[j], ByToken(token))
    ensures FirstMatch(WithVerification(admins, token, emailVerified, status, employeeId, now), ByToken(token)).None?
  {
    var r := WithVerification(admins, token, emailVerified, status, employeeId, now);
    forall j | 0 <= j < |r| ensures !Matches(r[j], ByToken(token)) {
      var first := FirstMatch(admins, ByToken(token));
      if first.Some? && j != first.value {
        assert r[j] == admins[j];
        if j < first.value {
        } else {
          assert Matches(admins[first.value], ByToken(token));
        }
      }
    }
  }

  /** Verification keeps the admin ids, emails and password hashes, hence the store's invariant. */
  lemma VerificationKeepsIdentity(admins: seq<Admin>, token: string, emailVerified: bool, status: string,
                                  employeeId: Option<string>, now: string, j: nat)
    requires j < |admins|
    ensures var r := WithVerification(admins, token, emailVerified, status, employeeId, now);
      r[j].adminId == admins[j].adminId && r[j].email == admins[j].email && r[j].passwordHash == admins[j].passwordHash
  {
  }
}
