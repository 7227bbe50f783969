/**
 * The check-in routes of the backend: role-based listing, record creation and
 * the UTC "today" window. The MongoDB `checkins` collection is a sequence of
 * documents in insertion order; `time.Now()` is a parameter in milliseconds
 * since the Unix epoch.
 */
module CheckinRoutes {
  import opened Wrappers
  import opened Auth
  import opened ObjectIds
  import Sequences

  /** The face attributes the client attaches to a check-in (`models.FaceResult`); the age is kept opaque. */
  datatype FaceResult = FaceResult(gender: string, age: int, expression: string)

  /** A stored attendance record (`models.Checkin`). */
  datatype Checkin = Checkin(
    id: ObjectId,
    userId: ObjectId,
    kind: string,
    mood: string,
    selfieUrl: string,
    description: string,
    createdAt: int,
    faceResult: Option<FaceResult>,
    status: string)

  /** The parsed body of `POST /api/checkins`. */
  datatype CheckinRequest = CheckinRequest(
    kind: string,
    mood: string,
    description: string,
    selfieImage: string,
    faceData: Option<FaceResult>)

  const DayMs: int := 24 * 60 * 60 * 1000
  const Unauthorized := "Unauthorized"

  /** The roles the listing route treats as allowed to see every record. */
  predicate SeesAllCheckins(role: string) {
    role == "manager" || role == "project_manager"
  }

  /** The documents a non-privileged caller may list: those filed under the caller's parsed id. */
  function OwnCheckins(stored: seq<Checkin>, uid: string): seq<Checkin> {
    Sequences.Filter(stored, (c: Checkin) => c.userId == FromHexOrZero(uid))
  }

  /**
   * `GET /api/checkins`. `findFails` stands for an error of the query or the cursor.
   */
  function ListCheckins(locals: Locals, stored: seq<Checkin>, findFails: bool): (r: Reply<seq<Checkin>>)
    ensures UserIdOf(locals).None? ==> r == ErrorReply(StatusUnauthorized, Unauthorized)
    ensures UserIdOf(locals).Some? && findFails ==> r.ErrorReply? && r.status == StatusInternalServerError
    ensures r.Reply? ==> r.status == StatusOK && Sequences.IsSubsequence(r.body, stored)
    ensures r.Reply? && SeesAllCheckins(RoleOf(locals)) ==> r.body == stored
    ensures r.Reply? && !SeesAllCheckins(RoleOf(locals)) ==>
      forall c :: c in r.body <==> c in stored && c.userId == FromHexOrZero(UserIdOf(locals).value)
  {
    match UserIdOf(locals)
    case None => ErrorReply(StatusUnauthorized, Unauthorized)
    case Some(uid) =>
      if findFails then ErrorReply(StatusInternalServerError, "find failed")
      else if SeesAllCheckins(RoleOf(locals)) then
        Sequences.EmptyIsSubsequence(stored);
        SubsequenceReflexive(stored);
        Reply(StatusOK, stored)
      else
        Sequences.FilterIsSubsequence(stored, (c: Checkin) => c.userId == FromHexOrZero(uid));
        Reply(StatusOK, OwnCheckins(stored, uid))
  }

  lemma SubsequenceReflexive(s: seq<Checkin>)
    ensures Sequences.IsSubsequence(s, s)
  {
    Sequences.FilterKeepsAll(s, (c: Checkin) => true);
    Sequences.FilterIsSubsequence(s, (c: Checkin) => true);
  }

  /**
   * The role vocabulary of the listing route: a caller whose role is "admin"
   * (the privileged role of the web client) is not privileged here and sees
   * only the records filed under its own id.
   */
  lemma AdminListsOnlyOwn(locals: Locals, stored: seq<Checkin>)
    requires UserIdOf(locals).Some? && locals.userRole == Str("admin")
    ensures var r := ListCheckins(locals, stored, false);
      r.Reply? && r.body == OwnCheckins(stored, UserIdOf(locals).value)
  {
  }

  /** Start of the UTC day containing `now`: `now.Truncate(24 * time.Hour)`. */
  function DayStart(now: int): (start: int)
    ensures start <= now < start + DayMs
    ensures start % DayMs == 0
  {
    now - now % DayMs
  }

  /** `createdAt` lies in `[start, start + 24h)` for the day of `now`. */
  predicate InTodayWindow(createdAt: int, now: int) {
    DayStart(now) <= createdAt < DayStart(now) + DayMs
  }

  /** The window holds exactly the instants of the same UTC day number as `now`. */
  lemma TodayWindowIsSameUtcDay(createdAt: int, now: int)
    ensures InTodayWindow(createdAt, now) <==> createdAt / DayMs == now / DayMs
  {
    var start := DayStart(now);
    assert start == (now / DayMs) * DayMs;
    if InTodayWindow(createdAt, now) {
      DivBetween(createdAt, now / DayMs);
    }
    if createdAt / DayMs == now / DayMs {
      assert createdAt == (createdAt / DayMs) * DayMs + createdAt % DayMs;
    }
  }

  lemma DivBetween(t: int, k: int)
    requires k * DayMs <= t < k * DayMs + DayMs
    ensures t / DayMs == k
  {
  }

  /** `GET /api/checkins/today`. */
  function TodayCheckins(locals: Locals, stored: seq<Checkin>, now: int, findFails: bool): (r: Reply<seq<Checkin>>)
    ensures UserIdOf(locals).None? ==> r == ErrorReply(StatusUnauthorized, Unauthorized)
    ensures UserIdOf(locals).Some? && findFails ==> r.ErrorReply? && r.status == StatusInternalServerError
    ensures r.Reply? ==> r.status == StatusOK && Sequences.IsSubsequence(r.body, stored)
    ensures r.Reply? ==> forall c :: c in r.body <==>
      c in stored && c.userId == FromHexOrZero(UserIdOf(locals).value) && InTodayWindow(c.createdAt, now)
  {
    match UserIdOf(locals)
    case None => ErrorReply(StatusUnauthorized, Unauthorized)
    case Some(uid) =>
      if findFails then ErrorReply(StatusInternalServerError, "find failed")
      else
        var owner := FromHexOrZero(uid);
        var start := DayStart(now);
        var p := (c: Checkin) => c.userId == owner && start <= c.createdAt < start + DayMs;
        Sequences.FilterIsSubsequence(stored, p);
        Reply(StatusOK, Sequences.Filter(stored, p))
  }

  /** The record `POST /api/checkins` builds from a parsed body. */
  function NewCheckin(req: CheckinRequest, uid: string, id: ObjectId, now: int): Checkin {
    Checkin(id, FromHexOrZero(uid), req.kind, req.mood, req.selfieImage, req.description, now, req.faceData, "present")
  }

  predicate IdInUse(stored: seq<Checkin>, id: ObjectId) {
    exists c :: c in stored && c.id == id
  }

  /** The `checkins` collection. */
  class CheckinStore {
    var checkins: seq<Checkin>

    constructor (initial: seq<Checkin>)
      ensures checkins == initial
    {
      checkins := initial;
    }

    /**
     * `POST /api/checkins`. `body` is `None` when the body does not parse;
     * `newId` is the fresh `primitive.NewObjectID()` and `now` is `time.Now()`;
     * the insert fails when `insertFails` or when the id is already taken.
     * No rule about earlier records of the day is consulted.
     */
    method Create(body: Option<CheckinRequest>, locals: Locals, newId: ObjectId, now: int, insertFails: bool)
      returns (r: Reply<Checkin>)
      modifies this
      ensures body.None? ==> r.ErrorReply? && r.status == StatusBadRequest && checkins == old(checkins)
      ensures body.Some? && UserIdOf(locals).None? ==>
        r == ErrorReply(StatusUnauthorized, Unauthorized) && checkins == old(checkins)
      ensures body.Some? && UserIdOf(locals).Some? && (insertFails || IdInUse(old(checkins), newId)) ==>
        r.ErrorReply? && r.status == StatusInternalServerError && checkins == old(checkins)
      ensures body.Some? && UserIdOf(locals).Some? && !insertFails && !IdInUse(old(checkins), newId) ==>
        var rec := NewCheckin(body.value, UserIdOf(locals).value, newId, now);
        r == Reply(StatusCreated, rec) && checkins == old(checkins) + [rec]
      ensures r.Reply? ==> r.body.status == "present" && r.body.createdAt == now
    {
      if body.None? {
        return ErrorReply(StatusBadRequest, "body parse error");
      }
      var uid := UserIdOf(locals);
      if uid.None? {
        return ErrorReply(StatusUnauthorized, Unauthorized);
      }
      var rec := NewCheckin(body.value, uid.value, newId, now);
      if insertFails || IdInUse(checkins, newId) {
        return ErrorReply(StatusInternalServerError, "insert failed");
      }
      checkins := checkins + [rec];
      r := Reply(StatusCreated, rec);
    }
  }

  /**
   * Two check-ins of the same kind on the same day are both accepted: the route
   * enforces neither one record per kind per day nor check-in before check-out.
   */
  method TwoCheckinsSameDay(uid: string, now: int) returns (first: Reply<Checkin>, second: Reply<Checkin>)
    ensures first.Reply? && second.Reply?
    ensures first.body.kind == second.body.kind == "checkin"
    ensures first.body.userId == second.body.userId
    ensures InTodayWindow(first.body.createdAt, now) && InTodayWindow(second.body.createdAt, now)
  {
    var store := new CheckinStore([]);
    var req := CheckinRequest("checkin", "happy", "", "selfie", None);
    var locals := Locals(Str(uid), Str("member"));
    first := store.Create(Some(req), locals, ObjectId("000000000000000000000001"), now, false);
    second := store.Create(Some(req), locals, ObjectId("000000000000000000000002"), now, false);
  }

  /** A check-out can be filed when the day has no check-in at all. */
  method CheckoutWithoutCheckin(uid: string, now: int) returns (r: Reply<Checkin>, today: Reply<seq<Checkin>>)
    ensures r.Reply? && r.body.kind == "checkout"
    ensures today.Reply? && today.body == [r.body]
  {
    var store := new CheckinStore([]);
    var locals := Locals(Str(uid), Str("member"));
    r := store.Create(Some(CheckinRequest("checkout", "tired", "", "selfie", None)), locals,
                      ObjectId("000000000000000000000003"), now, false);
    today := TodayCheckins(locals, store.checkins, now, false);
    assert store.checkins == [r.body];
    assert InTodayWindow(r.body.createdAt, now);
  }
}
