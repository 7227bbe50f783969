/**
 * The dashboard home page: the role label, the check-in reminder for members,
 * the mood-history chart data and the list of projects the user takes part
 * in. The local calendar is given as functions of a timestamp: `dayOf` (the
 * local midnight of that day, or any number naming the day) and `hourOf`.
 */
module DashboardPage {
  import opened Wrappers
  import Text
  import Sequences
  import CheckinRoutes

  /** The profile of the signed-in user. */
  datatype Profile = Profile(id: string, role: string)

  /**
   * A check-in as the dashboard reads it; a missing or empty field is `None`
   * or `""` (both falsy).
   */
  datatype DashCheckin = DashCheckin(userId: string, createdAt: Option<int>, mood: string, checkoutAt: Option<int>)

  /** `isAdmin`. */
  predicate IsAdmin(user: Option<Profile>) {
    user.Some? && (user.value.role == "admin" || user.value.role == "project_manager")
  }

  function RoleLabel(user: Option<Profile>): (title: string)
    ensures title == "Admin" <==> user.Some? && user.value.role == "admin"
    ensures title == "Project Manager" <==> user.Some? && user.value.role == "project_manager"
    ensures title == "Team Member" <==> !IsAdmin(user)
  {
    if IsAdmin(user) then (if user.value.role == "admin" then "Admin" else "Project Manager") else "Team Member"
  }

  /**
   * The two role vocabularies disagree: "admin" counts as an administrator
   * here but may list only its own records on the backend, and "manager" may
   * list every record on the backend but is shown the member dashboard.
   */
  lemma RoleVocabulariesDisagree()
    ensures IsAdmin(Some(Profile("", "admin"))) && !CheckinRoutes.SeesAllCheckins("admin")
    ensures !IsAdmin(Some(Profile("", "manager"))) && CheckinRoutes.SeesAllCheckins("manager")
    ensures IsAdmin(Some(Profile("", "project_manager"))) && CheckinRoutes.SeesAllCheckins("project_manager")
  {
  }

  /** The record the dashboard takes as today's: the user's, dated, and on today's local day. */
  predicate IsTodayOf(c: DashCheckin, uid: string, now: int, dayOf: int -> int) {
    c.userId == uid && c.createdAt.Some? && dayOf(c.createdAt.value) == dayOf(now)
  }

  /** `checkins.find(…)`: the first record that is today's; its type is not looked at. */
  function FindToday(checkins: seq<DashCheckin>, uid: string, now: int, dayOf: int -> int): (r: Option<DashCheckin>)
    ensures r.None? <==> forall i :: 0 <= i < |checkins| ==> !IsTodayOf(checkins[i], uid, now, dayOf)
    ensures r.Some? ==> exists i :: (0 <= i < |checkins| && checkins[i] == r.value && IsTodayOf(r.value, uid, now, dayOf) &&
                                     forall j :: 0 <= j < i ==> !IsTodayOf(checkins[j], uid, now, dayOf))
  {
    if checkins == [] then None
    else if IsTodayOf(checkins[0], uid, now, dayOf) then Some(checkins[0])
    else
      var r := FindToday(checkins[1..], uid, now, dayOf);
      assert forall j :: 1 <= j < |checkins| ==> checkins[j] == checkins[1..][j - 1];
      if r.Some? then
        var i :| 0 <= i < |checkins[1..]| && checkins[1..][i] == r.value && IsTodayOf(r.value, uid, now, dayOf) &&
                 forall j :: 0 <= j < i ==> !IsTodayOf(checkins[1..][j], uid, now, dayOf);
        assert checkins[i + 1] == r.value;
        r
      else r
  }

  datatype Warning = LateNoCheckin | CheckinReminder | CheckoutOverdue

  const NineHoursMs: int := 9 * 60 * 60 * 1000

  /**
   * The warning for a member, given today's record: without one, "late" from
   * 09:00 on and a reminder before; with one lacking `checkoutAt`, "overdue"
   * once strictly more than nine hours have passed.
   */
  function WarningFor(today: Option<DashCheckin>, now: int, hourOf: int -> int): (w: Option<Warning>)
    requires today.Some? ==> today.value.createdAt.Some?
    ensures today.None? ==> (w == Some(LateNoCheckin) <==> hourOf(now) >= 9)
    ensures today.None? ==> (w == Some(CheckinReminder) <==> hourOf(now) < 9)
    ensures today.Some? ==> (w == Some(CheckoutOverdue) <==>
                             today.value.checkoutAt.None? && now - today.value.createdAt.value > NineHoursMs)
    ensures today.Some? ==> w.None? || w == Some(CheckoutOverdue)
  {
    if today.None? then (if hourOf(now) >= 9 then Some(LateNoCheckin) else Some(CheckinReminder))
    else if today.value.checkoutAt.None? && now - today.value.createdAt.value > NineHoursMs then Some(CheckoutOverdue)
    else None
  }

  /**
   * The page's reminder block, built by reassigning `checkinWarning` and
   * `userTodayCheckin`: nothing for a signed-out user or an administrator.
   */
  method ComputeWarning(user: Option<Profile>, checkins: seq<DashCheckin>, now: int, dayOf: int -> int, hourOf: int -> int)
    returns (warning: Option<Warning>, today: Option<DashCheckin>)
    ensures user.None? || IsAdmin(user) ==> warning.None? && today.None?
    ensures user.Some? && !IsAdmin(user) ==>
      today == FindToday(checkins, user.value.id, now, dayOf) && warning == WarningFor(today, now, hourOf)
  {
    warning := None;
    today := None;
    if user.Some? && !IsAdmin(user) {
      today := FindToday(checkins, user.value.id, now, dayOf);
      if today.None? {
        if hourOf(now) >= 9 {
          warning := Some(LateNoCheckin);
        } else {
          warning := Some(CheckinReminder);
        }
      } else {
        if today.value.checkoutAt.None? {
          var diffMs := now - today.value.createdAt.value;
          if diffMs > NineHoursMs {
            warning := Some(CheckoutOverdue);
          }
        }
      }
    }
  }

  /** A backend record as the dashboard receives it: the backend document has no `checkoutAt`. */
  function FromBackend(c: CheckinRoutes.Checkin): (d: DashCheckin)
    ensures d.checkoutAt.None? && d.createdAt == Some(c.createdAt)
  {
    DashCheckin(c.userId.hex, Some(c.createdAt), c.mood, None)
  }

  /**
   * Since no backend record carries `checkoutAt`, a member whose record of
   * today is more than nine hours old is told to check out even after having
   * done so: a later check-out record changes nothing.
   */
  lemma OverdueEvenAfterCheckout(checkin: CheckinRoutes.Checkin, checkout: CheckinRoutes.Checkin, now: int,
                                 dayOf: int -> int, hourOf: int -> int)
    requires checkin.kind == "checkin" && checkout.kind == "checkout"
    requires dayOf(checkin.createdAt) == dayOf(now) && now - checkin.createdAt > NineHoursMs
    ensures var records := [FromBackend(checkin), FromBackend(checkout)];
      var today := FindToday(records, checkin.userId.hex, now, dayOf);
      today == Some(FromBackend(checkin)) && WarningFor(today, now, hourOf) == Some(CheckoutOverdue)
  {
    var records := [FromBackend(checkin), FromBackend(checkout)];
    assert IsTodayOf(records[0], checkin.userId.hex, now, dayOf);
  }

  /** `moodToValue`: happy, neutral and stressed, in any letter case, as 2, 1 and 0. */
  function MoodToValue(mood: string): (v: Option<int>)
    ensures v == Some(2) <==> Text.Lower(mood) == "happy"
    ensures v == Some(1) <==> Text.Lower(mood) == "neutral"
    ensures v == Some(0) <==> Text.Lower(mood) == "stressed"
    ensures v.None? <==> Text.Lower(mood) !in {"happy", "neutral", "stressed"}
  {
    var m := Text.Lower(mood);
    if m == "happy" then Some(2) else if m == "neutral" then Some(1) else if m == "stressed" then Some(0) else None
  }

  /** The mapping ignores letter case. */
  lemma MoodToValueIgnoresCase(mood: string)
    ensures MoodToValue(Text.Lower(mood)) == MoodToValue(mood)
  {
    Text.LowerIdempotent(mood);
  }

  /** The records the chart considers: the user's, with a mood and a creation time. */
  predicate Eligible(c: DashCheckin, uid: string) {
    c.userId == uid && c.mood != "" && c.createdAt.Some?
  }

  function Stamp(c: DashCheckin): int {
    if c.createdAt.Some? then c.createdAt.value else 0
  }

  predicate StrictlyIncreasing(s: seq<DashCheckin>) {
    forall a, b :: 0 <= a < b < |s| ==> Stamp(s[a]) < Stamp(s[b])
  }

  predicate DistinctStamps(s: seq<DashCheckin>) {
    forall a, b :: 0 <= a < b < |s| ==> Stamp(s[a]) != Stamp(s[b])
  }

  /** Inserting into a strictly increasing sequence at the place its stamp belongs. */
  function Insert(x: DashCheckin, s: seq<DashCheckin>): (r: seq<DashCheckin>)
    requires StrictlyIncreasing(s)
    requires forall y :: y in s ==> Stamp(y) != Stamp(x)
    ensures StrictlyIncreasing(r)
    ensures |r| == |s| + 1
    ensures forall y :: y in r <==> y in s || y == x
  {
    if s == [] then [x]
    else if Stamp(x) < Stamp(s[0]) then [x] + s
    else
      var rest := Insert(x, s[1..]);
      assert s[0] in s;
      forall y | y in rest
        ensures Stamp(s[0]) < Stamp(y)
      {
        if y != x {
          var k :| 0 <= k < |s[1..]| && s[1..][k] == y;
          assert y == s[k + 1];
        }
      }
      [s[0]] + rest
  }

  /** `values.sort((a, b) => a.createdAt - b.createdAt)` on values with distinct stamps. */
  function SortByStamp(s: seq<DashCheckin>): (r: seq<DashCheckin>)
    requires DistinctStamps(s)
    ensures StrictlyIncreasing(r)
    ensures |r| == |s|
    ensures forall y :: y in r <==> y in s
  {
    if s == [] then []
    else
      assert DistinctStamps(s[1..]) by {
        forall a, b | 0 <= a < b < |s[1..]|
          ensures Stamp(s[1..][a]) != Stamp(s[1..][b])
        {
          assert s[1..][a] == s[a + 1] && s[1..][b] == s[b + 1];
        }
      }
      var sorted := SortByStamp(s[1..]);
      forall y | y in sorted
        ensures Stamp(y) != Stamp(s[0])
      {
        var k :| 0 <= k < |s[1..]| && s[1..][k] == y;
        assert y == s[k + 1];
      }
      Insert(s[0], sorted)
  }

  /** `slice(-14)`: the last fourteen entries, or all of them. */
  function LastFourteen(s: seq<DashCheckin>): (r: seq<DashCheckin>)
    ensures |r| == if |s| > 14 then 14 else |s|
    ensures forall i :: 0 <= i < |r| ==> r[i] == s[|s| - |r| + i]
  {
    if |s| > 14 then s[|s| - 14..] else s
  }

  /** `h` is the latest eligible record of its local day. */
  predicate LatestOfItsDay(h: DashCheckin, checkins: seq<DashCheckin>, uid: string, dayOf: int -> int) {
    Eligible(h, uid) && h in checkins &&
    forall c :: c in checkins && Eligible(c, uid) && dayOf(Stamp(c)) == dayOf(Stamp(h)) ==> Stamp(c) <= Stamp(h)
  }

  /** An eligible record's day is shown, or it is older than everything shown in a full history. */
  predicate Covered(c: DashCheckin, history: seq<DashCheckin>, dayOf: int -> int) {
    (exists h :: h in history && dayOf(Stamp(h)) == dayOf(Stamp(c))) ||
    (|history| == 14 && Stamp(c) < Stamp(history[0]))
  }

  /** The `byDate` dictionary after some records: each key maps to the latest record of that day seen so far. */
  ghost predicate ByDateInvariant(byDate: map<int, DashCheckin>, keys: seq<int>, seen: seq<DashCheckin>,
                                  uid: string, dayOf: int -> int)
  {
    (forall k :: k in byDate <==> k in keys) &&
    (forall a, b :: 0 <= a < b < |keys| ==> keys[a] != keys[b]) &&
    (forall k :: k in byDate ==> Eligible(byDate[k], uid) && dayOf(Stamp(byDate[k])) == k && byDate[k] in seen) &&
    (forall j :: 0 <= j < |seen| && Eligible(seen[j], uid) ==>
       dayOf(Stamp(seen[j])) in byDate && Stamp(seen[j]) <= Stamp(byDate[dayOf(Stamp(seen[j]))]))
  }

  /**
   * The mood-history build: one entry per local day (the latest record of
   * that day among the user's records with a mood and a creation time),
   * ascending by time, the most recent fourteen days.
   */
  method BuildMoodHistory(checkins: seq<DashCheckin>, uid: string, dayOf: int -> int) returns (history: seq<DashCheckin>)
    ensures |history| <= 14
    ensures StrictlyIncreasing(history)
    ensures forall h :: h in history ==> LatestOfItsDay(h, checkins, uid, dayOf)
    ensures forall c :: c in checkins && Eligible(c, uid) ==> Covered(c, history, dayOf)
  {
    var byDate: map<int, DashCheckin> := map[];
    var keys: seq<int> := [];
    for i := 0 to |checkins|
      invariant ByDateInvariant(byDate, keys, checkins[..i], uid, dayOf)
    {
      var c := checkins[i];
      assert checkins[..i + 1] == checkins[..i] + [c];
      ByDateStep(byDate, keys, checkins[..i], c, uid, dayOf);
      if Eligible(c, uid) {
        var key := dayOf(c.createdAt.value);
        if key !in byDate || Stamp(c) > Stamp(byDate[key]) {
          if key !in byDate {
            keys := keys + [key];
          }
          byDate := byDate[key := c];
        }
      }
    }
    assert checkins[..|checkins|] == checkins;
    forall j | 0 <= j < |keys|
      ensures keys[j] in byDate
    {
      assert keys[j] in keys;
    }
    var values := seq(|keys|, j requires 0 <= j < |keys| => byDate[keys[j]]);
    assert DistinctStamps(values) by {
      forall a, b | 0 <= a < b < |values|
        ensures Stamp(values[a]) != Stamp(values[b])
      {
        assert dayOf(Stamp(values[a])) == keys[a] && dayOf(Stamp(values[b])) == keys[b];
      }
    }
    var sorted := SortByStamp(values);
    history := LastFourteen(sorted);
    HistoryFacts(checkins, uid, dayOf, byDate, keys, values, sorted, history);
  }

  /** One iteration of the `forEach` that fills `byDate` keeps its invariant. */
  lemma ByDateStep(byDate: map<int, DashCheckin>, keys: seq<int>, seen: seq<DashCheckin>, c: DashCheckin,
                   uid: string, dayOf: int -> int)
    requires ByDateInvariant(byDate, keys, seen, uid, dayOf)
    ensures var key := dayOf(Stamp(c));
            var replace := Eligible(c, uid) && (key !in byDate || Stamp(c) > Stamp(byDate[key]));
            ByDateInvariant(if replace then byDate[key := c] else byDate,
                            if replace && key !in byDate then keys + [key] else keys,
                            seen + [c], uid, dayOf)
  {
    var key := dayOf(Stamp(c));
    var replace := Eligible(c, uid) && (key !in byDate || Stamp(c) > Stamp(byDate[key]));
    var byDate' := if replace then byDate[key := c] else byDate;
    var keys' := if replace && key !in byDate then keys + [key] else keys;
    var seen' := seen + [c];
    forall j | 0 <= j < |seen'| && Eligible(seen'[j], uid)
      ensures dayOf(Stamp(seen'[j])) in byDate' && Stamp(seen'[j]) <= Stamp(byDate'[dayOf(Stamp(seen'[j]))])
    {
      if j < |seen| {
        assert seen'[j] == seen[j];
      }
    }
  }

  lemma HistoryFacts(checkins: seq<DashCheckin>, uid: string, dayOf: int -> int, byDate: map<int, DashCheckin>,
                     keys: seq<int>, values: seq<DashCheckin>, sorted: seq<DashCheckin>, history: seq<DashCheckin>)
    requires ByDateInvariant(byDate, keys, checkins, uid, dayOf)
    requires |values| == |keys| && forall j :: 0 <= j < |keys| ==> keys[j] in byDate && values[j] == byDate[keys[j]]
    requires StrictlyIncreasing(sorted) && forall y :: y in sorted <==> y in values
    requires history == LastFourteen(sorted)
    ensures StrictlyIncreasing(history)
    ensures forall h :: h in history ==> LatestOfItsDay(h, checkins, uid, dayOf)
    ensures forall c :: c in checkins && Eligible(c, uid) ==> Covered(c, history, dayOf)
  {
    LastFourteenIncreasing(sorted);
    forall h | h in history
      ensures LatestOfItsDay(h, checkins, uid, dayOf)
    {
      HistoryEntryIsLatest(checkins, uid, dayOf, byDate, keys, values, sorted, history, h);
    }
    forall c | c in checkins && Eligible(c, uid)
      ensures Covered(c, history, dayOf)
    {
      RecordIsCovered(checkins, uid, dayOf, byDate, keys, values, sorted, history, c);
    }
  }

  /** A shown entry is the dictionary's value for its day, hence the latest record of that day. */
  lemma HistoryEntryIsLatest(checkins: seq<DashCheckin>, uid: string, dayOf: int -> int, byDate: map<int, DashCheckin>,
                             keys: seq<int>, values: seq<DashCheckin>, sorted: seq<DashCheckin>,
                             history: seq<DashCheckin>, h: DashCheckin)
    requires ByDateInvariant(byDate, keys, checkins, uid, dayOf)
    requires |values| == |keys| && forall j :: 0 <= j < |keys| ==> keys[j] in byDate && values[j] == byDate[keys[j]]
    requires forall y :: y in sorted <==> y in values
    requires history == LastFourteen(sorted) && h in history
    ensures LatestOfItsDay(h, checkins, uid, dayOf)
  {
    var p :| 0 <= p < |history| && history[p] == h;
    assert h == sorted[|sorted| - |history| + p];
    assert h in values;
    var j :| 0 <= j < |values| && values[j] == h;
    var k := keys[j];
    assert k in byDate && h == byDate[k];
    forall c | c in checkins && Eligible(c, uid) && dayOf(Stamp(c)) == dayOf(Stamp(h))
      ensures Stamp(c) <= Stamp(h)
    {
      var q :| 0 <= q < |checkins| && checkins[q] == c;
    }
  }

  /** An eligible record's day has a dictionary entry, which is shown unless older than the fourteen shown. */
  lemma RecordIsCovered(checkins: seq<DashCheckin>, uid: string, dayOf: int -> int, byDate: map<int, DashCheckin>,
                        keys: seq<int>, values: seq<DashCheckin>, sorted: seq<DashCheckin>,
                        history: seq<DashCheckin>, c: DashCheckin)
    requires ByDateInvariant(byDate, keys, checkins, uid, dayOf)
    requires |values| == |keys| && forall j :: 0 <= j < |keys| ==> keys[j] in byDate && values[j] == byDate[keys[j]]
    requires StrictlyIncreasing(sorted) && forall y :: y in sorted <==> y in values
    requires history == LastFourteen(sorted)
    requires c in checkins && Eligible(c, uid)
    ensures Covered(c, history, dayOf)
  {
    var k := dayOf(Stamp(c));
    DayEntryDominates(checkins, uid, dayOf, byDate, keys, c);
    var v := byDate[k];
    EntryIsListed(byDate, keys, values, k);
    ShownOrOlder(sorted, history, v);
    if v in history {
      assert dayOf(Stamp(v)) == dayOf(Stamp(c));
    }
  }

  lemma DayEntryDominates(checkins: seq<DashCheckin>, uid: string, dayOf: int -> int, byDate: map<int, DashCheckin>,
                          keys: seq<int>, c: DashCheckin)
    requires ByDateInvariant(byDate, keys, checkins, uid, dayOf)
    requires c in checkins && Eligible(c, uid)
    ensures dayOf(Stamp(c)) in byDate
    ensures Stamp(c) <= Stamp(byDate[dayOf(Stamp(c))]) && dayOf(Stamp(byDate[dayOf(Stamp(c))])) == dayOf(Stamp(c))
  {
    var q :| 0 <= q < |checkins| && checkins[q] == c;
  }

  lemma EntryIsListed(byDate: map<int, DashCheckin>, keys: seq<int>, values: seq<DashCheckin>, k: int)
    requires forall k :: k in byDate <==> k in keys
    requires |values| == |keys| && forall j :: 0 <= j < |keys| ==> keys[j] in byDate && values[j] == byDate[keys[j]]
    requires k in byDate
    ensures byDate[k] in values
  {
    var j :| 0 <= j < |keys| && keys[j] == k;
    assert values[j] == byDate[k];
  }

  lemma LastFourteenIncreasing(sorted: seq<DashCheckin>)
    requires StrictlyIncreasing(sorted)
    ensures StrictlyIncreasing(LastFourteen(sorted))
  {
    var history := LastFourteen(sorted);
    var off := |sorted| - |history|;
    assert history == sorted[off..];
    forall a, b | 0 <= a < b < |history|
      ensures Stamp(history[a]) < Stamp(history[b])
    {
      assert history[a] == sorted[off + a] && history[b] == sorted[off + b];
    }
  }

  /** An element of a sorted list is among its last fourteen, or older than all of them. */
  lemma ShownOrOlder(sorted: seq<DashCheckin>, history: seq<DashCheckin>, v: DashCheckin)
    requires StrictlyIncreasing(sorted) && history == LastFourteen(sorted)
    requires v in sorted
    ensures v in history || (|history| == 14 && Stamp(v) < Stamp(history[0]))
  {
    var off := |sorted| - |history|;
    assert history == sorted[off..];
    var p :| 0 <= p < |sorted| && sorted[p] == v;
    if p < off {
      assert Stamp(sorted[p]) < Stamp(sorted[off]);
      assert history[0] == sorted[off];
    } else {
      assert history[p - off] == v;
    }
  }

  /** Two history entries never fall on the same local day. */
  lemma HistoryDaysDistinct(history: seq<DashCheckin>, checkins: seq<DashCheckin>, uid: string, dayOf: int -> int)
    requires StrictlyIncreasing(history)
    requires forall h :: h in history ==> LatestOfItsDay(h, checkins, uid, dayOf)
    ensures forall a, b :: 0 <= a < b < |history| ==> dayOf(Stamp(history[a])) != dayOf(Stamp(history[b]))
  {
    forall a, b | 0 <= a < b < |history|
      ensures dayOf(Stamp(history[a])) != dayOf(Stamp(history[b]))
    {
      assert history[a] in history && history[b] in history;
      assert LatestOfItsDay(history[a], checkins, uid, dayOf);
      assert history[b] in checkins && Eligible(history[b], uid);
    }
  }

  /** One chart point: the mood value and its label. */
  datatype MoodPoint = MoodPoint(at: int, value: Option<int>, moodLabel: string)

  /**
   * The chart data: one point per history entry, in the history's order. A
   * point has a value exactly for the three known moods, and that value is
   * 0, 1 or 2; a time-ordered history gives time-ordered points.
   */
  function ChartPoints(history: seq<DashCheckin>): (points: seq<MoodPoint>)
    ensures |points| == |history|
    ensures forall i :: 0 <= i < |points| ==> points[i].at == Stamp(history[i]) && points[i].moodLabel == history[i].mood
    ensures forall i :: 0 <= i < |points| ==>
      (points[i].value.Some? <==> Text.Lower(history[i].mood) in {"happy", "neutral", "stressed"}) &&
      (points[i].value.Some? ==> 0 <= points[i].value.value <= 2)
    ensures StrictlyIncreasing(history) ==> forall a, b :: 0 <= a < b < |points| ==> points[a].at < points[b].at
  {
    seq(|history|, i requires 0 <= i < |history| => MoodPoint(Stamp(history[i]), MoodToValue(history[i].mood), history[i].mood))
  }

  /**
   * A member entry of a team or project, as the page tells them apart: an
   * object with an `id`, a bare value (already as its string), an object
   * without `id` (whose string is "[object Object]"), or `null`/`undefined`.
   */
  datatype MemberRef = WithId(id: string) | Bare(text: string) | ObjectWithoutId | Nullish

  /** `memberId?.toString()`; `None` is `undefined`. */
  function MemberKey(m: MemberRef): Option<string> {
    match m
    case WithId(id) => Some(id)
    case Bare(text) => Some(text)
    case ObjectWithoutId => Some("[object Object]")
    case Nullish => None
  }

  /** A team or project's member list; `None` when the field is not an array. */
  datatype DashTeam = DashTeam(members: Option<seq<MemberRef>>)
  datatype DashProject = DashProject(id: string, teams: Option<seq<DashTeam>>, members: Option<seq<MemberRef>>)

  predicate ListsUser(members: Option<seq<MemberRef>>, uid: string) {
    members.Some? && exists i :: 0 <= i < |members.value| && MemberKey(members.value[i]) == Some(uid)
  }

  /** The user takes part in the project, through one of its teams or directly. */
  predicate Involves(p: DashProject, uid: string) {
    (p.teams.Some? && exists t :: 0 <= t < |p.teams.value| && ListsUser(p.teams.value[t].members, uid)) ||
    ListsUser(p.members, uid)
  }

  /** Whether a member list names the user: the `forEach` that raises `found`. */
  method ScanMembers(members: Option<seq<MemberRef>>, uid: string, found: bool) returns (found': bool)
    ensures found' == (found || ListsUser(members, uid))
  {
    found' := found;
    if members.Some? {
      var ms := members.value;
      for i := 0 to |ms|
        invariant found' == (found || exists k :: 0 <= k < i && MemberKey(ms[k]) == Some(uid))
      {
        if MemberKey(ms[i]) == Some(uid) {
          found' := true;
        }
      }
    }
  }

  /** Whether some team of a project names the user: the `forEach` over `p.teams`. */
  method ScanTeams(teams: Option<seq<DashTeam>>, uid: string) returns (found: bool)
    ensures found == (teams.Some? && exists t :: 0 <= t < |teams.value| && ListsUser(teams.value[t].members, uid))
  {
    found := false;
    if teams.Some? {
      var ts := teams.value;
      for t := 0 to |ts|
        invariant found == exists k :: 0 <= k < t && ListsUser(ts[k].members, uid)
      {
        found := ScanMembers(ts[t].members, uid, found);
      }
    }
  }

  /** `involvedProjects`: the projects the user takes part in, in list order. */
  method InvolvedProjects(projects: seq<DashProject>, uid: string) returns (involved: seq<DashProject>)
    ensures involved == Sequences.Filter(projects, (p: DashProject) => Involves(p, uid))
    ensures Sequences.IsSubsequence(involved, projects)
  {
    involved := [];
    for i := 0 to |projects|
      invariant involved == Sequences.Filter(projects[..i], (p: DashProject) => Involves(p, uid))
    {
      var p := projects[i];
      var found := ScanTeams(p.teams, uid);
      found := ScanMembers(p.members, uid, found);
      InvolvedStep(projects, i, uid);
      if found {
        involved := involved + [p];
      }
    }
    assert projects[..|projects|] == projects;
    Sequences.FilterIsSubsequence(projects, (p: DashProject) => Involves(p, uid));
  }

  lemma InvolvedStep(projects: seq<DashProject>, i: nat, uid: string)
    requires i < |projects|
    ensures Sequences.Filter(projects[..i + 1], (p: DashProject) => Involves(p, uid)) ==
            Sequences.Filter(projects[..i], (p: DashProject) => Involves(p, uid)) +
            (if Involves(projects[i], uid) then [projects[i]] else [])
  {
    assert projects[..i + 1] == projects[..i] + [projects[i]];
    Sequences.FilterAppend(projects[..i], projects[i], (p: DashProject) => Involves(p, uid));
  }

  /** A member entry without `id` matches no real user id, only the literal "[object Object]". */
  lemma ObjectWithoutIdMatchesLiteral(uid: string)
    ensures ListsUser(Some([ObjectWithoutId]), uid) <==> uid == "[object Object]"
  {
    if uid == "[object Object]" {
      assert MemberKey([ObjectWithoutId][0]) == Some(uid);
    }
  }
}
