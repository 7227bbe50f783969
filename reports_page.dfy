/**
 * The reports page: the per-user attendance and mood summary, and the period
 * filter applied when the Filter button is pressed. The local calendar month
 * (1..12) and year of a timestamp are given as functions.
 */
module ReportsPage {
  import opened Wrappers
  import Text
  import Sequences

  /** A check-in row as the report reads it; a missing `createdAt` is `None`, a missing mood `""`. */
  datatype ReportRow = ReportRow(userId: string, status: string, mood: string, createdAt: Option<int>)

  datatype ReportUser = ReportUser(id: string, name: string, role: string)

  /**
   * One user's summary: present (`hadir`) and absent (`absen`) counts and the
   * mood histogram, an association list in the order moods first appear.
   */
  datatype Summary = Summary(userId: string, name: string, role: string, hadir: nat, absen: nat,
                             moodCount: seq<(string, nat)>)

  predicate IsKnown(users: seq<ReportUser>, id: string) {
    exists j :: 0 <= j < |users| && users[j].id == id
  }

  /** `users.find(u => u.id === id)`. */
  function FindUser(users: seq<ReportUser>, id: string): (r: Option<ReportUser>)
    ensures r.None? <==> !IsKnown(users, id)
    ensures r.Some? ==> r.value in users && r.value.id == id
  {
    if users == [] then None
    else if users[0].id == id then Some(users[0])
    else
      var r := FindUser(users[1..], id);
      assert IsKnown(users[1..], id) ==> IsKnown(users, id) by {
        if IsKnown(users[1..], id) {
          var j :| 0 <= j < |users[1..]| && users[1..][j].id == id;
          assert users[j + 1].id == id;
        }
      }
      r
  }

  /** What a counter counts: present rows, absent rows, present rows with a mood, present rows with one mood. */
  datatype Tallied = Present | Absent | PresentWithMood | MoodIs(mood: string)

  predicate Counts(row: ReportRow, id: string, t: Tallied) {
    row.userId == id &&
    match t
    case Present => row.status == "present"
    case Absent => row.status == "absent"
    case PresentWithMood => row.status == "present" && row.mood != ""
    case MoodIs(m) => row.status == "present" && row.mood == m
  }

  /** The number of rows of `data` that count towards `t` for user `id`. */
  function Tally(data: seq<ReportRow>, id: string, t: Tallied): nat {
    if data == [] then 0
    else Tally(data[..|data| - 1], id, t) + (if Counts(data[|data| - 1], id, t) then 1 else 0)
  }

  lemma TallyAppend(data: seq<ReportRow>, row: ReportRow, id: string, t: Tallied)
    ensures Tally(data + [row], id, t) == Tally(data, id, t) + (if Counts(row, id, t) then 1 else 0)
  {
    assert (data + [row])[..|data|] == data;
  }

  lemma {:induction false} TallyNoRows(data: seq<ReportRow>, id: string, t: Tallied)
    requires forall j :: 0 <= j < |data| ==> data[j].userId != id
    ensures Tally(data, id, t) == 0
    decreases |data|
  {
    if data != [] {
      TallyNoRows(data[..|data| - 1], id, t);
    }
  }

  /** The distinct user ids of the rows whose user is known, in order of first appearance. */
  function KnownIds(data: seq<ReportRow>, users: seq<ReportUser>): seq<string> {
    if data == [] then []
    else
      var prev := KnownIds(data[..|data| - 1], users);
      var id := data[|data| - 1].userId;
      if IsKnown(users, id) && id !in prev then prev + [id] else prev
  }

  lemma {:induction false} KnownIdsFacts(data: seq<ReportRow>, users: seq<ReportUser>)
    ensures forall a, b :: 0 <= a < b < |KnownIds(data, users)| ==> KnownIds(data, users)[a] != KnownIds(data, users)[b]
    ensures forall id :: id in KnownIds(data, users) ==> IsKnown(users, id)
    ensures forall j :: 0 <= j < |data| && IsKnown(users, data[j].userId) ==> data[j].userId in KnownIds(data, users)
    decreases |data|
  {
    if data != [] {
      var init := data[..|data| - 1];
      KnownIdsFacts(init, users);
      assert forall j :: 0 <= j < |init| ==> data[j] == init[j];
    }
  }

  /** The count stored under `mood`, 0 when it has none. */
  function Lookup(list: seq<(string, nat)>, mood: string): nat {
    if list == [] then 0 else if list[0].0 == mood then list[0].1 else Lookup(list[1..], mood)
  }

  function MoodKeys(list: seq<(string, nat)>): set<string> {
    set p | p in list :: p.0
  }

  function SumCounts(list: seq<(string, nat)>): nat {
    if list == [] then 0 else list[0].1 + SumCounts(list[1..])
  }

  predicate DistinctKeys(list: seq<(string, nat)>) {
    forall a, b :: 0 <= a < b < |list| ==> list[a].0 != list[b].0
  }

  /** `moodCount[mood] = (moodCount[mood] || 0) + 1`. */
  function Bump(list: seq<(string, nat)>, mood: string): (r: seq<(string, nat)>)
    ensures |r| >= 1
  {
    if list == [] then [(mood, 1)]
    else if list[0].0 == mood then [(mood, list[0].1 + 1)] + list[1..]
    else [list[0]] + Bump(list[1..], mood)
  }

  lemma MoodKeysCons(p: (string, nat), list: seq<(string, nat)>)
    ensures MoodKeys([p] + list) == {p.0} + MoodKeys(list)
  {
    assert forall q :: q in [p] + list <==> q == p || q in list;
  }

  lemma DistinctKeysTail(list: seq<(string, nat)>)
    requires DistinctKeys(list) && list != []
    ensures DistinctKeys(list[1..]) && list[0].0 !in MoodKeys(list[1..])
  {
    forall a, b | 0 <= a < b < |list[1..]|
      ensures list[1..][a].0 != list[1..][b].0
    {
      assert list[1..][a] == list[a + 1] && list[1..][b] == list[b + 1];
    }
    forall p | p in list[1..]
      ensures p.0 != list[0].0
    {
      var k :| 0 <= k < |list[1..]| && list[1..][k] == p;
      assert p == list[k + 1];
    }
  }

  /** Bumping counts one more `mood`, adds it as a key if new, and keeps the keys distinct. */
  lemma {:induction false} BumpFacts(list: seq<(string, nat)>, mood: string)
    requires DistinctKeys(list)
    ensures DistinctKeys(Bump(list, mood))
    ensures forall m :: Lookup(Bump(list, mood), m) == Lookup(list, m) + (if m == mood then 1 else 0)
    ensures MoodKeys(Bump(list, mood)) == MoodKeys(list) + {mood}
    ensures SumCounts(Bump(list, mood)) == SumCounts(list) + 1
    decreases |list|
  {
    var r := Bump(list, mood);
    if list == [] {
      assert MoodKeys(r) == {mood};
    } else {
      DistinctKeysTail(list);
      assert list == [list[0]] + list[1..];
      MoodKeysCons(list[0], list[1..]);
      if list[0].0 == mood {
        MoodKeysCons((mood, list[0].1 + 1), list[1..]);
        assert r[1..] == list[1..];
        forall a, b | 0 <= a < b < |r|
          ensures r[a].0 != r[b].0
        {
          assert a == 0 || r[a] == list[a];
          assert r[b] == list[b];
        }
      } else {
        var rest := Bump(list[1..], mood);
        BumpFacts(list[1..], mood);
        MoodKeysCons(list[0], rest);
        assert r[1..] == rest;
        forall a, b | 0 <= a < b < |r|
          ensures r[a].0 != r[b].0
        {
          if a == 0 {
            assert r[b] in rest;
            assert r[b].0 in MoodKeys(rest);
          } else {
            assert r[a] == rest[a - 1] && r[b] == rest[b - 1];
          }
        }
      }
    }
  }

  /** `moodCount` is the histogram of a user's present rows with a mood. */
  ghost predicate MoodCountOf(list: seq<(string, nat)>, data: seq<ReportRow>, id: string) {
    DistinctKeys(list) &&
    (forall m :: m in MoodKeys(list) <==> m != "" && Tally(data, id, MoodIs(m)) > 0) &&
    (forall m :: m != "" ==> Lookup(list, m) == Tally(data, id, MoodIs(m))) &&
    SumCounts(list) == Tally(data, id, PresentWithMood)
  }

  /** `s` summarises the rows of its user in `data`. */
  ghost predicate SummaryOf(s: Summary, data: seq<ReportRow>, users: seq<ReportUser>) {
    FindUser(users, s.userId).Some? &&
    s.name == FindUser(users, s.userId).value.name && s.role == FindUser(users, s.userId).value.role &&
    s.hadir == Tally(data, s.userId, Present) && s.absen == Tally(data, s.userId, Absent) &&
    MoodCountOf(s.moodCount, data, s.userId)
  }

  /** One summary per distinct known user id, in order of first appearance, each summarising its rows. */
  ghost predicate SummariesOf(ss: seq<Summary>, data: seq<ReportRow>, users: seq<ReportUser>) {
    |ss| == |KnownIds(data, users)| &&
    forall k :: 0 <= k < |ss| ==> ss[k].userId == KnownIds(data, users)[k] && SummaryOf(ss[k], data, users)
  }

  function IndexOf(ss: seq<Summary>, id: string): (r: Option<nat>)
    ensures r.None? <==> forall k :: 0 <= k < |ss| ==> ss[k].userId != id
    ensures r.Some? ==> r.value < |ss| && ss[r.value].userId == id
  {
    if ss == [] then None
    else if ss[0].userId == id then Some(0)
    else
      var r := IndexOf(ss[1..], id);
      assert forall k :: 1 <= k < |ss| ==> ss[k] == ss[1..][k - 1];
      if r.Some? then Some(r.value + 1) else None
  }

  /** One summary's counters after one more row of its user. */
  function Count(s: Summary, row: ReportRow): Summary {
    if row.status == "present" then
      s.(hadir := s.hadir + 1, moodCount := if row.mood != "" then Bump(s.moodCount, row.mood) else s.moodCount)
    else if row.status == "absent" then s.(absen := s.absen + 1)
    else s
  }

  /** The `forEach` callback: one row folded into the summaries. */
  function AddRow(ss: seq<Summary>, row: ReportRow, users: seq<ReportUser>): seq<Summary> {
    match FindUser(users, row.userId)
    case None => ss
    case Some(u) =>
      match IndexOf(ss, row.userId)
      case None => ss + [Count(Summary(row.userId, u.name, u.role, 0, 0, []), row)]
      case Some(k) => ss[k := Count(ss[k], row)]
  }

  /** A row of an unknown user changes nothing. */
  lemma UnknownRowIgnored(ss: seq<Summary>, row: ReportRow, users: seq<ReportUser>)
    requires !IsKnown(users, row.userId)
    ensures AddRow(ss, row, users) == ss
  {
  }

  /** A row with a status other than present or absent creates its user's entry but moves no counter. */
  lemma OtherStatusCountsNothing(ss: seq<Summary>, row: ReportRow, users: seq<ReportUser>)
    requires IsKnown(users, row.userId) && row.status != "present" && row.status != "absent"
    ensures IndexOf(ss, row.userId).Some? ==> AddRow(ss, row, users) == ss
    ensures IndexOf(ss, row.userId).None? ==>
      AddRow(ss, row, users) == ss + [Summary(row.userId, FindUser(users, row.userId).value.name,
                                              FindUser(users, row.userId).value.role, 0, 0, [])]
  {
    if IndexOf(ss, row.userId).Some? {
      var k := IndexOf(ss, row.userId).value;
      assert ss[k := ss[k]] == ss;
    }
  }

  /** A summary stays faithful when a row of another user is added. */
  lemma OtherUserRow(s: Summary, data: seq<ReportRow>, row: ReportRow, users: seq<ReportUser>)
    requires SummaryOf(s, data, users) && row.userId != s.userId
    ensures SummaryOf(s, data + [row], users)
  {
    TallyAppend(data, row, s.userId, Present);
    TallyAppend(data, row, s.userId, Absent);
    TallyAppend(data, row, s.userId, PresentWithMood);
    forall m
      ensures Tally(data + [row], s.userId, MoodIs(m)) == Tally(data, s.userId, MoodIs(m))
    {
      TallyAppend(data, row, s.userId, MoodIs(m));
    }
  }

  /** A summary stays faithful when a row of its own user is counted. */
  lemma OwnUserRow(s: Summary, data: seq<ReportRow>, row: ReportRow, users: seq<ReportUser>)
    requires SummaryOf(s, data, users) && row.userId == s.userId
    ensures SummaryOf(Count(s, row), data + [row], users)
  {
    var id := s.userId;
    BumpFacts(s.moodCount, row.mood);
    TallyAppend(data, row, id, Present);
    TallyAppend(data, row, id, Absent);
    TallyAppend(data, row, id, PresentWithMood);
    forall m
      ensures Tally(data + [row], id, MoodIs(m)) == Tally(data, id, MoodIs(m)) + (if Counts(row, id, MoodIs(m)) then 1 else 0)
    {
      TallyAppend(data, row, id, MoodIs(m));
    }
  }

  lemma AddUnknownRow(ss: seq<Summary>, data: seq<ReportRow>, row: ReportRow, users: seq<ReportUser>)
    requires SummariesOf(ss, data, users) && !IsKnown(users, row.userId)
    ensures SummariesOf(AddRow(ss, row, users), data + [row], users)
  {
    var data' := data + [row];
    assert data'[..|data'| - 1] == data;
    KnownIdsFacts(data, users);
    forall k | 0 <= k < |ss|
      ensures SummaryOf(ss[k], data', users)
    {
      assert ss[k].userId in KnownIds(data, users);
      OtherUserRow(ss[k], data, row, users);
    }
  }

  lemma KnownIdsAppend(data: seq<ReportRow>, row: ReportRow, users: seq<ReportUser>)
    ensures KnownIds(data + [row], users) ==
      if IsKnown(users, row.userId) && row.userId !in KnownIds(data, users)
      then KnownIds(data, users) + [row.userId] else KnownIds(data, users)
  {
    assert (data + [row])[..|data|] == data;
  }

  /** The summaries of users other than the row's stay faithful, except possibly the one at `skip`. */
  lemma OthersUnaffected(ss: seq<Summary>, data: seq<ReportRow>, row: ReportRow, users: seq<ReportUser>, skip: int)
    requires forall k :: 0 <= k < |ss| && k != skip ==> SummaryOf(ss[k], data, users) && ss[k].userId != row.userId
    ensures forall k :: 0 <= k < |ss| && k != skip ==> SummaryOf(ss[k], data + [row], users)
  {
    forall k | 0 <= k < |ss| && k != skip
      ensures SummaryOf(ss[k], data + [row], users)
    {
      OtherUserRow(ss[k], data, row, users);
    }
  }

  /** A known user without a summary has no rows so far. */
  lemma NoSummaryNoRows(ss: seq<Summary>, data: seq<ReportRow>, users: seq<ReportUser>, id: string)
    requires SummariesOf(ss, data, users) && IsKnown(users, id) && IndexOf(ss, id).None?
    ensures id !in KnownIds(data, users)
    ensures forall j :: 0 <= j < |data| ==> data[j].userId != id
  {
    KnownIdsFacts(data, users);
    var ids := KnownIds(data, users);
    forall k | 0 <= k < |ids|
      ensures ids[k] != id
    {
      assert ss[k].userId == ids[k];
    }
  }

  /** The entry created for a user's first row summarises that row alone. */
  lemma FirstRowSummary(data: seq<ReportRow>, row: ReportRow, users: seq<ReportUser>)
    requires IsKnown(users, row.userId)
    requires forall j :: 0 <= j < |data| ==> data[j].userId != row.userId
    ensures var u := FindUser(users, row.userId).value;
      SummaryOf(Count(Summary(row.userId, u.name, u.role, 0, 0, []), row), data + [row], users)
  {
    var id := row.userId;
    var u := FindUser(users, id).value;
    var start := Summary(id, u.name, u.role, 0, 0, []);
    TallyNoRows(data, id, Present);
    TallyNoRows(data, id, Absent);
    TallyNoRows(data, id, PresentWithMood);
    forall m
      ensures Tally(data, id, MoodIs(m)) == 0
    {
      TallyNoRows(data, id, MoodIs(m));
    }
    assert SummaryOf(start, data, users);
    OwnUserRow(start, data, row, users);
  }

  lemma AddFirstRowOfUser(ss: seq<Summary>, data: seq<ReportRow>, row: ReportRow, users: seq<ReportUser>)
    requires SummariesOf(ss, data, users) && IsKnown(users, row.userId) && IndexOf(ss, row.userId).None?
    ensures SummariesOf(AddRow(ss, row, users), data + [row], users)
  {
    var u := FindUser(users, row.userId).value;
    NoSummaryNoRows(ss, data, users, row.userId);
    KnownIdsAppend(data, row, users);
    FirstRowSummary(data, row, users);
    OthersUnaffected(ss, data, row, users, -1);
    assert AddRow(ss, row, users) == ss + [Count(Summary(row.userId, u.name, u.role, 0, 0, []), row)];
  }

  /** Summaries of distinct users: every other entry belongs to another user. */
  lemma OtherEntriesOtherUsers(ss: seq<Summary>, data: seq<ReportRow>, users: seq<ReportUser>, i: nat)
    requires SummariesOf(ss, data, users) && i < |ss|
    ensures ss[i].userId in KnownIds(data, users)
    ensures forall k :: 0 <= k < |ss| && k != i ==> ss[k].userId != ss[i].userId
  {
    KnownIdsFacts(data, users);
  }

  lemma AddLaterRowOfUser(ss: seq<Summary>, data: seq<ReportRow>, row: ReportRow, users: seq<ReportUser>)
    requires SummariesOf(ss, data, users) && IsKnown(users, row.userId) && IndexOf(ss, row.userId).Some?
    ensures SummariesOf(AddRow(ss, row, users), data + [row], users)
  {
    var i := IndexOf(ss, row.userId).value;
    OtherEntriesOtherUsers(ss, data, users, i);
    KnownIdsAppend(data, row, users);
    OwnUserRow(ss[i], data, row, users);
    OthersUnaffected(ss, data, row, users, i);
    assert AddRow(ss, row, users) == ss[i := Count(ss[i], row)];
  }

  /** Folding one more row keeps the summaries faithful to the rows seen. */
  lemma AddRowPreserves(ss: seq<Summary>, data: seq<ReportRow>, row: ReportRow, users: seq<ReportUser>)
    requires SummariesOf(ss, data, users)
    ensures SummariesOf(AddRow(ss, row, users), data + [row], users)
  {
    if !IsKnown(users, row.userId) {
      AddUnknownRow(ss, data, row, users);
    } else if IndexOf(ss, row.userId).None? {
      AddFirstRowOfUser(ss, data, row, users);
    } else {
      AddLaterRowOfUser(ss, data, row, users);
    }
  }

  /** `getUserSummaries`: the `forEach` over the rows, then `Object.values`. */
  method GetUserSummaries(data: seq<ReportRow>, users: seq<ReportUser>) returns (summaries: seq<Summary>)
    ensures SummariesOf(summaries, data, users)
  {
    summaries := [];
    for i := 0 to |data|
      invariant SummariesOf(summaries, data[..i], users)
    {
      AddRowPreserves(summaries, data[..i], data[i], users);
      summaries := AddRow(summaries, data[i], users);
      assert data[..i + 1] == data[..i] + [data[i]];
    }
    assert data[..|data|] == data;
  }

  /** The mood histogram adds up to the present rows with a mood; absent rows never touch it. */
  lemma MoodCountSum(ss: seq<Summary>, data: seq<ReportRow>, users: seq<ReportUser>, k: nat)
    requires SummariesOf(ss, data, users) && k < |ss|
    ensures SumCounts(ss[k].moodCount) == Tally(data, ss[k].userId, PresentWithMood)
    ensures ss[k].hadir >= SumCounts(ss[k].moodCount)
  {
    TallyMoodBound(data, ss[k].userId);
  }

  lemma {:induction false} TallyMoodBound(data: seq<ReportRow>, id: string)
    ensures Tally(data, id, PresentWithMood) <= Tally(data, id, Present)
    decreases |data|
  {
    if data != [] {
      TallyMoodBound(data[..|data| - 1], id);
    }
  }

  /** Whether `handleFilter` keeps a row. */
  predicate KeepRow(row: ReportRow, period: string, month: string, year: int,
                    monthOf: int -> int, yearOf: int -> int)
  {
    if row.createdAt.None? then true
    else if period == "monthly" then
      var t := row.createdAt.value;
      monthOf(t) >= 0 && Text.MonthLabel(monthOf(t)) == Text.PadStart2(month) && yearOf(t) == year
    else if period == "yearly" then yearOf(row.createdAt.value) == year
    else true
  }

  /** `data.filter(…)` of `handleFilter`. */
  function FilterRows(data: seq<ReportRow>, period: string, month: string, year: int,
                      monthOf: int -> int, yearOf: int -> int): (r: seq<ReportRow>)
    ensures Sequences.IsSubsequence(r, data)
    ensures forall row :: row in r <==> row in data && KeepRow(row, period, month, year, monthOf, yearOf)
  {
    var keep := (row: ReportRow) => KeepRow(row, period, month, year, monthOf, yearOf);
    Sequences.FilterIsSubsequence(data, keep);
    Sequences.Filter(data, keep)
  }

  /** Period "all" (or any unknown period) keeps every row. */
  lemma AllKeepsEverything(data: seq<ReportRow>, month: string, year: int, monthOf: int -> int, yearOf: int -> int)
    ensures FilterRows(data, "all", month, year, monthOf, yearOf) == data
  {
    Sequences.FilterKeepsAll(data, (row: ReportRow) => KeepRow(row, "all", month, year, monthOf, yearOf));
  }

  /**
   * With the month chosen as `m` (its two-digit label), "monthly" keeps a
   * dated row exactly when it falls in month `m` of the chosen year.
   */
  lemma MonthlyMeansSameMonthAndYear(row: ReportRow, m: nat, year: int, monthOf: int -> int, yearOf: int -> int)
    requires 1 <= m <= 12 && row.createdAt.Some? && 1 <= monthOf(row.createdAt.value) <= 12
    ensures KeepRow(row, "monthly", Text.MonthLabel(m), year, monthOf, yearOf) <==>
            monthOf(row.createdAt.value) == m && yearOf(row.createdAt.value) == year
  {
    Text.MonthLabelReadBack(m);
    Text.MonthLabelInjective(monthOf(row.createdAt.value), m);
  }

  /** Rows without a creation time pass every filter. */
  lemma UndatedRowsKept(row: ReportRow, period: string, month: string, year: int, monthOf: int -> int, yearOf: int -> int)
    requires row.createdAt.None?
    ensures KeepRow(row, period, month, year, monthOf, yearOf)
  {
  }

  /** The page's state: the fetched rows and users, the filter inputs and the filtered rows. */
  class ReportsPageState {
    var data: seq<ReportRow>
    var users: seq<ReportUser>
    var filteredData: seq<ReportRow>
    var filterPeriod: string
    var month: string
    var year: int

    constructor (initialMonth: string, initialYear: int)
      ensures data == [] && users == [] && filteredData == []
      ensures filterPeriod == "all" && month == initialMonth && year == initialYear
    {
      data := [];
      users := [];
      filteredData := [];
      filterPeriod := "all";
      month := initialMonth;
      year := initialYear;
    }

    /** The fetch on mount, then the effect that shows every row until a filter is applied. */
    method Loaded(rows: seq<ReportRow>, userList: seq<ReportUser>)
      modifies this
      ensures data == rows && users == userList && filteredData == rows
      ensures filterPeriod == old(filterPeriod) && month == old(month) && year == old(year)
    {
      users := userList;
      data := rows;
      filteredData := data;
    }

    /** `handleFilter`. */
    method HandleFilter(monthOf: int -> int, yearOf: int -> int)
      modifies this
      ensures filteredData == FilterRows(data, filterPeriod, month, year, monthOf, yearOf)
      ensures data == old(data) && users == old(users)
      ensures filterPeriod == old(filterPeriod) && month == old(month) && year == old(year)
    {
      filteredData := FilterRows(data, filterPeriod, month, year, monthOf, yearOf);
    }

    /** `userSummaries`, computed from the filtered rows. */
    method UserSummaries() returns (summaries: seq<Summary>)
      ensures SummariesOf(summaries, filteredData, users)
    {
      summaries := GetUserSummaries(filteredData, users);
    }
  }
}
