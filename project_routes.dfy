/**
 * The project routes of the backend: the `POST` document, the partial `PUT`
 * update, deletion and lookup by id, with the `projects` collection held as a
 * sequence of documents.
 */
module ProjectRoutes {
  import opened Wrappers
  import opened Auth
  import opened ObjectIds
  import Text
  import Sequences

  /** A calendar date as `time.Parse("2006-01-02", …)` yields it (midnight UTC). */
  datatype Date = Date(year: int, month: int, day: int)

  predicate IsDigit(c: char) {
    '0' <= c <= '9'
  }

  function DigitValue(c: char): nat
    requires IsDigit(c)
  {
    c as int - '0' as int
  }

  predicate IsLeapYear(y: int) {
    y % 4 == 0 && (y % 100 != 0 || y % 400 == 0)
  }

  function DaysIn(month: int, year: int): int
    requires 1 <= month <= 12
  {
    if month == 2 then (if IsLeapYear(year) then 29 else 28)
    else if month == 4 || month == 6 || month == 9 || month == 11 then 30
    else 31
  }

  predicate ValidDate(d: Date) {
    1 <= d.month <= 12 && 1 <= d.day <= DaysIn(d.month, d.year)
  }

  /** The shape of the layout `2006-01-02`: four digits, `-`, two digits, `-`, two digits. */
  predicate HasDateShape(s: string) {
    |s| == 10 && s[4] == '-' && s[7] == '-' &&
    IsDigit(s[0]) && IsDigit(s[1]) && IsDigit(s[2]) && IsDigit(s[3]) &&
    IsDigit(s[5]) && IsDigit(s[6]) && IsDigit(s[8]) && IsDigit(s[9])
  }

  /** `time.Parse("2006-01-02", s)`, `None` standing for its error. */
  function ParseDate(s: string): (r: Option<Date>)
    ensures r.Some? ==> HasDateShape(s) && ValidDate(r.value) && 0 <= r.value.year <= 9999
    ensures r.Some? ==> FormatDate(r.value) == s
  {
    if !HasDateShape(s) then None
    else
      var y := 1000 * DigitValue(s[0]) + 100 * DigitValue(s[1]) + 10 * DigitValue(s[2]) + DigitValue(s[3]);
      var m := 10 * DigitValue(s[5]) + DigitValue(s[6]);
      var d := 10 * DigitValue(s[8]) + DigitValue(s[9]);
      if 1 <= m <= 12 && 1 <= d <= DaysIn(m, y) then
        DigitsReadBack(s, y, m, d);
        Some(Date(y, m, d))
      else None
  }

  lemma DigitValueChar(c: char)
    requires IsDigit(c)
    ensures DigitValue(c) < 10 && Text.DigitChar(DigitValue(c)) == c
  {
  }

  lemma SplitFour(a: nat, b: nat, c: nat, d: nat)
    requires a < 10 && b < 10 && c < 10 && d < 10
    ensures var y := 1000 * a + 100 * b + 10 * c + d;
      y / 1000 == a && y / 100 % 10 == b && y / 10 % 10 == c && y % 10 == d
  {
    var y := 1000 * a + 100 * b + 10 * c + d;
    assert y / 10 == 100 * a + 10 * b + c;
    assert y / 100 == 10 * a + b;
  }

  /** The digits of a well-shaped string are written back as the same characters. */
  lemma DigitsReadBack(s: string, y: int, m: int, d: int)
    requires HasDateShape(s)
    requires y == 1000 * DigitValue(s[0]) + 100 * DigitValue(s[1]) + 10 * DigitValue(s[2]) + DigitValue(s[3])
    requires m == 10 * DigitValue(s[5]) + DigitValue(s[6]) && 1 <= m <= 12
    requires d == 10 * DigitValue(s[8]) + DigitValue(s[9]) && 1 <= d <= 31
    ensures FormatDate(Date(y, m, d)) == s
  {
    SplitFour(DigitValue(s[0]), DigitValue(s[1]), DigitValue(s[2]), DigitValue(s[3]));
    SplitFour(0, 0, DigitValue(s[5]), DigitValue(s[6]));
    SplitFour(0, 0, DigitValue(s[8]), DigitValue(s[9]));
    DigitValueChar(s[0]);
    DigitValueChar(s[1]);
    DigitValueChar(s[2]);
    DigitValueChar(s[3]);
    DigitValueChar(s[5]);
    DigitValueChar(s[6]);
    DigitValueChar(s[8]);
    DigitValueChar(s[9]);
    var f := FormatDate(Date(y, m, d));
    assert f[0] == s[0] && f[1] == s[1] && f[2] == s[2] && f[3] == s[3] && f[4] == s[4];
    assert f[5] == s[5] && f[6] == s[6] && f[7] == s[7] && f[8] == s[8] && f[9] == s[9];
  }

  /** A date written in the layout `2006-01-02`. */
  function FormatDate(d: Date): (s: string)
    requires 0 <= d.year <= 9999 && 1 <= d.month <= 12 && 1 <= d.day <= 31
    ensures |s| == 10
  {
    [Text.DigitChar(d.year / 1000), Text.DigitChar(d.year / 100 % 10),
     Text.DigitChar(d.year / 10 % 10), Text.DigitChar(d.year % 10), '-',
     Text.DigitChar(d.month / 10), Text.DigitChar(d.month % 10), '-',
     Text.DigitChar(d.day / 10), Text.DigitChar(d.day % 10)]
  }

  lemma DigitCharValue(n: int)
    requires 0 <= n < 10
    ensures IsDigit(Text.DigitChar(n)) && DigitValue(Text.DigitChar(n)) == n
  {
  }

  lemma TwoDigits(n: int)
    requires 0 <= n < 100
    ensures 10 * (n / 10) + n % 10 == n && 0 <= n / 10 < 10
  {
  }

  lemma FourDigits(y: int)
    requires 0 <= y <= 9999
    ensures 1000 * (y / 1000) + 100 * (y / 100 % 10) + 10 * (y / 10 % 10) + y % 10 == y
    ensures 0 <= y / 1000 < 10
  {
    var a := y / 10;
    assert y == 10 * a + y % 10;
    var b := a / 10;
    assert a == 10 * b + a % 10;
    assert b == y / 100;
    assert b == 10 * (b / 10) + b % 10;
    assert b / 10 == y / 1000;
  }

  /** Every valid date with a four-digit year is accepted back from its written form. */
  lemma ParseFormatRoundTrip(d: Date)
    requires ValidDate(d) && 0 <= d.year <= 9999
    ensures ParseDate(FormatDate(d)) == Some(d)
  {
    FormattedDigits(d);
  }

  /** The written form of a date has the layout's shape, and its digits spell the year, month and day. */
  lemma FormattedDigits(d: Date)
    requires 0 <= d.year <= 9999 && 1 <= d.month <= 12 && 1 <= d.day <= 31
    ensures var s := FormatDate(d);
      HasDateShape(s) &&
      1000 * DigitValue(s[0]) + 100 * DigitValue(s[1]) + 10 * DigitValue(s[2]) + DigitValue(s[3]) == d.year &&
      10 * DigitValue(s[5]) + DigitValue(s[6]) == d.month &&
      10 * DigitValue(s[8]) + DigitValue(s[9]) == d.day
  {
    var s := FormatDate(d);
    FourDigits(d.year);
    TwoDigits(d.month);
    TwoDigits(d.day);
    DigitCharValue(d.year / 1000);
    DigitCharValue(d.year / 100 % 10);
    DigitCharValue(d.year / 10 % 10);
    DigitCharValue(d.year % 10);
    DigitCharValue(d.month / 10);
    DigitCharValue(d.month % 10);
    DigitCharValue(d.day / 10);
    DigitCharValue(d.day % 10);
    assert HasDateShape(s);
  }

  /** The impossible day 2023-02-29 is refused. */
  lemma NonLeapFebruary29Refused()
    ensures ParseDate("2023-02-29") == None
  {
    var s := "2023-02-29";
    assert HasDateShape(s);
    assert DigitValue(s[0]) == 2 && DigitValue(s[1]) == 0 && DigitValue(s[2]) == 2 && DigitValue(s[3]) == 3;
  }

  /** A date field of a request: set only when non-empty and parseable. */
  function OptionalDate(s: string): Option<Date> {
    if s != "" then ParseDate(s) else None
  }

  /** The non-empty guard never changes the outcome: the empty string does not parse either. */
  lemma OptionalDateIsParse(s: string)
    ensures OptionalDate(s) == ParseDate(s)
  {
  }

  /** A stored project (`models.Project`). */
  datatype Project = Project(
    id: ObjectId,
    name: string,
    description: string,
    startDate: Option<Date>,
    endDate: Option<Date>,
    teams: seq<ObjectId>,
    createdAt: int)

  /**
   * The parsed body of `POST` and `PUT /api/projects`; `teams` is `None` when
   * the body has no `teams` array (a nil slice in Go).
   */
  datatype ProjectRequest = ProjectRequest(
    name: string,
    description: string,
    startDate: string,
    endDate: string,
    teams: Option<seq<string>>)

  /** The document `POST /api/projects` inserts; `teamIds` is the converted team list. */
  function NewProject(req: ProjectRequest, id: ObjectId, teamIds: seq<ObjectId>, now: int): Project {
    Project(id, req.name, req.description, OptionalDate(req.startDate), OptionalDate(req.endDate), teamIds, now)
  }

  /** The `$set` document of `PUT /api/projects/:id`; `None` marks a key left out of it. */
  datatype ProjectUpdate = ProjectUpdate(
    name: string,
    description: string,
    startDate: Option<Date>,
    endDate: Option<Date>,
    teams: Option<seq<ObjectId>>)

  /** The update the `PUT` handler assembles from a request. */
  function UpdateFor(req: ProjectRequest): ProjectUpdate {
    ProjectUpdate(req.name, req.description, OptionalDate(req.startDate), OptionalDate(req.endDate),
                  if req.teams.Some? then Some(ValidIds(req.teams.value)) else None)
  }

  /**
   * The `PUT` handler's construction of the `$set` document: name and
   * description always, each date only when non-empty and parseable, the team
   * list only when the request carries one, after the conversion loop.
   */
  method BuildUpdate(req: ProjectRequest) returns (u: ProjectUpdate)
    ensures u == UpdateFor(req)
    ensures u.name == req.name && u.description == req.description
    ensures u.startDate.Some? <==> req.startDate != "" && ParseDate(req.startDate).Some?
    ensures u.teams.Some? <==> req.teams.Some?
  {
    var startDate: Option<Date> := None;
    var endDate: Option<Date> := None;
    var teams: Option<seq<ObjectId>> := None;
    if req.startDate != "" {
      var dt := ParseDate(req.startDate);
      if dt.Some? {
        startDate := dt;
      }
    }
    if req.endDate != "" {
      var dt := ParseDate(req.endDate);
      if dt.Some? {
        endDate := dt;
      }
    }
    if req.teams.Some? {
      var ids := ParseIds(req.teams.value);
      teams := Some(ids);
    }
    u := ProjectUpdate(req.name, req.description, startDate, endDate, teams);
  }

  /** MongoDB's `$set`: the keys present in the update overwrite, the others stay. */
  function ApplyUpdate(p: Project, u: ProjectUpdate): (q: Project)
    ensures q.id == p.id && q.createdAt == p.createdAt
    ensures q.name == u.name && q.description == u.description
    ensures q.startDate == (if u.startDate.Some? then u.startDate else p.startDate)
    ensures q.endDate == (if u.endDate.Some? then u.endDate else p.endDate)
    ensures q.teams == (if u.teams.Some? then u.teams.value else p.teams)
  {
    p.(name := u.name, description := u.description,
       startDate := if u.startDate.Some? then u.startDate else p.startDate,
       endDate := if u.endDate.Some? then u.endDate else p.endDate,
       teams := if u.teams.Some? then u.teams.value else p.teams)
  }

  /** A blank or unparseable date in a `PUT` never clears the stored date. */
  lemma PutNeverClearsDates(p: Project, req: ProjectRequest)
    requires ParseDate(req.startDate).None? && ParseDate(req.endDate).None?
    ensures ApplyUpdate(p, UpdateFor(req)).startDate == p.startDate
    ensures ApplyUpdate(p, UpdateFor(req)).endDate == p.endDate
  {
  }

  /** A `PUT` always overwrites name and description, with empty strings too. */
  lemma PutOverwritesNameAndDescription(p: Project, req: ProjectRequest)
    ensures ApplyUpdate(p, UpdateFor(req)).name == req.name
    ensures ApplyUpdate(p, UpdateFor(req)).description == req.description
  {
  }

  /** The team list changes only when the request carries one; an empty array clears it. */
  lemma PutTeamsOnlyWhenPresent(p: Project, req: ProjectRequest)
    ensures req.teams.None? ==> ApplyUpdate(p, UpdateFor(req)).teams == p.teams
    ensures req.teams == Some([]) ==> ApplyUpdate(p, UpdateFor(req)).teams == []
    ensures req.teams.Some? ==> ApplyUpdate(p, UpdateFor(req)).teams == ValidIds(req.teams.value)
  {
  }

  function ProjectId(p: Project): ObjectId {
    p.id
  }

  /** A project just inserted under a fresh id is what `GET /api/projects/:id` then answers with. */
  lemma CreatedProjectIsFound(projects: seq<Project>, req: ProjectRequest, id: ObjectId, teamIds: seq<ObjectId>, now: int)
    requires !HasId(projects, ProjectId, id)
    ensures FindById(projects + [NewProject(req, id, teamIds, now)], ProjectId, id) == Some(NewProject(req, id, teamIds, now))
  {
    FindByIdAppendFresh(projects, ProjectId, NewProject(req, id, teamIds, now));
  }

  const InvalidProjectId := "Invalid project id"

  /** The `projects` collection. */
  class ProjectStore {
    var projects: seq<Project>

    ghost predicate Valid()
      reads this
    {
      DistinctIds(projects, ProjectId)
    }

    constructor ()
      ensures Valid() && projects == []
    {
      projects := [];
    }

    /** `GET /api/projects/:id`. */
    method GetById(pathId: string) returns (r: Reply<Project>)
      ensures FromHex(pathId).None? ==> r == ErrorReply(StatusBadRequest, InvalidProjectId)
      ensures FromHex(pathId).Some? && !HasId(projects, ProjectId, FromHex(pathId).value) ==>
        r == ErrorReply(StatusNotFound, "Project not found")
      ensures FromHex(pathId).Some? && HasId(projects, ProjectId, FromHex(pathId).value) ==>
        r == Reply(StatusOK, FindById(projects, ProjectId, FromHex(pathId).value).value)
    {
      var id := FromHex(pathId);
      if id.None? {
        return ErrorReply(StatusBadRequest, InvalidProjectId);
      }
      r := ErrorReply(StatusNotFound, "Project not found");
      for i := 0 to |projects|
        invariant r == ErrorReply(StatusNotFound, "Project not found") ==>
          forall k :: 0 <= k < i ==> projects[k].id != id.value
        invariant r.Reply? || r == ErrorReply(StatusNotFound, "Project not found")
        invariant r.Reply? ==>
          FindById(projects, ProjectId, id.value).Some? && r == Reply(StatusOK, FindById(projects, ProjectId, id.value).value)
      {
        if r.ErrorReply? && projects[i].id == id.value {
          FindByIdFirst(projects, ProjectId, i);
          r := Reply(StatusOK, projects[i]);
        }
      }
      if r.ErrorReply? {
        assert !HasId(projects, ProjectId, id.value);
      }
    }

    /**
     * `POST /api/projects`: no validation of the name; dates and team ids that do
     * not parse are dropped; the insert fails on `insertFails` or a taken id.
     */
    method Create(body: Option<ProjectRequest>, newId: ObjectId, now: int, insertFails: bool)
      returns (r: Reply<Project>)
      requires Valid()
      modifies this
      ensures Valid()
      ensures body.None? ==> r.ErrorReply? && r.status == StatusBadRequest && projects == old(projects)
      ensures body.Some? && (insertFails || HasId(old(projects), ProjectId, newId)) ==>
        r.ErrorReply? && r.status == StatusInternalServerError && projects == old(projects)
      ensures body.Some? && !insertFails && !HasId(old(projects), ProjectId, newId) ==>
        var doc := NewProject(body.value, newId, ValidIds(body.value.teams.GetOr([])), now);
        r == Reply(StatusOK, doc) && projects == old(projects) + [doc]
    {
      if body.None? {
        return ErrorReply(StatusBadRequest, "body parse error");
      }
      var req := body.value;
      var teamIds := ParseIds(req.teams.GetOr([]));
      var doc := NewProject(req, newId, teamIds, now);
      if insertFails || HasId(projects, ProjectId, newId) {
        return ErrorReply(StatusInternalServerError, "insert failed");
      }
      projects := projects + [doc];
      r := Reply(StatusOK, doc);
    }

    /**
     * `PUT /api/projects/:id`: the path id is checked before the body; an id
     * that matches no document still answers success.
     */
    method Update(pathId: string, body: Option<ProjectRequest>, updateFails: bool) returns (r: Reply<bool>)
      requires Valid()
      modifies this
      ensures Valid()
      ensures FromHex(pathId).None? ==> r == ErrorReply(StatusBadRequest, InvalidProjectId) && projects == old(projects)
      ensures FromHex(pathId).Some? && body.None? ==> r.ErrorReply? && r.status == StatusBadRequest && projects == old(projects)
      ensures FromHex(pathId).Some? && body.Some? && updateFails ==>
        r.ErrorReply? && r.status == StatusInternalServerError && projects == old(projects)
      ensures FromHex(pathId).Some? && body.Some? && !updateFails ==>
        r == Reply(StatusOK, true) && |projects| == |old(projects)| &&
        forall i :: 0 <= i < |projects| ==>
          projects[i] == if old(projects)[i].id == FromHex(pathId).value
                         then ApplyUpdate(old(projects)[i], UpdateFor(body.value)) else old(projects)[i]
    {
      var id := FromHex(pathId);
      if id.None? {
        return ErrorReply(StatusBadRequest, InvalidProjectId);
      }
      if body.None? {
        return ErrorReply(StatusBadRequest, "body parse error");
      }
      var u := BuildUpdate(body.value);
      if updateFails {
        return ErrorReply(StatusInternalServerError, "update failed");
      }
      projects := seq(|projects|, i requires 0 <= i < |projects| reads this =>
        if projects[i].id == id.value then ApplyUpdate(projects[i], u) else projects[i]);
      r := Reply(StatusOK, true);
    }

    /** `DELETE /api/projects/:id`. */
    method Delete(pathId: string, deleteFails: bool) returns (r: Reply<bool>)
      requires Valid()
      modifies this
      ensures Valid()
      ensures FromHex(pathId).None? ==> r == ErrorReply(StatusBadRequest, InvalidProjectId) && projects == old(projects)
      ensures FromHex(pathId).Some? && deleteFails ==>
        r.ErrorReply? && r.status == StatusInternalServerError && projects == old(projects)
      ensures FromHex(pathId).Some? && !deleteFails ==>
        r == Reply(StatusOK, true) &&
        projects == Sequences.Filter(old(projects), (q: Project) => q.id != FromHex(pathId).value) &&
        !HasId(projects, ProjectId, FromHex(pathId).value)
    {
      var id := FromHex(pathId);
      if id.None? {
        return ErrorReply(StatusBadRequest, InvalidProjectId);
      }
      if deleteFails {
        return ErrorReply(StatusInternalServerError, "delete failed");
      }
      FilterKeepsDistinctIds(projects, ProjectId, (q: Project) => q.id != id.value);
      projects := Sequences.Filter(projects, (q: Project) => q.id != id.value);
      forall i | 0 <= i < |projects|
        ensures ProjectId(projects[i]) != id.value
      {
        assert projects[i] in projects;
      }
      r := Reply(StatusOK, true);
    }
  }
}
