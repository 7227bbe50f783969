/**
 * The projects screen: the search-and-tab filter over the loaded projects,
 * and the create, edit and delete handlers with their form state. A project
 * is held as the page sees it: the JSON the server sent, or a record the page
 * rewrote after an edit. Absent JSON fields are `None`.
 */
module ProjectsPage {
  import opened Wrappers
  import Text
  import Sequences
  import PageLists
  import ProjectRoutes

  /** `_id` is written `mongoId`; the server itself only ever sends `id`. */
  datatype PageProject = PageProject(
    id: Option<string>,
    mongoId: Option<string>,
    name: string,
    description: Option<string>,
    teamName: Option<string>,
    team: Option<string>,
    status: Option<string>,
    startDate: Option<string>,
    endDate: Option<string>,
    teams: seq<string>)

  /** `p.id || p._id`, the key the delete handler compares. */
  function Key(p: PageProject): Option<string> {
    PageLists.Or(p.id, p.mongoId)
  }

  /** The search of `filteredProjects`: name, description or team name contains the query, ignoring case. */
  predicate MatchesSearch(p: PageProject, query: string) {
    var q := Text.Lower(query);
    Text.Contains(Text.Lower(p.name), q) ||
    Text.Contains(Text.Lower(PageLists.OrEmpty(p.description)), q) ||
    Text.Contains(Text.Lower(PageLists.OrEmpty(PageLists.Or(p.teamName, p.team))), q)
  }

  /** Tab "active" wants status "in-progress", "completed" wants "completed", any other tab nothing. */
  predicate InTab(p: PageProject, tab: string) {
    if tab == "active" then p.status == Some("in-progress")
    else if tab == "completed" then p.status == Some("completed")
    else true
  }

  /** `filteredProjects`. */
  function FilteredProjects(projects: seq<PageProject>, query: string, tab: string): (r: seq<PageProject>)
    ensures Sequences.IsSubsequence(r, projects)
    ensures forall p :: p in r ==> p in projects && MatchesSearch(p, query) && InTab(p, tab)
    ensures forall p :: p in projects && MatchesSearch(p, query) && InTab(p, tab) ==> p in r
  {
    var keep := (p: PageProject) => MatchesSearch(p, query) && InTab(p, tab);
    Sequences.FilterIsSubsequence(projects, keep);
    Sequences.Filter(projects, keep)
  }

  /** With an empty search box, the "all" tab lists every loaded project in order. */
  lemma EmptySearchShowsAll(projects: seq<PageProject>)
    ensures FilteredProjects(projects, "", "all") == projects
  {
    forall p | p in projects ensures MatchesSearch(p, "") {
      Text.ContainsEmpty(Text.Lower(p.name));
    }
    Sequences.FilterKeepsAll(projects, (p: PageProject) => MatchesSearch(p, "") && InTab(p, "all"));
  }

  /** The query's letter case does not matter. */
  lemma SearchIgnoresQueryCase(p: PageProject, query: string)
    ensures MatchesSearch(p, query) <==> MatchesSearch(p, Text.Lower(query))
  {
    Text.LowerIdempotent(query);
  }

  /**
   * The project the create route answers with, as the page appends it: its
   * JSON omits an empty description and absent dates and carries the team ids
   * as strings; `dateJson` stands for the encoding of a date.
   */
  function FromCreateResponse(p: ProjectRoutes.Project, dateJson: ProjectRoutes.Date -> string): PageProject {
    PageProject(
      Some(p.id.hex), None, p.name,
      if p.description == "" then None else Some(p.description),
      None, None, None,
      if p.startDate.Some? then Some(dateJson(p.startDate.value)) else None,
      if p.endDate.Some? then Some(dateJson(p.endDate.value)) else None,
      seq(|p.teams|, i requires 0 <= i < |p.teams| => p.teams[i].hex))
  }

  /**
   * The backend's project has no `status`, so the "active" and "completed"
   * tabs never show a project the page created.
   */
  lemma StatusTabsEmptyForCreatedProjects(stored: seq<ProjectRoutes.Project>, dateJson: ProjectRoutes.Date -> string,
                                         query: string, tab: string)
    requires tab == "active" || tab == "completed"
    ensures FilteredProjects(seq(|stored|, i requires 0 <= i < |stored| => FromCreateResponse(stored[i], dateJson)),
                             query, tab) == []
  {
    var shown := seq(|stored|, i requires 0 <= i < |stored| => FromCreateResponse(stored[i], dateJson));
    var r := FilteredProjects(shown, query, tab);
    if r != [] {
      assert r[0] in shown;
    }
  }

  /** The edit handler's match: `p.id === editId || p._id === editId`, where an absent field is `undefined`. */
  predicate EditMatches(p: PageProject, editId: Option<string>) {
    p.id == editId || p.mongoId == editId
  }

  /** `{...p, name, description, startDate, endDate, teams}`. */
  function Edited(p: PageProject, name: string, description: string, startDate: string, endDate: string,
                  teams: seq<string>): PageProject {
    p.(name := name, description := Some(description), startDate := Some(startDate), endDate := Some(endDate),
       teams := teams)
  }

  /**
   * Edit and delete compare keys differently: a record carrying both an
   * `id` and a different `_id` is edited through its `_id` but not deleted
   * through it.
   */
  lemma EditAndDeleteDisagree(p: PageProject, a: string, b: string)
    requires p.id == Some(a) && p.mongoId == Some(b) && a != "" && a != b
    ensures EditMatches(p, Some(b))
    ensures PageLists.Without([p], Key, b) == [p]
  {
    assert p in PageLists.Without([p], Key, b);
  }

  /**
   * A project with neither `id` nor `_id` opens the edit dialog with an
   * undefined id, and saving then rewrites every other project that has no `id`.
   */
  lemma UndefinedEditIdMatchesIdless(p: PageProject, q: PageProject)
    requires p.id.None? && p.mongoId.None? && q.id.None?
    ensures EditMatches(q, Key(p))
  {
  }

  /** A date of the edit form: the day of a present, non-empty date, otherwise empty. */
  function DayField(d: Option<string>, isoDay: string -> string): (r: string)
    ensures PageLists.OrEmpty(d) == "" ==> r == ""
    ensures PageLists.OrEmpty(d) != "" ==> r == isoDay(d.value)
  {
    if PageLists.OrEmpty(d) != "" then isoDay(d.value) else ""
  }

  class ProjectsPageState {
    var projects: seq<PageProject>
    var searchQuery: string
    var activeTab: string
    var isCreateDialogOpen: bool
    var newName: string
    var newDescription: string
    var newStartDate: string
    var newEndDate: string
    var newTeams: seq<string>
    var isEditDialogOpen: bool
    var editId: Option<string>
    var editName: string
    var editDescription: string
    var editStartDate: string
    var editEndDate: string
    var editTeams: seq<string>

    function CreateForm(): (string, string, string, string, seq<string>)
      reads this
    {
      (newName, newDescription, newStartDate, newEndDate, newTeams)
    }

    function EditForm(): (Option<string>, string, string, string, string, seq<string>)
      reads this
    {
      (editId, editName, editDescription, editStartDate, editEndDate, editTeams)
    }

    /** The list as rendered. */
    function Visible(): seq<PageProject>
      reads this
    {
      FilteredProjects(projects, searchQuery, activeTab)
    }

    constructor ()
      ensures projects == [] && searchQuery == "" && activeTab == "all"
      ensures !isCreateDialogOpen && CreateForm() == ("", "", "", "", [])
      ensures !isEditDialogOpen && EditForm() == (Some(""), "", "", "", "", [])
    {
      projects := [];
      searchQuery := "";
      activeTab := "all";
      isCreateDialogOpen := false;
      newName, newDescription, newStartDate, newEndDate, newTeams := "", "", "", "", [];
      isEditDialogOpen := false;
      editId, editName, editDescription, editStartDate, editEndDate, editTeams := Some(""), "", "", "", "", [];
    }

    /** The fetch on mount; `None` is a failed request or a body that is not an array. */
    method Loaded(response: Option<seq<PageProject>>)
      modifies this
      ensures projects == response.GetOr([])
      ensures searchQuery == old(searchQuery) && activeTab == old(activeTab)
      ensures isCreateDialogOpen == old(isCreateDialogOpen) && CreateForm() == old(CreateForm())
      ensures isEditDialogOpen == old(isEditDialogOpen) && EditForm() == old(EditForm())
    {
      projects := response.GetOr([]);
    }

    /** A team checkbox of the create dialog. */
    method ToggleNewTeam(value: string, checked: bool)
      modifies this
      ensures newTeams == Sequences.Toggle(old(newTeams), value, checked)
      ensures projects == old(projects) && searchQuery == old(searchQuery) && activeTab == old(activeTab)
      ensures isCreateDialogOpen == old(isCreateDialogOpen)
      ensures (newName, newDescription, newStartDate, newEndDate) ==
              (old(newName), old(newDescription), old(newStartDate), old(newEndDate))
      ensures isEditDialogOpen == old(isEditDialogOpen) && EditForm() == old(EditForm())
    {
      newTeams := Sequences.Toggle(newTeams, value, checked);
    }

    /** A team checkbox of the edit dialog. */
    method ToggleEditTeam(value: string, checked: bool)
      modifies this
      ensures editTeams == Sequences.Toggle(old(editTeams), value, checked)
      ensures projects == old(projects) && searchQuery == old(searchQuery) && activeTab == old(activeTab)
      ensures isCreateDialogOpen == old(isCreateDialogOpen) && CreateForm() == old(CreateForm())
      ensures isEditDialogOpen == old(isEditDialogOpen)
      ensures (editId, editName, editDescription, editStartDate, editEndDate) ==
              (old(editId), old(editName), old(editDescription), old(editStartDate), old(editEndDate))
    {
      editTeams := Sequences.Toggle(editTeams, value, checked);
    }

    /**
     * `handleCreateProject`: a blank name is refused before any request.
     * Otherwise the request is sent; `created` is the project the server
     * returned, `None` when the request failed.
     */
    method CreateProject(created: Option<PageProject>) returns (sent: Option<ProjectRoutes.ProjectRequest>)
      modifies this`projects, this`newName, this`newDescription, this`newStartDate, this`newEndDate,
               this`newTeams, this`isCreateDialogOpen
      ensures Text.IsBlank(old(newName)) <==> sent.None?
      ensures sent.Some? ==>
                sent.value == ProjectRoutes.ProjectRequest(old(newName), old(newDescription), old(newStartDate),
                                                           old(newEndDate), Some(old(newTeams)))
      ensures sent.Some? && created.Some? ==>
                projects == old(projects) + [created.value] && CreateForm() == ("", "", "", "", []) &&
                !isCreateDialogOpen
      ensures sent.None? || created.None? ==>
                projects == old(projects) && CreateForm() == old(CreateForm()) &&
                isCreateDialogOpen == old(isCreateDialogOpen)
    {
      if Text.IsBlank(newName) {
        return None;
      }
      sent := Some(ProjectRoutes.ProjectRequest(newName, newDescription, newStartDate, newEndDate, Some(newTeams)));
      if created.Some? {
        projects := projects + [created.value];
        newName, newDescription, newStartDate, newEndDate, newTeams := "", "", "", "", [];
        isCreateDialogOpen := false;
      }
    }

    /**
     * `openEditDialog`; `isoDay` stands for `new Date(s).toISOString().slice(0, 10)`.
     */
    method OpenEditDialog(p: PageProject, isoDay: string -> string)
      modifies this`editId, this`editName, this`editDescription, this`editStartDate, this`editEndDate,
               this`editTeams, this`isEditDialogOpen
      ensures editId == Key(p) && editName == p.name && editDescription == PageLists.OrEmpty(p.description)
      ensures editStartDate == DayField(p.startDate, isoDay) && editEndDate == DayField(p.endDate, isoDay)
      ensures editTeams == p.teams && isEditDialogOpen
    {
      editId, editName, editDescription, editStartDate, editEndDate, editTeams, isEditDialogOpen :=
        Key(p), p.name, PageLists.OrEmpty(p.description), DayField(p.startDate, isoDay),
        DayField(p.endDate, isoDay), p.teams, true;
    }

    /**
     * `handleEditProject`: a blank name is refused before any request.
     * Otherwise the update is sent; when it succeeds (`ok`) every project
     * the edit id matches takes the five form fields and the dialog closes.
     */
    method EditProject(ok: bool) returns (sent: Option<(Option<string>, ProjectRoutes.ProjectRequest)>)
      modifies this
      ensures Text.IsBlank(old(editName)) <==> sent.None?
      ensures sent.Some? ==>
                sent.value == (old(editId), ProjectRoutes.ProjectRequest(old(editName), old(editDescription),
                               old(editStartDate), old(editEndDate), Some(old(editTeams))))
      ensures |projects| == |old(projects)|
      ensures sent.Some? && ok ==>
                !isEditDialogOpen &&
                forall i :: 0 <= i < |projects| ==>
                  projects[i] == if EditMatches(old(projects)[i], editId)
                                 then Edited(old(projects)[i], editName, editDescription, editStartDate, editEndDate,
                                             editTeams)
                                 else old(projects)[i]
      ensures sent.None? || !ok ==> projects == old(projects) && isEditDialogOpen == old(isEditDialogOpen)
      ensures EditForm() == old(EditForm())
      ensures searchQuery == old(searchQuery) && activeTab == old(activeTab)
      ensures isCreateDialogOpen == old(isCreateDialogOpen) && CreateForm() == old(CreateForm())
    {
      if Text.IsBlank(editName) {
        return None;
      }
      sent := Some((editId, ProjectRoutes.ProjectRequest(editName, editDescription, editStartDate, editEndDate,
                                                          Some(editTeams))));
      if ok {
        var before, key := projects, editId;
        var name, description, startDate, endDate, teams := editName, editDescription, editStartDate, editEndDate,
                                                           editTeams;
        projects := seq(|before|, i requires 0 <= i < |before| =>
                          if EditMatches(before[i], key) then Edited(before[i], name, description, startDate, endDate, teams)
                          else before[i]);
        isEditDialogOpen := false;
      }
    }

    /**
     * `handleDeleteProject`: nothing happens unless the confirmation is
     * accepted; after a successful request the projects keyed `id` are dropped.
     */
    method DeleteProject(id: string, confirmed: bool, ok: bool) returns (requested: bool)
      modifies this
      ensures requested == confirmed
      ensures projects == if confirmed && ok then PageLists.Without(old(projects), Key, id) else old(projects)
      ensures searchQuery == old(searchQuery) && activeTab == old(activeTab)
      ensures isCreateDialogOpen == old(isCreateDialogOpen) && CreateForm() == old(CreateForm())
      ensures isEditDialogOpen == old(isEditDialogOpen) && EditForm() == old(EditForm())
    {
      requested := confirmed;
      if confirmed && ok {
        projects := PageLists.Without(projects, Key, id);
      }
    }
  }
}
