/**
 * The teams screen: the name-or-description search, the create, edit and
 * delete handlers with their form state, the member checkboxes and lead
 * choices (users of role "member" only) and the avatar row of a team card.
 */
module TeamsPage {
  import opened Wrappers
  import Text
  import Sequences
  import PageLists
  import TeamRoutes

  /** A team as the page holds it; `_id` is written `mongoId`, an absent description is `None`. */
  datatype PageTeam = PageTeam(
    id: Option<string>,
    mongoId: Option<string>,
    name: string,
    description: Option<string>,
    members: seq<string>,
    lead: string)

  /** A user offered in the member and lead pickers. */
  datatype PageUser = PageUser(id: Option<string>, mongoId: Option<string>, name: string, role: string)

  /** `t.id || t._id`. */
  function Key(t: PageTeam): Option<string> {
    PageLists.Or(t.id, t.mongoId)
  }

  /**
   * One team's search test. The name is tried first; when it misses, the
   * description is lower-cased without a fallback, which throws (`None`)
   * when the team has no description.
   */
  function TeamSearch(t: PageTeam, query: string): (r: Option<bool>)
    ensures r.None? <==> t.description.None? && !Text.Contains(Text.Lower(t.name), Text.Lower(query))
    ensures r == Some(true) <==>
              Text.Contains(Text.Lower(t.name), Text.Lower(query)) ||
              (t.description.Some? && Text.Contains(Text.Lower(t.description.value), Text.Lower(query)))
  {
    var q := Text.Lower(query);
    if Text.Contains(Text.Lower(t.name), q) then Some(true)
    else if t.description.None? then None
    else Some(Text.Contains(Text.Lower(t.description.value), q))
  }

  predicate Searchable(teams: seq<PageTeam>, query: string) {
    forall i :: 0 <= i < |teams| ==> TeamSearch(teams[i], query).Some?
  }

  /** `filteredTeams`; `None` when the filter throws and the page fails to render. */
  function FilteredTeams(teams: seq<PageTeam>, query: string): (r: Option<seq<PageTeam>>)
    ensures r.None? <==> exists i :: 0 <= i < |teams| && TeamSearch(teams[i], query).None?
    ensures r.Some? ==> Sequences.IsSubsequence(r.value, teams)
    ensures r.Some? ==> forall t :: t in r.value ==> t in teams && TeamSearch(t, query) == Some(true)
    ensures r.Some? ==> forall t :: t in teams && TeamSearch(t, query) == Some(true) ==> t in r.value
  {
    if Searchable(teams, query) then
      var keep := (t: PageTeam) => TeamSearch(t, query) == Some(true);
      Sequences.FilterIsSubsequence(teams, keep);
      Some(Sequences.Filter(teams, keep))
    else
      None
  }

  /** An empty search box never reaches a description, so it lists every team. */
  lemma EmptySearchShowsAll(teams: seq<PageTeam>)
    ensures FilteredTeams(teams, "") == Some(teams)
  {
    forall t | t in teams ensures TeamSearch(t, "") == Some(true) {
      Text.ContainsEmpty(Text.Lower(t.name));
    }
    Sequences.FilterKeepsAll(teams, (t: PageTeam) => TeamSearch(t, "") == Some(true));
  }

  /**
   * A stored team as the list and create routes send it: the JSON omits an
   * empty description.
   */
  function FromServer(t: TeamRoutes.Team): PageTeam {
    PageTeam(Some(t.id.hex), None, t.name, if t.description == "" then None else Some(t.description),
             seq(|t.members|, i requires 0 <= i < |t.members| => t.members[i].hex), t.lead.hex)
  }

  /**
   * A team saved with an empty description comes back without one, and a
   * search that misses its name then makes the whole list fail to render.
   */
  lemma OmittedDescriptionBreaksSearch(t: TeamRoutes.Team, others: seq<PageTeam>, query: string)
    requires t.description == "" && !Text.Contains(Text.Lower(t.name), Text.Lower(query))
    ensures FilteredTeams(others + [FromServer(t)], query).None?
  {
    assert (others + [FromServer(t)])[|others|] == FromServer(t);
  }

  /** `users.filter(user => user.role === 'member')`, the choices of both pickers. */
  function MemberOptions(users: seq<PageUser>): (r: seq<PageUser>)
    ensures Sequences.IsSubsequence(r, users)
    ensures forall u :: u in r ==> u in users && u.role == "member"
    ensures forall u :: u in users && u.role == "member" ==> u in r
  {
    Sequences.FilterIsSubsequence(users, (u: PageUser) => u.role == "member");
    Sequences.Filter(users, (u: PageUser) => u.role == "member")
  }

  /** `members.slice(0, 4)`: the avatars drawn on a card. */
  function ShownAvatars(members: seq<string>): (shown: seq<string>)
    ensures |shown| <= 4 && |shown| <= |members|
    ensures shown == members[..|shown|]
    ensures |members| <= 4 ==> shown == members
  {
    if |members| <= 4 then members else members[..4]
  }

  /** The `+(n - 4)` badge, drawn only when there are more than four members. */
  function OverflowBadge(members: seq<string>): (badge: Option<nat>)
    ensures badge.Some? <==> |members| > 4
  {
    if |members| > 4 then Some(|members| - 4) else None
  }

  /** The avatars and the badge together account for every member exactly once. */
  lemma AvatarsAccountForEveryMember(members: seq<string>)
    ensures |ShownAvatars(members)| + OverflowBadge(members).GetOr(0) == |members|
    ensures OverflowBadge(members).Some? ==> |ShownAvatars(members)| == 4
  {
  }

  datatype Rejection = NameRequired | LeadRequired

  /** The validation shared by create and edit: a blank name first, then an empty lead. */
  function Validate(name: string, description: string, members: seq<string>, lead: string)
    : (r: Result<TeamRoutes.TeamRequest, Rejection>)
    ensures r == Err(NameRequired) <==> Text.IsBlank(name)
    ensures r == Err(LeadRequired) <==> !Text.IsBlank(name) && lead == ""
    ensures r.Ok? ==> r.value == TeamRoutes.TeamRequest(name, description, members, lead)
  {
    if Text.IsBlank(name) then Err(NameRequired)
    else if lead == "" then Err(LeadRequired)
    else Ok(TeamRoutes.TeamRequest(name, description, members, lead))
  }

  /** The edit handler's match: `t.id === editId || t._id === editId`. */
  predicate EditMatches(t: PageTeam, editId: Option<string>) {
    t.id == editId || t.mongoId == editId
  }

  /** `{...t, name, description, members, lead}`. */
  function Edited(t: PageTeam, req: TeamRoutes.TeamRequest): PageTeam {
    t.(name := req.name, description := Some(req.description), members := req.members, lead := req.lead)
  }

  class TeamsPageState {
    var teams: seq<PageTeam>
    var users: seq<PageUser>
    var searchQuery: string
    var isCreateDialogOpen: bool
    var newName: string
    var newDescription: string
    var newMembers: seq<string>
    var newLead: string
    var isEditDialogOpen: bool
    var editId: Option<string>
    var editName: string
    var editDescription: string
    var editMembers: seq<string>
    var editLead: string

    function CreateForm(): (string, string, seq<string>, string)
      reads this
    {
      (newName, newDescription, newMembers, newLead)
    }

    function EditForm(): (Option<string>, string, string, seq<string>, string)
      reads this
    {
      (editId, editName, editDescription, editMembers, editLead)
    }

    /** The list as rendered, `None` when rendering throws. */
    function Visible(): Option<seq<PageTeam>>
      reads this
    {
      FilteredTeams(teams, searchQuery)
    }

    constructor ()
      ensures teams == [] && users == [] && searchQuery == ""
      ensures !isCreateDialogOpen && CreateForm() == ("", "", [], "")
      ensures !isEditDialogOpen && EditForm() == (Some(""), "", "", [], "")
    {
      teams, users, searchQuery := [], [], "";
      isCreateDialogOpen := false;
      newName, newDescription, newMembers, newLead := "", "", [], "";
      isEditDialogOpen := false;
      editId, editName, editDescription, editMembers, editLead := Some(""), "", "", [], "";
    }

    /**
     * The fetch on mount. `None` is a body that is not an array; a failed
     * request (`failed`) leaves both lists as they were.
     */
    method Loaded(teamData: Option<seq<PageTeam>>, userData: Option<seq<PageUser>>, failed: bool)
      modifies this
      ensures teams == (if failed then old(teams) else teamData.GetOr([]))
      ensures users == (if failed then old(users) else userData.GetOr([]))
      ensures searchQuery == old(searchQuery)
      ensures isCreateDialogOpen == old(isCreateDialogOpen) && CreateForm() == old(CreateForm())
      ensures isEditDialogOpen == old(isEditDialogOpen) && EditForm() == old(EditForm())
    {
      if !failed {
        teams := teamData.GetOr([]);
        users := userData.GetOr([]);
      }
    }

    /** A member checkbox of the create dialog. */
    method ToggleNewMember(value: string, checked: bool)
      modifies this
      ensures newMembers == Sequences.Toggle(old(newMembers), value, checked)
      ensures teams == old(teams) && users == old(users) && searchQuery == old(searchQuery)
      ensures isCreateDialogOpen == old(isCreateDialogOpen)
      ensures (newName, newDescription, newLead) == (old(newName), old(newDescription), old(newLead))
      ensures isEditDialogOpen == old(isEditDialogOpen) && EditForm() == old(EditForm())
    {
      newMembers := Sequences.Toggle(newMembers, value, checked);
    }

    /** A member checkbox of the edit dialog. */
    method ToggleEditMember(value: string, checked: bool)
      modifies this
      ensures editMembers == Sequences.Toggle(old(editMembers), value, checked)
      ensures teams == old(teams) && users == old(users) && searchQuery == old(searchQuery)
      ensures isCreateDialogOpen == old(isCreateDialogOpen) && CreateForm() == old(CreateForm())
      ensures isEditDialogOpen == old(isEditDialogOpen)
      ensures (editId, editName, editDescription, editLead) ==
              (old(editId), old(editName), old(editDescription), old(editLead))
    {
      editMembers := Sequences.Toggle(editMembers, value, checked);
    }

    /**
     * `handleCreateTeam`. `created` is the team the server returned, `None`
     * when the request failed. Unlike the projects screen, success does not
     * close the dialog.
     */
    method CreateTeam(created: Option<PageTeam>) returns (r: Result<TeamRoutes.TeamRequest, Rejection>)
      modifies this`teams, this`newName, this`newDescription, this`newMembers, this`newLead
      ensures r == Validate(old(newName), old(newDescription), old(newMembers), old(newLead))
      ensures r.Ok? && created.Some? ==> teams == old(teams) + [created.value] && CreateForm() == ("", "", [], "")
      ensures r.Err? || created.None? ==> teams == old(teams) && CreateForm() == old(CreateForm())
    {
      r := Validate(newName, newDescription, newMembers, newLead);
      if r.Ok? && created.Some? {
        teams := teams + [created.value];
        newName, newDescription, newMembers, newLead := "", "", [], "";
      }
    }

    /** `openEditDialog`. */
    method OpenEditDialog(t: PageTeam)
      modifies this`editId, this`editName, this`editDescription, this`editMembers, this`editLead, this`isEditDialogOpen
      ensures EditForm() == (Key(t), t.name, PageLists.OrEmpty(t.description), t.members, t.lead)
      ensures isEditDialogOpen
    {
      editId, editName, editDescription, editMembers, editLead :=
        Key(t), t.name, PageLists.OrEmpty(t.description), t.members, t.lead;
      isEditDialogOpen := true;
    }

    /**
     * `handleEditTeam`: the same validation as create; when the update
     * succeeds (`ok`) every matching team takes the four form fields and the
     * dialog closes.
     */
    method EditTeam(ok: bool) returns (r: Result<TeamRoutes.TeamRequest, Rejection>)
      modifies this
      ensures r == Validate(old(editName), old(editDescription), old(editMembers), old(editLead))
      ensures |teams| == |old(teams)|
      ensures r.Ok? && ok ==>
                !isEditDialogOpen &&
                forall i :: 0 <= i < |teams| ==>
                  teams[i] == if EditMatches(old(teams)[i], editId) then Edited(old(teams)[i], r.value)
                              else old(teams)[i]
      ensures r.Err? || !ok ==> teams == old(teams) && isEditDialogOpen == old(isEditDialogOpen)
      ensures EditForm() == old(EditForm())
      ensures users == old(users) && searchQuery == old(searchQuery)
      ensures isCreateDialogOpen == old(isCreateDialogOpen) && CreateForm() == old(CreateForm())
    {
      r := Validate(editName, editDescription, editMembers, editLead);
      if r.Ok? && ok {
        var before, key, req := teams, editId, r.value;
        teams := seq(|before|, i requires 0 <= i < |before| =>
                       if EditMatches(before[i], key) then Edited(before[i], req) else before[i]);
        isEditDialogOpen := false;
      }
    }

    /** `handleDeleteTeam`. */
    method DeleteTeam(id: string, confirmed: bool, ok: bool) returns (requested: bool)
      modifies this
      ensures requested == confirmed
      ensures teams == if confirmed && ok then PageLists.Without(old(teams), Key, id) else old(teams)
      ensures users == old(users) && searchQuery == old(searchQuery)
      ensures isCreateDialogOpen == old(isCreateDialogOpen) && CreateForm() == old(CreateForm())
      ensures isEditDialogOpen == old(isEditDialogOpen) && EditForm() == old(EditForm())
    {
      requested := confirmed;
      if confirmed && ok {
        teams := PageLists.Without(teams, Key, id);
      }
    }
  }
}
