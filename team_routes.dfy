/**
 * The team routes of the backend: member and lead id conversion on `POST` and
 * `PUT`, the unconditional `PUT` overwrite, deletion and lookup by id, with the
 * `teams` collection held as a sequence of documents.
 */
module TeamRoutes {
  import opened Wrappers
  import opened Auth
  import opened ObjectIds
  import Sequences

  /** A stored team (`models.Team`). */
  datatype Team = Team(
    id: ObjectId,
    name: string,
    description: string,
    members: seq<ObjectId>,
    lead: ObjectId,
    createdAt: int)

  /** The parsed body of `POST` and `PUT /api/teams`. */
  datatype TeamRequest = TeamRequest(
    name: string,
    description: string,
    members: seq<string>,
    lead: string)

  function TeamId(t: Team): ObjectId {
    t.id
  }

  /** The document `POST /api/teams` inserts: invalid member ids dropped, a bad lead stored as the zero id. */
  function NewTeam(req: TeamRequest, id: ObjectId, now: int): (t: Team)
    ensures t.id == id && t.createdAt == now
    ensures t.name == req.name && t.description == req.description
    ensures t.members == ValidIds(req.members)
    ensures |t.members| <= |req.members|
    ensures forall m :: m in t.members ==> Canonical(m)
    ensures IsValidHex(req.lead) ==> Some(t.lead) == FromHex(req.lead)
    ensures !IsValidHex(req.lead) ==> t.lead == Zero
  {
    Team(id, req.name, req.description, ValidIds(req.members), FromHexOrZero(req.lead), now)
  }

  /** `PUT /api/teams/:id` overwrites name, description, members and lead, keeping id and creation time. */
  function Overwrite(t: Team, req: TeamRequest): (u: Team)
    ensures u.id == t.id && u.createdAt == t.createdAt
    ensures u == NewTeam(req, t.id, t.createdAt)
  {
    t.(name := req.name, description := req.description,
       members := ValidIds(req.members), lead := FromHexOrZero(req.lead))
  }

  /** A `PUT` result depends only on the request, not on the team's previous fields. */
  lemma OverwriteForgetsOldFields(t1: Team, t2: Team, req: TeamRequest)
    requires t1.id == t2.id && t1.createdAt == t2.createdAt
    ensures Overwrite(t1, req) == Overwrite(t2, req)
  {
  }

  /** A team just inserted under a fresh id is what `GET /api/teams/:id` then answers with. */
  lemma CreatedTeamIsFound(teams: seq<Team>, req: TeamRequest, id: ObjectId, now: int)
    requires !HasId(teams, TeamId, id)
    ensures FindById(teams + [NewTeam(req, id, now)], TeamId, id) == Some(NewTeam(req, id, now))
  {
    FindByIdAppendFresh(teams, TeamId, NewTeam(req, id, now));
  }

  /** `PUT` keeps the id, so a team looked up after an overwrite is the overwritten one. */
  lemma OverwrittenTeamIsFound(teams: seq<Team>, i: nat, req: TeamRequest)
    requires DistinctIds(teams, TeamId) && i < |teams|
    ensures DistinctIds(teams[i := Overwrite(teams[i], req)], TeamId)
    ensures FindById(teams[i := Overwrite(teams[i], req)], TeamId, teams[i].id) == Some(Overwrite(teams[i], req))
  {
    var after := teams[i := Overwrite(teams[i], req)];
    assert forall k :: 0 <= k < |teams| ==> after[k].id == teams[k].id;
    FindByIdUnique(after, TeamId, i);
  }

  const InvalidTeamId := "Invalid team id"

  /** The `teams` collection. */
  class TeamStore {
    var teams: seq<Team>

    ghost predicate Valid()
      reads this
    {
      DistinctIds(teams, TeamId)
    }

    constructor ()
      ensures Valid() && teams == []
    {
      teams := [];
    }

    /** `GET /api/teams/:id`. */
    method GetById(pathId: string) returns (r: Reply<Team>)
      ensures FromHex(pathId).None? ==> r == ErrorReply(StatusBadRequest, InvalidTeamId)
      ensures FromHex(pathId).Some? && !HasId(teams, TeamId, FromHex(pathId).value) ==>
        r == ErrorReply(StatusNotFound, "Team not found")
      ensures FromHex(pathId).Some? && HasId(teams, TeamId, FromHex(pathId).value) ==>
        r == Reply(StatusOK, FindById(teams, TeamId, FromHex(pathId).value).value)
    {
      var id := FromHex(pathId);
      if id.None? {
        return ErrorReply(StatusBadRequest, InvalidTeamId);
      }
      r := ErrorReply(StatusNotFound, "Team not found");
      for i := 0 to |teams|
        invariant r == ErrorReply(StatusNotFound, "Team not found") ==>
          forall k :: 0 <= k < i ==> teams[k].id != id.value
        invariant r.Reply? || r == ErrorReply(StatusNotFound, "Team not found")
        invariant r.Reply? ==>
          FindById(teams, TeamId, id.value).Some? && r == Reply(StatusOK, FindById(teams, TeamId, id.value).value)
      {
        if r.ErrorReply? && teams[i].id == id.value {
          FindByIdFirst(teams, TeamId, i);
          r := Reply(StatusOK, teams[i]);
        }
      }
      if r.ErrorReply? {
        assert !HasId(teams, TeamId, id.value);
      }
    }

    /**
     * `POST /api/teams`: neither the name nor the lead is checked; the insert
     * fails on `insertFails` or a taken id.
     */
    method Create(body: Option<TeamRequest>, newId: ObjectId, now: int, insertFails: bool)
      returns (r: Reply<Team>)
      requires Valid()
      modifies this
      ensures Valid()
      ensures body.None? ==> r.ErrorReply? && r.status == StatusBadRequest && teams == old(teams)
      ensures body.Some? && (insertFails || HasId(old(teams), TeamId, newId)) ==>
        r.ErrorReply? && r.status == StatusInternalServerError && teams == old(teams)
      ensures body.Some? && !insertFails && !HasId(old(teams), TeamId, newId) ==>
        r == Reply(StatusOK, NewTeam(body.value, newId, now)) && teams == old(teams) + [NewTeam(body.value, newId, now)]
    {
      if body.None? {
        return ErrorReply(StatusBadRequest, "body parse error");
      }
      var req := body.value;
      var members := ParseIds(req.members);
      var team := Team(newId, req.name, req.description, members, FromHexOrZero(req.lead), now);
      if insertFails || HasId(teams, TeamId, newId) {
        return ErrorReply(StatusInternalServerError, "insert failed");
      }
      teams := teams + [team];
      r := Reply(StatusOK, team);
    }

    /** `PUT /api/teams/:id`: the path id is checked before the body; every field is overwritten. */
    method Update(pathId: string, body: Option<TeamRequest>, updateFails: bool) returns (r: Reply<bool>)
      requires Valid()
      modifies this
      ensures Valid()
      ensures FromHex(pathId).None? ==> r == ErrorReply(StatusBadRequest, InvalidTeamId) && teams == old(teams)
      ensures FromHex(pathId).Some? && body.None? ==> r.ErrorReply? && r.status == StatusBadRequest && teams == old(teams)
      ensures FromHex(pathId).Some? && body.Some? && updateFails ==>
        r.ErrorReply? && r.status == StatusInternalServerError && teams == old(teams)
      ensures FromHex(pathId).Some? && body.Some? && !updateFails ==>
        r == Reply(StatusOK, true) && |teams| == |old(teams)| &&
        forall i :: 0 <= i < |teams| ==>
          teams[i] == if old(teams)[i].id == FromHex(pathId).value
                      then Overwrite(old(teams)[i], body.value) else old(teams)[i]
    {
      var id := FromHex(pathId);
      if id.None? {
        return ErrorReply(StatusBadRequest, InvalidTeamId);
      }
      if body.None? {
        return ErrorReply(StatusBadRequest, "body parse error");
      }
      var members := ParseIds(body.value.members);
      var lead := FromHexOrZero(body.value.lead);
      if updateFails {
        return ErrorReply(StatusInternalServerError, "update failed");
      }
      teams := seq(|teams|, i requires 0 <= i < |teams| reads this =>
        if teams[i].id == id.value
        then teams[i].(name := body.value.name, description := body.value.description, members := members, lead := lead)
        else teams[i]);
      r := Reply(StatusOK, true);
    }

    /** `DELETE /api/teams/:id`. */
    method Delete(pathId: string, deleteFails: bool) returns (r: Reply<bool>)
      requires Valid()
      modifies this
      ensures Valid()
      ensures FromHex(pathId).None? ==> r == ErrorReply(StatusBadRequest, InvalidTeamId) && teams == old(teams)
      ensures FromHex(pathId).Some? && deleteFails ==>
        r.ErrorReply? && r.status == StatusInternalServerError && teams == old(teams)
      ensures FromHex(pathId).Some? && !deleteFails ==>
        r == Reply(StatusOK, true) &&
        teams == Sequences.Filter(old(teams), (t: Team) => t.id != FromHex(pathId).value) &&
        !HasId(teams, TeamId, FromHex(pathId).value)
    {
      var id := FromHex(pathId);
      if id.None? {
        return ErrorReply(StatusBadRequest, InvalidTeamId);
      }
      if deleteFails {
        return ErrorReply(StatusInternalServerError, "delete failed");
      }
      FilterKeepsDistinctIds(teams, TeamId, (t: Team) => t.id != id.value);
      teams := Sequences.Filter(teams, (t: Team) => t.id != id.value);
      forall i | 0 <= i < |teams|
        ensures TeamId(teams[i]) != id.value
      {
        assert teams[i] in teams;
      }
      r := Reply(StatusOK, true);
    }
  }
}
