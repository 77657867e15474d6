/**
 * The team document kept by the store, the partial update accepted by
 * `editTeam`, the error kinds the repository raises, and the per-team
 * updates that the write operations apply (src/data/teams.js).
 */
module TeamData {
  import opened Common
  import opened Collaborators

  /** A team document. `id` is the store-assigned `_id`. */
  datatype Team = Team(
    id: Id,
    name: string,
    sport: string,
    location: string,
    managerId: Id,
    playerIds: seq<Id>,
    numPlayers: nat,
    numGames: nat,
    numWins: nat,
    numLosses: nat,
    tournamentsWon: nat,
    active: bool,
    profilePicture: Option<string>)

  /** The fields a validation failure names. */
  datatype Field = NameField | SportField | LocationField

  /**
   * The failures the repository raises. The source throws message strings;
   * each kind stands for one family of messages.
   */
  datatype Error =
    | InvalidId                 // validation.checkId rejected an id
    | NotFound                  // "Error: Team not found"
    | ValidationFailed(field: Field)
    | ReferenceNotFound         // a manager or player id names no user
    | InsertFailed              // "Insert failed!"
    | SizeMismatch              // number of teams does not match the bracket size
    | SportMismatch(teamName: string, teamSport: string, sport: string)
    | TypeError                 // a JavaScript runtime error (addPlayer as written)

  /** The derived fields agree with what they summarise. */
  predicate Consistent(t: Team)
  {
    t.numPlayers == |t.playerIds| && t.numGames == t.numWins + t.numLosses
  }

  /** A consistent team whose validated fields lie in their domains. */
  predicate WellFormed(t: Team, sports: set<string>, locations: set<string>)
  {
    Consistent(t) && ValidName(t.name) && InDomain(t.sport, sports) && InDomain(t.location, locations)
  }

  /** The document `createTeam` inserts, once the store has assigned it `id`. */
  function NewTeam(id: Id, name: string, sport: string, location: string,
                   managerId: Id, playerIds: seq<Id>): (t: Team)
    ensures t.id == id && t.name == name && t.sport == sport && t.location == location
    ensures t.managerId == managerId && t.playerIds == playerIds
    ensures t.numPlayers == |playerIds|
    ensures t.numGames == 0 && t.numWins == 0 && t.numLosses == 0 && t.tournamentsWon == 0
    ensures t.active && t.profilePicture == None
    ensures Consistent(t)
  {
    Team(id, name, sport, location, managerId, playerIds, |playerIds|, 0, 0, 0, 0, true, None)
  }

  /**
   * The validations `createTeam` runs before it touches the store, in
   * order; the first one that fails decides the error.
   */
  function CreateInputError(name: string, sport: string, location: string, managerId: Id,
                            playerIds: seq<Id>, users: map<Id, User>,
                            sports: set<string>, locations: set<string>): (e: Option<Error>)
    ensures e == None <==>
      ValidName(name) && InDomain(sport, sports) && InDomain(location, locations)
      && UserExists(users, managerId) && AllUsersExist(users, playerIds)
    ensures !ValidName(name) ==> e == Some(ValidationFailed(NameField))
    ensures e.Some? && e.value != ValidationFailed(NameField) ==> ValidName(name)
  {
    if !ValidName(name) then Some(ValidationFailed(NameField))
    else if !InDomain(sport, sports) then Some(ValidationFailed(SportField))
    else if !InDomain(location, locations) then Some(ValidationFailed(LocationField))
    else if !UserExists(users, managerId) then Some(ReferenceNotFound)
    else if !AllUsersExist(users, playerIds) then Some(ReferenceNotFound)
    else None
  }

  lemma NewTeamWellFormed(id: Id, name: string, sport: string, location: string, managerId: Id,
                          playerIds: seq<Id>, users: map<Id, User>,
                          sports: set<string>, locations: set<string>)
    requires CreateInputError(name, sport, location, managerId, playerIds, users, sports, locations) == None
    ensures WellFormed(NewTeam(id, name, sport, location, managerId, playerIds), sports, locations)
  {
  }

  /**
   * A partial update: `None` means the field is absent from the request.
   * A string field that is present but empty is falsy in the source and
   * is ignored like an absent one; a list of players is always applied.
   */
  datatype Patch = Patch(
    name: Option<string>,
    sport: Option<string>,
    location: Option<string>,
    managerId: Option<Id>,
    playerIds: Option<seq<Id>>)

  /** A string field takes effect when it is present and truthy (non-empty). */
  predicate Supplied(o: Option<string>)
  {
    o.Some? && o.value != ""
  }

  function Chosen(o: Option<string>, prior: string): (r: string)
    ensures Supplied(o) ==> r == o.value
    ensures !Supplied(o) ==> r == prior
  {
    if Supplied(o) then o.value else prior
  }

  /**
   * The validations `editTeam` runs on the supplied fields, in order; the
   * first one that fails decides the error.
   */
  function PatchError(p: Patch, users: map<Id, User>, sports: set<string>,
                      locations: set<string>): (e: Option<Error>)
    ensures e == None <==>
      && (Supplied(p.name) ==> ValidName(p.name.value))
      && (Supplied(p.sport) ==> InDomain(p.sport.value, sports))
      && (Supplied(p.location) ==> InDomain(p.location.value, locations))
      && (Supplied(p.managerId) ==> ValidId(p.managerId.value) && UserExists(users, p.managerId.value))
      && (p.playerIds.Some? ==> AllUsersExist(users, p.playerIds.value))
  {
    if Supplied(p.name) && !ValidName(p.name.value) then Some(ValidationFailed(NameField))
    else if Supplied(p.sport) && !InDomain(p.sport.value, sports) then Some(ValidationFailed(SportField))
    else if Supplied(p.location) && !InDomain(p.location.value, locations) then Some(ValidationFailed(LocationField))
    else if Supplied(p.managerId) && !ValidId(p.managerId.value) then Some(InvalidId)
    else if Supplied(p.managerId) && !UserExists(users, p.managerId.value) then Some(ReferenceNotFound)
    else if p.playerIds.Some? && !AllUsersExist(users, p.playerIds.value) then Some(ReferenceNotFound)
    else None
  }

  /**
   * The patch `editTeam` writes: a supplied manager id is replaced by the
   * id of the user record it found (`newManager._id.toString()`).
   */
  function WithResolvedManager(p: Patch, users: map<Id, User>): (q: Patch)
    requires Supplied(p.managerId) ==> UserExists(users, p.managerId.value)
    ensures q.(managerId := p.managerId) == p
    ensures Supplied(p.managerId) ==> q.managerId == Some(users[ObjectIdString(p.managerId.value)].id)
    ensures !Supplied(p.managerId) ==> q == p
  {
    if Supplied(p.managerId) then p.(managerId := Some(users[ObjectIdString(p.managerId.value)].id)) else p
  }

  /**
   * With a keyed user collection the written manager id is the printed form
   * of the one supplied, and the rewritten patch still passes validation.
   */
  lemma ResolvedManagerIsPrinted(p: Patch, users: map<Id, User>, sports: set<string>, locations: set<string>)
    requires UsersKeyed(users)
    requires PatchError(p, users, sports, locations) == None
    ensures Supplied(p.managerId) ==> WithResolvedManager(p, users).managerId == Some(ObjectIdString(p.managerId.value))
    ensures PatchError(WithResolvedManager(p, users), users, sports, locations) == None
  {
    if Supplied(p.managerId) {
      var m := ObjectIdString(p.managerId.value);
      assert users[m].id == m && IsPrintedId(m);
      PrintedIdIsFixed(m);
    }
  }

  /** The `$set` of `editTeam`: supplied fields replace the stored ones. */
  function ApplyPatch(t: Team, p: Patch): (r: Team)
    ensures r.id == t.id && r.active == t.active && r.profilePicture == t.profilePicture
    ensures r.numGames == t.numGames && r.numWins == t.numWins
    ensures r.numLosses == t.numLosses && r.tournamentsWon == t.tournamentsWon
    ensures r.name == Chosen(p.name, t.name) && r.sport == Chosen(p.sport, t.sport)
    ensures r.location == Chosen(p.location, t.location) && r.managerId == Chosen(p.managerId, t.managerId)
    ensures p.playerIds.Some? ==> r.playerIds == p.playerIds.value && r.numPlayers == |r.playerIds|
    ensures p.playerIds.None? ==> r.playerIds == t.playerIds && r.numPlayers == t.numPlayers
    ensures Consistent(t) ==> Consistent(r)
  {
    var withFields := t.(name := Chosen(p.name, t.name),
                         sport := Chosen(p.sport, t.sport),
                         location := Chosen(p.location, t.location),
                         managerId := Chosen(p.managerId, t.managerId));
    match p.playerIds
    case None => withFields
    case Some(ids) => withFields.(playerIds := ids, numPlayers := |ids|)
  }

  /**
   * A request with no usable field, one with every field absent or every
   * string empty and no player list, leaves the team as it was.
   */
  lemma IgnoredPatchIsIdentity(t: Team, p: Patch)
    requires !Supplied(p.name) && !Supplied(p.sport) && !Supplied(p.location) && !Supplied(p.managerId)
    requires p.playerIds.None?
    ensures ApplyPatch(t, p) == t
  {
  }

  /** Applying the same patch twice is the same as applying it once. */
  lemma ApplyPatchIdempotent(t: Team, p: Patch)
    ensures ApplyPatch(ApplyPatch(t, p), p) == ApplyPatch(t, p)
  {
  }

  /** A patch that passes validation keeps a team well formed. */
  lemma ApplyPatchWellFormed(t: Team, p: Patch, users: map<Id, User>,
                             sports: set<string>, locations: set<string>)
    requires WellFormed(t, sports, locations)
    requires PatchError(p, users, sports, locations) == None
    ensures WellFormed(ApplyPatch(t, p), sports, locations)
  {
  }

  /** `toggleActive`: the stored document with `active` negated. */
  function Toggled(t: Team): (r: Team)
    ensures r.active == !t.active
    ensures r.(active := t.active) == t
    ensures Consistent(t) ==> Consistent(r)
  {
    t.(active := !t.active)
  }

  /** Toggling twice restores the team. */
  lemma ToggledTwice(t: Team)
    ensures Toggled(Toggled(t)) == t
  {
  }

  /** `addWin`: one more game, one more win. */
  function WithWin(t: Team): (r: Team)
    ensures r.numGames == t.numGames + 1 && r.numWins == t.numWins + 1
    ensures r.numLosses == t.numLosses
    ensures r.(numGames := t.numGames, numWins := t.numWins) == t
    ensures Consistent(t) ==> Consistent(r)
  {
    t.(numGames := t.numGames + 1, numWins := t.numWins + 1)
  }

  /** `addLoss`: one more game, one more loss. */
  function WithLoss(t: Team): (r: Team)
    ensures r.numGames == t.numGames + 1 && r.numLosses == t.numLosses + 1
    ensures r.numWins == t.numWins
    ensures r.(numGames := t.numGames, numLosses := t.numLosses) == t
    ensures Consistent(t) ==> Consistent(r)
  {
    t.(numGames := t.numGames + 1, numLosses := t.numLosses + 1)
  }

  /** Recording a win and a loss gives the same team in either order. */
  lemma WinLossCommute(t: Team)
    ensures WithWin(WithLoss(t)) == WithLoss(WithWin(t))
  {
  }

  /** `addPlayer`, as intended: append the player and recount. */
  function WithPlayer(t: Team, playerId: Id): (r: Team)
    ensures r.playerIds == t.playerIds + [playerId]
    ensures r.numPlayers == |t.playerIds| + 1
    ensures r.(playerIds := t.playerIds, numPlayers := t.numPlayers) == t
    ensures Consistent(t) ==> Consistent(r)
  {
    t.(playerIds := t.playerIds + [playerId], numPlayers := |t.playerIds| + 1)
  }
}
