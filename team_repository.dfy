/**
 * The team repository of src/data/teams.js: cached reads, validated
 * writes that flush the whole cache and re-prime the key they wrote, and
 * the id-list checks used when brackets are assembled.
 */
module TeamRepository {
  import opened Common
  import opened Collaborators
  import opened TeamData
  import opened TeamStore
  import opened TeamCache

  /** Why `addPlayer` fails for a player and a team, in the order it checks them. */
  function AddPlayerError(store: map<Id, Team>, users: map<Id, User>,
                          teamId: Id, playerId: Id): (e: Option<Error>)
    ensures e == None <==>
      ValidId(playerId) && UserExists(users, playerId) && ValidId(teamId) && ObjectIdString(teamId) in store
  {
    if !ValidId(playerId) then Some(InvalidId)
    else if !UserExists(users, playerId) then Some(ReferenceNotFound)
    else LookupError(store, teamId)
  }

  /**
   * `addPlayer` as written: `getUserById` and `getTeamById` are called
   * without `await`, so `team` is a promise and `team.playerIds.push`
   * throws before the store is reached. Only the synchronous id checks
   * come first.
   */
  function AddPlayerAsWritten(teamId: Id, playerId: Id): (r: Result<Team, Error>)
    ensures r.Err?
    ensures ValidId(teamId) && ValidId(playerId) ==> r == Err(TypeError)
  {
    if !ValidId(playerId) || !ValidId(teamId) then Err(InvalidId) else Err(TypeError)
  }

  /** For a stored team and an existing player the intended `addPlayer` succeeds, the written one never does. */
  lemma AddPlayerAsWrittenFails(store: map<Id, Team>, users: map<Id, User>, teamId: Id, playerId: Id)
    requires ValidId(teamId) && ObjectIdString(teamId) in store
    requires UserExists(users, playerId)
    ensures AddPlayerError(store, users, teamId, playerId) == None
    ensures AddPlayerAsWritten(teamId, playerId) == Err(TypeError)
  {
  }

  class Repository {
    /** The user collection, read but never written here. */
    const users: map<Id, User>
    /** The domains `checkSport` and `checkLocation` accept. */
    const sports: set<string>
    const locations: set<string>

    /** The `teams` collection: documents by printed id, and their natural order. */
    var store: map<Id, Team>
    var order: seq<Id>
    /** The key/value cache. */
    var cache: map<string, CacheValue>

    ghost predicate Valid()
      reads this`store, this`order
    {
      && UsersKeyed(users)
      && (forall k :: k in store ==> store[k].id == k && IsPrintedId(k) && WellFormed(store[k], sports, locations))
      && (forall i :: 0 <= i < |order| ==> order[i] in store)
      && (forall k :: k in store ==> k in order)
      && (forall i, j :: 0 <= i < j < |order| ==> order[i] != order[j])
    }

    ghost predicate Coherent()
      reads this
    {
      CacheCoherent(order, store, cache)
    }

    constructor (users: map<Id, User>, sports: set<string>, locations: set<string>)
      requires UsersKeyed(users)
      ensures Valid() && Coherent()
      ensures this.users == users && this.sports == sports && this.locations == locations
      ensures store == map[] && order == [] && cache == map[]
    {
      this.users, this.sports, this.locations := users, sports, locations;
      store, order, cache := map[], [], map[];
    }

    /** `getAllTeams`: read through key "allTeams". */
    method GetAllTeams() returns (r: seq<Team>)
      requires Valid() && Coherent()
      modifies this`cache
      ensures Valid() && Coherent()
      ensures r == Find(order, store, Everything)
      ensures cache == old(cache)[Render(AllTeams) := Many(r)]
      ensures old(Render(AllTeams) in cache) ==> cache == old(cache)
    {
      var key := Render(AllTeams);
      if key in cache {
        CachedIsExpected(order, store, cache, AllTeams);
        r := cache[key].teams;
      } else {
        r := Find(order, store, Everything);
        FillKeepsCoherent(order, store, cache, AllTeams, Many(r));
        cache := cache[key := Many(r)];
      }
    }

    /**
     * `getTeamById`: read through key "team/{id}". Only the entry under
     * that key needs to be coherent; the others are left as they are.
     */
    method GetTeamById(id: Id) returns (r: Result<Team, Error>)
      requires Valid()
      requires EntryAgrees(order, store, cache, Render(TeamKey(id)))
      modifies this`cache
      ensures Valid()
      ensures r.Err? <==> LookupError(store, id).Some?
      ensures r.Err? ==> r.error == LookupError(store, id).value && cache == old(cache)
      ensures r.Ok? ==> r.value == store[ObjectIdString(id)]
      ensures r.Ok? ==> cache == AfterLookup(store, old(cache), id)
      ensures old(CacheCoherent(order, store, cache)) ==> CacheCoherent(order, store, cache)
    {
      if !ValidId(id) {
        return Err(InvalidId);
      }
      var key := Render(TeamKey(id));
      if key in cache {
        CachedIsExpected(order, store, cache, TeamKey(id));
        r := Ok(cache[key].team);
      } else if ObjectIdString(id) !in store {
        r := Err(NotFound);
      } else {
        var team := store[ObjectIdString(id)];
        FillKeepsCoherent(order, store, cache, TeamKey(id), One(team));
        cache := cache[key := One(team)];
        r := Ok(team);
      }
    }

    /** `getTeamsByPlayer`: read through key "teamsByPlayer/{id}". */
    method GetTeamsByPlayer(playerId: Id) returns (r: Result<seq<Team>, Error>)
      requires Valid() && Coherent()
      modifies this`cache
      ensures Valid() && Coherent()
      ensures !ValidId(playerId) ==> r == Err(InvalidId) && cache == old(cache)
      ensures ValidId(playerId) ==> r == Ok(Find(order, store, HasPlayer(playerId)))
      ensures ValidId(playerId) ==> cache == old(cache)[Render(PlayerKey(playerId)) := Many(r.value)]
      ensures old(Render(PlayerKey(playerId)) in cache) ==> cache == old(cache)
    {
      if !ValidId(playerId) {
        return Err(InvalidId);
      }
      var key := Render(PlayerKey(playerId));
      if key in cache {
        CachedIsExpected(order, store, cache, PlayerKey(playerId));
        r := Ok(cache[key].teams);
      } else {
        var list := Find(order, store, HasPlayer(playerId));
        FillKeepsCoherent(order, store, cache, PlayerKey(playerId), Many(list));
        cache := cache[key := Many(list)];
        r := Ok(list);
      }
    }

    /** `getTeamsByManager`: read through key "teamsByManager/{id}". */
    method GetTeamsByManager(managerId: Id) returns (r: Result<seq<Team>, Error>)
      requires Valid() && Coherent()
      modifies this`cache
      ensures Valid() && Coherent()
      ensures !ValidId(managerId) ==> r == Err(InvalidId) && cache == old(cache)
      ensures ValidId(managerId) ==> r == Ok(Find(order, store, ManagedBy(managerId)))
      ensures ValidId(managerId) ==> cache == old(cache)[Render(ManagerKey(managerId)) := Many(r.value)]
      ensures old(Render(ManagerKey(managerId)) in cache) ==> cache == old(cache)
    {
      if !ValidId(managerId) {
        return Err(InvalidId);
      }
      var key := Render(ManagerKey(managerId));
      if key in cache {
        CachedIsExpected(order, store, cache, ManagerKey(managerId));
        r := Ok(cache[key].teams);
      } else {
        var list := Find(order, store, ManagedBy(managerId));
        FillKeepsCoherent(order, store, cache, ManagerKey(managerId), Many(list));
        cache := cache[key := Many(list)];
        r := Ok(list);
      }
    }

    /** FLUSHALL followed by SET "team/{id}" of the document just written, under its printed id. */
    method FlushAndReprime(id: Id)
      requires Valid() && id in store
      modifies this`cache
      ensures Valid() && Coherent()
      ensures cache == map[Render(TeamKey(id)) := One(store[id])]
    {
      cache := map[];
      ReprimeIsCoherent(order, store, id);
      cache := cache[Render(TeamKey(id)) := One(store[id])];
    }

    /**
     * `createTeam`. `insertedId` is the printed id the store reports for the
     * new document; `None`, a string that is not a printed id, or one
     * already in use stands for an insert the store did not acknowledge.
     */
    method CreateTeam(name: string, sport: string, location: string, managerId: Id,
                      playerIds: seq<Id>, insertedId: Option<Id>) returns (r: Result<Team, Error>)
      requires Valid() && Coherent()
      modifies this`store, this`order, this`cache
      ensures Valid() && Coherent()
      ensures var e := CreateInputError(name, sport, location, managerId, playerIds, users, sports, locations);
        e.Some? ==> r == Err(e.value)
      ensures CreateInputError(name, sport, location, managerId, playerIds, users, sports, locations) == None
        && (insertedId.None? || !IsPrintedId(insertedId.value) || insertedId.value in old(store))
        ==> r == Err(InsertFailed)
      ensures r.Err? ==> store == old(store) && order == old(order) && cache == old(cache)
      ensures r.Ok? <==>
        CreateInputError(name, sport, location, managerId, playerIds, users, sports, locations) == None
        && insertedId.Some? && IsPrintedId(insertedId.value) && insertedId.value !in old(store)
      ensures r.Ok? ==>
        && r.value == NewTeam(insertedId.value, name, sport, location, managerId, playerIds)
        && store == old(store)[insertedId.value := r.value]
        && order == old(order) + [insertedId.value]
        && cache == map[Render(TeamKey(insertedId.value)) := One(r.value)]
    {
      var e := CreateInputError(name, sport, location, managerId, playerIds, users, sports, locations);
      if e.Some? {
        return Err(e.value);
      }
      if insertedId.None? || !IsPrintedId(insertedId.value) || insertedId.value in store {
        return Err(InsertFailed);
      }
      var id := insertedId.value;
      PrintedIdIsFixed(id);
      NewTeamWellFormed(id, name, sport, location, managerId, playerIds, users, sports, locations);
      AbsentTeamNotCached(order, store, cache, id);
      store := store[id := NewTeam(id, name, sport, location, managerId, playerIds)];
      order := order + [id];
      var reloaded := GetTeamById(id);
      var team := reloaded.value;
      FlushAndReprime(team.id);
      r := Ok(team);
    }

    /**
     * `editTeam`: validate the supplied fields, then `$set` them on the team
     * whose printed id is `teamId` in lower case. A supplied manager is
     * written as the id of the user record it found.
     */
    method EditTeam(teamId: Id, p: Patch) returns (r: Result<Team, Error>)
      requires Valid() && Coherent()
      modifies this`store, this`cache
      ensures Valid() && Coherent()
      ensures !ValidId(teamId) ==> r == Err(InvalidId)
      ensures ValidId(teamId) && ObjectIdString(teamId) !in old(store) ==> r == Err(NotFound)
      ensures LookupError(old(store), teamId) == None && PatchError(p, users, sports, locations).Some?
        ==> r == Err(PatchError(p, users, sports, locations).value)
      ensures r.Ok? <==>
        LookupError(old(store), teamId) == None && PatchError(p, users, sports, locations) == None
      ensures r.Err? ==> store == old(store) && cache == old(cache)
      ensures r.Ok? ==>
        && r.value == ApplyPatch(old(store)[ObjectIdString(teamId)], WithResolvedManager(p, users))
        && store == old(store)[ObjectIdString(teamId) := r.value]
        && cache == map[Render(TeamKey(ObjectIdString(teamId))) := One(r.value)]
      ensures r.Ok? && Supplied(p.managerId) ==> r.value.managerId == ObjectIdString(p.managerId.value)
    {
      if !ValidId(teamId) {
        return Err(InvalidId);
      }
      var k := ObjectIdString(teamId);
      if k !in store {
        return Err(NotFound);
      }
      var e := PatchError(p, users, sports, locations);
      if e.Some? {
        return Err(e.value);
      }
      var q := WithResolvedManager(p, users);
      ResolvedManagerIsPrinted(p, users, sports, locations);
      ApplyPatchWellFormed(store[k], q, users, sports, locations);
      store := store[k := ApplyPatch(store[k], q)];
      FlushAndReprime(k);
      r := Ok(store[k]);
    }

    /**
     * `toggleActive`: the team is read through the cache, written back
     * with `active` negated, and the cache is flushed and re-primed.
     */
    method ToggleActive(id: Id) returns (r: Result<Team, Error>)
      requires Valid() && Coherent()
      modifies this`store, this`cache
      ensures Valid() && Coherent()
      ensures r.Err? <==> LookupError(old(store), id).Some?
      ensures r.Err? ==> r.error == LookupError(old(store), id).value
      ensures r.Err? ==> store == old(store) && cache == old(cache)
      ensures r.Ok? ==>
        && r.value == Toggled(old(store)[ObjectIdString(id)])
        && store == old(store)[ObjectIdString(id) := r.value]
        && cache == map[Render(TeamKey(ObjectIdString(id))) := One(r.value)]
    {
      if !ValidId(id) {
        return Err(InvalidId);
      }
      var got := GetTeamById(id);
      if got.Err? {
        return Err(got.error);
      }
      var k := ObjectIdString(id);
      store := store[k := Toggled(got.value)];
      FlushAndReprime(k);
      r := Ok(store[k]);
    }

    /** `addWin`: one more game and one more win. */
    method AddWin(id: Id) returns (r: Result<Team, Error>)
      requires Valid() && Coherent()
      modifies this`store, this`cache
      ensures Valid() && Coherent()
      ensures r.Err? <==> LookupError(old(store), id).Some?
      ensures r.Err? ==> r.error == LookupError(old(store), id).value
      ensures r.Err? ==> store == old(store) && cache == old(cache)
      ensures r.Ok? ==>
        && r.value == WithWin(old(store)[ObjectIdString(id)])
        && store == old(store)[ObjectIdString(id) := r.value]
        && cache == map[Render(TeamKey(ObjectIdString(id))) := One(r.value)]
    {
      if !ValidId(id) {
        return Err(InvalidId);
      }
      var got := GetTeamById(id);
      if got.Err? {
        return Err(got.error);
      }
      var k := ObjectIdString(id);
      store := store[k := WithWin(got.value)];
      FlushAndReprime(k);
      r := Ok(store[k]);
    }

    /** `addLoss`: one more game and one more loss. */
    method AddLoss(id: Id) returns (r: Result<Team, Error>)
      requires Valid() && Coherent()
      modifies this`store, this`cache
      ensures Valid() && Coherent()
      ensures r.Err? <==> LookupError(old(store), id).Some?
      ensures r.Err? ==> r.error == LookupError(old(store), id).value
      ensures r.Err? ==> store == old(store) && cache == old(cache)
      ensures r.Ok? ==>
        && r.value == WithLoss(old(store)[ObjectIdString(id)])
        && store == old(store)[ObjectIdString(id) := r.value]
        && cache == map[Render(TeamKey(ObjectIdString(id))) := One(r.value)]
    {
      if !ValidId(id) {
        return Err(InvalidId);
      }
      var got := GetTeamById(id);
      if got.Err? {
        return Err(got.error);
      }
      var k := ObjectIdString(id);
      store := store[k := WithLoss(got.value)];
      FlushAndReprime(k);
      r := Ok(store[k]);
    }

    /** `addPlayer`, as intended: both ids resolve, then the player is appended. */
    method AddPlayer(teamId: Id, playerId: Id) returns (r: Result<Team, Error>)
      requires Valid() && Coherent()
      modifies this`store, this`cache
      ensures Valid() && Coherent()
      ensures r.Err? <==> AddPlayerError(old(store), users, teamId, playerId).Some?
      ensures r.Err? ==> r.error == AddPlayerError(old(store), users, teamId, playerId).value
      ensures r.Err? ==> store == old(store) && cache == old(cache)
      ensures r.Ok? ==>
        && r.value == WithPlayer(old(store)[ObjectIdString(teamId)], playerId)
        && store == old(store)[ObjectIdString(teamId) := r.value]
        && cache == map[Render(TeamKey(ObjectIdString(teamId))) := One(r.value)]
    {
      if !ValidId(playerId) {
        return Err(InvalidId);
      }
      if !UserExists(users, playerId) {
        return Err(ReferenceNotFound);
      }
      if !ValidId(teamId) {
        return Err(InvalidId);
      }
      var got := GetTeamById(teamId);
      if got.Err? {
        return Err(got.error);
      }
      var k := ObjectIdString(teamId);
      store := store[k := WithPlayer(got.value, playerId)];
      FlushAndReprime(k);
      r := Ok(store[k]);
    }

    /**
     * `checkIdArray`: the list must have exactly `bracketSize` ids, each
     * resolving through `getTeamById`; the first that does not decides
     * the error. Lookups fill the cache as reads do.
     */
    method CheckIdArray(arr: seq<Id>, bracketSize: int) returns (r: Result<seq<Id>, Error>)
      requires Valid() && Coherent()
      modifies this`cache
      ensures Valid() && Coherent()
      ensures |arr| != bracketSize ==> r == Err(SizeMismatch) && cache == old(cache)
      ensures |arr| == bracketSize && FirstLookupError(store, arr).Some?
        ==> r == Err(FirstLookupError(store, arr).value)
      ensures r.Ok? <==> |arr| == bracketSize && FirstLookupError(store, arr) == None
      ensures r.Ok? ==> r.value == arr
      ensures |arr| == bracketSize ==> cache == AfterLookups(store, old(cache), arr)
    {
      if |arr| != bracketSize {
        return Err(SizeMismatch);
      }
      var e := LookUpEach(arr);
      if e.Some? {
        return Err(e.value);
      }
      r := Ok(arr);
    }

    /** The loop of `checkIdArray`: look up each id in turn, stopping at the first failure. */
    method LookUpEach(arr: seq<Id>) returns (e: Option<Error>)
      requires Valid() && Coherent()
      modifies this`cache
      ensures Valid() && Coherent()
      ensures e == FirstLookupError(store, arr)
      ensures cache == AfterLookups(store, old(cache), arr)
    {
      var i := 0;
      while i < |arr|
        invariant 0 <= i <= |arr|
        invariant Valid() && Coherent()
        invariant FirstLookupError(store, arr[i..]) == FirstLookupError(store, arr)
        invariant AfterLookups(store, cache, arr[i..]) == AfterLookups(store, old(cache), arr)
      {
        assert EntryAgrees(order, store, cache, Render(TeamKey(arr[i])));
        ghost var before := cache;
        AfterLookupsAt(store, before, arr, i);
        FirstLookupErrorFrom(store, arr, i);
        var got := GetTeamById(arr[i]);
        if got.Err? {
          return Some(got.error);
        }
        i := i + 1;
      }
      return None;
    }

    /** `getTeamsPlayers`: the user record of every player of a team. */
    method GetTeamsPlayers(teamId: Id) returns (r: Result<seq<User>, Error>)
      requires Valid() && Coherent()
      modifies this`cache
      ensures Valid() && Coherent()
      ensures LookupError(store, teamId).Some? ==> r == Err(LookupError(store, teamId).value)
      ensures r.Ok? <==>
        LookupError(store, teamId) == None && AllUsersExist(users, store[ObjectIdString(teamId)].playerIds)
      ensures r.Err? && LookupError(store, teamId) == None ==> r.error == ReferenceNotFound
      ensures r.Ok? ==> r.value == PlayersOf(users, store[ObjectIdString(teamId)].playerIds)
      ensures LookupError(store, teamId).Some? ==> cache == old(cache)
      ensures LookupError(store, teamId) == None ==> cache == AfterLookup(store, old(cache), teamId)
    {
      var got := GetTeamById(teamId);
      if got.Err? {
        return Err(got.error);
      }
      if !AllUsersExist(users, got.value.playerIds) {
        return Err(ReferenceNotFound);
      }
      r := Ok(PlayersOf(users, got.value.playerIds));
    }

    /**
     * `getListofTeams`: after `checkIdArray`, the listed teams straight
     * from the store (the cache is not consulted). Every listed id has its
     * team in the result, and nothing else is in it.
     */
    method GetListOfTeams(arr: seq<Id>, size: int) returns (r: Result<seq<Team>, Error>)
      requires Valid() && Coherent()
      modifies this`cache
      ensures Valid() && Coherent()
      ensures r.Ok? <==> |arr| == size && FirstLookupError(store, arr) == None
      ensures |arr| != size ==> r == Err(SizeMismatch) && cache == old(cache)
      ensures |arr| == size && FirstLookupError(store, arr).Some?
        ==> r == Err(FirstLookupError(store, arr).value)
      ensures |arr| == size ==> cache == AfterLookups(store, old(cache), arr)
      ensures r.Ok? ==> r.value == Find(order, store, IdIn(ObjectIdStrings(arr)))
      ensures r.Ok? ==> forall i :: 0 <= i < |arr| ==>
        ObjectIdString(arr[i]) in store && store[ObjectIdString(arr[i])] in r.value
      ensures r.Ok? ==> forall t :: t in r.value ==>
        t.id in ObjectIdStrings(arr) && t.id in store && store[t.id] == t
    {
      var checked := CheckIdArray(arr, size);
      if checked.Err? {
        return Err(checked.error);
      }
      var ids := ToObjectIds(checked.value);
      FindIdIn(order, store, ids);
      r := Ok(Find(order, store, IdIn(ids)));
    }

    /** `getTeamsBySport`: validated, then queried from the store without the cache. */
    method GetTeamsBySport(sport: string) returns (r: Result<seq<Team>, Error>)
      requires Valid()
      ensures !InDomain(sport, sports) ==> r == Err(ValidationFailed(SportField))
      ensures InDomain(sport, sports) ==> r.Ok? && r.value == Find(order, store, OfSport(sport))
      ensures r.Ok? ==> forall i :: 0 <= i < |r.value| ==> r.value[i].sport == sport
      ensures r.Ok? ==> forall k :: k in store && store[k].sport == sport ==> store[k] in r.value
    {
      if !InDomain(sport, sports) {
        return Err(ValidationFailed(SportField));
      }
      var list := Find(order, store, OfSport(sport));
      forall k | k in store && store[k].sport == sport
        ensures store[k] in list
      {
        var j :| 0 <= j < |order| && order[j] == k;
        assert Matches(OfSport(sport), store[order[j]]);
      }
      r := Ok(list);
    }

    /**
     * `teamsMatchSport`: every id must resolve to a team of `sport`; the
     * first that does not decides the error.
     */
    method TeamsMatchSport(idArr: seq<Id>, sport: string) returns (r: Result<seq<Id>, Error>)
      requires Valid() && Coherent()
      modifies this`cache
      ensures Valid() && Coherent()
      ensures !InDomain(sport, sports) ==> r == Err(ValidationFailed(SportField)) && cache == old(cache)
      ensures InDomain(sport, sports) && FirstSportError(store, idArr, sport).Some?
        ==> r == Err(FirstSportError(store, idArr, sport).value)
      ensures r.Ok? <==> InDomain(sport, sports) && FirstSportError(store, idArr, sport) == None
      ensures r.Ok? ==> r.value == idArr
      ensures InDomain(sport, sports) ==> cache == AfterSportChecks(store, old(cache), idArr, sport)
    {
      if !InDomain(sport, sports) {
        return Err(ValidationFailed(SportField));
      }
      var e := CheckEachSport(idArr, sport);
      if e.Some? {
        return Err(e.value);
      }
      r := Ok(idArr);
    }

    /** The loop of `teamsMatchSport`: look up each id and compare its sport, stopping at the first failure. */
    method CheckEachSport(idArr: seq<Id>, sport: string) returns (e: Option<Error>)
      requires Valid() && Coherent()
      modifies this`cache
      ensures Valid() && Coherent()
      ensures e == FirstSportError(store, idArr, sport)
      ensures cache == AfterSportChecks(store, old(cache), idArr, sport)
    {
      var i := 0;
      while i < |idArr|
        invariant 0 <= i <= |idArr|
        invariant Valid() && Coherent()
        invariant FirstSportError(store, idArr[i..], sport) == FirstSportError(store, idArr, sport)
        invariant AfterSportChecks(store, cache, idArr[i..], sport) == AfterSportChecks(store, old(cache), idArr, sport)
      {
        assert EntryAgrees(order, store, cache, Render(TeamKey(idArr[i])));
        ghost var before := cache;
        AfterSportChecksAt(store, before, idArr, sport, i);
        FirstSportErrorFrom(store, idArr, sport, i);
        var got := GetTeamById(idArr[i]);
        if got.Err? {
          return Some(got.error);
        }
        var team := got.value;
        if team.sport != sport {
          return Some(SportMismatch(team.name, team.sport, sport));
        }
        i := i + 1;
      }
      return None;
    }
  }

  /**
   * The loop of `getListofTeams` that replaces each listed id, in place,
   * by the object id it spells, here by that object id's printed form.
   */
  method ToObjectIds(arr: seq<Id>) returns (ids: seq<Id>)
    ensures ids == ObjectIdStrings(arr)
  {
    ids := arr;
    var i := 0;
    while i < |ids|
      invariant 0 <= i <= |ids| == |arr|
      invariant forall j :: 0 <= j < i ==> ids[j] == ObjectIdString(arr[j])
      invariant forall j :: i <= j < |ids| ==> ids[j] == arr[j]
    {
      ids := ids[i := ObjectIdString(ids[i])];
      i := i + 1;
    }
  }

  /**
   * Two lookups of the same id in a row: the second is a cache hit that
   * returns the same team and leaves the cache as the first left it.
   */
  method RepeatedLookup(repo: Repository, id: Id) returns (first: Result<Team, Error>, second: Result<Team, Error>)
    requires repo.Valid() && repo.Coherent()
    modifies repo`cache
    ensures repo.Valid() && repo.Coherent()
    ensures first == second
    ensures first.Err? ==> repo.cache == old(repo.cache)
    ensures first.Ok? ==>
      ObjectIdString(id) in repo.store && repo.cache == AfterLookup(repo.store, old(repo.cache), id)
  {
    first := repo.GetTeamById(id);
    second := repo.GetTeamById(id);
  }
}
