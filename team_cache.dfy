/**
 * The cache in front of the store: its keys, the value stored under each,
 * and the coherence invariant saying that every cached entry is what the
 * read operation behind its key would compute from the store now.
 * Serialisation to JSON and back is the identity here.
 */
module TeamCache {
  import opened Common
  import opened Collaborators
  import opened TeamData
  import opened TeamStore

  /** The four kinds of cache key the repository uses. */
  datatype Key =
    | AllTeams              // "allTeams"
    | TeamKey(id: Id)       // "team/{id}"
    | PlayerKey(player: Id) // "teamsByPlayer/{id}"
    | ManagerKey(manager: Id) // "teamsByManager/{id}"

  /** A cached payload: one team or a list of teams. */
  datatype CacheValue = One(team: Team) | Many(teams: seq<Team>)

  /**
   * The key string each read and re-prime uses; `ParseRender` reads it
   * back, so the four families cannot collide.
   */
  function Render(k: Key): string
  {
    match k
    case AllTeams => "allTeams"
    case TeamKey(id) => "team/" + id
    case PlayerKey(p) => "teamsByPlayer/" + p
    case ManagerKey(m) => "teamsByManager/" + m
  }

  /** Reads a cache key back; `None` for a string no operation writes. */
  function Parse(s: string): Option<Key>
  {
    if s == "allTeams" then Some(AllTeams)
    else if |s| >= 5 && s[..5] == "team/" then Some(TeamKey(s[5..]))
    else if |s| >= 14 && s[..14] == "teamsByPlayer/" then Some(PlayerKey(s[14..]))
    else if |s| >= 15 && s[..15] == "teamsByManager/" then Some(ManagerKey(s[15..]))
    else None
  }

  /** Every key reads back as itself, so distinct keys never share a string. */
  lemma ParseRender(k: Key)
    ensures Parse(Render(k)) == Some(k)
  {
    var s := Render(k);
    match k
    case AllTeams =>
    case TeamKey(id) =>
      assert s[0] == 't';
      assert s[..5] == "team/";
      assert s[5..] == id;
    case PlayerKey(p) =>
      assert s[4] == 's';
      assert s[..14] == "teamsByPlayer/";
      assert s[14..] == p;
    case ManagerKey(m) =>
      assert s[4] == 's' && s[5] == 'B' && s[7] == 'M';
      assert s[..15] == "teamsByManager/";
      assert s[15..] == m;
  }

  lemma RenderInjective(k1: Key, k2: Key)
    ensures Render(k1) == Render(k2) ==> k1 == k2
  {
    ParseRender(k1);
    ParseRender(k2);
  }

  /**
   * What the read operation behind key `k` computes on a cache miss; `None`
   * for a team id that does not resolve (that read fails and caches nothing).
   */
  function Expected(order: seq<Id>, store: map<Id, Team>, k: Key): (r: Option<CacheValue>)
    ensures k.TeamKey? ==> (r.Some? <==> LookupError(store, k.id) == None)
    ensures !k.TeamKey? ==> r.Some? && r.value.Many?
  {
    match k
    case AllTeams => Some(Many(Find(order, store, Everything)))
    case TeamKey(id) => if LookupError(store, id) == None then Some(One(store[ObjectIdString(id)])) else None
    case PlayerKey(p) => Some(Many(Find(order, store, HasPlayer(p))))
    case ManagerKey(m) => Some(Many(Find(order, store, ManagedBy(m))))
  }

  /** The entry under `s`, if any, is a well-formed key holding its expected value. */
  predicate EntryAgrees(order: seq<Id>, store: map<Id, Team>, cache: map<string, CacheValue>, s: string)
  {
    s in cache ==> Parse(s).Some? && Expected(order, store, Parse(s).value) == Some(cache[s])
  }

  predicate CacheCoherent(order: seq<Id>, store: map<Id, Team>, cache: map<string, CacheValue>)
  {
    forall s :: s in cache ==> EntryAgrees(order, store, cache, s)
  }

  /** A cache hit on a coherent cache returns what a miss would compute. */
  lemma CachedIsExpected(order: seq<Id>, store: map<Id, Team>, cache: map<string, CacheValue>, k: Key)
    requires EntryAgrees(order, store, cache, Render(k))
    requires Render(k) in cache
    ensures Expected(order, store, k) == Some(cache[Render(k)])
  {
    ParseRender(k);
  }

  /** The read-through fill after a miss keeps a coherent cache coherent. */
  lemma FillKeepsCoherent(order: seq<Id>, store: map<Id, Team>, cache: map<string, CacheValue>,
                          k: Key, v: CacheValue)
    requires Expected(order, store, k) == Some(v)
    ensures CacheCoherent(order, store, cache) ==> CacheCoherent(order, store, cache[Render(k) := v])
  {
    ParseRender(k);
    var c := cache[Render(k) := v];
    if CacheCoherent(order, store, cache) {
      forall s | s in c
        ensures EntryAgrees(order, store, c, s)
      {
        if s != Render(k) {
          assert EntryAgrees(order, store, cache, s);
        }
      }
    }
  }

  /** A flushed cache re-primed with one stored team, under its printed id, is coherent. */
  lemma ReprimeIsCoherent(order: seq<Id>, store: map<Id, Team>, id: Id)
    requires id in store && IsPrintedId(id)
    ensures CacheCoherent(order, store, map[Render(TeamKey(id)) := One(store[id])])
  {
    ParseRender(TeamKey(id));
    PrintedIdIsFixed(id);
  }

  /** A coherent cache holds no entry for a team id that does not resolve. */
  lemma AbsentTeamNotCached(order: seq<Id>, store: map<Id, Team>, cache: map<string, CacheValue>, id: Id)
    requires CacheCoherent(order, store, cache)
    requires ObjectIdString(id) !in store
    ensures Render(TeamKey(id)) !in cache
  {
    ParseRender(TeamKey(id));
    assert EntryAgrees(order, store, cache, Render(TeamKey(id)));
  }

  /** The cache after `getTeamById(id)` succeeds: a miss sets `team/{id}`, a hit leaves it as it is. */
  function AfterLookup(store: map<Id, Team>, cache: map<string, CacheValue>, id: Id): map<string, CacheValue>
    requires ObjectIdString(id) in store
  {
    if Render(TeamKey(id)) in cache then cache
    else cache[Render(TeamKey(id)) := One(store[ObjectIdString(id)])]
  }

  /** The cache after the loop of `checkIdArray`: each id in turn, up to the first that does not resolve. */
  function AfterLookups(store: map<Id, Team>, cache: map<string, CacheValue>, ids: seq<Id>): map<string, CacheValue>
    decreases |ids|
  {
    if ids == [] || LookupError(store, ids[0]).Some? then cache
    else AfterLookups(store, AfterLookup(store, cache, ids[0]), ids[1..])
  }

  /**
   * The cache after the loop of `teamsMatchSport`: the team of another
   * sport is read, and cached, before the loop throws.
   */
  function AfterSportChecks(store: map<Id, Team>, cache: map<string, CacheValue>,
                            ids: seq<Id>, sport: string): map<string, CacheValue>
    decreases |ids|
  {
    if ids == [] || LookupError(store, ids[0]).Some? then cache
    else
      var c := AfterLookup(store, cache, ids[0]);
      if store[ObjectIdString(ids[0])].sport != sport then c
      else AfterSportChecks(store, c, ids[1..], sport)
  }

  /** Position `i` of the `checkIdArray` loop: a failure stops it, a success moves on. */
  lemma AfterLookupsAt(store: map<Id, Team>, cache: map<string, CacheValue>, ids: seq<Id>, i: nat)
    requires i < |ids|
    ensures LookupError(store, ids[i]).Some? ==> AfterLookups(store, cache, ids[i..]) == cache
    ensures LookupError(store, ids[i]) == None ==>
      AfterLookups(store, cache, ids[i..]) == AfterLookups(store, AfterLookup(store, cache, ids[i]), ids[i + 1..])
  {
    assert ids[i..][0] == ids[i];
    assert ids[i..][1..] == ids[i + 1..];
  }

  /**
   * Position `i` of the `teamsMatchSport` loop: a failed lookup stops it
   * with the cache as it was, a team of another sport stops it after the
   * lookup, and a match moves on.
   */
  lemma AfterSportChecksAt(store: map<Id, Team>, cache: map<string, CacheValue>, ids: seq<Id>, sport: string, i: nat)
    requires i < |ids|
    ensures LookupError(store, ids[i]).Some? ==> AfterSportChecks(store, cache, ids[i..], sport) == cache
    ensures LookupError(store, ids[i]) == None && store[ObjectIdString(ids[i])].sport != sport ==>
      AfterSportChecks(store, cache, ids[i..], sport) == AfterLookup(store, cache, ids[i])
    ensures LookupError(store, ids[i]) == None && store[ObjectIdString(ids[i])].sport == sport ==>
      AfterSportChecks(store, cache, ids[i..], sport)
      == AfterSportChecks(store, AfterLookup(store, cache, ids[i]), ids[i + 1..], sport)
  {
    assert ids[i..][0] == ids[i];
    assert ids[i..][1..] == ids[i + 1..];
  }

  /** What a run of lookups may do to the cache: keep every entry, and add only `team/{id}` for listed ids. */
  predicate OnlyAddsTeamKeys(before: map<string, CacheValue>, after: map<string, CacheValue>, ids: seq<Id>)
  {
    && (forall s :: s in before ==> s in after && after[s] == before[s])
    && (forall s :: s in after && s !in before ==> Parse(s).Some? && Parse(s).value.TeamKey? && Parse(s).value.id in ids)
  }

  lemma {:induction false} AfterLookupsFrame(store: map<Id, Team>, cache: map<string, CacheValue>, ids: seq<Id>)
    ensures OnlyAddsTeamKeys(cache, AfterLookups(store, cache, ids), ids)
    decreases |ids|
  {
    if ids != [] && LookupError(store, ids[0]) == None {
      var c := AfterLookup(store, cache, ids[0]);
      ParseRender(TeamKey(ids[0]));
      AfterLookupsFrame(store, c, ids[1..]);
    }
  }

  lemma {:induction false} AfterSportChecksFrame(store: map<Id, Team>, cache: map<string, CacheValue>,
                                                 ids: seq<Id>, sport: string)
    ensures OnlyAddsTeamKeys(cache, AfterSportChecks(store, cache, ids, sport), ids)
    decreases |ids|
  {
    if ids != [] && LookupError(store, ids[0]) == None {
      var c := AfterLookup(store, cache, ids[0]);
      ParseRender(TeamKey(ids[0]));
      if store[ObjectIdString(ids[0])].sport == sport {
        AfterSportChecksFrame(store, c, ids[1..], sport);
      }
    }
  }
}
