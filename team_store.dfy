/**
 * The document-store contract the repository relies on: `find` with the
 * filters used in src/data/teams.js, and what a lookup by id through
 * `getTeamById` reports for a single id.
 */
module TeamStore {
  import opened Common
  import opened Collaborators
  import opened TeamData

  /** The filters passed to `find`. */
  datatype Query =
    | Everything              // find({})
    | HasPlayer(player: Id)   // find({ playerIds: player }): array containment
    | ManagedBy(manager: Id)  // find({ managerId: manager })
    | OfSport(sport: string)  // find({ sport: sport })
    | IdIn(ids: seq<Id>)      // find({ _id: { $in: ids } })

  predicate Matches(q: Query, t: Team)
  {
    match q
    case Everything => true
    case HasPlayer(p) => p in t.playerIds
    case ManagedBy(m) => t.managerId == m
    case OfSport(s) => t.sport == s
    case IdIn(ids) => t.id in ids
  }

  /**
   * `find(q).toArray()`: the stored teams that match `q`, in the
   * collection's natural order `order`.
   */
  function Find(order: seq<Id>, store: map<Id, Team>, q: Query): (r: seq<Team>)
    ensures |r| <= |order|
    ensures forall i :: 0 <= i < |r| ==> Matches(q, r[i]) && r[i] in store.Values
    ensures forall i :: 0 <= i < |order| && order[i] in store && Matches(q, store[order[i]])
              ==> store[order[i]] in r
  {
    if order == [] then []
    else
      var rest := Find(order[1..], store, q);
      assert forall i :: 1 <= i < |order| ==> order[i] == order[1..][i - 1];
      if order[0] in store && Matches(q, store[order[0]]) then [store[order[0]]] + rest else rest
  }

  /**
   * With every listed id stored, `find({})` lists the stored teams in
   * exactly the collection's natural order.
   */
  lemma {:induction false} FindAllInOrder(order: seq<Id>, store: map<Id, Team>)
    requires forall i :: 0 <= i < |order| ==> order[i] in store
    ensures |Find(order, store, Everything)| == |order|
    ensures forall i :: 0 <= i < |order| ==> Find(order, store, Everything)[i] == store[order[i]]
  {
    if order != [] {
      FindAllInOrder(order[1..], store);
    }
  }

  /**
   * `find({ _id: { $in: ids } })` on a keyed store covered by its order:
   * the team of every listed stored id is found, and every team found is
   * the stored team of a listed id.
   */
  lemma FindIdIn(order: seq<Id>, store: map<Id, Team>, ids: seq<Id>)
    requires forall k :: k in store ==> store[k].id == k && k in order
    ensures forall i :: 0 <= i < |ids| && ids[i] in store ==> store[ids[i]] in Find(order, store, IdIn(ids))
    ensures forall t :: t in Find(order, store, IdIn(ids)) ==> t.id in ids && t.id in store && store[t.id] == t
  {
    var list := Find(order, store, IdIn(ids));
    forall i | 0 <= i < |ids| && ids[i] in store
      ensures store[ids[i]] in list
    {
      var k :| 0 <= k < |order| && order[k] == ids[i];
      assert Matches(IdIn(ids), store[order[k]]);
    }
    forall t | t in list
      ensures t.id in ids && t.id in store && store[t.id] == t
    {
      var k :| 0 <= k < |list| && list[k] == t;
      var id :| id in store && store[id] == t;
    }
  }

  /**
   * A team id either resolves through `getTeamById` or the reason it does
   * not. The lookup `findOne({ _id: new ObjectId(id) })` finds the team
   * whose printed id is `id` in lower case.
   */
  function LookupError(store: map<Id, Team>, id: Id): (e: Option<Error>)
    ensures e == None <==> ValidId(id) && ObjectIdString(id) in store
  {
    if !ValidId(id) then Some(InvalidId)
    else if ObjectIdString(id) !in store then Some(NotFound)
    else None
  }

  /** Two spellings of the same object id, such as upper and lower case, look up alike. */
  lemma LookupIgnoresCase(store: map<Id, Team>, a: Id, b: Id)
    requires ObjectIdString(a) == ObjectIdString(b)
    ensures LookupError(store, a) == LookupError(store, b)
  {
    SameObjectIdSameValidity(a, b);
  }

  /** The error of the first id that does not resolve (the loop of `checkIdArray`). */
  function FirstLookupError(store: map<Id, Team>, ids: seq<Id>): (e: Option<Error>)
    ensures e == None <==> forall i :: 0 <= i < |ids| ==> LookupError(store, ids[i]) == None
  {
    if ids == [] then None
    else if LookupError(store, ids[0]).Some? then LookupError(store, ids[0])
    else
      assert forall i :: 1 <= i < |ids| ==> ids[i] == ids[1..][i - 1];
      FirstLookupError(store, ids[1..])
  }

  /** When every id before position `k` resolves, the error is that of `ids[k]`. */
  lemma {:induction false} FirstLookupErrorAt(store: map<Id, Team>, ids: seq<Id>, k: nat)
    requires k < |ids|
    requires forall j :: 0 <= j < k ==> LookupError(store, ids[j]) == None
    requires LookupError(store, ids[k]).Some?
    ensures FirstLookupError(store, ids) == LookupError(store, ids[k])
  {
    if k > 0 {
      assert forall j :: 0 <= j < k - 1 ==> ids[1..][j] == ids[j + 1];
      FirstLookupErrorAt(store, ids[1..], k - 1);
    }
  }

  /** Position `i` of the `checkIdArray` loop: a failing id decides the error, a resolving one defers to the rest. */
  lemma FirstLookupErrorFrom(store: map<Id, Team>, ids: seq<Id>, i: nat)
    requires i < |ids|
    ensures LookupError(store, ids[i]).Some? ==> FirstLookupError(store, ids[i..]) == LookupError(store, ids[i])
    ensures LookupError(store, ids[i]) == None ==> FirstLookupError(store, ids[i..]) == FirstLookupError(store, ids[i + 1..])
  {
    assert ids[i..][0] == ids[i];
    assert ids[i..][1..] == ids[i + 1..];
  }

  /** What the loop body of `teamsMatchSport` reports for one id. */
  function SportError(store: map<Id, Team>, id: Id, sport: string): (e: Option<Error>)
    ensures e == None <==> LookupError(store, id) == None && store[ObjectIdString(id)].sport == sport
  {
    if LookupError(store, id).Some? then LookupError(store, id)
    else
      var t := store[ObjectIdString(id)];
      if t.sport != sport then Some(SportMismatch(t.name, t.sport, sport)) else None
  }

  /** The error of the first id that does not resolve to a team of `sport`. */
  function FirstSportError(store: map<Id, Team>, ids: seq<Id>, sport: string): (e: Option<Error>)
    ensures e == None <==> forall i :: 0 <= i < |ids| ==> SportError(store, ids[i], sport) == None
  {
    if ids == [] then None
    else if SportError(store, ids[0], sport).Some? then SportError(store, ids[0], sport)
    else
      assert forall i :: 1 <= i < |ids| ==> ids[i] == ids[1..][i - 1];
      FirstSportError(store, ids[1..], sport)
  }

  /**
   * The first offending team decides the error, whatever follows it: a
   * team of another sport is named even when later teams would match.
   */
  lemma {:induction false} FirstSportErrorAt(store: map<Id, Team>, ids: seq<Id>, sport: string, k: nat)
    requires k < |ids|
    requires forall j :: 0 <= j < k ==> SportError(store, ids[j], sport) == None
    requires SportError(store, ids[k], sport).Some?
    ensures FirstSportError(store, ids, sport) == SportError(store, ids[k], sport)
  {
    if k > 0 {
      assert forall j :: 0 <= j < k - 1 ==> ids[1..][j] == ids[j + 1];
      FirstSportErrorAt(store, ids[1..], sport, k - 1);
    }
  }

  /** Position `i` of the `teamsMatchSport` loop: an offending id decides the error, a matching one defers to the rest. */
  lemma FirstSportErrorFrom(store: map<Id, Team>, ids: seq<Id>, sport: string, i: nat)
    requires i < |ids|
    ensures SportError(store, ids[i], sport).Some? ==>
      FirstSportError(store, ids[i..], sport) == SportError(store, ids[i], sport)
    ensures SportError(store, ids[i], sport) == None ==>
      FirstSportError(store, ids[i..], sport) == FirstSportError(store, ids[i + 1..], sport)
  {
    assert ids[i..][0] == ids[i];
    assert ids[i..][1..] == ids[i + 1..];
  }
}
