/**
 * Stand-ins for the collaborators the team repository calls but that are
 * not part of this model: the `validation` module and the `users` data
 * module. Each check either accepts its argument unchanged or makes the
 * calling operation fail.
 */
module Collaborators {

  /** Identifiers travel as the string form of a store object id. */
  type Id = string

  predicate IsHexDigit(c: char)
  {
    ('0' <= c <= '9') || ('a' <= c <= 'f') || ('A' <= c <= 'F')
  }

  /** `validation.checkId`: a well-formed object id is 24 hexadecimal digits, in either case. */
  predicate ValidId(s: string)
  {
    |s| == 24 && forall i :: 0 <= i < |s| ==> IsHexDigit(s[i])
  }

  predicate IsLowerHexDigit(c: char)
  {
    ('0' <= c <= '9') || ('a' <= c <= 'f')
  }

  /** An id as the store prints it (`_id.toString()`): 24 lower-case hexadecimal digits. */
  predicate IsPrintedId(s: string)
  {
    |s| == 24 && forall i :: 0 <= i < |s| ==> IsLowerHexDigit(s[i])
  }

  function LowerHex(c: char): char
  {
    if 'A' <= c <= 'F' then (c as int - 'A' as int + 'a' as int) as char else c
  }

  /**
   * `new ObjectId(s).toString()`: an object id reads its hexadecimal digits
   * in either case and prints them in lower case.
   */
  function ObjectIdString(s: string): (r: string)
    ensures |r| == |s|
    ensures forall i :: 0 <= i < |s| ==> r[i] == LowerHex(s[i])
  {
    if s == [] then [] else [LowerHex(s[0])] + ObjectIdString(s[1..])
  }

  /** A well-formed id converts to a printed id. */
  lemma ObjectIdStringIsPrinted(s: string)
    requires ValidId(s)
    ensures IsPrintedId(ObjectIdString(s))
  {
    var r := ObjectIdString(s);
    forall i | 0 <= i < |r|
      ensures IsLowerHexDigit(r[i])
    {
      assert IsHexDigit(s[i]);
    }
  }

  /** A printed id is well formed and converts to itself. */
  lemma PrintedIdIsFixed(s: string)
    requires IsPrintedId(s)
    ensures ValidId(s) && ObjectIdString(s) == s
  {
    var r := ObjectIdString(s);
    forall i | 0 <= i < |s|
      ensures r[i] == s[i]
    {
      assert IsLowerHexDigit(s[i]);
    }
  }

  /** Two spellings of one object id are both well formed or both not. */
  lemma SameObjectIdSameValidity(a: string, b: string)
    requires ObjectIdString(a) == ObjectIdString(b)
    ensures ValidId(a) <==> ValidId(b)
  {
    var r := ObjectIdString(a);
    forall i | 0 <= i < |a|
      ensures IsHexDigit(a[i]) <==> IsHexDigit(b[i])
    {
      assert r[i] == LowerHex(a[i]) == LowerHex(b[i]);
    }
  }

  /** `ObjectIdStrings(ids)[i]` is `new ObjectId(ids[i]).toString()`. */
  function ObjectIdStrings(ids: seq<Id>): (r: seq<Id>)
    ensures |r| == |ids|
    ensures forall i :: 0 <= i < |ids| ==> r[i] == ObjectIdString(ids[i])
  {
    seq(|ids|, i requires 0 <= i < |ids| => ObjectIdString(ids[i]))
  }

  predicate IsBlank(c: char)
  {
    c == ' ' || c == '\t' || c == '\n' || c == '\r'
  }

  /** `validation.checkString`: a string with at least one non-blank character. */
  predicate ValidName(s: string)
  {
    exists i :: 0 <= i < |s| && !IsBlank(s[i])
  }

  /** `validation.checkSport` / `validation.checkLocation`: membership of a fixed domain. */
  predicate InDomain(s: string, domain: set<string>)
  {
    s in domain
  }

  /** A user record; only its identifier matters to the team repository. */
  datatype User = User(id: Id)

  /**
   * `userData.getUserById` succeeds exactly for a well-formed id that spells,
   * in either case, the object id of an existing user.
   */
  predicate UserExists(users: map<Id, User>, id: Id)
  {
    ValidId(id) && ObjectIdString(id) in users
  }

  /** The user collection is keyed by each user's printed id. */
  predicate UsersKeyed(users: map<Id, User>)
  {
    forall k :: k in users ==> users[k].id == k && IsPrintedId(k)
  }

  /** `userData.checkIdArray` succeeds exactly when every id names an existing user. */
  predicate AllUsersExist(users: map<Id, User>, ids: seq<Id>)
  {
    forall i :: 0 <= i < |ids| ==> UserExists(users, ids[i])
  }

  /** `userData.getListOfPlayers`: the user record of every id, in order. */
  function PlayersOf(users: map<Id, User>, ids: seq<Id>): (r: seq<User>)
    requires AllUsersExist(users, ids)
    ensures |r| == |ids|
    ensures forall i :: 0 <= i < |ids| ==> r[i] == users[ObjectIdString(ids[i])]
  {
    if ids == [] then [] else [users[ObjectIdString(ids[0])]] + PlayersOf(users, ids[1..])
  }

  /** With a keyed collection, every player found carries the printed form of the id asked for. */
  lemma PlayersOfKeyed(users: map<Id, User>, ids: seq<Id>)
    requires UsersKeyed(users) && AllUsersExist(users, ids)
    ensures forall i :: 0 <= i < |ids| ==> PlayersOf(users, ids)[i].id == ObjectIdString(ids[i])
  {
  }
}
