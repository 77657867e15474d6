/**
 * The list of teams shown by src/app/teams/page.jsx: the teams of the
 * selected sport, cut into pages of `teamsPerPage`, and the two state
 * updates that move between pages and change the page size.
 */
module TeamsPage {
  import opened Common
  import opened Collaborators
  import opened TeamData

  /** The filter value that selects every sport. */
  const AllSports := "All"

  /** `a` is `b` with some elements left out, the rest in their order. */
  ghost predicate IsSubsequence<T>(a: seq<T>, b: seq<T>)
    decreases |b|
  {
    a == [] || (b != [] && ((a[0] == b[0] && IsSubsequence(a[1..], b[1..])) || IsSubsequence(a, b[1..])))
  }

  /** `teams.filter((team) => team.sport === sport)`. */
  function SportFilter(teams: seq<Team>, sport: string): (r: seq<Team>)
    ensures forall i :: 0 <= i < |r| ==> r[i].sport == sport
    ensures |r| <= |teams|
  {
    if teams == [] then []
    else
      var rest := SportFilter(teams[1..], sport);
      if teams[0].sport == sport then [teams[0]] + rest else rest
  }

  /**
   * The filter keeps every occurrence of a team of the sport and drops
   * every other team.
   */
  lemma {:induction false} SportFilterCounts(teams: seq<Team>, sport: string, t: Team)
    ensures multiset(SportFilter(teams, sport))[t] == if t.sport == sport then multiset(teams)[t] else 0
  {
    if teams != [] {
      SportFilterCounts(teams[1..], sport, t);
      assert teams == [teams[0]] + teams[1..];
    }
  }

  /** The filter keeps the teams it keeps in their original order. */
  lemma {:induction false} SportFilterIsSubsequence(teams: seq<Team>, sport: string)
    ensures IsSubsequence(SportFilter(teams, sport), teams)
  {
    if teams != [] {
      SportFilterIsSubsequence(teams[1..], sport);
    }
  }

  /** Filtering a list whose teams all have the sport gives it back. */
  lemma {:induction false} SportFilterKeepsMatching(teams: seq<Team>, sport: string)
    requires forall i :: 0 <= i < |teams| ==> teams[i].sport == sport
    ensures SportFilter(teams, sport) == teams
  {
    if teams != [] {
      assert forall i :: 0 <= i < |teams[1..]| ==> teams[1..][i] == teams[i + 1];
      SportFilterKeepsMatching(teams[1..], sport);
    }
  }

  /** `filteredTeams` (page.jsx lines 49-50). */
  function FilteredTeams(teams: seq<Team>, selectedSport: string): (r: seq<Team>)
    ensures selectedSport == AllSports ==> r == teams
    ensures selectedSport != AllSports ==> forall i :: 0 <= i < |r| ==> r[i].sport == selectedSport
  {
    if selectedSport == AllSports then teams else SportFilter(teams, selectedSport)
  }

  /**
   * For a sport other than "All", `filteredTeams` holds exactly the teams
   * of that sport, each as often as in `teams`, in their original order.
   */
  lemma FilteredTeamsExactly(teams: seq<Team>, selectedSport: string, t: Team)
    requires selectedSport != AllSports
    ensures var r := FilteredTeams(teams, selectedSport);
      && multiset(r)[t] == (if t.sport == selectedSport then multiset(teams)[t] else 0)
      && IsSubsequence(r, teams)
  {
    SportFilterCounts(teams, selectedSport, t);
    SportFilterIsSubsequence(teams, selectedSport);
  }

  function Min(a: int, b: int): int
  {
    if a <= b then a else b
  }

  /** How `Array.prototype.slice` resolves an index against a length. */
  function ClampIndex(i: int, len: nat): (r: nat)
    ensures r <= len
    ensures 0 <= i ==> r == Min(i, len)
    ensures i < 0 ==> r == if len + i < 0 then 0 else len + i
  {
    if i < 0 then (if len + i < 0 then 0 else len + i)
    else if i > len then len
    else i
  }

  /** `s.slice(start, end)`: negative indices count from the end, others are clamped. */
  function JsSlice<T>(s: seq<T>, start: int, end: int): (r: seq<T>)
    ensures 0 <= start <= end ==> r == s[Min(start, |s|)..Min(end, |s|)]
    ensures forall i :: 0 <= i < |r| ==> r[i] in s
  {
    var a := ClampIndex(start, |s|);
    var b := ClampIndex(end, |s|);
    if a < b then s[a..b] else []
  }

  /** Where page `page` of `perPage` teams ends in a list of `len` teams. */
  function PageEnd(page: int, perPage: int, len: nat): (b: nat)
    ensures b <= len
    ensures page * perPage >= 0 ==> b == Min(page * perPage, len)
  {
    if page * perPage < 0 then 0 else Min(page * perPage, len)
  }

  /** Each page ends where the previous one ended, or later. */
  lemma PageEndGrows(page: int, perPage: int, len: nat)
    requires page >= 1 && perPage >= 0
    ensures PageEnd(page - 1, perPage, len) <= PageEnd(page, perPage, len)
  {
    assert (page - 1) * perPage == page * perPage - perPage;
  }

  /** `currentTeams`: page `page` of `perPage` teams (page.jsx lines 52-54). */
  function CurrentTeams(filtered: seq<Team>, page: int, perPage: int): (r: seq<Team>)
    ensures page >= 1 && perPage >= 0 ==>
      r == filtered[PageEnd(page - 1, perPage, |filtered|)..PageEnd(page, perPage, |filtered|)]
    ensures forall i :: 0 <= i < |r| ==> r[i] in filtered
  {
    var indexOfLastTeam := page * perPage;
    var indexOfFirstTeam := indexOfLastTeam - perPage;
    assert indexOfFirstTeam == (page - 1) * perPage;
    assert page >= 1 && perPage >= 0 ==> indexOfFirstTeam >= 0;
    JsSlice(filtered, indexOfFirstTeam, indexOfLastTeam)
  }

  /** A page holds at most `perPage` teams, and none once it starts past the end. */
  lemma CurrentTeamsBounds(filtered: seq<Team>, page: int, perPage: int)
    requires page >= 1 && perPage >= 0
    ensures |CurrentTeams(filtered, page, perPage)| <= perPage
    ensures (page - 1) * perPage >= |filtered| ==> CurrentTeams(filtered, page, perPage) == []
  {
    assert (page - 1) * perPage == page * perPage - perPage;
  }

  /** `Math.ceil(len / perPage)`: the number of page buttons (page.jsx line 153). */
  function PageCount(len: nat, perPage: int): (r: nat)
    requires perPage >= 1
    ensures len <= r * perPage
    ensures r > 0 ==> (r - 1) * perPage < len
    ensures r == 0 <==> len == 0
  {
    var r := (len + perPage - 1) / perPage;
    var rem := (len + perPage - 1) % perPage;
    assert len + perPage - 1 == r * perPage + rem;
    assert (r - 1) * perPage == r * perPage - perPage;
    r
  }

  /** A prefix followed by the slice that starts where it stops is the longer prefix. */
  lemma PrefixThenSlice<T>(s: seq<T>, a: nat, b: nat)
    requires a <= b <= |s|
    ensures s[..a] + s[a..b] == s[..b]
  {
  }

  /** Pages 1 through `count`, one after the other. */
  function PagesUpTo(filtered: seq<Team>, perPage: int, count: nat): seq<Team>
  {
    if count == 0 then [] else PagesUpTo(filtered, perPage, count - 1) + CurrentTeams(filtered, count, perPage)
  }

  /** The first `count` pages are the teams up to where page `count` ends. */
  lemma {:induction false} PagesUpToIsPrefix(filtered: seq<Team>, perPage: int, count: nat)
    requires perPage >= 1
    ensures PagesUpTo(filtered, perPage, count) == filtered[..PageEnd(count, perPage, |filtered|)]
  {
    if count > 0 {
      PagesUpToIsPrefix(filtered, perPage, count - 1);
      PageEndGrows(count, perPage, |filtered|);
      var a := PageEnd(count - 1, perPage, |filtered|);
      var b := PageEnd(count, perPage, |filtered|);
      assert PagesUpTo(filtered, perPage, count) == filtered[..a] + filtered[a..b];
      PrefixThenSlice(filtered, a, b);
    }
  }

  /** The page buttons cover the list: pages 1 to the page count give back every team, in order. */
  lemma PagesCoverList(filtered: seq<Team>, perPage: int)
    requires perPage >= 1
    ensures PagesUpTo(filtered, perPage, PageCount(|filtered|, perPage)) == filtered
  {
    var n := PageCount(|filtered|, perPage);
    PagesUpToIsPrefix(filtered, perPage, n);
    assert PageEnd(n, perPage, |filtered|) == |filtered|;
  }

  /**
   * Rendering filters `currentTeams` by the selected sport a second time
   * (page.jsx lines 136-137); that filter removes nothing.
   */
  lemma SecondFilterIsIdentity(teams: seq<Team>, selectedSport: string, page: int, perPage: int)
    requires selectedSport != AllSports
    ensures var current := CurrentTeams(FilteredTeams(teams, selectedSport), page, perPage);
      SportFilter(current, selectedSport) == current
  {
    var current := CurrentTeams(FilteredTeams(teams, selectedSport), page, perPage);
    forall i | 0 <= i < |current|
      ensures current[i].sport == selectedSport
    {
      var f := FilteredTeams(teams, selectedSport);
      assert current[i] in f;
    }
    SportFilterKeepsMatching(current, selectedSport);
  }

  predicate IsDigit(c: char)
  {
    '0' <= c <= '9'
  }

  predicate AllDigits(s: string)
  {
    forall i :: 0 <= i < |s| ==> IsDigit(s[i])
  }

  /** The longest prefix of `s` made of decimal digits. */
  function LeadingDigits(s: string): (r: string)
    ensures |r| <= |s| && r == s[..|r|]
    ensures AllDigits(r)
    ensures |r| < |s| ==> !IsDigit(s[|r|])
  {
    if s != [] && IsDigit(s[0]) then
      var rest := LeadingDigits(s[1..]);
      assert forall i :: 0 <= i < |rest| ==> rest[i] == s[i + 1];
      [s[0]] + rest
    else []
  }

  /** The number a string of decimal digits denotes. */
  function DigitsValue(ds: string): nat
    requires AllDigits(ds)
  {
    if ds == [] then 0
    else DigitsValue(ds[..|ds| - 1]) * 10 + (ds[|ds| - 1] as int - '0' as int)
  }

  function SkipBlanks(s: string): (r: string)
    ensures |r| <= |s| && r == s[|s| - |r|..]
    ensures r != [] ==> !IsBlank(r[0])
  {
    if s != [] && IsBlank(s[0]) then SkipBlanks(s[1..]) else s
  }

  /**
   * `parseInt(value)` in base 10: leading blanks, an optional sign, then
   * the longest run of digits; `None` (NaN) when there is no digit.
   */
  function ParseInt(s: string): (r: Option<int>)
    ensures AllDigits(s) && s != [] ==> r == Some(DigitsValue(s))
    ensures (forall i :: 0 <= i < |s| ==> !IsDigit(s[i])) ==> r == None
  {
    var t := SkipBlanks(s);
    var negative := t != [] && t[0] == '-';
    var u := if t != [] && (t[0] == '-' || t[0] == '+') then t[1..] else t;
    assert u == s[|s| - |u|..];
    var ds := LeadingDigits(u);
    LeadingDigitsOfDigits(u);
    if ds == [] then None
    else
      assert IsDigit(s[|s| - |u|]);
      var magnitude: int := DigitsValue(ds);
      Some(if negative then -magnitude else magnitude)
  }

  /** The decimal numeral of `n`, as a `<select>` option value carries it. */
  function Decimal(n: nat): (s: string)
    ensures |s| >= 1 && AllDigits(s)
    ensures DigitsValue(s) == n
  {
    var last := [('0' as int + n % 10) as char];
    if n < 10 then last
    else
      var front := Decimal(n / 10);
      var s := front + last;
      assert s[..|s| - 1] == front;
      s
  }

  lemma {:induction false} LeadingDigitsOfDigits(s: string)
    ensures AllDigits(s) ==> LeadingDigits(s) == s
  {
    if s != [] {
      LeadingDigitsOfDigits(s[1..]);
    }
  }

  /** `parseInt` reads a numeral back as the number it was made from. */
  lemma ParseIntDecimal(n: nat)
    ensures ParseInt(Decimal(n)) == Some(n)
  {
    var s := Decimal(n);
    assert !IsBlank(s[0]) && s[0] != '-' && s[0] != '+';
    assert SkipBlanks(s) == s;
    LeadingDigitsOfDigits(s);
  }

  /** Every size the page offers (9, 10, 20, 30) is accepted by the range check. */
  lemma OfferedSizesAccepted(v: nat)
    requires v in [9, 10, 20, 30]
    ensures ParseInt(Decimal(v)) == Some(v) && 6 <= v <= 50
  {
    ParseIntDecimal(v);
  }

  /** The state of the page component: its `useState` variables. */
  class TeamsView {
    var teams: seq<Team>
    var selectedSport: string
    var currentPage: int
    var teamsPerPage: int

    /** The page size stays within the range the change handler enforces. */
    ghost predicate Valid()
      reads this
    {
      6 <= teamsPerPage <= 50
    }

    /** The initial state, once the fetched teams are in. */
    constructor (fetched: seq<Team>)
      ensures Valid()
      ensures teams == fetched && selectedSport == AllSports
      ensures currentPage == 1 && teamsPerPage == 9
    {
      teams, selectedSport := fetched, AllSports;
      currentPage, teamsPerPage := 1, 9;
    }

    /** `filteredTeams`: every team for "All", otherwise only teams of the selected sport. */
    function Filtered(): (r: seq<Team>)
      reads this
      ensures selectedSport == AllSports ==> r == teams
      ensures selectedSport != AllSports ==> forall i :: 0 <= i < |r| ==> r[i].sport == selectedSport
    {
      FilteredTeams(teams, selectedSport)
    }

    /** `currentTeams`: the current page of the filtered teams, at most `teamsPerPage` of them. */
    function Current(): (r: seq<Team>)
      reads this
      ensures forall i :: 0 <= i < |r| ==> r[i] in Filtered()
      ensures currentPage >= 1 && teamsPerPage >= 0 ==> |r| <= teamsPerPage
    {
      if currentPage >= 1 && teamsPerPage >= 0 then
        CurrentTeamsBounds(Filtered(), currentPage, teamsPerPage);
        CurrentTeams(Filtered(), currentPage, teamsPerPage)
      else CurrentTeams(Filtered(), currentPage, teamsPerPage)
    }

    /** The number of page buttons: just enough pages to show every filtered team. */
    function NumPages(): (r: nat)
      reads this
      requires Valid()
      ensures |Filtered()| <= r * teamsPerPage
      ensures r > 0 ==> (r - 1) * teamsPerPage < |Filtered()|
      ensures PagesUpTo(Filtered(), teamsPerPage, r) == Filtered()
    {
      PagesCoverList(Filtered(), teamsPerPage);
      PageCount(|Filtered()|, teamsPerPage)
    }

    /** The teams drawn on the page: the second filter changes nothing. */
    function Rendered(): (r: seq<Team>)
      reads this
      ensures r == Current()
    {
      if selectedSport == AllSports then Current()
      else
        SecondFilterIsIdentity(teams, selectedSport, currentPage, teamsPerPage);
        SportFilter(Current(), selectedSport)
    }

    /** `paginate`. */
    method Paginate(pageNumber: int)
      requires Valid()
      modifies this`currentPage
      ensures Valid()
      ensures currentPage == pageNumber
    {
      currentPage := pageNumber;
    }

    /** The sport `<select>`'s change handler. */
    method SelectSport(sport: string)
      requires Valid()
      modifies this`selectedSport
      ensures Valid()
      ensures selectedSport == sport
    {
      selectedSport := sport;
    }

    /** `handleItemsPerPageChange`: accept a parsed size only within 6..50. */
    method HandleItemsPerPageChange(value: string)
      requires Valid()
      modifies this`teamsPerPage
      ensures Valid()
      ensures ParseInt(value).Some? && 6 <= ParseInt(value).value <= 50 ==> teamsPerPage == ParseInt(value).value
      ensures !(ParseInt(value).Some? && 6 <= ParseInt(value).value <= 50) ==> teamsPerPage == old(teamsPerPage)
    {
      var newItemsPerPage := ParseInt(value);
      if newItemsPerPage.Some? && 6 <= newItemsPerPage.value <= 50 {
        teamsPerPage := newItemsPerPage.value;
      }
    }
  }
}
