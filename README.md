# Team repository and team list of TourneyPro, in Dafny

This project models two parts of the TourneyPro sports-team application.

1. **The team repository, `src/data/teams.js`.** This is a cached data-access layer:
   - a document store holds the teams;
   - a key/value cache holds the results of read queries;
   - every read except `getTeamsBySport` and the final query of `getListofTeams` goes through the cache;
   - every write validates its input, updates the store, flushes the whole cache and re-primes `team/{id}`.
2. **The team-list page, `src/app/teams/page.jsx`.** It filters teams by sport, cuts them into pages and updates the page and the page size.

The repository is the class `TeamRepository.Repository`. Its fields are:
- `store`: a map from id to team document;
- `order`: the collection's natural order, which `find` results follow;
- `cache`: a map from key strings to payloads.

Each operation of `exportedMethods` is a method. Each method states the exact new store and cache, and which error is raised when. Two invariants are kept by every method:
- `Valid()`: every stored team is well formed. Its `numPlayers == |playerIds|` and `numGames == numWins + numLosses`. Its name, sport and location passed validation. Ids match their keys, every key is a printed id (24 lower-case hexadecimal digits), and ids are distinct in `order`.
- `Coherent()`: every cache key is one of `allTeams`, `team/{id}`, `teamsByPlayer/{id}` or `teamsByManager/{id}`. Its value equals what the read behind that key would compute from the store now (`TeamCache.CacheCoherent`).

Pure functions on values give the per-team updates, the store queries, the key encoding and the page arithmetic. The lemmas about them carry the properties: patch semantics, counter updates, key round trip, coherence preserved by fills and re-primes, the all-or-nothing id checks, the filter's characterisation, the page bounds, pages that concatenate back to the list, and `parseInt` reading decimal numerals back.

Files:
- `common.dfy`: Option and Result.
- `collaborators.dfy`: stand-ins for the validation and user modules.
- `team_data.dfy`: the team record, patches, errors and per-team updates.
- `team_store.dfy`: the `find` filters and single-id lookups.
- `team_cache.dfy`: cache keys and coherence.
- `team_repository.dfy`: the repository.
- `teams_page.dfy`: the list page.

External collaborators appear as parameters or fixed state:
- The user collection is the constant map `users`, keyed by printed ids (`Collaborators.UsersKeyed`). A user lookup resolves an id the same case-insensitive way.
- `checkSport` and `checkLocation` accept the constant sets `sports` and `locations`.
- `checkId` accepts 24 hexadecimal digits in either case and returns its argument unchanged.
- `new ObjectId(id)` reads such a string case-insensitively, and `_id.toString()` prints it in lower case (`Collaborators.ObjectIdString`). The store is keyed by printed ids, so a lookup finds the team whose printed id is the supplied id in lower case. Cache keys embed the id as the caller wrote it (`team/${id}`), while the re-prime after a write uses the printed id.
- `checkString` accepts a string with a non-blank character.
- The id that `insertOne` generates is the parameter `insertedId`.
- The `validation` and `users` modules, the Mongo client and the Redis client are not part of this model.
- JSON serialisation to and from the cache is the identity.
- The fetched team list is the constructor argument of `TeamsPage.TeamsView`.

Two behaviours of `editTeam` are easy to misread, and the model follows the code in both:
- A string field (name, sport, location, manager) is validated and applied only when it is truthy (src/data/teams.js:130-147). A supplied empty name is ignored, not rejected.
- A supplied list of players is always validated and applied, even an empty one (src/data/teams.js:148). An empty list clears the players.

## Model

| member | source | states |
|---|---|---|
| `TeamRepository.Repository.GetAllTeams` | src/data/teams.js:9-24 | returns all stored teams in natural order; a hit leaves the cache as it was, a miss caches the list under `allTeams`; coherence kept |
| `TeamRepository.Repository.GetTeamById` | src/data/teams.js:25-42 | a malformed id fails with InvalidId and a missing one with NotFound, both leaving the cache unchanged; an id whose lower-case form is stored returns that team; a miss sets `team/{id}` (the key as supplied) to it and a hit leaves the cache unchanged (`AfterLookup`); coherence kept |
| `TeamRepository.RepeatedLookup` | src/data/teams.js:25-42 | two lookups in a row return the same result, and two lookups leave the cache exactly as one does: unchanged after a failure, and `AfterLookup` after a success, so the second call is a hit |
| `TeamRepository.Repository.FlushAndReprime` | src/data/teams.js:113-116 | after a write (also at lines 162-165, 182-185, 221-224, 242-245 and 262-265), the cache is flushed and holds exactly `team/{id}` with the stored team, and it is coherent |
| `TeamStore.LookupError` | src/data/teams.js:26-41 | a lookup succeeds exactly when the id is 24 hexadecimal digits and its lower-case form is a stored id; InvalidId is reported before NotFound |
| `TeamStore.LookupIgnoresCase` | src/data/teams.js:36 | two spellings of the same object id, such as upper and lower case, look up alike |
| `Collaborators.ObjectIdString` | src/data/teams.js:36 | the printed form of an object id: the same length, each hexadecimal digit in lower case |
| `Collaborators.ObjectIdStringIsPrinted` | src/data/teams.js:111-115 | a valid id converts to a printed id |
| `Collaborators.PrintedIdIsFixed` | src/data/teams.js:111-115 | a printed id is a valid id and converts to itself, so the re-prime key of a written team is its store key |
| `Collaborators.SameObjectIdSameValidity` | src/data/teams.js:26-36 | two ids with the same printed form are both valid or both invalid |
| `TeamCache.AfterLookupsFrame` | src/data/teams.js:193-199 | the lookups of `checkIdArray` keep every cache entry and add only `team/{id}` entries for listed ids |
| `TeamCache.AfterLookupsAt` | src/data/teams.js:193-199 | at each position of the loop a failing id stops the lookups with the cache unchanged and a resolving one fills its key and moves on |
| `TeamStore.FirstLookupErrorFrom` | src/data/teams.js:193-199 | at each position a failing id decides the error and a resolving one defers to the rest of the list |
| `TeamRepository.Repository.GetTeamsByPlayer` | src/data/teams.js:43-61 | InvalidId for a malformed id; otherwise the stored teams whose players include the id, cached under `teamsByPlayer/{id}` |
| `TeamRepository.Repository.GetTeamsByManager` | src/data/teams.js:62-80 | InvalidId for a malformed id; otherwise the stored teams with that manager, cached under `teamsByManager/{id}` |
| `TeamRepository.Repository.CreateTeam` | src/data/teams.js:81-118 | the first failing validation decides the error, and a failure leaves store and cache untouched; on success the new team is `NewTeam(...)`, it is added to the store and to the end of the natural order, and the cache holds exactly `team/{id}` with it |
| `TeamData.CreateInputError` | src/data/teams.js:82-90 | no error exactly when the name, sport and location are valid, the manager exists and every player exists; a bad name is reported first |
| `TeamData.NewTeam` | src/data/teams.js:92-105 | the created team carries the inputs, has `numPlayers == |playerIds|`, zero games, wins, losses and tournaments, and is active |
| `TeamData.NewTeamWellFormed` | src/data/teams.js:83-105 | a team built from validated inputs is well formed |
| `TeamRepository.Repository.EditTeam` | src/data/teams.js:119-167 | InvalidId, then NotFound, then the first failing field validation, and failures change nothing; on success the team under the printed id becomes `ApplyPatch(old, p)` with a supplied manager replaced by the printed id of the user found, and the cache holds exactly `team/{printed id}` with it |
| `TeamData.PatchError` | src/data/teams.js:128-153 | no error exactly when every supplied field is valid and every supplied manager or player resolves to a user |
| `TeamData.WithResolvedManager` | src/data/teams.js:143-146 | a supplied manager is replaced by the id of the user record found for it; every other field of the patch is unchanged |
| `TeamData.ResolvedManagerIsPrinted` | src/data/teams.js:143-146 | with users keyed by printed id, the written manager is the printed form of the supplied one, and the resolved patch still validates |
| `TeamData.ApplyPatch` | src/data/teams.js:129-159 | supplied truthy fields replace the stored ones and the others keep their value; a supplied player list sets `numPlayers` to its length; id, counters and `active` are unchanged; consistency is preserved |
| `TeamData.IgnoredPatchIsIdentity` | src/data/teams.js:129-159 | a patch with no usable field (every string absent or empty, no player list) leaves any team unchanged |
| `TeamData.ApplyPatchIdempotent` | src/data/teams.js:129-159 | applying a patch twice equals applying it once |
| `TeamData.ApplyPatchWellFormed` | src/data/teams.js:128-158 | a validated patch keeps a well-formed team well formed |
| `TeamRepository.Repository.ToggleActive` | src/data/teams.js:168-187 | fails exactly when the id is malformed or not stored, changing nothing; otherwise the team under the printed id becomes `Toggled(old)` and the cache holds exactly `team/{printed id}` with it |
| `TeamData.Toggled` | src/data/teams.js:173-174 | `active` is negated and every other field is unchanged |
| `TeamData.ToggledTwice` | src/data/teams.js:173-174 | toggling twice restores the team |
| `TeamRepository.Repository.CheckIdArray` | src/data/teams.js:188-202 | SizeMismatch, with the cache untouched, when the length differs from the bracket size; otherwise the error of the first id that does not resolve; otherwise the list itself; the cache is exactly what the lookups up to the first failure leave (`AfterLookups`) |
| `TeamRepository.Repository.LookUpEach` | src/data/teams.js:193-199 | the loop reports exactly the error of the first id that does not resolve, or none when every id resolves; the cache is exactly `AfterLookups` of the ids; the store and the invariants are kept |
| `TeamStore.FirstLookupError` | src/data/teams.js:193-199 | no error exactly when every id is well formed and stored |
| `TeamStore.FirstLookupErrorAt` | src/data/teams.js:193-199 | when all ids before position k resolve and `ids[k]` does not, the error is that of `ids[k]` |
| `TeamRepository.Repository.AddPlayer` | src/data/teams.js:203-227 | the intended behaviour: the first failing check among player id, player existence, team id and team existence decides the error and changes nothing; on success the player is appended, `numPlayers` is recounted, and the cache holds exactly `team/{printed id}` |
| `TeamRepository.AddPlayerError` | src/data/teams.js:204-210 | no error exactly when both ids are well formed, the player exists and the team is stored |
| `TeamData.WithPlayer` | src/data/teams.js:212-213 | the player list gains the player at its end, `numPlayers` becomes the new length, and nothing else changes |
| `TeamRepository.AddPlayerAsWritten` | src/data/teams.js:203-215 | the code as written never succeeds; with two well-formed ids it fails with a type error |
| `TeamRepository.AddPlayerAsWrittenFails` | src/data/teams.js:205-212 | for a stored team and an existing player the intended operation has no error while the written one fails |
| `TeamRepository.Repository.AddWin` | src/data/teams.js:228-247 | fails exactly when the id is malformed or not stored; otherwise the team under the printed id becomes `WithWin(old)` and the cache holds exactly `team/{printed id}` |
| `TeamData.WithWin` | src/data/teams.js:233-235 | `numGames` and `numWins` grow by exactly one, `numLosses` and all other fields are unchanged |
| `TeamRepository.Repository.AddLoss` | src/data/teams.js:248-267 | fails exactly when the id is malformed or not stored; otherwise the team under the printed id becomes `WithLoss(old)` and the cache holds exactly `team/{printed id}` |
| `TeamData.WithLoss` | src/data/teams.js:253-255 | `numGames` and `numLosses` grow by exactly one, `numWins` and all other fields are unchanged |
| `TeamData.WinLossCommute` | src/data/teams.js:233-255 | a win then a loss gives the same team as a loss then a win |
| `TeamRepository.Repository.GetTeamsPlayers` | src/data/teams.js:268-274 | a failed team lookup is propagated with the cache unchanged; otherwise it succeeds exactly when every player resolves, returns the user record of each player in order, and leaves the cache as one lookup of the team does |
| `Collaborators.PlayersOf` | src/data/teams.js:271 | one user record per id, position by position, found under the id's printed form |
| `Collaborators.PlayersOfKeyed` | src/data/teams.js:271 | with users keyed by printed id, each returned record has the printed form of the requested id |
| `TeamRepository.Repository.GetListOfTeams` | src/data/teams.js:275-283 | fails as `checkIdArray` does, with its cache; otherwise returns the stored teams, in natural order, whose printed id is among the listed ids converted to object ids; every listed id's team is in the result and nothing else is |
| `TeamRepository.ToObjectIds` | src/data/teams.js:277-279 | the loop replaces each listed id by its object id, here the printed form, position by position |
| `Collaborators.ObjectIdStrings` | src/data/teams.js:277-279 | the printed form of every id, position by position |
| `TeamStore.FindIdIn` | src/data/teams.js:281 | a query by a list of ids returns every stored team whose id is listed and nothing else |
| `TeamRepository.Repository.GetTeamsBySport` | src/data/teams.js:284-289 | an unknown sport fails validation; otherwise every stored team of that sport and only those, with the cache not consulted |
| `TeamRepository.Repository.TeamsMatchSport` | src/data/teams.js:290-300 | an unknown sport fails validation with the cache untouched; otherwise the error for the first id that does not resolve or names a team of another sport; otherwise the list itself; the cache is exactly `AfterSportChecks`, which includes the offending team's own lookup |
| `TeamRepository.Repository.CheckEachSport` | src/data/teams.js:292-298 | the loop reports exactly the error for the first id that does not resolve or names a team of another sport, or none when all match; the cache is exactly `AfterSportChecks` of the ids |
| `TeamStore.SportError` | src/data/teams.js:293-297 | an id passes exactly when it resolves and its team has the sport |
| `TeamStore.FirstSportErrorFrom` | src/data/teams.js:292-298 | at each position an offending id decides the error and a matching one defers to the rest of the list |
| `TeamCache.AfterSportChecksAt` | src/data/teams.js:292-298 | at each position a failed lookup stops with the cache unchanged, a team of another sport stops after its lookup filled the cache, and a match moves on |
| `TeamCache.AfterSportChecksFrame` | src/data/teams.js:292-298 | the lookups of `teamsMatchSport` keep every cache entry and add only `team/{id}` entries for listed ids |
| `TeamStore.FirstSportError` | src/data/teams.js:292-298 | no error exactly when every id resolves to a team of the sport |
| `TeamStore.FirstSportErrorAt` | src/data/teams.js:292-298 | the first offending team decides the error whatever follows it |
| `TeamStore.Find` | src/data/teams.js:19 | every result matches the filter and is a stored team; every stored team in the order that matches is in the result |
| `TeamStore.FindAllInOrder` | src/data/teams.js:19 | an unfiltered query returns every team of the natural order once, position by position |
| `TeamCache.ParseRender` | src/data/teams.js:11-65 | every cache key string reads back as the key it was built from, so the four key families never collide |
| `TeamCache.Expected` | src/data/teams.js:9-80 | what a miss computes for each key: a team key has a value exactly when its id resolves, and the list keys always have a list |
| `TeamCache.RenderInjective` | src/data/teams.js:11-65 | distinct keys render to distinct strings |
| `TeamCache.CachedIsExpected` | src/data/teams.js:29-33 | a hit on an agreeing entry returns exactly what a miss would compute |
| `TeamCache.FillKeepsCoherent` | src/data/teams.js:38 | filling a key with its expected value keeps a coherent cache coherent |
| `TeamCache.ReprimeIsCoherent` | src/data/teams.js:113-116 | after a flush, the cache holding only `team/{id}` with the stored team is coherent |
| `TeamCache.AbsentTeamNotCached` | src/data/teams.js:36-37 | a coherent cache has no entry for an id that is not stored |
| `TeamsPage.SportFilter` | src/app/teams/page.jsx:50 | every kept team has the sport, and the result is no longer than the input |
| `TeamsPage.SportFilterCounts` | src/app/teams/page.jsx:50 | each team occurs in the result as often as in the input if it has the sport, and not at all otherwise |
| `TeamsPage.SportFilterIsSubsequence` | src/app/teams/page.jsx:50 | the result is a subsequence of the input, so the kept teams stay in order |
| `TeamsPage.FilteredTeams` | src/app/teams/page.jsx:49-50 | for "All" the list itself; otherwise only teams of the selected sport |
| `TeamsPage.FilteredTeamsExactly` | src/app/teams/page.jsx:49-50 | with a sport selected, each team of that sport is kept as often as it occurs, every other team is dropped, and the order is the original one |
| `TeamsPage.SportFilterKeepsMatching` | src/app/teams/page.jsx:136-137 | filtering a list whose teams all have the sport returns it unchanged |
| `TeamsPage.JsSlice` | src/app/teams/page.jsx:54 | for non-negative bounds, the elements between them clamped to the length; every element comes from the input |
| `TeamsPage.PageEnd` | src/app/teams/page.jsx:52-53 | where a page ends: for a non-negative `page * perPage`, that product clamped to the list length; never past the length |
| `TeamsPage.CurrentTeams` | src/app/teams/page.jsx:52-54 | for page p >= 1 it is the list between where page p-1 ends and where page p ends; every team comes from the list |
| `TeamsPage.CurrentTeamsBounds` | src/app/teams/page.jsx:52-54 | a page has at most n teams and is empty once (p-1)*n reaches the length |
| `TeamsPage.PageCount` | src/app/teams/page.jsx:153 | the ceiling of len/n: enough pages to hold every team, no spare page, and zero exactly for an empty list |
| `TeamsPage.PagesUpToIsPrefix` | src/app/teams/page.jsx:52-54 | pages 1 to k, concatenated, are the list up to where page k ends (the first k*n teams, clamped) |
| `TeamsPage.PagesCoverList` | src/app/teams/page.jsx:153 | pages 1 to the page count, concatenated, give back the filtered list exactly |
| `TeamsPage.SecondFilterIsIdentity` | src/app/teams/page.jsx:136-137 | filtering the current page by the selected sport again removes nothing |
| `TeamsPage.TeamsView.Rendered` | src/app/teams/page.jsx:123-149 | the teams drawn equal `currentTeams` for every selection |
| `TeamsPage.TeamsView.Filtered` | src/app/teams/page.jsx:49-50 | `filteredTeams` of the view: every team for "All", otherwise only teams of the selected sport |
| `TeamsPage.TeamsView.Current` | src/app/teams/page.jsx:52-54 | `currentTeams` of the view: every team comes from the filtered list, and a page has at most `teamsPerPage` teams |
| `TeamsPage.TeamsView.NumPages` | src/app/teams/page.jsx:153 | just enough page buttons: the pages hold every filtered team, no spare page, and pages 1 to that count give back the filtered list |
| `TeamsPage.Decimal` | src/app/teams/page.jsx:114-118 | a non-empty digit string denoting n |
| `TeamsPage.ParseInt` | src/app/teams/page.jsx:61 | `parseInt` of a non-empty digit string is its decimal value, and of a string without any digit is NaN |
| `TeamsPage.LeadingDigitsOfDigits` | src/app/teams/page.jsx:61 | a string of digits is read whole |
| `TeamsPage.ParseIntDecimal` | src/app/teams/page.jsx:61 | `parseInt` of the decimal numeral of n is n |
| `TeamsPage.OfferedSizesAccepted` | src/app/teams/page.jsx:114-118 | every page size the menu offers parses to itself and lies in 6..50 |
| `TeamsPage.TeamsView.constructor` | src/app/teams/page.jsx:12-17 | initial state: all sports, page 1, nine per page |
| `TeamsPage.TeamsView.Paginate` | src/app/teams/page.jsx:56-58 | the current page becomes the given number; the page-size range is kept |
| `TeamsPage.TeamsView.SelectSport` | src/app/teams/page.jsx:91 | the selected sport becomes the given one; the page-size range is kept |
| `TeamsPage.TeamsView.HandleItemsPerPageChange` | src/app/teams/page.jsx:60-65 | the page size becomes the parsed value exactly when it parses and lies in 6..50; otherwise, a non-numeric value included, it is unchanged; the size stays in range |

## Left out

- Connections: `teams()`, `getRedisClient` and `disconnect` are not modelled, and neither is the missing `disconnect` on the throw at src/data/teams.js:37.
- Serialisation: the cache payloads are the values themselves, with no JSON strings.
- Store and cache failures: the model has no network or database error and no failed `FLUSHALL` or `SET`.
- Update failures: the "Could not update the team" throws (src/data/teams.js:161, 181, 221, 241, 261) cannot happen in a sequential model, because the team was found just before the update. The model has no such error.
- Null checks: the `if (!team)` checks after `getTeamById` (src/data/teams.js:172, 231, 251, 270, 294) cannot fire, because `getTeamById` throws first.
- Concurrency: interleaved callers, lost updates on the counters, and a flush evicting another caller's fill are not modelled.
- Messages: thrown strings are error kinds. The message texts are not kept, including the `Error: ` prefix that `createTeam` and `checkIdArray` add.
- Normalisation: `validation` is not part of this model. Its checks are modelled as accept-or-fail and return their argument unchanged, so trimming is not modelled. The id format (24 hexadecimal digits) and the name rule (a non-blank character) are assumptions.
- Users: the `users` module is not part of this model. `getListOfPlayers` is modelled to fail exactly when some player is missing. The user collection is assumed keyed by printed ids, and `getUserById` is assumed to resolve an id case-insensitively, as the team lookups do.
- Insert ids: the store's id generation is the parameter `insertedId`. A missing id, one that is not a printed id, or one already in use is modelled as InsertFailed, which stands for both "Insert failed!" and a duplicate-key error.
- Array check: the check at src/data/teams.js:192 is not modelled, because the model's argument is always a list.
- `TeamRepository.Repository.GetListOfTeams`: object ids are modelled by their printed strings, not as a separate type. The loop at src/data/teams.js:277-279 writes the converted ids back into the array returned by `checkIdArray`, which is the caller's own array; this aliasing is not modelled.
- `TeamRepository.Repository.AddPlayer`: models the evident intent (await both lookups, use the team collection). The behaviour as written is `TeamRepository.AddPlayerAsWritten`. Its detached promises are not modelled, because they are concurrent: `getTeamById` (src/data/teams.js:209) may still fill the cache later, and `getUserById` (src/data/teams.js:205) rejects unobserved when the user is missing.
- `TeamData.NewTeam`: `profilePicture: undefined` is modelled as an absent value.
- Counter range: JavaScript numbers are exact only up to 2^53. The counters are unbounded naturals.
- `TeamRepository.Repository.GetTeamById`: does not count store queries. A hit returns the cached value and leaves the cache unchanged, which is the model's form of "the store is not queried again".
- `TeamsPage.ParseInt`: its contract covers digit strings and strings without digits; signs and blanks are modelled in the body only. It reads decimal digits only, so a `0x` prefix is read as 0. Only space, tab, line feed and carriage return count as leading blanks, and there is no rounding beyond 2^53.
- `TeamsPage.TeamsView.NumPages`: requires a page size of at least 1, which the view's invariant keeps (6..50). `Math.ceil` of a division by zero cannot arise.
- Component code: the data fetches, loading flags, session checks, effects and JSX of src/app/teams/page.jsx are not modelled.
- Other files: src/middleware.js, src/app/teams/create/page.jsx, src/app/teams/[id]/edit/page.jsx and front/src/app/_app.tsx are UI, routing or provider glue and are not modelled.

## Findings

| source | as written | input that shows it | evidently intended | confidence | as-written member | corrected member |
|---|---|---|---|---|---|---|
| src/data/teams.js:205-215 | `getUserById` and `getTeamById` are called without `await`, so `team` is a promise; `team.playerIds.push` throws a TypeError, and `teamCollection` is never declared | any well-formed id of a stored team with any well-formed id of an existing user | await both lookups, append the player, recount `numPlayers`, write back through the team collection, then flush and re-prime | not executed | `TeamRepository.AddPlayerAsWritten` (with `TeamRepository.AddPlayerAsWrittenFails`) | `TeamRepository.Repository.AddPlayer` |
