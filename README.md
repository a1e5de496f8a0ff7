# Name-swap rating engine in Dafny

This project models the rating and ranking engine of the name-swap app. The engine is the name provider in
`src/context/NameContext.tsx`. Users compare two names at a time. Every comparison (a *vote*) is logged.
Ratings follow the Elo rule: every name starts at 1200, and the step factor is 32.

The model covers:

- **Elo update** (`calculateElo`). The rating function.
- **Replay of the log** (`calculateAndApplyEloRatings`, and the same loop inside `getUserRanking` and `getGroupRanking`).
  1. Every name starts from a baseline.
  2. The votes are sorted by timestamp with a stable sort.
  3. Each vote whose two ids are both known is folded through the rating function.
- **Live update on a new vote** (`addVote`). The vote is appended, and the live ratings of the two names it mentions are set.
- **Pair sampler** (`getNamePair`).
- **Three ranking views.** The global top list (`getTopNames`), the ranking of one user's personal votes, and the ranking of one group's votes. The last two fall back to the global top 100 when their filtered log is empty.
- **Group store** (`createGroup`, `joinGroup`, `getGroupById`, `setCurrentGroup`).

The modules follow the structure of the program:

- `Elo`: `calculateElo`. `Math.pow(10, ·)` is the parameter `pow: Pow10`, a positive function with `pow(0) == 1` and `pow(x) * pow(-x) == 1`.
- `Types`: `Name`, `Vote`, `Group`, `VoteResult`, and the last shown pair.
- `Sorting`: the stable `Array.prototype.sort` as an insertion sort by a key, and `Array.prototype.filter`.
- `Names`: lists of names, `find`, the `map` that sets one rating, and the id-keyed `Map` built from a list.
- `ReplayEngine`: the replay loop. `ApplyVotes` is the `forEach` loop over a `map`. It is proved against the specification `Fold`, and `Replay` is `Fold` over the sorted log.
- `Live`: the rating update of `addVote`. It is proved to agree with the replay: live ratings that match a replay of the log still match after a new latest vote.
- `Ranking`: `getTopNames`, the vote filters, and the scoped rankings.
- `Groups`: the group list operations.
- `Context`: the provider's state as the class `NameContext`. Its fields are the two name lists, the vote log, the groups, the selected group and the last pair. Its methods are the provider's operations.

Behaviour of the code that the model keeps:

- **Group votes change live ratings.** `addVote` updates the live ratings for every vote, group-tagged or not (`src/context/NameContext.tsx:196`). Loading replays the whole log, group votes included (line 123). So the live/replay agreement (`Live.AddVoteKeepsReplay`, `Live.LoadMatchesReplay`) covers the whole log.
- **The sampler compares ordered pairs.** It redraws only when a draw repeats the last *ordered* pair (lines 249-250). The reverse of the last pair is accepted.
- **The empty group id counts as personal.** The user view keeps a vote whose `groupId` is absent or `""`, because the test `!v.groupId` treats both as false (line 274).
- **Personal votes stay out of group rankings.** The group view keeps only the votes tagged with that group id, whoever cast them (line 316).
- **The group store has create, join and lookup only.**

## Model

| member | source | states |
|---|---|---|
| Elo.Expected | src/context/NameContext.tsx:64-65 | the expected score lies strictly between 0 and 1, and is exactly 1/2 at equal ratings |
| Elo.Scores | src/context/NameContext.tsx:67-78 | result 0 scores (1, 0), result 1 scores (0, 1), any other result (0.5, 0.5); the two scores add up to 1 |
| Elo.CalculateElo | src/context/NameContext.tsx:63-84 | each new rating is the old one plus 32 × (score − expected); a win raises the winner and lowers the loser; a tie at equal ratings changes nothing |
| Elo.EloSymmetric | src/context/NameContext.tsx:63-84 | swapping the two names and mirroring the result swaps the two new ratings |
| Elo.EloTieAtEqual | src/context/NameContext.tsx:64-81 | a tie (result 2) between equally rated names leaves both ratings unchanged |
| Elo.EloZeroSum | src/context/NameContext.tsx:63-84 | the two rating changes cancel out: the winner gains what the loser loses (the power function maps −x to the reciprocal of its value at x) |
| Elo.EloFirstVote | src/context/NameContext.tsx:59-84 | a left win between two names at 1200 gives 1216 and 1184 |
| Sorting.SortBy | src/context/NameContext.tsx:150-152 | the result is a permutation of the input, ordered by the key |
| Sorting.SortStable | src/context/NameContext.tsx:150-152 | for every key value, the elements with that key keep their input order (stability) |
| Sorting.SortOfSorted | src/context/NameContext.tsx:150-152 | an input already in key order is returned unchanged |
| Sorting.SortAppendLargest | src/context/NameContext.tsx:150-152 | an element whose key is at least every other key is sorted to the end and the rest is sorted as before |
| Sorting.Filter | src/context/NameContext.tsx:274 | the kept elements all satisfy the predicate, and there are no more of them than in the input |
| Sorting.FilterCount | src/context/NameContext.tsx:274 | an element that satisfies the predicate is kept as many times as it occurs in the input; any other element is dropped |
| Sorting.FilterConcat | src/context/NameContext.tsx:274 | filtering distributes over concatenation |
| Sorting.FilterComplete | src/context/NameContext.tsx:274 | every element that satisfies the predicate is kept |
| Sorting.FilterShrinks | src/context/NameContext.tsx:274 | the kept elements are a sub-multiset of the input |
| Sorting.FilterAll | src/context/NameContext.tsx:307 | when every element satisfies the predicate, filtering keeps the whole sequence |
| Names.Find | src/context/NameContext.tsx:193-194 | no result exactly when the id is absent; otherwise the first element of the list with that id |
| Names.FindIndex | src/context/NameContext.tsx:193-194 | the first index carrying the id, or −1 exactly when no element carries it |
| Names.SetElo | src/context/NameContext.tsx:200-202 | same length and ids; every entry with the id gets the new rating, every other entry is unchanged, and nothing but the rating changes |
| Names.NameMapOf | src/context/NameContext.tsx:144-147 | the map's keys are exactly the list's ids, and each entry is stored under its own id |
| Names.NameMapOfLast | src/context/NameContext.tsx:144-147 | the map holds, for each id, the last entry of the list with that id (later `set` calls overwrite earlier ones) |
| Names.BuildNameMap | src/context/NameContext.tsx:144-147 | the loop of `nameMap.set` calls leaves the map `NameMapOf` of the list |
| Names.NameMapAt | src/context/NameContext.tsx:146-147 | with unique ids, the map holds exactly the list's entry for each id |
| Names.FindIsMapEntry | src/context/NameContext.tsx:192-194 | with unique ids, `find` returns the entry the map holds for that id |
| Names.NameMapSetElo | src/context/NameContext.tsx:199-217 | setting the rating of an id in the list sets the rating of that id in the map and changes nothing else |
| Names.Reset | src/context/NameContext.tsx:281 | the same length and ids; each entry is the input's entry at the start rating |
| Names.ResetSameExceptElo | src/context/NameContext.tsx:281 | two lists that differ only in ratings are equal once reset to the start rating |
| ReplayEngine.Step | src/context/NameContext.tsx:155-166 | the same keys; only the ids the vote names may change, and only in rating; a vote with an unknown id changes nothing; otherwise the names get the `calculateElo` ratings, and for equal ids the second one wins |
| ReplayEngine.Fold | src/context/NameContext.tsx:155-167 | folding votes keeps the keys and changes nothing but ratings |
| ReplayEngine.Replay | src/context/NameContext.tsx:150-167 | the replay of a log keeps the map's keys and changes nothing but ratings |
| ReplayEngine.ApplyVotes | src/context/NameContext.tsx:155-167 | the `forEach` loop over the sorted votes computes exactly the fold of those votes |
| ReplayEngine.LookupAll | src/context/NameContext.tsx:170-171 | each name is replaced by its map entry when the map has its id, and kept otherwise; `ReplayEngine.LookupAllShape` and `Live.LookupAllRecoversMap` state what this preserves |
| ReplayEngine.ReplayNames | src/context/NameContext.tsx:142-175 | the lists are those of the replay of the whole log over the map of both lists, with the same ids in the same order; with unique ids only the ratings differ |
| ReplayEngine.LookupAllShape | src/context/NameContext.tsx:170-171 | the replayed lists keep the ids and their order; with unique ids nothing but ratings changes |
| ReplayEngine.FoldAppend | src/context/NameContext.tsx:155-167 | folding a log with one more vote is one more step after the fold of the log |
| ReplayEngine.FoldUntouched | src/context/NameContext.tsx:155-167 | a name that no applicable vote mentions keeps the entry it started with; a vote naming an unknown id is skipped (line 159) |
| ReplayEngine.ReplayUntouched | src/context/NameContext.tsx:146-167 | a name that no applicable logged vote mentions keeps its starting entry after the replay, even if skipped votes mention it |
| ReplayEngine.ReplayOrder | src/context/NameContext.tsx:150-155 | the replay folds a permutation of the log that is in timestamp order and keeps the log order among equal timestamps |
| ReplayEngine.ReplayChronological | src/context/NameContext.tsx:150-155 | a log already in timestamp order is replayed in log order |
| ReplayEngine.ReplayAppendLatest | src/context/NameContext.tsx:150-167 | a vote no older than every logged vote is replayed last, after the replay of the rest |
| Live.LiveUpdate | src/context/NameContext.tsx:192-217 | the same ids in both lists; nothing but ratings changes; a name the vote does not mention is unchanged; with an unknown id nothing changes |
| Live.LiveUpdateIsStep | src/context/NameContext.tsx:192-217 | on well-formed lists, the update of `addVote` keeps them well formed and is one step of the replay on their map |
| Live.AddVoteKeepsReplay | src/context/NameContext.tsx:178-218 | if the live ratings agree with a replay of the log, they still agree with a replay of the extended log after `addVote` with a vote no older than any logged one |
| Live.FormatNames | src/context/NameContext.tsx:105-117 | each label becomes a name of that gender with id `boy-`/`girl-` plus the label, at the start rating; `Live.FormattedUnique` states that the ids are unique |
| Live.FormattedUnique | src/context/NameContext.tsx:105-117 | distinct labels give distinct ids across both genders |
| Live.LookupAllRecoversMap | src/context/NameContext.tsx:170-171 | the replayed lists, turned back into a map, give the replay's map |
| Live.LoadMatchesReplay | src/context/NameContext.tsx:101-123 | loading gives well-formed lists whose ratings agree with a replay of the whole log from the start rating |
| Ranking.SortDesc | src/context/NameContext.tsx:266-267 | a permutation of the names sorted by rating, highest first |
| Ranking.SortDescStable | src/context/NameContext.tsx:267 | names of equal rating keep their list order |
| Ranking.SliceEnd | src/context/NameContext.tsx:268 | the end index of `slice(0, end)`: the non-negative end capped at the length, or the length plus a negative end, at least 0 |
| Ranking.TopNames | src/context/NameContext.tsx:264-269 | sorted highest first, length min(limit, length) for a non-negative limit, a prefix of the sorted list drawn from the names, and no name left out is rated above a name kept |
| Ranking.UserVotes | src/context/NameContext.tsx:274 | keeps the votes of this user that carry no group id (or an empty one), each as many times as it occurs in the log, and drops every other vote |
| Ranking.GroupVotes | src/context/NameContext.tsx:316 | keeps the votes tagged with the group id, whoever cast them, each as many times as it occurs in the log, and drops every other vote |
| Ranking.UserVotesConcat | src/context/NameContext.tsx:274 | the user filter of a joined log is the filter of the first part followed by the filter of the second (log order is kept) |
| Ranking.UserVotesSingleton | src/context/NameContext.tsx:274 | the user filter keeps one vote exactly when it is this user's personal vote, and of the empty log keeps nothing |
| Ranking.GroupVotesConcat | src/context/NameContext.tsx:316 | the group filter of a joined log is the filter of the first part followed by the filter of the second (log order is kept) |
| Ranking.GroupVotesSingleton | src/context/NameContext.tsx:316 | the group filter keeps one vote exactly when it is tagged with the group id, and of the empty log keeps nothing |
| Ranking.UserVotesIgnoreGroupVote | src/context/NameContext.tsx:274 | a vote tagged with a non-empty group id never enters a user's own filtered log |
| Ranking.GroupVotesIgnoreOtherVote | src/context/NameContext.tsx:316 | a vote not tagged with the group id never enters that group's filtered log |
| Ranking.OfGender | src/context/NameContext.tsx:307 | keeps names of the gender only, each as many times as it occurs in the list, and every name of the gender; a list all of that gender is kept whole |
| Ranking.OfGenderConcat | src/context/NameContext.tsx:307 | the gender filter of a joined list is the filter of the first part followed by the filter of the second (list order is kept) |
| Ranking.OfGenderSingleton | src/context/NameContext.tsx:307 | the gender filter keeps one name exactly when it has the gender, and of the empty list keeps nothing |
| Ranking.DistinctIds | src/context/NameContext.tsx:306 | each id once, exactly the ids of the input |
| Ranking.FirstIndex | src/context/NameContext.tsx:306 | the index of the first occurrence of an id: it holds the id, and no earlier index does |
| Ranking.DistinctIdsFirstOccurrence | src/context/NameContext.tsx:306 | the distinct ids come in the order of their first occurrences in the input, the key order of a `Map` |
| Ranking.DistinctIdsOfDistinct | src/context/NameContext.tsx:306 | distinct ids are their own first-occurrence order |
| Ranking.ValuesInOrder | src/context/NameContext.tsx:306 | the map values in the given key order; `Ranking.ReplayedRankingIsSortedRerating` states what the ranking built from them is |
| Ranking.ScopeMap | src/context/NameContext.tsx:281-303 | the scope's map has exactly the names' ids, each entry under its own id |
| Ranking.ReplayedRanking | src/context/NameContext.tsx:281-310 | the ranking built from a non-empty scope holds names of the gender only, sorted highest first |
| Ranking.SortDescKeepsGender | src/context/NameContext.tsx:307-309 | sorting names of one gender keeps them of that gender |
| Ranking.ScopedRanking | src/context/NameContext.tsx:276-310 | sorted highest first; with no scoped votes it is exactly the top 100 of the list |
| Ranking.Rerated | src/context/NameContext.tsx:281-303 | the names in list order, changed in rating only |
| Ranking.ReplayedRankingIsSortedRerating | src/context/NameContext.tsx:305-310 | with unique ids all of one gender, the replay branch is the names re-rated by the scope's votes, sorted highest first |
| Ranking.ReratedUntouched | src/context/NameContext.tsx:281-303 | a name that only skipped scoped votes mention, or none, is ranked at the start rating |
| Ranking.ResetMapRating | src/context/NameContext.tsx:281-283 | every entry of the map of a reset list is at the start rating |
| Ranking.RankScope | src/context/NameContext.tsx:276-310 | the ranking loop computes the scoped ranking: the top 100 when the scope is empty, otherwise the re-rated names sorted highest first |
| Groups.FindGroupIndex | src/context/NameContext.tsx:375 | the first index carrying the id, or −1 exactly when no group carries it |
| Groups.GetGroupById | src/context/NameContext.tsx:414-416 | no result exactly when no group has the id; otherwise the first group with that id |
| Groups.NewGroup | src/context/NameContext.tsx:357-362 | the new group has the given id and name, is owned by the user, and has the user as its only member |
| Groups.Join | src/context/NameContext.tsx:374-411 | false and no change when the group is missing or the user is a member; otherwise true and the user appended to that group's members only; ids, names, owners and order unchanged |
| Groups.CreateKeepsOwnersMembers | src/context/NameContext.tsx:356-364 | creating a group keeps every owner a member of its group |
| Groups.JoinKeepsOwnersMembers | src/context/NameContext.tsx:374-404 | joining keeps every owner a member of its group |
| Groups.JoinMakesMember | src/context/NameContext.tsx:386-404 | after a join on an existing group, the user is a member of the group found by that id |
| Groups.JoinTwice | src/context/NameContext.tsx:388-394 | a second join of the same user reports false and changes nothing |
| Groups.CreatedGroupFound | src/context/NameContext.tsx:356-364 | a created group with an unused id is what `getGroupById` returns for it |
| Context.NameContext.NamesOf | src/context/NameContext.tsx:229 | the list each operation selects for a gender (also lines 265, 273 and 315); on valid state it holds names of that gender only |
| Context.NameContext.constructor | src/context/NameContext.tsx:88-98 | empty name lists, the stored log, groups and selection, and no last pair |
| Context.NameContext.FetchNames | src/context/NameContext.tsx:101-123 | the lists are the catalogue replayed over the whole log, with the catalogue's ids; with distinct labels the state is well formed and agrees with a replay |
| Context.NameContext.AddVote | src/context/NameContext.tsx:178-225 | the vote is appended with the provider's user id; the lists are the live update; the last pair is cleared for the first name's gender; on well-formed state the map takes one replay step, and agreement with the replay is kept under a monotone clock |
| Context.NameContext.GetNamePair | src/context/NameContext.tsx:228-261 | fails with fewer than two names and changes nothing; otherwise returns the entries at two distinct indices, records that ordered pair, draws at most 5 times, draws once when there is no last pair for this gender, and draws 5 times before it returns a repeat of the last pair |
| Context.NameContext.GetTopNames | src/context/NameContext.tsx:264-269 | exactly the first `SliceEnd` names of the gender's list sorted highest first: sorted, cut at the limit, drawn from the list, and no name left out is rated above a name kept |
| Context.NameContext.GetUserRanking | src/context/NameContext.tsx:272-311 | the top 100 when the user has no personal votes; otherwise, on well-formed state, the gender's names re-rated by those votes and sorted highest first |
| Context.NameContext.GetGroupRanking | src/context/NameContext.tsx:314-353 | the top 100 when the group has no votes; otherwise, on well-formed state, the gender's names re-rated by the group's votes and sorted highest first |
| Context.NameContext.CreateGroup | src/context/NameContext.tsx:356-371 | one new group owned by the user, with the user as its only member, appended to the groups; owners stay members |
| Context.NameContext.JoinGroup | src/context/NameContext.tsx:374-411 | result and groups as `Groups.Join`; on success the user is a member of that group; owners stay members |
| Context.NameContext.GetGroupById | src/context/NameContext.tsx:414-416 | no result exactly when no group has the id; otherwise the first group with that id |
| Context.NameContext.SetCurrentGroup | src/context/NameContext.tsx:93 | the selected group becomes the given one |

## Left out

- React plumbing is not modelled: the context, `useState`, `useEffect`, `useNames`, the `isLoading` flag, and `useLocalStorage`. The state is the fields of `NameContext`, and the stored values are constructor parameters.
- Toast notifications and `console.error` are not modelled. They are UI side effects.
- `uuidv4()` is not modelled. The user id and a new group's id are parameters.
- `Math.random` is not modelled. Each random index in `getNamePair` is an arbitrary choice (`:|`). The inner redraw loop is replaced by choosing an index that differs from the first. That loop ends only with probability 1, so its termination is not modelled.
- `Math.pow(10, x)` and floating point are not modelled. Ratings are exact reals, and the power function is a parameter `pow` that is positive, gives 1 at 0, and gives reciprocals at opposite arguments.
- Timestamps are integers supplied by the caller. `new Date().toISOString()` and the `Date` parsing in the sort comparator are not modelled, nor are invalid dates (`NaN` keys).
- The async wrapper, the `try`/`catch` and the toasts of `fetchNames` are left out. `FetchNames` takes the two label lists as parameters, because the test-data arrays are constant data.
- Context.NameContext.AddVote: keeps agreement with the replay only for a vote no older than any logged one, because with an earlier timestamp the replay applies it before later votes.
- Context.NameContext.GetUserRanking: states the re-rated, sorted ranking only when ids are unique and each list holds its own gender (`Valid`). With duplicate ids the map keeps the last entry per id in first-occurrence order (`DistinctIds`, `Names.NameMapOfLast`, `Ranking.DistinctIdsFirstOccurrence`). For that case `Ranking.ReplayedRanking` states only that the result is of the gender and sorted highest first.
- Context.NameContext.GetGroupRanking: the same restriction to `Valid` state as `GetUserRanking`.
- Context.NameContext.GetNamePair: `attempts` is a ghost out-parameter recording the number of draws.
- The UI pages, the components, authentication and routing are not part of this model (`src/pages/*.tsx`, `src/components/*.tsx`, `src/hooks/use-auth.tsx`, `src/App.tsx`).
