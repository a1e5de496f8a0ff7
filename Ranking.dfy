/**
  Ranking views: the global top list (`getTopNames`) and the rankings of a
  user (`getUserRanking`) or a group (`getGroupRanking`), which filter the
  log, fall back to the global top 100 when nothing is left, and otherwise
  replay the filtered votes from the start rating and sort descending.
*/
module Ranking {
  import opened Wrappers
  import opened Types
  import opened Elo
  import opened Sorting
  import opened Names
  import opened ReplayEngine

  /** How many names the fallback of a scoped ranking shows. */
  const FallbackLimit: int := 100

  /** The sort key for `(a, b) => b.elo - a.elo`: the negated rating. */
  function DescKey(n: Name): real {
    -n.elo
  }

  predicate SortedDescending(names: seq<Name>) {
    forall i, j :: 0 <= i < j < |names| ==> names[i].elo >= names[j].elo
  }

  /** A stable sort by rating, highest first. */
  function SortDesc(names: seq<Name>): (r: seq<Name>)
    ensures |r| == |names|
    ensures multiset(r) == multiset(names)
    ensures SortedDescending(r)
  {
    var r := SortBy(names, DescKey);
    assert forall i, j :: 0 <= i < j < |r| ==> DescKey(r[i]) <= DescKey(r[j]);
    r
  }

  /** Equal ratings keep the order they have in the list. */
  lemma SortDescStable(names: seq<Name>, t: real)
    ensures Filter(SortDesc(names), KeyIs(DescKey, t)) == Filter(names, KeyIs(DescKey, t))
  {
    var sorted := SortBy(names, DescKey);
    assert SortDesc(names) == sorted;
    SortStable(names, DescKey, t);
  }

  /** The end index that `slice(0, end)` uses on a list of length `len`. */
  function SliceEnd(len: nat, end: int): (k: nat)
    ensures k <= len
    ensures 0 <= end ==> k == if end < len then end else len
    ensures end < 0 ==> k == if len + end > 0 then len + end else 0
  {
    if end < 0 then (if len + end > 0 then len + end else 0)
    else if end < len then end else len
  }

  /** `[...names].sort((a, b) => b.elo - a.elo).slice(0, limit)`. */
  function TopNames(names: seq<Name>, limit: int): (r: seq<Name>)
    ensures SortedDescending(r)
    ensures |r| == SliceEnd(|names|, limit)
    ensures 0 <= limit ==> |r| == if limit < |names| then limit else |names|
    ensures multiset(r) <= multiset(names)
    ensures r == SortDesc(names)[..|r|]
    ensures forall i, j :: 0 <= i < |r| <= j < |names| ==> r[i].elo >= SortDesc(names)[j].elo
  {
    var sorted := SortDesc(names);
    var k := SliceEnd(|names|, limit);
    SplitAt(sorted, k);
    sorted[..k]
  }

  lemma SplitAt<T>(s: seq<T>, k: nat)
    requires k <= |s|
    ensures multiset(s[..k]) <= multiset(s)
  {
    assert s == s[..k] + s[k..];
  }

  /** `!v.groupId`: no group, or the empty string, which JavaScript also treats as false. */
  predicate Personal(v: Vote) {
    v.groupId.None? || v.groupId == Some("")
  }

  function IsUserVote(userId: string): Vote -> bool {
    (v: Vote) => v.userId == userId && Personal(v)
  }

  function IsGroupVote(groupId: string): Vote -> bool {
    (v: Vote) => v.groupId == Some(groupId)
  }

  /** `votes.filter(v => v.userId === userId && !v.groupId)`. */
  function UserVotes(votes: seq<Vote>, userId: string): (r: seq<Vote>)
    ensures forall i :: 0 <= i < |r| ==> r[i].userId == userId && Personal(r[i])
    ensures forall i :: 0 <= i < |votes| && votes[i].userId == userId && Personal(votes[i]) ==>
              votes[i] in r
    ensures forall v :: multiset(r)[v] ==
              if v.userId == userId && Personal(v) then multiset(votes)[v] else 0
    ensures multiset(r) <= multiset(votes)
  {
    FilterComplete(votes, IsUserVote(userId));
    FilterShrinks(votes, IsUserVote(userId));
    FilterCountAll(votes, IsUserVote(userId));
    Filter(votes, IsUserVote(userId))
  }

  /** `votes.filter(v => v.groupId === groupId)`, whoever cast them. */
  function GroupVotes(votes: seq<Vote>, groupId: string): (r: seq<Vote>)
    ensures forall i :: 0 <= i < |r| ==> r[i].groupId == Some(groupId)
    ensures forall i :: 0 <= i < |votes| && votes[i].groupId == Some(groupId) ==> votes[i] in r
    ensures forall v :: multiset(r)[v] ==
              if v.groupId == Some(groupId) then multiset(votes)[v] else 0
    ensures multiset(r) <= multiset(votes)
  {
    FilterComplete(votes, IsGroupVote(groupId));
    FilterShrinks(votes, IsGroupVote(groupId));
    FilterCountAll(votes, IsGroupVote(groupId));
    Filter(votes, IsGroupVote(groupId))
  }

  /**
    The user filter keeps log order: it maps a log piece by piece, keeping a
    single vote exactly when it is this user's personal vote.
  */
  lemma UserVotesConcat(a: seq<Vote>, b: seq<Vote>, userId: string)
    ensures UserVotes(a + b, userId) == UserVotes(a, userId) + UserVotes(b, userId)
  {
    FilterConcat(a, b, IsUserVote(userId));
  }

  lemma UserVotesSingleton(v: Vote, userId: string)
    ensures UserVotes([], userId) == []
    ensures UserVotes([v], userId) == if v.userId == userId && Personal(v) then [v] else []
  {
    FilterSingleton(v, IsUserVote(userId));
  }

  /** The group filter keeps log order in the same way. */
  lemma GroupVotesConcat(a: seq<Vote>, b: seq<Vote>, groupId: string)
    ensures GroupVotes(a + b, groupId) == GroupVotes(a, groupId) + GroupVotes(b, groupId)
  {
    FilterConcat(a, b, IsGroupVote(groupId));
  }

  lemma GroupVotesSingleton(v: Vote, groupId: string)
    ensures GroupVotes([], groupId) == []
    ensures GroupVotes([v], groupId) == if v.groupId == Some(groupId) then [v] else []
  {
    FilterSingleton(v, IsGroupVote(groupId));
  }

  /** A group vote never enters any user's own ranking. */
  lemma UserVotesIgnoreGroupVote(votes: seq<Vote>, v: Vote, userId: string, groupId: string)
    requires v.groupId == Some(groupId) && groupId != ""
    ensures UserVotes(votes + [v], userId) == UserVotes(votes, userId)
  {
    FilterConcat(votes, [v], IsUserVote(userId));
    FilterSingleton(v, IsUserVote(userId));
  }

  /** A vote outside a group never enters that group's ranking. */
  lemma GroupVotesIgnoreOtherVote(votes: seq<Vote>, v: Vote, groupId: string)
    requires v.groupId != Some(groupId)
    ensures GroupVotes(votes + [v], groupId) == GroupVotes(votes, groupId)
  {
    FilterConcat(votes, [v], IsGroupVote(groupId));
    FilterSingleton(v, IsGroupVote(groupId));
  }

  function IsGender(g: Gender): Name -> bool {
    (n: Name) => n.gender == g
  }

  /** `names.filter(n => n.gender === g)`. */
  function OfGender(names: seq<Name>, g: Gender): (r: seq<Name>)
    ensures AllOfGender(r, g)
    ensures forall i :: 0 <= i < |names| && names[i].gender == g ==> names[i] in r
    ensures forall n :: multiset(r)[n] == if n.gender == g then multiset(names)[n] else 0
    ensures AllOfGender(names, g) ==> r == names
  {
    FilterComplete(names, IsGender(g));
    FilterCountAll(names, IsGender(g));
    if AllOfGender(names, g) then FilterAll(names, IsGender(g)); Filter(names, IsGender(g))
    else Filter(names, IsGender(g))
  }

  /** The gender filter keeps list order in the same way. */
  lemma OfGenderConcat(a: seq<Name>, b: seq<Name>, g: Gender)
    ensures OfGender(a + b, g) == OfGender(a, g) + OfGender(b, g)
  {
    FilterConcat(a, b, IsGender(g));
  }

  lemma OfGenderSingleton(n: Name, g: Gender)
    ensures OfGender([], g) == []
    ensures OfGender([n], g) == if n.gender == g then [n] else []
  {
    FilterSingleton(n, IsGender(g));
  }

  /** The ids in order of first occurrence: the key order of a JavaScript `Map`. */
  function DistinctIds(ids: seq<string>): (r: seq<string>)
    ensures forall i, j :: 0 <= i < j < |r| ==> r[i] != r[j]
    ensures forall k :: k in r <==> k in ids
    decreases |ids|
  {
    if ids == [] then []
    else
      var d, last := DistinctIds(ids[..|ids| - 1]), ids[|ids| - 1];
      assert ids == ids[..|ids| - 1] + [last];
      if last in d then d else d + [last]
  }

  /** The position of the first occurrence of `k`. */
  function FirstIndex(ids: seq<string>, k: string): (i: nat)
    requires k in ids
    ensures i < |ids| && ids[i] == k
    ensures forall j :: 0 <= j < i ==> ids[j] != k
  {
    if ids[0] == k then 0
    else
      assert forall j :: 0 < j < |ids| ==> ids[j] == ids[1..][j - 1];
      1 + FirstIndex(ids[1..], k)
  }

  /** A first occurrence before the appended element stays where it was. */
  lemma FirstIndexSnoc(ids: seq<string>, x: string, k: string)
    requires k in ids
    ensures FirstIndex(ids + [x], k) == FirstIndex(ids, k)
  {
    var s := ids + [x];
    forall j | 0 <= j < |ids|
      ensures s[j] == ids[j]
    {
    }
    assert s[FirstIndex(ids, k)] == k;
  }

  /** Positions in increasing order of first occurrence. */
  predicate InFirstOccurrenceOrder(ids: seq<string>, r: seq<string>)
    requires forall i :: 0 <= i < |r| ==> r[i] in ids
  {
    forall i, j :: 0 <= i < j < |r| ==> FirstIndex(ids, r[i]) < FirstIndex(ids, r[j])
  }

  /** The order of first occurrences survives appending an element to the ids. */
  lemma FirstOrderSnoc(ids: seq<string>, x: string, r: seq<string>)
    requires forall i :: 0 <= i < |r| ==> r[i] in ids
    requires InFirstOccurrenceOrder(ids, r)
    ensures InFirstOccurrenceOrder(ids + [x], r)
  {
    forall i | 0 <= i < |r|
      ensures FirstIndex(ids + [x], r[i]) == FirstIndex(ids, r[i])
    {
      FirstIndexSnoc(ids, x, r[i]);
    }
  }

  /** A new id occurs first at the end, after every earlier first occurrence. */
  lemma FirstOrderAppendNew(ids: seq<string>, x: string, r: seq<string>)
    requires forall i :: 0 <= i < |r| ==> r[i] in ids
    requires x !in ids
    requires InFirstOccurrenceOrder(ids + [x], r)
    ensures InFirstOccurrenceOrder(ids + [x], r + [x])
  {
    var s, r' := ids + [x], r + [x];
    assert FirstIndex(s, x) == |ids|;
    forall i | 0 <= i < |r|
      ensures FirstIndex(s, r'[i]) < |ids|
    {
      assert r'[i] == r[i];
      FirstIndexSnoc(ids, x, r[i]);
    }
    forall i, j | 0 <= i < j < |r'|
      ensures FirstIndex(s, r'[i]) < FirstIndex(s, r'[j])
    {
      if j < |r| {
        assert r'[i] == r[i] && r'[j] == r[j];
      }
    }
  }

  /** `DistinctIds` lists the ids in increasing order of their first occurrence. */
  lemma {:induction false} DistinctIdsFirstOccurrence(ids: seq<string>)
    ensures InFirstOccurrenceOrder(ids, DistinctIds(ids))
    decreases |ids|
  {
    if ids != [] {
      var init, last := ids[..|ids| - 1], ids[|ids| - 1];
      SplitLast(ids);
      DistinctIdsFirstOccurrence(init);
      var d := DistinctIds(init);
      FirstOrderSnoc(init, last, d);
      if last !in d {
        FirstOrderAppendNew(init, last, d);
      }
    }
  }

  lemma {:induction false} DistinctIdsOfDistinct(ids: seq<string>)
    requires forall i, j :: 0 <= i < j < |ids| ==> ids[i] != ids[j]
    ensures DistinctIds(ids) == ids
    decreases |ids|
  {
    if ids != [] {
      var init := ids[..|ids| - 1];
      DistinctIdsOfDistinct(init);
    }
  }

  /** `Array.from(nameMap.values())`, for a map whose keys were entered in the order `keys`. */
  function ValuesInOrder(m: NameMap, keys: seq<string>): (r: seq<Name>)
    requires forall i :: 0 <= i < |keys| ==> keys[i] in m
    ensures |r| == |keys|
    ensures forall i :: 0 <= i < |keys| ==> r[i] == m[keys[i]]
  {
    seq(|keys|, i requires 0 <= i < |keys| => m[keys[i]])
  }

  /** The map of a scope: every name at the start rating, then the scope's votes replayed. */
  function ScopeMap(pow: Pow10, names: seq<Name>, scoped: seq<Vote>): (m: NameMap)
    ensures forall k :: k in m <==> k in Ids(names)
    ensures forall k :: k in m ==> m[k].id == k
  {
    var m0 := NameMapOf(Reset(names));
    var m := Replay(pow, m0, scoped);
    assert forall k :: k in m ==> SameExceptElo(m[k], m0[k]);
    m
  }

  /** The replay branch of a scoped ranking, as the source computes it. */
  function ReplayedRanking(pow: Pow10, names: seq<Name>, gender: Gender, scoped: seq<Vote>): (r: seq<Name>)
    ensures SortedDescending(r)
    ensures AllOfGender(r, gender)
  {
    var m := ScopeMap(pow, names, scoped);
    var keys := DistinctIds(Ids(names));
    var ofGender := OfGender(ValuesInOrder(m, keys), gender);
    SortDescKeepsGender(ofGender, gender);
    SortDesc(ofGender)
  }

  /** Sorting keeps the gender of every name. */
  lemma SortDescKeepsGender(names: seq<Name>, g: Gender)
    requires AllOfGender(names, g)
    ensures AllOfGender(SortDesc(names), g)
  {
    var r := SortDesc(names);
    forall i | 0 <= i < |r|
      ensures r[i].gender == g
    {
      assert r[i] in multiset(names);
    }
  }

  /** A scoped ranking: the global top 100 without scoped votes, otherwise the replay. */
  function ScopedRanking(pow: Pow10, names: seq<Name>, gender: Gender, scoped: seq<Vote>): (r: seq<Name>)
    ensures SortedDescending(r)
    ensures scoped == [] ==> r == TopNames(names, FallbackLimit)
  {
    if |scoped| == 0 then TopNames(names, FallbackLimit)
    else ReplayedRanking(pow, names, gender, scoped)
  }

  /** The names with the ratings the replay of a scope gives them. */
  function Rerated(pow: Pow10, names: seq<Name>, scoped: seq<Vote>): (r: seq<Name>)
    ensures |r| == |names|
    ensures forall i :: 0 <= i < |names| ==> SameExceptElo(r[i], names[i])
  {
    var m := ScopeMap(pow, names, scoped);
    seq(|names|, i requires 0 <= i < |names| => names[i].(elo := m[names[i].id].elo))
  }

  /**
    With distinct ids, all of one gender, the replay branch is exactly the
    names re-rated by the scope's votes and sorted by rating, highest first;
    so it is sorted and a permutation of the re-rated names.
  */
  lemma ReplayedRankingIsSortedRerating(pow: Pow10, names: seq<Name>, gender: Gender, scoped: seq<Vote>)
    requires UniqueIds(names) && AllOfGender(names, gender)
    ensures ReplayedRanking(pow, names, gender, scoped) == SortDesc(Rerated(pow, names, scoped))
  {
    var reset := Reset(names);
    var m0 := NameMapOf(reset);
    var m := ScopeMap(pow, names, scoped);
    DistinctIdsOfDistinct(Ids(names));
    var values := ValuesInOrder(m, Ids(names));
    var rerated := Rerated(pow, names, scoped);
    assert UniqueIds(reset);
    forall i | 0 <= i < |names|
      ensures values[i] == rerated[i]
    {
      NameMapAt(reset, i);
      assert m0[names[i].id] == reset[i];
      assert SameExceptElo(m[names[i].id], m0[names[i].id]);
    }
    assert values == rerated;
    assert AllOfGender(values, gender);
    assert OfGender(values, gender) == values;
    assert ReplayedRanking(pow, names, gender, scoped) == SortDesc(OfGender(values, gender));
  }

  /**
    A name that no applicable vote of the scope mentions keeps the start
    rating: a vote naming an id outside the list is skipped.
  */
  lemma ReratedUntouched(pow: Pow10, names: seq<Name>, scoped: seq<Vote>, i: nat)
    requires i < |names|
    requires forall j :: 0 <= j < |scoped| && Mentions(scoped[j], names[i].id) ==>
               scoped[j].name1Id !in Ids(names) || scoped[j].name2Id !in Ids(names)
    ensures Rerated(pow, names, scoped)[i] == names[i].(elo := StartElo)
  {
    var m0 := NameMapOf(Reset(names));
    assert names[i].id in Ids(Reset(names));
    ReplayUntouched(pow, m0, scoped, names[i].id);
    assert m0[names[i].id].elo == StartElo by {
      ResetMapRating(names, names[i].id);
    }
  }

  /** Every entry of the map of a reset list is at the start rating. */
  lemma {:induction false} ResetMapRating(names: seq<Name>, id: string)
    requires id in Ids(Reset(names))
    ensures NameMapOf(Reset(names))[id].elo == StartElo
    decreases |names|
  {
    var reset := Reset(names);
    var init := names[..|names| - 1];
    assert reset[..|reset| - 1] == Reset(init);
    if id != reset[|reset| - 1].id {
      assert Ids(reset) == Ids(Reset(init)) + [reset[|reset| - 1].id];
      ResetMapRating(init, id);
    }
  }

  /**
    The ranking loop of `getUserRanking` and `getGroupRanking` after the
    votes have been filtered.
  */
  method RankScope(pow: Pow10, names: seq<Name>, gender: Gender, scoped: seq<Vote>)
    returns (ranked: seq<Name>)
    ensures ranked == ScopedRanking(pow, names, gender, scoped)
    ensures SortedDescending(ranked)
    ensures scoped == [] ==> ranked == TopNames(names, FallbackLimit)
    ensures scoped != [] && UniqueIds(names) && AllOfGender(names, gender) ==>
              ranked == SortDesc(Rerated(pow, names, scoped))
  {
    if |scoped| == 0 {
      return TopNames(names, FallbackLimit);
    }
    var scopedNames := Reset(names);
    var nameMap := BuildNameMap(scopedNames);
    var sortedVotes := SortBy(scoped, TimeKey);
    nameMap := ApplyVotes(pow, nameMap, sortedVotes);
    assert nameMap == ScopeMap(pow, names, scoped);
    var keys := DistinctIds(Ids(names));
    ranked := SortDesc(OfGender(ValuesInOrder(nameMap, keys), gender));
    if UniqueIds(names) && AllOfGender(names, gender) {
      ReplayedRankingIsSortedRerating(pow, names, gender, scoped);
    }
  }
}
