/**
  Replaying the vote log: every name starts from the rating it is given,
  the votes are sorted by timestamp (stable), and each vote whose two ids are
  both known is folded through `CalculateElo`.  This loop appears three times
  in the source (load-time recompute, user ranking, group ranking); it is
  modelled once, by `ApplyVotes`, against the specification `Fold`.
*/
module ReplayEngine {
  import opened Types
  import opened Elo
  import opened Sorting
  import opened Names

  /** The sort key of a vote: its timestamp. */
  function TimeKey(v: Vote): real {
    v.timestamp as real
  }

  predicate Mentions(v: Vote, id: string) {
    v.name1Id == id || v.name2Id == id
  }

  /**
    One vote applied to the map.  When both ids are the same, the two
    assignments of the source hit the same record and the second one wins.
  */
  function Step(pow: Pow10, m: NameMap, v: Vote): (r: NameMap)
    ensures r.Keys == m.Keys
    ensures forall k :: k in m ==> SameExceptElo(r[k], m[k])
    ensures forall k :: k in m && !Mentions(v, k) ==> r[k] == m[k]
    ensures v.name1Id !in m || v.name2Id !in m ==> r == m
    ensures v.name1Id in m && v.name2Id in m ==>
              var (e1, e2) := CalculateElo(pow, m[v.name1Id].elo, m[v.name2Id].elo, v.result);
              r[v.name2Id].elo == e2 && (v.name1Id != v.name2Id ==> r[v.name1Id].elo == e1)
  {
    if v.name1Id in m && v.name2Id in m then
      var (e1, e2) := CalculateElo(pow, m[v.name1Id].elo, m[v.name2Id].elo, v.result);
      var m1 := m[v.name1Id := m[v.name1Id].(elo := e1)];
      m1[v.name2Id := m1[v.name2Id].(elo := e2)]
    else m
  }

  /** The votes applied in the order given. */
  function Fold(pow: Pow10, m: NameMap, votes: seq<Vote>): (r: NameMap)
    ensures r.Keys == m.Keys
    ensures forall k :: k in m ==> SameExceptElo(r[k], m[k])
    decreases |votes|
  {
    if votes == [] then m
    else Step(pow, Fold(pow, m, votes[..|votes| - 1]), votes[|votes| - 1])
  }

  /** The votes applied in timestamp order, equal timestamps in log order. */
  function Replay(pow: Pow10, m: NameMap, votes: seq<Vote>): (r: NameMap)
    ensures r.Keys == m.Keys
    ensures forall k :: k in m ==> SameExceptElo(r[k], m[k])
  {
    Fold(pow, m, SortBy(votes, TimeKey))
  }

  /** The `forEach` over the sorted votes, updating the map in place. */
  method ApplyVotes(pow: Pow10, nameMap: NameMap, sortedVotes: seq<Vote>) returns (m: NameMap)
    ensures m == Fold(pow, nameMap, sortedVotes)
  {
    m := nameMap;
    var i := 0;
    while i < |sortedVotes|
      invariant 0 <= i <= |sortedVotes|
      invariant m == Fold(pow, nameMap, sortedVotes[..i])
    {
      var vote := sortedVotes[i];
      assert sortedVotes[..i + 1][..i] == sortedVotes[..i];
      if vote.name1Id in m && vote.name2Id in m {
        var name1, name2 := m[vote.name1Id], m[vote.name2Id];
        var (newElo1, newElo2) := CalculateElo(pow, name1.elo, name2.elo, vote.result);
        m := m[vote.name1Id := name1.(elo := newElo1)];
        // `name2` is the same record as `name1` when both ids agree
        m := m[vote.name2Id := m[vote.name2Id].(elo := newElo2)];
      }
      i := i + 1;
    }
    assert sortedVotes[..i] == sortedVotes;
  }

  /** `list.map(name => nameMap.get(name.id) || name)`. */
  function LookupAll(m: NameMap, names: seq<Name>): (r: seq<Name>)
    ensures |r| == |names|
    ensures forall i :: 0 <= i < |names| ==>
              r[i] == if names[i].id in m then m[names[i].id] else names[i]
  {
    seq(|names|, i requires 0 <= i < |names| =>
      if names[i].id in m then m[names[i].id] else names[i])
  }

  /**
    The load-time recompute (`calculateAndApplyEloRatings` without the state
    update): the boy and girl lists, with the ratings the whole log gives them.
  */
  method ReplayNames(pow: Pow10, boyList: seq<Name>, girlList: seq<Name>, voteHistory: seq<Vote>)
    returns (boys: seq<Name>, girls: seq<Name>)
    ensures var m := Replay(pow, NameMapOf(boyList + girlList), voteHistory);
            boys == LookupAll(m, boyList) && girls == LookupAll(m, girlList)
    ensures Ids(boys) == Ids(boyList) && Ids(girls) == Ids(girlList)
    ensures UniqueIds(boyList + girlList) ==>
              (forall i :: 0 <= i < |boys| ==> SameExceptElo(boys[i], boyList[i])) &&
              (forall i :: 0 <= i < |girls| ==> SameExceptElo(girls[i], girlList[i]))
  {
    var nameMap := BuildNameMap(boyList + girlList);
    var sortedVotes := SortBy(voteHistory, TimeKey);
    nameMap := ApplyVotes(pow, nameMap, sortedVotes);
    boys := LookupAll(nameMap, boyList);
    girls := LookupAll(nameMap, girlList);
    IdsConcat(boyList, girlList);
    LookupAllShape(pow, boyList, girlList, voteHistory);
  }

  /** Shape of the replayed lists: same ids in the same order. */
  lemma LookupAllShape(pow: Pow10, boyList: seq<Name>, girlList: seq<Name>, votes: seq<Vote>)
    ensures var m := Replay(pow, NameMapOf(boyList + girlList), votes);
            Ids(LookupAll(m, boyList)) == Ids(boyList) && Ids(LookupAll(m, girlList)) == Ids(girlList)
    ensures var m := Replay(pow, NameMapOf(boyList + girlList), votes);
            UniqueIds(boyList + girlList) ==>
              (forall i :: 0 <= i < |boyList| ==> SameExceptElo(LookupAll(m, boyList)[i], boyList[i])) &&
              (forall i :: 0 <= i < |girlList| ==> SameExceptElo(LookupAll(m, girlList)[i], girlList[i]))
  {
    var all := boyList + girlList;
    var m0 := NameMapOf(all);
    var m := Replay(pow, m0, votes);
    IdsConcat(boyList, girlList);
    if UniqueIds(all) {
      forall i | 0 <= i < |boyList|
        ensures SameExceptElo(LookupAll(m, boyList)[i], boyList[i])
      {
        assert all[i] == boyList[i];
        NameMapAt(all, i);
      }
      forall i | 0 <= i < |girlList|
        ensures SameExceptElo(LookupAll(m, girlList)[i], girlList[i])
      {
        assert all[|boyList| + i] == girlList[i];
        NameMapAt(all, |boyList| + i);
      }
    }
  }

  lemma FoldAppend(pow: Pow10, m: NameMap, votes: seq<Vote>, v: Vote)
    ensures Fold(pow, m, votes + [v]) == Step(pow, Fold(pow, m, votes), v)
  {
    assert (votes + [v])[..|votes|] == votes;
  }

  /** The guard of the replay: both ids of the vote are in the map. */
  predicate Applies(v: Vote, m: NameMap) {
    v.name1Id in m && v.name2Id in m
  }

  /**
    A name that no applicable vote mentions keeps the entry it started with:
    a vote that mentions it but names an unknown id is skipped.
  */
  lemma {:induction false} FoldUntouched(pow: Pow10, m: NameMap, votes: seq<Vote>, id: string)
    requires id in m
    requires forall i :: 0 <= i < |votes| && Mentions(votes[i], id) ==> !Applies(votes[i], m)
    ensures Fold(pow, m, votes)[id] == m[id]
    decreases |votes|
  {
    if votes != [] {
      FoldUntouched(pow, m, votes[..|votes| - 1], id);
    }
  }

  lemma ReplayUntouched(pow: Pow10, m: NameMap, votes: seq<Vote>, id: string)
    requires id in m
    requires forall i :: 0 <= i < |votes| && Mentions(votes[i], id) ==> !Applies(votes[i], m)
    ensures Replay(pow, m, votes)[id] == m[id]
  {
    var sorted := SortBy(votes, TimeKey);
    forall i | 0 <= i < |sorted| && Mentions(sorted[i], id)
      ensures !Applies(sorted[i], m)
    {
      assert sorted[i] in multiset(votes);
      var j :| 0 <= j < |votes| && votes[j] == sorted[i];
    }
    FoldUntouched(pow, m, sorted, id);
  }

  /**
    Order of application: a fold over a rearrangement of the log that is
    ordered by timestamp, keeps every vote, and keeps the log order among
    votes with one timestamp.
  */
  lemma ReplayOrder(pow: Pow10, m: NameMap, votes: seq<Vote>)
    ensures var sorted := SortBy(votes, TimeKey);
            && Replay(pow, m, votes) == Fold(pow, m, sorted)
            && SortedBy(sorted, TimeKey)
            && multiset(sorted) == multiset(votes)
            && forall t :: Filter(sorted, KeyIs(TimeKey, t)) == Filter(votes, KeyIs(TimeKey, t))
  {
    forall t
      ensures Filter(SortBy(votes, TimeKey), KeyIs(TimeKey, t)) == Filter(votes, KeyIs(TimeKey, t))
    {
      SortStable(votes, TimeKey, t);
    }
  }

  /** A log already in timestamp order is replayed in log order. */
  lemma ReplayChronological(pow: Pow10, m: NameMap, votes: seq<Vote>)
    requires SortedBy(votes, TimeKey)
    ensures Replay(pow, m, votes) == Fold(pow, m, votes)
  {
    SortOfSorted(votes, TimeKey);
  }

  /** A vote no older than any logged one is replayed last. */
  lemma ReplayAppendLatest(pow: Pow10, m: NameMap, votes: seq<Vote>, v: Vote)
    requires forall i :: 0 <= i < |votes| ==> votes[i].timestamp <= v.timestamp
    ensures Replay(pow, m, votes + [v]) == Step(pow, Replay(pow, m, votes), v)
  {
    SortAppendLargest(votes, v, TimeKey);
    FoldAppend(pow, m, SortBy(votes, TimeKey), v);
  }
}
