/**
  The live ratings kept in the boy and girl lists.  `addVote` updates them in
  one step; loading the names recomputes them from the whole log.  The
  lemmas here show that both agree with a replay of the log.
*/
module Live {
  import opened Wrappers
  import opened Types
  import opened Elo
  import opened Names
  import opened ReplayEngine

  /**
    The rating update of `addVote`: both ids are looked up in the boys
    followed by the girls, and each found name's entry is set in the list
    of its gender (the first update before the second).
  */
  function LiveUpdate(pow: Pow10, boys: seq<Name>, girls: seq<Name>,
                      name1Id: string, name2Id: string, result: int): (r: (seq<Name>, seq<Name>))
    ensures Ids(r.0) == Ids(boys) && Ids(r.1) == Ids(girls)
    ensures forall i :: 0 <= i < |boys| ==> SameExceptElo(r.0[i], boys[i])
    ensures forall i :: 0 <= i < |girls| ==> SameExceptElo(r.1[i], girls[i])
    ensures forall i :: 0 <= i < |boys| && boys[i].id != name1Id && boys[i].id != name2Id ==>
              r.0[i] == boys[i]
    ensures forall i :: 0 <= i < |girls| && girls[i].id != name1Id && girls[i].id != name2Id ==>
              r.1[i] == girls[i]
    ensures name1Id !in Ids(boys + girls) || name2Id !in Ids(boys + girls) ==> r == (boys, girls)
  {
    var all := boys + girls;
    match (Find(all, name1Id), Find(all, name2Id))
    case (Some(name1), Some(name2)) =>
      var (newElo1, newElo2) := CalculateElo(pow, name1.elo, name2.elo, result);
      var (b1, g1) := if name1.gender == Boy then (SetElo(boys, name1.id, newElo1), girls)
                      else (boys, SetElo(girls, name1.id, newElo1));
      if name2.gender == Boy then (SetElo(b1, name2.id, newElo2), g1)
      else (b1, SetElo(g1, name2.id, newElo2))
    case _ => (boys, girls)
  }

  /** Sets the rating of `id` in the list of the given gender. */
  function SetInList(boys: seq<Name>, girls: seq<Name>, gender: Gender, id: string, e: real): (r: (seq<Name>, seq<Name>))
    ensures Ids(r.0) == Ids(boys) && Ids(r.1) == Ids(girls)
    ensures forall i :: 0 <= i < |boys| ==> SameExceptElo(r.0[i], boys[i])
    ensures forall i :: 0 <= i < |girls| ==> SameExceptElo(r.1[i], girls[i])
    ensures forall i :: 0 <= i < |boys| && boys[i].id != id ==> r.0[i] == boys[i]
    ensures forall i :: 0 <= i < |girls| && girls[i].id != id ==> r.1[i] == girls[i]
  {
    if gender == Boy then (SetElo(boys, id, e), girls) else (boys, SetElo(girls, id, e))
  }

  /** Boys hold boys, girls hold girls, and no id occurs twice. */
  predicate WellFormed(boys: seq<Name>, girls: seq<Name>) {
    AllOfGender(boys, Boy) && AllOfGender(girls, Girl) && UniqueIds(boys + girls)
  }

  lemma WellFormedParts(boys: seq<Name>, girls: seq<Name>)
    requires WellFormed(boys, girls)
    ensures UniqueIds(boys) && UniqueIds(girls)
  {
    var all := boys + girls;
    forall i, j | 0 <= i < j < |boys| ensures boys[i].id != boys[j].id {
      assert all[i] == boys[i] && all[j] == boys[j];
    }
    forall i, j | 0 <= i < j < |girls| ensures girls[i].id != girls[j].id {
      assert all[|boys| + i] == girls[i] && all[|boys| + j] == girls[j];
    }
  }

  /**
    The live ratings are those a replay of the log gives, starting every name
    at the start rating.
  */
  predicate LiveMatchesReplay(pow: Pow10, boys: seq<Name>, girls: seq<Name>, votes: seq<Vote>) {
    UniqueIds(boys + girls) &&
    NameMapOf(boys + girls) == Replay(pow, NameMapOf(Reset(boys + girls)), votes)
  }

  lemma {:induction false} FindIndexByIds(a: seq<Name>, b: seq<Name>, id: string)
    requires Ids(a) == Ids(b)
    ensures FindIndex(a, id) == FindIndex(b, id)
    decreases |a|
  {
    if a != [] {
      assert Ids(a[1..]) == Ids(b[1..]);
      FindIndexByIds(a[1..], b[1..], id);
    }
  }

  /** The gender of the name found for an id tells which list holds it. */
  lemma FoundGender(boys: seq<Name>, girls: seq<Name>, id: string)
    requires WellFormed(boys, girls)
    requires id in Ids(boys + girls)
    ensures Find(boys + girls, id).value.gender == Boy ==> id in Ids(boys) && id !in Ids(girls)
    ensures Find(boys + girls, id).value.gender == Girl ==> id in Ids(girls) && id !in Ids(boys)
  {
    var all := boys + girls;
    var i := FindIndex(all, id);
    if i < |boys| {
      assert all[i] == boys[i];
      forall j | 0 <= j < |girls| ensures girls[j].id != id {
        assert all[|boys| + j] == girls[j];
      }
    } else {
      assert all[i] == girls[i - |boys|];
      forall j | 0 <= j < |boys| ensures boys[j].id != id {
        assert all[j] == boys[j];
      }
    }
  }

  /** Shape facts: a list obtained by `SetElo` on one side stays well formed. */
  lemma SetEloWellFormed(boys: seq<Name>, girls: seq<Name>, b: seq<Name>, g: seq<Name>)
    requires WellFormed(boys, girls)
    requires Ids(b) == Ids(boys) && Ids(g) == Ids(girls)
    requires forall i :: 0 <= i < |boys| ==> SameExceptElo(b[i], boys[i])
    requires forall i :: 0 <= i < |girls| ==> SameExceptElo(g[i], girls[i])
    ensures WellFormed(b, g)
    ensures Ids(b + g) == Ids(boys + girls)
    ensures forall i :: 0 <= i < |b + g| ==> SameExceptElo((b + g)[i], (boys + girls)[i])
  {
    IdsConcat(boys, girls);
    IdsConcat(b, g);
  }

  /**
    Setting the rating of one known id in the list of its gender sets it in
    the map of both lists, and keeps the lists well formed.
  */
  lemma SetInGender(boys: seq<Name>, girls: seq<Name>, id: string, e: real)
    requires WellFormed(boys, girls)
    requires id in Ids(boys + girls)
    ensures var r := SetInList(boys, girls, Find(boys + girls, id).value.gender, id, e);
            && WellFormed(r.0, r.1)
            && Ids(r.0 + r.1) == Ids(boys + girls)
            && (forall i :: 0 <= i < |r.0 + r.1| ==> SameExceptElo((r.0 + r.1)[i], (boys + girls)[i]))
            && NameMapOf(r.0 + r.1) == NameMapOf(boys + girls)[id := NameMapOf(boys + girls)[id].(elo := e)]
  {
    var all := boys + girls;
    var r := SetInList(boys, girls, Find(all, id).value.gender, id, e);
    FoundGender(boys, girls, id);
    NameMapSetElo(all, id, e);
    SetEloConcat(boys, girls, id, e);
    if Find(all, id).value.gender == Boy {
      SetEloAbsent(girls, id, e);
    } else {
      SetEloAbsent(boys, id, e);
    }
    SetEloWellFormed(boys, girls, r.0, r.1);
  }

  /** Lists that differ only in ratings find names of the same gender. */
  lemma FindKeepsGender(a: seq<Name>, b: seq<Name>, id: string)
    requires Ids(a) == Ids(b)
    requires forall i :: 0 <= i < |a| ==> SameExceptElo(a[i], b[i])
    requires id in Ids(b)
    ensures Find(a, id).Some? && Find(a, id).value.gender == Find(b, id).value.gender
  {
    FindIndexByIds(a, b, id);
    var j := FindIndex(b, id);
    assert SameExceptElo(a[j], b[j]);
  }

  /** With both ids known, `LiveUpdate` is two `SetInList`s in a row. */
  lemma LiveUpdateBothKnown(pow: Pow10, boys: seq<Name>, girls: seq<Name>, v: Vote)
    requires v.name1Id in Ids(boys + girls) && v.name2Id in Ids(boys + girls)
    ensures var name1, name2 := Find(boys + girls, v.name1Id).value, Find(boys + girls, v.name2Id).value;
            var e := CalculateElo(pow, name1.elo, name2.elo, v.result);
            var r1 := SetInList(boys, girls, name1.gender, v.name1Id, e.0);
            LiveUpdate(pow, boys, girls, v.name1Id, v.name2Id, v.result)
            == SetInList(r1.0, r1.1, name2.gender, v.name2Id, e.1)
  {
  }

  /** On well-formed lists, the update of `addVote` is one step of the replay. */
  lemma LiveUpdateIsStep(pow: Pow10, boys: seq<Name>, girls: seq<Name>, v: Vote)
    requires WellFormed(boys, girls)
    ensures var r := LiveUpdate(pow, boys, girls, v.name1Id, v.name2Id, v.result);
            && WellFormed(r.0, r.1)
            && NameMapOf(r.0 + r.1) == Step(pow, NameMapOf(boys + girls), v)
  {
    if v.name1Id in Ids(boys + girls) && v.name2Id in Ids(boys + girls) {
      BothKnownIsStep(pow, boys, girls, v);
    }
  }

  lemma BothKnownIsStep(pow: Pow10, boys: seq<Name>, girls: seq<Name>, v: Vote)
    requires WellFormed(boys, girls)
    requires v.name1Id in Ids(boys + girls) && v.name2Id in Ids(boys + girls)
    ensures var r := LiveUpdate(pow, boys, girls, v.name1Id, v.name2Id, v.result);
            && WellFormed(r.0, r.1)
            && NameMapOf(r.0 + r.1) == Step(pow, NameMapOf(boys + girls), v)
  {
    var all := boys + girls;
    var m := NameMapOf(all);
    var id1, id2 := v.name1Id, v.name2Id;
    var name1, name2 := Find(all, id1).value, Find(all, id2).value;
    FindIsMapEntry(all, id1);
    FindIsMapEntry(all, id2);
    var e := CalculateElo(pow, name1.elo, name2.elo, v.result);
    var r1 := SetInList(boys, girls, name1.gender, id1, e.0);
    SetInGender(boys, girls, id1, e.0);
    var m1 := m[id1 := m[id1].(elo := e.0)];
    FindKeepsGender(r1.0 + r1.1, all, id2);
    SetInGender(r1.0, r1.1, id2, e.1);
    LiveUpdateBothKnown(pow, boys, girls, v);
  }

  /**
    Incremental/replay agreement: on well-formed lists whose ratings match a
    replay of the log, the update of `addVote` for a vote no older than any
    logged one gives the ratings of a replay of the extended log.
  */
  lemma AddVoteKeepsReplay(pow: Pow10, boys: seq<Name>, girls: seq<Name>, votes: seq<Vote>, v: Vote)
    requires WellFormed(boys, girls)
    requires LiveMatchesReplay(pow, boys, girls, votes)
    requires forall i :: 0 <= i < |votes| ==> votes[i].timestamp <= v.timestamp
    ensures var r := LiveUpdate(pow, boys, girls, v.name1Id, v.name2Id, v.result);
            LiveMatchesReplay(pow, r.0, r.1, votes + [v])
  {
    var all := boys + girls;
    var r := LiveUpdate(pow, boys, girls, v.name1Id, v.name2Id, v.result);
    LiveUpdateIsStep(pow, boys, girls, v);
    SetEloWellFormed(boys, girls, r.0, r.1);
    ResetSameExceptElo(r.0 + r.1, all);
    ReplayAppendLatest(pow, NameMapOf(Reset(all)), votes, v);
  }

  /** What `addVote` keeps, stated for any lists, log and new vote. */
  lemma AddVoteFacts(pow: Pow10, boys: seq<Name>, girls: seq<Name>, votes: seq<Vote>, v: Vote)
    ensures var r := LiveUpdate(pow, boys, girls, v.name1Id, v.name2Id, v.result);
            WellFormed(boys, girls) ==>
              WellFormed(r.0, r.1) && NameMapOf(r.0 + r.1) == Step(pow, NameMapOf(boys + girls), v)
    ensures var r := LiveUpdate(pow, boys, girls, v.name1Id, v.name2Id, v.result);
            WellFormed(boys, girls) && LiveMatchesReplay(pow, boys, girls, votes) &&
            (forall i :: 0 <= i < |votes| ==> votes[i].timestamp <= v.timestamp) ==>
              LiveMatchesReplay(pow, r.0, r.1, votes + [v])
  {
    if WellFormed(boys, girls) {
      LiveUpdateIsStep(pow, boys, girls, v);
      if LiveMatchesReplay(pow, boys, girls, votes) &&
         forall i :: 0 <= i < |votes| ==> votes[i].timestamp <= v.timestamp {
        AddVoteKeepsReplay(pow, boys, girls, votes, v);
      }
    }
  }

  /** `lst.map(n => m[n.id])` turned back into a map is `m` on those ids. */
  lemma {:induction false} NameMapOfLookup(m: NameMap, names: seq<Name>)
    requires KeyedById(m)
    requires forall i :: 0 <= i < |names| ==> names[i].id in m
    ensures NameMapOf(LookupAll(m, names)) == map k | k in m && k in Ids(names) :: m[k]
    decreases |names|
  {
    var r := LookupAll(m, names);
    if names == [] {
      assert NameMapOf(r) == map[];
    } else {
      var init, last := names[..|names| - 1], names[|names| - 1];
      assert r[..|r| - 1] == LookupAll(m, init);
      NameMapOfLookup(m, init);
      assert Ids(names) == Ids(init) + [last.id];
    }
  }

  /** The names of the catalogue: `boy-`/`girl-` followed by the label, at the start rating. */
  function Prefix(g: Gender): string {
    if g == Boy then "boy-" else "girl-"
  }

  function FormatNames(labels: seq<string>, g: Gender): (r: seq<Name>)
    ensures |r| == |labels|
    ensures forall i :: 0 <= i < |labels| ==> r[i] == Name(Prefix(g) + labels[i], labels[i], g, StartElo)
  {
    seq(|labels|, i requires 0 <= i < |labels| => Name(Prefix(g) + labels[i], labels[i], g, StartElo))
  }

  predicate DistinctLabels(labels: seq<string>) {
    forall i, j :: 0 <= i < j < |labels| ==> labels[i] != labels[j]
  }

  lemma PrefixedDistinct(p: string, a: string, b: string)
    requires a != b
    ensures p + a != p + b
  {
    assert (p + a)[|p|..] == a;
    assert (p + b)[|p|..] == b;
  }

  lemma FormattedUnique(boyLabels: seq<string>, girlLabels: seq<string>)
    requires DistinctLabels(boyLabels) && DistinctLabels(girlLabels)
    ensures UniqueIds(FormatNames(boyLabels, Boy) + FormatNames(girlLabels, Girl))
  {
    var fb, fg := FormatNames(boyLabels, Boy), FormatNames(girlLabels, Girl);
    var all := fb + fg;
    forall i, j | 0 <= i < j < |all|
      ensures all[i].id != all[j].id
    {
      if j < |fb| {
        PrefixedDistinct("boy-", boyLabels[i], boyLabels[j]);
      } else if |fb| <= i {
        PrefixedDistinct("girl-", girlLabels[i - |fb|], girlLabels[j - |fb|]);
      } else {
        assert all[i].id[0] == 'b' && all[j].id[0] == 'g';
      }
    }
  }

  /** Replayed lists built by `LookupAll` give the replay's map back. */
  lemma LookupAllRecoversMap(pow: Pow10, all: seq<Name>, votes: seq<Vote>)
    ensures var m := Replay(pow, NameMapOf(all), votes);
            NameMapOf(LookupAll(m, all)) == m
  {
    var m0 := NameMapOf(all);
    var m := Replay(pow, m0, votes);
    forall i | 0 <= i < |all| ensures all[i].id in m {
      assert all[i].id in Ids(all);
    }
    assert KeyedById(m) by {
      forall k | k in m ensures m[k].id == k {
        assert SameExceptElo(m[k], m0[k]);
      }
    }
    NameMapOfLookup(m, all);
  }

  /**
    Loading: the catalogue at the start rating, replayed over the whole log,
    gives well-formed lists whose ratings match the replay.
  */
  lemma LoadMatchesReplay(pow: Pow10, boyLabels: seq<string>, girlLabels: seq<string>, votes: seq<Vote>)
    requires DistinctLabels(boyLabels) && DistinctLabels(girlLabels)
    ensures var fb, fg := FormatNames(boyLabels, Boy), FormatNames(girlLabels, Girl);
            var m := Replay(pow, NameMapOf(fb + fg), votes);
            && WellFormed(LookupAll(m, fb), LookupAll(m, fg))
            && LiveMatchesReplay(pow, LookupAll(m, fb), LookupAll(m, fg), votes)
  {
    var fb, fg := FormatNames(boyLabels, Boy), FormatNames(girlLabels, Girl);
    var all := fb + fg;
    var m := Replay(pow, NameMapOf(all), votes);
    FormattedUnique(boyLabels, girlLabels);
    ResetFormatted(boyLabels, girlLabels);
    assert WellFormed(fb, fg);
    LookupShape(pow, fb, fg, votes);
    LookupAllConcat(m, fb, fg);
    LookupAllRecoversMap(pow, all, votes);
  }

  /** Looking well-formed lists up in their replayed map keeps them well formed, up to ratings. */
  lemma LookupShape(pow: Pow10, fb: seq<Name>, fg: seq<Name>, votes: seq<Vote>)
    requires WellFormed(fb, fg)
    ensures var m := Replay(pow, NameMapOf(fb + fg), votes);
            var b, g := LookupAll(m, fb), LookupAll(m, fg);
            WellFormed(b, g) && Reset(b + g) == Reset(fb + fg)
  {
    var m := Replay(pow, NameMapOf(fb + fg), votes);
    var b, g := LookupAll(m, fb), LookupAll(m, fg);
    LookupAllShape(pow, fb, fg, votes);
    SetEloWellFormed(fb, fg, b, g);
    ResetSameExceptElo(b + g, fb + fg);
  }

  lemma LookupAllConcat(m: NameMap, a: seq<Name>, b: seq<Name>)
    ensures LookupAll(m, a + b) == LookupAll(m, a) + LookupAll(m, b)
  {
  }

  /** The catalogue is already at the start rating. */
  lemma ResetFormatted(boyLabels: seq<string>, girlLabels: seq<string>)
    ensures var all := FormatNames(boyLabels, Boy) + FormatNames(girlLabels, Girl);
            Reset(all) == all
  {
  }
}
