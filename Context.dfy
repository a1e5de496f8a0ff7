/**
  The state of the name provider: the two name lists with their live
  ratings, the vote log, the groups, the selected group and the last pair
  shown.  Persistence, notifications and id generation stay outside; fresh
  ids and the current time are parameters.
*/
module Context {
  import opened Wrappers
  import opened Types
  import opened Elo
  import opened Names
  import opened ReplayEngine
  import opened Live
  import opened Ranking
  import opened Groups

  /** How often the pair sampler draws before it accepts a repeated pair (`maxAttempts`). */
  const MaxAttempts: nat := 5

  /** The error `getNamePair` throws when a gender has fewer than two names. */
  datatype PairError = NotEnoughNames(gender: Gender)

  class NameContext {
    /** The platform's `Math.pow(10, ·)`. */
    const pow: Pow10
    const userId: string
    var boyNames: seq<Name>
    var girlNames: seq<Name>
    var votes: seq<Vote>
    var groups: seq<Group>
    var currentGroup: Option<string>
    var lastNamePair: LastNamePair

    /** Boys in the boy list, girls in the girl list, every id once. */
    ghost predicate Valid()
      reads this
    {
      WellFormed(boyNames, girlNames)
    }

    /** The live ratings equal a replay of the whole log from the start rating. */
    ghost predicate LiveConsistent()
      reads this
    {
      LiveMatchesReplay(pow, boyNames, girlNames, votes)
    }

    function NamesOf(gender: Gender): (names: seq<Name>)
      reads this
      ensures Valid() ==> AllOfGender(names, gender)
    {
      if gender == Boy then boyNames else girlNames
    }

    /** The provider before the names are loaded, with the stored log, groups and selection. */
    constructor (pow: Pow10, userId: string, storedVotes: seq<Vote>, storedGroups: seq<Group>,
                 storedCurrentGroup: Option<string>)
      ensures this.pow == pow && this.userId == userId
      ensures boyNames == [] && girlNames == []
      ensures votes == storedVotes && groups == storedGroups && currentGroup == storedCurrentGroup
      ensures lastNamePair == LastNamePair(Boy, None)
      ensures Valid()
    {
      this.pow := pow;
      this.userId := userId;
      boyNames, girlNames := [], [];
      votes, groups, currentGroup := storedVotes, storedGroups, storedCurrentGroup;
      lastNamePair := LastNamePair(Boy, None);
    }

    /**
      `fetchNames`: builds the catalogue at the start rating and replays the
      whole stored log over it (`calculateAndApplyEloRatings`).
    */
    method FetchNames(boyLabels: seq<string>, girlLabels: seq<string>)
      modifies this`boyNames, this`girlNames
      ensures var fb, fg := FormatNames(boyLabels, Boy), FormatNames(girlLabels, Girl);
              var m := Replay(pow, NameMapOf(fb + fg), votes);
              boyNames == LookupAll(m, fb) && girlNames == LookupAll(m, fg)
      ensures Ids(boyNames) == Ids(FormatNames(boyLabels, Boy))
      ensures Ids(girlNames) == Ids(FormatNames(girlLabels, Girl))
      ensures DistinctLabels(boyLabels) && DistinctLabels(girlLabels) ==> Valid() && LiveConsistent()
    {
      var formattedBoyNames := FormatNames(boyLabels, Boy);
      var formattedGirlNames := FormatNames(girlLabels, Girl);
      boyNames, girlNames := ReplayNames(pow, formattedBoyNames, formattedGirlNames, votes);
      if DistinctLabels(boyLabels) && DistinctLabels(girlLabels) {
        LoadMatchesReplay(pow, boyLabels, girlLabels, votes);
      }
    }

    /**
      `addVote`: logs the vote with the provider's user id and the given time,
      updates the live ratings of the two names, and clears the last pair.
    */
    method AddVote(name1Id: string, name2Id: string, result: VoteResult, groupId: Option<string>, now: int)
      modifies this`votes, this`boyNames, this`girlNames, this`lastNamePair
      ensures votes == old(votes) + [Vote(userId, now, name1Id, name2Id, result, groupId)]
      ensures (boyNames, girlNames) == LiveUpdate(pow, old(boyNames), old(girlNames), name1Id, name2Id, result)
      ensures var found := Find(old(boyNames) + old(girlNames), name1Id);
              lastNamePair == LastNamePair(if found.Some? then found.value.gender else Boy, None)
      ensures old(Valid()) ==> Valid()
      ensures old(Valid()) ==>
                NameMapOf(boyNames + girlNames)
                == Step(pow, NameMapOf(old(boyNames) + old(girlNames)),
                        Vote(userId, now, name1Id, name2Id, result, groupId))
      ensures old(Valid()) && old(LiveConsistent()) &&
              (forall i :: 0 <= i < |old(votes)| ==> old(votes)[i].timestamp <= now) ==>
                LiveConsistent()
    {
      var newVote := Vote(userId, now, name1Id, name2Id, result, groupId);
      AddVoteFacts(pow, boyNames, girlNames, votes, newVote);
      var name1 := Find(boyNames + girlNames, name1Id);
      var updated := LiveUpdate(pow, boyNames, girlNames, name1Id, name2Id, result);
      votes := votes + [newVote];
      boyNames, girlNames := updated.0, updated.1;
      lastNamePair := LastNamePair(if name1.Some? then name1.value.gender else Boy, None);
    }

    /** The last pair shown for this gender is the ordered pair at these indices. */
    predicate RepeatsLast(gender: Gender, names: seq<Name>, index1: nat, index2: nat)
      reads this
      requires index1 < |names| && index2 < |names|
    {
      lastNamePair.gender == gender && lastNamePair.pair.Some? &&
      lastNamePair.pair.value.0 == names[index1].id && lastNamePair.pair.value.1 == names[index2].id
    }

    /**
      `getNamePair`: two entries at distinct indices, redrawn while they repeat
      the last ordered pair of this gender, at most `MaxAttempts` draws in all.
      Each random index is an arbitrary choice; the inner loop that redraws
      until the indices differ is its result, an index other than the first.
    */
    method GetNamePair(gender: Gender) returns (r: Result<(Name, Name), PairError>, ghost attempts: nat)
      modifies this`lastNamePair
      ensures |NamesOf(gender)| < 2 ==>
                r == Failure(NotEnoughNames(gender)) && lastNamePair == old(lastNamePair)
      ensures |NamesOf(gender)| >= 2 ==> r.Success?
      ensures r.Success? ==>
                var names := NamesOf(gender);
                exists i, j :: 0 <= i < |names| && 0 <= j < |names| && i != j &&
                               r.value == (names[i], names[j])
      ensures r.Success? ==> lastNamePair == LastNamePair(gender, Some((r.value.0.id, r.value.1.id)))
      ensures r.Success? ==> 1 <= attempts <= MaxAttempts
      ensures r.Success? && old(lastNamePair) == LastNamePair(gender, Some((r.value.0.id, r.value.1.id))) ==>
                attempts == MaxAttempts
      ensures r.Success? && !(old(lastNamePair).gender == gender && old(lastNamePair).pair.Some?) ==>
                attempts == 1
      ensures r.Success? && Valid() ==> r.value.0.id != r.value.1.id
    {
      var names := NamesOf(gender);
      if |names| < 2 {
        r, attempts := Failure(NotEnoughNames(gender)), 0;
        return;
      }
      var index1: nat :| index1 < |names|;
      var index2: nat :| index2 < |names| && index2 != index1;
      var tries: nat := 1;
      while RepeatsLast(gender, names, index1, index2) && tries < MaxAttempts
        invariant 1 <= tries <= MaxAttempts
        invariant index1 < |names| && index2 < |names| && index1 != index2
        invariant !(lastNamePair.gender == gender && lastNamePair.pair.Some?) ==> tries == 1
        decreases MaxAttempts - tries
      {
        index1 :| index1 < |names|;
        index2 :| index2 < |names| && index2 != index1;
        tries := tries + 1;
      }
      attempts := tries;
      lastNamePair := LastNamePair(gender, Some((names[index1].id, names[index2].id)));
      r := Success((names[index1], names[index2]));
      if Valid() {
        WellFormedParts(boyNames, girlNames);
      }
    }

    /** `getTopNames`: the gender's names sorted by rating, highest first, cut at `limit`. */
    function GetTopNames(gender: Gender, limit: int): (r: seq<Name>)
      reads this
      ensures SortedDescending(r)
      ensures |r| == SliceEnd(|NamesOf(gender)|, limit)
      ensures multiset(r) <= multiset(NamesOf(gender))
      ensures r == SortDesc(NamesOf(gender))[..|r|]
      ensures forall i, j :: 0 <= i < |r| <= j < |NamesOf(gender)| ==>
                r[i].elo >= SortDesc(NamesOf(gender))[j].elo
    {
      TopNames(NamesOf(gender), limit)
    }

    /** `getUserRanking`: the ranking of this user's personal votes. */
    method GetUserRanking(gender: Gender) returns (r: seq<Name>)
      ensures r == ScopedRanking(pow, NamesOf(gender), gender, UserVotes(votes, userId))
      ensures SortedDescending(r)
      ensures UserVotes(votes, userId) == [] ==> r == GetTopNames(gender, FallbackLimit)
      ensures UserVotes(votes, userId) != [] && Valid() ==>
                r == SortDesc(Rerated(pow, NamesOf(gender), UserVotes(votes, userId)))
    {
      var userVotes := UserVotes(votes, userId);
      if Valid() {
        WellFormedParts(boyNames, girlNames);
      }
      r := RankScope(pow, NamesOf(gender), gender, userVotes);
    }

    /** `getGroupRanking`: the ranking of all votes cast in a group. */
    method GetGroupRanking(groupId: string, gender: Gender) returns (r: seq<Name>)
      ensures r == ScopedRanking(pow, NamesOf(gender), gender, GroupVotes(votes, groupId))
      ensures SortedDescending(r)
      ensures GroupVotes(votes, groupId) == [] ==> r == GetTopNames(gender, FallbackLimit)
      ensures GroupVotes(votes, groupId) != [] && Valid() ==>
                r == SortDesc(Rerated(pow, NamesOf(gender), GroupVotes(votes, groupId)))
    {
      var groupVotes := GroupVotes(votes, groupId);
      if Valid() {
        WellFormedParts(boyNames, girlNames);
      }
      r := RankScope(pow, NamesOf(gender), gender, groupVotes);
    }

    /** `createGroup`, with the fresh id supplied by the caller. */
    method CreateGroup(name: string, newId: string) returns (g: Group)
      modifies this`groups
      ensures g == NewGroup(newId, name, userId)
      ensures groups == old(groups) + [g]
      ensures old(OwnersAreMembers(groups)) ==> OwnersAreMembers(groups)
    {
      g := NewGroup(newId, name, userId);
      groups := groups + [g];
      if OwnersAreMembers(old(groups)) {
        CreateKeepsOwnersMembers(old(groups), newId, name, userId);
      }
    }

    /** `joinGroup`: adds the provider's user to the group with that id. */
    method JoinGroup(groupId: string) returns (ok: bool)
      modifies this`groups
      ensures (ok, groups) == Join(old(groups), groupId, userId)
      ensures ok ==> userId in Groups.GetGroupById(groups, groupId).value.members
      ensures old(OwnersAreMembers(groups)) ==> OwnersAreMembers(groups)
    {
      var r := Join(groups, groupId, userId);
      if r.0 {
        JoinMakesMember(groups, groupId, userId);
      }
      if OwnersAreMembers(groups) {
        JoinKeepsOwnersMembers(groups, groupId, userId);
      }
      ok, groups := r.0, r.1;
    }

    /** `getGroupById`. */
    function GetGroupById(groupId: string): (r: Option<Group>)
      reads this
      ensures r.None? <==> !HasId(groups, groupId)
      ensures r.Some? ==> r.value.id == groupId
      ensures r.Some? ==> exists i :: 0 <= i < |groups| && groups[i] == r.value &&
                                      forall j :: 0 <= j < i ==> groups[j].id != groupId
    {
      Groups.GetGroupById(groups, groupId)
    }

    /** `setCurrentGroup`. */
    method SetCurrentGroup(groupId: Option<string>)
      modifies this`currentGroup
      ensures currentGroup == groupId
    {
      currentGroup := groupId;
    }
  }
}
