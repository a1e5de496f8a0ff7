/** The group store: lookup, creation and joining of groups. */
module Groups {
  import opened Wrappers
  import opened Types

  predicate HasId(groups: seq<Group>, id: string) {
    exists i :: 0 <= i < |groups| && groups[i].id == id
  }

  /** `groups.findIndex(g => g.id === id)`: the first index with that id, or -1. */
  function FindGroupIndex(groups: seq<Group>, id: string): (i: int)
    ensures -1 <= i < |groups|
    ensures 0 <= i ==> groups[i].id == id && forall j :: 0 <= j < i ==> groups[j].id != id
    ensures i == -1 <==> !HasId(groups, id)
    decreases |groups|
  {
    if groups == [] then -1
    else if groups[0].id == id then 0
    else
      var k := FindGroupIndex(groups[1..], id);
      assert forall j :: 0 < j < |groups| ==> groups[j] == groups[1..][j - 1];
      if k < 0 then -1 else k + 1
  }

  /** `groups.find(g => g.id === id)`: the first group with that id. */
  function GetGroupById(groups: seq<Group>, id: string): (r: Option<Group>)
    ensures r.None? <==> !HasId(groups, id)
    ensures r.Some? ==> r.value.id == id
    ensures r.Some? ==> exists i :: 0 <= i < |groups| && groups[i] == r.value &&
                                    forall j :: 0 <= j < i ==> groups[j].id != id
  {
    var i := FindGroupIndex(groups, id);
    if i < 0 then None else Some(groups[i])
  }

  /** A new group owned by its creator, who is its only member. */
  function NewGroup(id: string, name: string, userId: string): (g: Group)
    ensures g.createdBy == userId && g.members == [userId] && g.id == id && g.name == name
  {
    Group(id, name, userId, [userId])
  }

  /**
    `joinGroup` on the list: false and no change if the group is missing or
    the user is already a member; otherwise true and the user appended to the
    members of the first group with that id.
  */
  function Join(groups: seq<Group>, groupId: string, userId: string): (r: (bool, seq<Group>))
    ensures !HasId(groups, groupId) ==> r == (false, groups)
    ensures HasId(groups, groupId) ==>
              var i := FindGroupIndex(groups, groupId);
              && r.0 == (userId !in groups[i].members)
              && (!r.0 ==> r.1 == groups)
              && (r.0 ==> r.1 == groups[i := groups[i].(members := groups[i].members + [userId])])
    ensures |r.1| == |groups|
    ensures forall j :: 0 <= j < |groups| && groups[j].id != groupId ==> r.1[j] == groups[j]
    ensures forall j :: 0 <= j < |groups| ==>
              r.1[j].id == groups[j].id && r.1[j].name == groups[j].name &&
              r.1[j].createdBy == groups[j].createdBy
    ensures forall j :: 0 <= j < |groups| ==> multiset(groups[j].members) <= multiset(r.1[j].members)
  {
    var i := FindGroupIndex(groups, groupId);
    if i == -1 then (false, groups)
    else
      var group := groups[i];
      if userId in group.members then (false, groups)
      else (true, groups[i := group.(members := group.members + [userId])])
  }

  /** The creator of every group is one of its members. */
  predicate OwnersAreMembers(groups: seq<Group>) {
    forall i :: 0 <= i < |groups| ==> groups[i].createdBy in groups[i].members
  }

  lemma CreateKeepsOwnersMembers(groups: seq<Group>, id: string, name: string, userId: string)
    requires OwnersAreMembers(groups)
    ensures OwnersAreMembers(groups + [NewGroup(id, name, userId)])
  {
  }

  lemma JoinKeepsOwnersMembers(groups: seq<Group>, groupId: string, userId: string)
    requires OwnersAreMembers(groups)
    ensures OwnersAreMembers(Join(groups, groupId, userId).1)
  {
    var r := Join(groups, groupId, userId).1;
    forall j | 0 <= j < |groups| ensures r[j].createdBy in r[j].members {
      assert groups[j].createdBy in multiset(groups[j].members);
    }
  }

  /** After a join, successful or not, the user is a member of the group found. */
  lemma JoinMakesMember(groups: seq<Group>, groupId: string, userId: string)
    requires HasId(groups, groupId)
    ensures var r := Join(groups, groupId, userId).1;
            userId in GetGroupById(r, groupId).value.members
  {
    var r := Join(groups, groupId, userId).1;
    var i := FindGroupIndex(groups, groupId);
    assert r[i].id == groupId;
    assert forall j :: 0 <= j < i ==> r[j].id != groupId;
    assert FindGroupIndex(r, groupId) == i;
  }

  /** Joining twice: the second join reports false and changes nothing. */
  lemma JoinTwice(groups: seq<Group>, groupId: string, userId: string)
    ensures var r := Join(groups, groupId, userId).1;
            Join(r, groupId, userId) == (false, r)
  {
    var r := Join(groups, groupId, userId).1;
    if HasId(groups, groupId) {
      JoinMakesMember(groups, groupId, userId);
      var i := FindGroupIndex(groups, groupId);
      assert r[i].id == groupId;
      assert forall j :: 0 <= j < i ==> r[j].id != groupId;
      assert FindGroupIndex(r, groupId) == i;
    } else {
      assert r == groups;
    }
  }

  /** A created group with an unused id is found by its id. */
  lemma CreatedGroupFound(groups: seq<Group>, id: string, name: string, userId: string)
    requires !HasId(groups, id)
    ensures GetGroupById(groups + [NewGroup(id, name, userId)], id) == Some(NewGroup(id, name, userId))
  {
    var r := groups + [NewGroup(id, name, userId)];
    assert r[|groups|].id == id;
    assert forall j :: 0 <= j < |groups| ==> r[j].id != id;
    assert FindGroupIndex(r, id) == |groups|;
  }
}
