/**
  Lists of names and the id-keyed map built from them.  `NameMapOf` is what
  a sequence of `nameMap.set(name.id, name)` calls leaves behind: every id,
  bound to the last name carrying it.
*/
module Names {
  import opened Wrappers
  import opened Types
  import opened Elo

  type NameMap = map<string, Name>

  function Ids(names: seq<Name>): (ids: seq<string>)
    ensures |ids| == |names|
    ensures forall i :: 0 <= i < |names| ==> ids[i] == names[i].id
  {
    seq(|names|, i requires 0 <= i < |names| => names[i].id)
  }

  predicate UniqueIds(names: seq<Name>) {
    forall i, j :: 0 <= i < j < |names| ==> names[i].id != names[j].id
  }

  predicate AllOfGender(names: seq<Name>, g: Gender) {
    forall i :: 0 <= i < |names| ==> names[i].gender == g
  }

  /** Two records of the same name, possibly with different ratings. */
  predicate SameExceptElo(a: Name, b: Name) {
    a.id == b.id && a.name == b.name && a.gender == b.gender
  }

  /** Every entry of the map is stored under its own id. */
  predicate KeyedById(m: NameMap) {
    forall k :: k in m ==> m[k].id == k
  }

  /** The names with their ratings put back to the start rating. */
  function Reset(names: seq<Name>): (r: seq<Name>)
    ensures |r| == |names|
    ensures Ids(r) == Ids(names)
    ensures forall i :: 0 <= i < |names| ==> r[i] == names[i].(elo := StartElo)
  {
    seq(|names|, i requires 0 <= i < |names| => names[i].(elo := StartElo))
  }

  /** `names.findIndex(n => n.id === id)`: the first index with that id, or -1. */
  function FindIndex(names: seq<Name>, id: string): (i: int)
    ensures -1 <= i < |names|
    ensures 0 <= i ==> names[i].id == id && forall j :: 0 <= j < i ==> names[j].id != id
    ensures i == -1 <==> id !in Ids(names)
    decreases |names|
  {
    if names == [] then -1
    else if names[0].id == id then 0
    else
      var k := FindIndex(names[1..], id);
      assert forall j :: 0 < j < |names| ==> names[j] == names[1..][j - 1];
      if k < 0 then -1 else k + 1
  }

  /** `names.find(n => n.id === id)`. */
  function Find(names: seq<Name>, id: string): (r: Option<Name>)
    ensures r.None? <==> id !in Ids(names)
    ensures r.Some? ==> r.value.id == id && r.value in names
    ensures r.Some? ==> exists i :: 0 <= i < |names| && names[i] == r.value &&
                                    forall j :: 0 <= j < i ==> names[j].id != id
  {
    var i := FindIndex(names, id);
    if i < 0 then None else Some(names[i])
  }

  /** `names.map(n => n.id === id ? { ...n, elo: e } : n)`. */
  function SetElo(names: seq<Name>, id: string, e: real): (r: seq<Name>)
    ensures |r| == |names|
    ensures Ids(r) == Ids(names)
    ensures forall i :: 0 <= i < |names| ==> SameExceptElo(r[i], names[i])
    ensures forall i :: 0 <= i < |names| && names[i].id == id ==> r[i].elo == e
    ensures forall i :: 0 <= i < |names| && names[i].id != id ==> r[i] == names[i]
  {
    seq(|names|, i requires 0 <= i < |names| =>
      if names[i].id == id then names[i].(elo := e) else names[i])
  }

  /** The map left by `names.forEach(n => nameMap.set(n.id, n))` on an empty map. */
  function NameMapOf(names: seq<Name>): (m: NameMap)
    ensures forall k :: k in m <==> k in Ids(names)
    ensures KeyedById(m)
    decreases |names|
  {
    if names == [] then map[]
    else
      var init, last := names[..|names| - 1], names[|names| - 1];
      assert Ids(names) == Ids(init) + [last.id];
      NameMapOf(init)[last.id := last]
  }

  /** The loop that fills the map, entry by entry. */
  method BuildNameMap(names: seq<Name>) returns (m: NameMap)
    ensures m == NameMapOf(names)
  {
    m := map[];
    var i := 0;
    while i < |names|
      invariant 0 <= i <= |names|
      invariant m == NameMapOf(names[..i])
    {
      assert names[..i + 1][..i] == names[..i];
      m := m[names[i].id := names[i]];
      i := i + 1;
    }
    assert names[..i] == names;
  }

  lemma IdsConcat(a: seq<Name>, b: seq<Name>)
    ensures Ids(a + b) == Ids(a) + Ids(b)
  {
  }

  lemma ResetSameExceptElo(a: seq<Name>, b: seq<Name>)
    requires |a| == |b|
    requires forall i :: 0 <= i < |a| ==> SameExceptElo(a[i], b[i])
    ensures Reset(a) == Reset(b)
  {
  }

  lemma SetEloConcat(a: seq<Name>, b: seq<Name>, id: string, e: real)
    ensures SetElo(a + b, id, e) == SetElo(a, id, e) + SetElo(b, id, e)
  {
  }

  lemma SetEloAbsent(names: seq<Name>, id: string, e: real)
    requires id !in Ids(names)
    ensures SetElo(names, id, e) == names
  {
  }

  /** Each id is bound to the last entry of the list carrying it. */
  lemma {:induction false} NameMapOfLast(names: seq<Name>, k: string)
    requires k in Ids(names)
    ensures exists i :: 0 <= i < |names| && NameMapOf(names)[k] == names[i] &&
                        forall j :: i < j < |names| ==> names[j].id != k
    decreases |names|
  {
    var init, last := names[..|names| - 1], names[|names| - 1];
    assert Ids(names) == Ids(init) + [last.id];
    if last.id == k {
      assert NameMapOf(names)[k] == names[|names| - 1];
    } else {
      NameMapOfLast(init, k);
      var i :| 0 <= i < |init| && NameMapOf(init)[k] == init[i] &&
               forall j :: i < j < |init| ==> init[j].id != k;
      assert names[i] == init[i];
      forall j | i < j < |names|
        ensures names[j].id != k
      {
        if j < |init| {
          assert names[j] == init[j];
        }
      }
    }
  }

  /** With unique ids, the map holds exactly the list's entry for each id. */
  lemma {:induction false} NameMapAt(names: seq<Name>, i: nat)
    requires UniqueIds(names)
    requires i < |names|
    ensures NameMapOf(names)[names[i].id] == names[i]
    decreases |names|
  {
    var init, last := names[..|names| - 1], names[|names| - 1];
    if i < |names| - 1 {
      assert UniqueIds(init);
      assert init[i] == names[i];
      NameMapAt(init, i);
    }
  }

  /** With unique ids, `find` returns the entry the map holds. */
  lemma FindIsMapEntry(names: seq<Name>, id: string)
    requires UniqueIds(names)
    requires id in Ids(names)
    ensures Find(names, id) == Some(NameMapOf(names)[id])
  {
    var i := FindIndex(names, id);
    NameMapAt(names, i);
  }

  /** Setting the rating of every entry with an id sets it in the map. */
  lemma {:induction false} NameMapSetElo(names: seq<Name>, id: string, e: real)
    requires id in Ids(names)
    ensures NameMapOf(SetElo(names, id, e))
         == NameMapOf(names)[id := NameMapOf(names)[id].(elo := e)]
    decreases |names|
  {
    var init, last := names[..|names| - 1], names[|names| - 1];
    var rLast := if last.id == id then last.(elo := e) else last;
    SetEloSnoc(names, id, e);
    IdsConcat(init, [last]);
    assert names == init + [last];
    var before := NameMapOf(init);
    if last.id == id {
      if id in Ids(init) {
        NameMapSetElo(init, id, e);
        UpdateTwice(before, id, before[id].(elo := e), rLast);
      } else {
        SetEloAbsent(init, id, e);
      }
      UpdateTwice(before, id, last, rLast);
    } else {
      assert id in Ids(init);
      NameMapSetElo(init, id, e);
      UpdateCommutes(before, id, before[id].(elo := e), last.id, last);
    }
  }

  /** One step of `NameMapOf` over a list whose ratings were set. */
  lemma SetEloSnoc(names: seq<Name>, id: string, e: real)
    requires names != []
    ensures NameMapOf(names)
         == NameMapOf(names[..|names| - 1])[names[|names| - 1].id := names[|names| - 1]]
    ensures NameMapOf(SetElo(names, id, e))
         == NameMapOf(SetElo(names[..|names| - 1], id, e))[names[|names| - 1].id :=
              if names[|names| - 1].id == id then names[|names| - 1].(elo := e)
              else names[|names| - 1]]
  {
    var init, last := names[..|names| - 1], names[|names| - 1];
    var r := SetElo(names, id, e);
    assert names == init + [last];
    SetEloConcat(init, [last], id, e);
    assert r[..|r| - 1] == SetElo(init, id, e);
  }

  lemma UpdateTwice<K, V>(m: map<K, V>, k: K, v: V, w: V)
    ensures m[k := v][k := w] == m[k := w]
  {
  }

  lemma UpdateCommutes<K, V>(m: map<K, V>, k: K, v: V, k': K, v': V)
    requires k != k'
    ensures m[k := v][k' := v'] == m[k' := v'][k := v]
  {
  }
}
