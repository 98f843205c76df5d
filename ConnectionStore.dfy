/**
 * The main process's table of saved connections: the `save-connection`
 * (upsert by id) and `delete-connection` (remove by id) handlers.
 */
module ConnectionStore {
  import opened Wrappers
  import opened Profiles

  /** Every profile in the list replaced by `c` when its id equals `c`'s id (`connections.map`). */
  function ReplaceById(s: seq<Profile>, c: Profile): (r: seq<Profile>)
    ensures |r| == |s|
    ensures forall i :: 0 <= i < |s| ==> r[i] == (if s[i].id == c.id then c else s[i])
  {
    if s == [] then [] else [if s[0].id == c.id then c else s[0]] + ReplaceById(s[1..], c)
  }

  /** The list without the profiles whose id is `id`, order kept (`connections.filter`). */
  function RemoveById(s: seq<Profile>, id: Option<string>): (r: seq<Profile>)
    ensures |r| <= |s|
    ensures forall x :: x in r ==> x in s && x.id != id
    ensures forall x :: x in s && x.id != id ==> x in r
    ensures forall x :: multiset(r)[x] == if x.id == id then 0 else multiset(s)[x]
  {
    if s == [] then []
    else
      var rest := RemoveById(s[1..], id);
      assert s == [s[0]] + s[1..];
      if s[0].id == id then rest else [s[0]] + rest
  }

  /** No two profiles share an id, and every stored id is a real (truthy) one. */
  ghost predicate UniqueIds(s: seq<Profile>) {
    (forall i :: 0 <= i < |s| ==> Present(s[i].id)) &&
    (forall i, j :: 0 <= i < j < |s| ==> s[i].id != s[j].id)
  }

  /** `id` is a real id that no stored profile carries: what `uuidv4()` is trusted to give. */
  ghost predicate FreshFor(s: seq<Profile>, id: string) {
    id != "" && forall i :: 0 <= i < |s| ==> s[i].id != Some(id)
  }

  /** The list `save-connection` returns: an update by id, or the new profile appended with `freshId`. */
  function Saved(s: seq<Profile>, c: Profile, freshId: string): (r: seq<Profile>)
    ensures Present(c.id) ==> |r| == |s|
    ensures !Present(c.id) ==> |r| == |s| + 1 && r[..|s|] == s && r[|s|] == c.(id := Some(freshId))
  {
    if Present(c.id) then ReplaceById(s, c) else s + [c.(id := Some(freshId))]
  }

  /** Filtering distributes over concatenation: the survivors keep their relative order. */
  lemma {:induction false} RemoveByIdAppend(a: seq<Profile>, b: seq<Profile>, id: Option<string>)
    ensures RemoveById(a + b, id) == RemoveById(a, id) + RemoveById(b, id)
  {
    if a == [] {
      assert a + b == b;
    } else {
      assert (a + b)[1..] == a[1..] + b;
      RemoveByIdAppend(a[1..], b, id);
    }
  }

  /** Deleting an id nobody carries leaves the list as it is. */
  lemma {:induction false} RemoveAbsentId(s: seq<Profile>, id: Option<string>)
    requires forall i :: 0 <= i < |s| ==> s[i].id != id
    ensures RemoveById(s, id) == s
  {
    if s != [] {
      RemoveAbsentId(s[1..], id);
      assert s == [s[0]] + s[1..];
    }
  }

  /** Deleting twice by the same id is the same as deleting once. */
  lemma RemoveByIdIdempotent(s: seq<Profile>, id: Option<string>)
    ensures RemoveById(RemoveById(s, id), id) == RemoveById(s, id)
  {
    var r := RemoveById(s, id);
    forall i | 0 <= i < |r| ensures r[i].id != id {
      assert r[i] in r;
    }
    RemoveAbsentId(r, id);
  }

  /** Saving a new profile and then deleting the id it was given restores the list. */
  lemma SaveNewThenDelete(s: seq<Profile>, c: Profile, freshId: string)
    requires !Present(c.id) && FreshFor(s, freshId)
    ensures RemoveById(Saved(s, c, freshId), Some(freshId)) == s
  {
    var added := c.(id := Some(freshId));
    RemoveByIdAppend(s, [added], Some(freshId));
    RemoveAbsentId(s, Some(freshId));
    assert RemoveById([added], Some(freshId)) == [];
  }

  /** Saving with an id that no stored profile carries changes nothing (the edit is lost). */
  lemma SaveUnknownIdIsNoOp(s: seq<Profile>, c: Profile, freshId: string)
    requires Present(c.id) && forall i :: 0 <= i < |s| ==> s[i].id != c.id
    ensures Saved(s, c, freshId) == s
  {
  }

  /** An update saved twice has the effect of saving it once. */
  lemma SaveIdempotent(s: seq<Profile>, c: Profile, freshId: string)
    requires Present(c.id)
    ensures Saved(Saved(s, c, freshId), c, freshId) == Saved(s, c, freshId)
  {
  }

  /** Both handlers keep the ids unique, given a fresh id for a new profile. */
  lemma SavedKeepsUniqueIds(s: seq<Profile>, c: Profile, freshId: string)
    requires UniqueIds(s)
    requires !Present(c.id) ==> FreshFor(s, freshId)
    ensures UniqueIds(Saved(s, c, freshId))
  {
  }

  lemma RemoveKeepsUniqueIds(s: seq<Profile>, id: Option<string>)
    requires UniqueIds(s)
    ensures UniqueIds(RemoveById(s, id))
  {
    RemoveKeepsDistinct(s, id);
    var r := RemoveById(s, id);
    forall i | 0 <= i < |r| ensures Present(r[i].id) {
      assert r[i] in r;
    }
  }

  /** No two positions carry the same id. */
  ghost predicate DistinctIds(s: seq<Profile>) {
    forall i, j :: 0 <= i < j < |s| ==> s[i].id != s[j].id
  }

  /** Filtering never makes two survivors share an id. */
  lemma {:induction false} RemoveKeepsDistinct(s: seq<Profile>, id: Option<string>)
    requires DistinctIds(s)
    ensures DistinctIds(RemoveById(s, id))
  {
    if s != [] {
      var tail := s[1..];
      assert DistinctIds(tail) by {
        forall i, j | 0 <= i < j < |tail| ensures tail[i].id != tail[j].id {
          assert tail[i] == s[i + 1] && tail[j] == s[j + 1];
        }
      }
      RemoveKeepsDistinct(tail, id);
      var rest := RemoveById(tail, id);
      if s[0].id != id {
        forall k | 0 <= k < |rest| ensures rest[k].id != s[0].id {
          assert rest[k] in rest;
          var m :| 0 <= m < |tail| && tail[m] == rest[k];
          assert s[m + 1] == rest[k];
        }
        ConsKeepsDistinct(s[0], rest);
      }
    }
  }

  lemma ConsKeepsDistinct(x: Profile, s: seq<Profile>)
    requires DistinctIds(s)
    requires forall k :: 0 <= k < |s| ==> s[k].id != x.id
    ensures DistinctIds([x] + s)
  {
    var t := [x] + s;
    forall i, j | 0 <= i < j < |t| ensures t[i].id != t[j].id {
      assert t[j] == s[j - 1];
      if i > 0 {
        assert t[i] == s[i - 1];
      }
    }
  }

  /**
   * The persisted `connections` list of the electron-store instance. Reads
   * and writes of the store file are the field itself.
   */
  class Store {
    var connections: seq<Profile>

    /** The store as loaded from disk (`store.get('connections', [])`). */
    constructor (persisted: seq<Profile>)
      ensures connections == persisted
    {
      connections := persisted;
    }

    /** `get-connections`: the stored list. */
    method GetConnections() returns (r: seq<Profile>)
      ensures r == connections
    {
      r := connections;
    }

    /**
     * `save-connection`: an update in place when `c.id` is truthy, otherwise
     * `c` with the id `freshId` (the value of `uuidv4()`) pushed at the end.
     */
    method SaveConnection(c: Profile, freshId: string) returns (r: seq<Profile>)
      requires !Present(c.id) ==> FreshFor(connections, freshId)
      modifies this
      ensures connections == Saved(old(connections), c, freshId)
      ensures Present(c.id) ==> connections == ReplaceById(old(connections), c)
      ensures !Present(c.id) ==> connections == old(connections) + [c.(id := Some(freshId))]
      ensures UniqueIds(old(connections)) ==> UniqueIds(connections)
      ensures r == connections
    {
      var list := connections;
      if Present(c.id) {
        list := ReplaceById(list, c);
      } else {
        var added := c.(id := Some(freshId));
        list := list + [added];
      }
      connections := list;
      if UniqueIds(old(connections)) {
        SavedKeepsUniqueIds(old(connections), c, freshId);
      }
      r := connections;
    }

    /** `delete-connection`: every profile with id `id` removed, the others in order. */
    method DeleteConnection(id: Option<string>) returns (r: seq<Profile>)
      modifies this
      ensures connections == RemoveById(old(connections), id)
      ensures UniqueIds(old(connections)) ==> UniqueIds(connections)
      ensures r == connections
    {
      connections := RemoveById(connections, id);
      if UniqueIds(old(connections)) {
        RemoveKeepsUniqueIds(old(connections), id);
      }
      r := connections;
    }
  }
}
