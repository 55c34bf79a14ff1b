/**
 * The three sets by which overlap is decided (frontend/src/planner/buildingOverlap.ts), proved against the rule itself,
 * `SameBuilding`. A key is the triple of class and position.
 */
module BuildingOverlaps {
  import opened Wrappers
  import opened DesignationStore

  type Key = (string, int, int)

  function KeyOf(m: Member): Key {
    (m.c, m.x, m.y)
  }

  ghost predicate HasId(added: seq<Member>, id: string) {
    exists o :: o in added && o.id == Some(id)
  }

  ghost predicate HasKey(added: seq<Member>, key: Key) {
    exists o :: o in added && KeyOf(o) == key
  }

  ghost predicate HasKeyWithoutId(added: seq<Member>, key: Key) {
    exists o :: o in added && o.id.None? && KeyOf(o) == key
  }

  lemma OneMore(added: seq<Member>, m: Member)
    ensures forall id :: HasId(added + [m], id) <==> HasId(added, id) || m.id == Some(id)
    ensures forall key :: HasKey(added + [m], key) <==> HasKey(added, key) || KeyOf(m) == key
    ensures forall key :: HasKeyWithoutId(added + [m], key) <==> HasKeyWithoutId(added, key) || (m.id.None? && KeyOf(m) == key)
  {
    var r := added + [m];
    assert m in r;
    forall id | HasId(added, id) ensures HasId(r, id) {
      var o :| o in added && o.id == Some(id);
      assert o in r;
    }
    forall key | HasKey(added, key) ensures HasKey(r, key) {
      var o :| o in added && KeyOf(o) == key;
      assert o in r;
    }
    forall key | HasKeyWithoutId(added, key) ensures HasKeyWithoutId(r, key) {
      var o :| o in added && o.id.None? && KeyOf(o) == key;
      assert o in r;
    }
  }

  /** One lookup by id and one by key decide what the rule asks of every member added. */
  lemma LookupsDecide(added: seq<Member>, m: Member)
    ensures Taken(added, m) <==>
            if m.id.Some? then HasId(added, m.id.value) || HasKeyWithoutId(added, KeyOf(m)) else HasKey(added, KeyOf(m))
  {
    if Taken(added, m) {
      var o :| o in added && SameBuilding(m, o);
      assert o.id.None? ==> KeyOf(o) == KeyOf(m);
    }
    if m.id.Some? && HasId(added, m.id.value) {
      var o :| o in added && o.id == Some(m.id.value);
      assert SameBuilding(m, o);
    }
    if HasKeyWithoutId(added, KeyOf(m)) {
      var o :| o in added && o.id.None? && KeyOf(o) == KeyOf(m);
      assert SameBuilding(m, o);
    }
    if m.id.None? && HasKey(added, KeyOf(m)) {
      var o :| o in added && KeyOf(o) == KeyOf(m);
      assert SameBuilding(m, o);
    }
  }

  class Buildings {
    var ids: set<string>
    var keysWithoutId: set<Key>
    var allKeys: set<Key>
    ghost var added: seq<Member>

    ghost predicate Valid()
      reads this
    {
      && (forall id :: id in ids <==> HasId(added, id))
      && (forall key :: key in keysWithoutId <==> HasKeyWithoutId(added, key))
      && (forall key :: key in allKeys <==> HasKey(added, key))
    }

    constructor ()
      ensures Valid() && added == []
    {
      ids, keysWithoutId, allKeys, added := {}, {}, {}, [];
    }

    predicate Has(m: Member)
      requires Valid()
      reads this
      ensures Has(m) <==> Taken(added, m)
    {
      LookupsDecide(added, m);
      if m.id.Some? then m.id.value in ids || KeyOf(m) in keysWithoutId else KeyOf(m) in allKeys
    }

    method Add(m: Member)
      requires Valid()
      modifies this
      ensures Valid() && added == old(added) + [m]
    {
      hide HasId, HasKey, HasKeyWithoutId;
      OneMore(added, m);
      if m.id.Some? { ids := ids + {m.id.value}; } else { keysWithoutId := keysWithoutId + {KeyOf(m)}; }
      allKeys := allKeys + {KeyOf(m)};
      added := added + [m];
    }
  }

  /** The first of the members that is a building of the others, none exactly when they share none. */
  method SharedBuilding(members: seq<Member>, others: seq<Member>) returns (shared: Option<Member>)
    ensures shared.None? <==> !Share(members, others)
    ensures shared.Some? ==>
              exists i :: 0 <= i < |members| && members[i] == shared.value && Taken(others, members[i])
                          && forall j :: 0 <= j < i ==> !Taken(others, members[j])
  {
    hide Taken;
    var taken := new Buildings();
    for i := 0 to |others|
      invariant fresh(taken) && taken.Valid() && taken.added == others[..i]
    {
      taken.Add(others[i]);
      assert others[..i + 1] == others[..i] + [others[i]];
    }
    assert others[..|others|] == others;
    for i := 0 to |members|
      invariant taken.Valid() && taken.added == others
      invariant forall j :: 0 <= j < i ==> !Taken(others, members[j])
    {
      if taken.Has(members[i]) { return Some(members[i]); }
    }
    shared := None;
  }
}
