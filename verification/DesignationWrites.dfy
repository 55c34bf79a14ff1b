/**
 * When each write of the designation store (frontend/src/demo/designationStore.ts) is accepted, what it then writes, and
 * which refusal it gives otherwise; each for every list and every request.
 */
module DesignationWrites {
  import opened Wrappers
  import opened DesignationStore

  /** No designation of the list holds one of the members' buildings. */
  ghost predicate Free(list: seq<Designation>, members: seq<Member>) {
    forall d :: d in list ==> !Share(members, d.members)
  }

  /** All but the designation of the id. */
  function Others(list: seq<Designation>, id: string): (r: seq<Designation>)
    ensures forall d :: d in r <==> d in list && d.id != id
  {
    if list == [] then [] else (if list[0].id == id then [] else [list[0]]) + Others(list[1..], id)
  }

  lemma {:induction false} RestIsOthers(list: seq<Designation>, id: string)
    ensures Rest(list, [Expectation(id, 0)]) == Others(list, id)
  {
    if list != [] {
      assert [Expectation(id, 0)][0].id == id;
      assert IsExpected([Expectation(id, 0)], list[0].id) <==> list[0].id == id;
      RestIsOthers(list[1..], id);
    }
  }

  lemma {:induction false} FindAppended(list: seq<Designation>, d: Designation, id: string)
    requires Find(list, d.id).None?
    ensures Find(list + [d], id) == if id == d.id then Some(d) else Find(list, id)
    decreases |list|
  {
    if list == [] {
      assert [] + [d] == [d] && [d][1..] == [];
      assert Find([d], id) == if id == d.id then Some(d) else Find([], id);
    } else {
      assert (list + [d])[1..] == list[1..] + [d];
      FindAppended(list[1..], d, id);
      assert list[0] in list;
    }
  }

  /**
   * A create is accepted exactly when its buildings are free and the list is under the cap. Then its own id names a new
   * designation as asked for, and every other id what it named before.
   */
  lemma CreateExactly(current: seq<Designation>, name: string, members: seq<Member>, now: int, newId: string, other: string)
    requires Find(current, newId).None?
    ensures var out := ApplyCreate(current, name, members, now, newId);
            && (out.Written? <==> Free(current, members) && |current| < MAX_PER_SERVER)
            && (out.Refused? ==>
                  if Free(current, members) then out.failure == Cap else FirstSharing(current, members, out.failure))
            && (out.Written? ==>
                  && |out.next| == |current| + 1
                  && (other != newId ==> Find(out.next, other) == Find(current, other))
                  && Find(out.next, newId).Some?
                  && var d := Find(out.next, newId).value;
                  && out.written == [d] && d.name == name && d.members == members && d.revision == 1
                  && d.createdAt == now && d.updatedAt == now && d.parent == Absent)
  {
    hide Share, FirstSharing;
    var d := Designation(newId, name, members, now, now, 1, Absent);
    FindAppended(current, d, newId);
    FindAppended(current, d, other);
    hide Find;
  }

  /** An update is accepted exactly when its designation is there and the buildings asked for, if any, are free of the others. */
  lemma UpdateExactly(
      current: seq<Designation>, id: string, name: Option<string>, members: Option<seq<Member>>, now: int)
    ensures var out := ApplyUpdate(current, id, name, members, now);
            && (out.Written? <==> Find(current, id).Some? && (members.Some? ==> Free(Others(current, id), members.value)))
            && (out.Refused? ==>
                  if Find(current, id).None? then out.failure == NotFound
                  else members.Some? && FirstSharing(Others(current, id), members.value, out.failure))
  {
    hide Share, FirstSharing;
    RestIsOthers(current, id);
    hide Find, Others, Rest;
  }

  /** A removal is accepted exactly when its designation is there, and leaves the others in their order. */
  lemma RemoveExactly(current: seq<Designation>, id: string)
    ensures ApplyRemove(current, id) ==
            if Find(current, id).None? then Refused(NotFound) else Written(Others(current, id), [])
  {
    RestIsOthers(current, id);
  }

  /** Some expectation is not met. */
  ghost predicate Mismatch(current: seq<Designation>, body: Replace) {
    exists e :: e in body.expected && !Matches(current, e)
  }

  ghost predicate FromTheFuture(body: Replace, now: int) {
    exists p :: p in body.put && p.createdAt.Some? && now < p.createdAt.value
  }

  /** A put brings back an id that is there and was not expected. */
  ghost predicate TakesAnId(current: seq<Designation>, body: Replace) {
    exists p :: p in body.put && p.id.Some? && !IsExpected(body.expected, p.id.value) && Find(current, p.id.value).Some?
  }

  /** A put holds a building of a designation that stays. */
  ghost predicate Overlaps(current: seq<Designation>, body: Replace) {
    exists p, d :: p in body.put && d in current && !IsExpected(body.expected, d.id) && Share(p.members, d.members)
  }

  lemma UnexpectedIsLeft(current: seq<Designation>, expected: seq<Expectation>, id: string)
    requires !IsExpected(expected, id)
    ensures Find(Rest(current, expected), id).Some? <==> Find(current, id).Some?
  {
    hide IsExpected;
    if Find(current, id).Some? { assert Find(current, id).value in Rest(current, expected); }
  }

  /** Which refusal a replace gives: the first check that fails, in this order. */
  lemma ReplaceRefusals(current: seq<Designation>, body: Replace, now: int, newIds: seq<string>)
    requires |newIds| == |body.put| && ApplyReplace(current, body, now, newIds).Refused?
    ensures var f := ApplyReplace(current, body, now, newIds).failure;
            if Mismatch(current, body) then f == Stale
            else if FromTheFuture(body, now) then f == BadRequest
            else if TakesAnId(current, body) then f == Stale
            else if Overlaps(current, body) then
              exists p, d :: p in body.put && d in current && !IsExpected(body.expected, d.id) && Share(p.members, d.members)
                             && f == Overlap(d.id, d.name)
            else f == Cap
  {
    hide Share, IsExpected, WriteAll, OldestFirst, Matches;
    forall p | p in body.put && p.id.Some? && !IsExpected(body.expected, p.id.value)
      ensures Find(Rest(current, body.expected), p.id.value).Some? <==> Find(current, p.id.value).Some?
    {
      UnexpectedIsLeft(current, body.expected, p.id.value);
    }
    hide Find;
  }

  /**
   * What an accepted replace writes for its `i`th put: an expected id is updated in place, keeping its age, one revision on,
   * and its parent unless the put names one; any other put is new, with what it gives of id, age and parent.
   */
  lemma PutIsWritten(current: seq<Designation>, body: Replace, now: int, newIds: seq<string>, i: nat)
    requires Inv(current, now) && Accepts(current, body, now) && PutsApart(body.put) && FreshIds(current, body.put, newIds)
    requires i < |body.put|
    ensures var p, out := body.put[i], ApplyReplace(current, body, now, newIds);
            var id := if p.id.Some? then p.id.value else newIds[i];
            && out.Written? && Find(out.next, id).Some?
            && var d := Find(out.next, id).value;
            && d.name == p.name && d.members == p.members && d.updatedAt == now
            && if p.id.Some? && IsExpected(body.expected, p.id.value) then
                 && Find(current, id).Some?
                 && var before := Find(current, id).value;
                 && d.createdAt == before.createdAt && d.revision == before.revision + 1
                 && d.parent == if p.parent.Absent? then before.parent else p.parent
               else
                 && Find(current, id).None?
                 && d.createdAt == (if p.createdAt.Some? then p.createdAt.value else now) && d.revision == 1
                 && d.parent == if p.parent.Under? then p.parent else Absent
  {
    hide Share, OldestFirst, PutsApart, Inv;
    ReplaceWritesPuts(current, body, now, newIds, i, "");
    ReplaceAccepted(current, body, now, newIds);
    hide ApplyReplace;
    var p := body.put[i];
    assert p in body.put;
    WriteFacts(current, body.expected, p, now, newIds[i]);
    if p.id.Some? && IsExpected(body.expected, p.id.value) {
      var e :| e in body.expected && e.id == p.id.value;
      assert Matches(current, e);
    } else if p.id.Some? {
      UnexpectedIsLeft(current, body.expected, p.id.value);
    }
  }
}
