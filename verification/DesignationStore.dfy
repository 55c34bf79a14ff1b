/**
 * The designation store's writes (frontend/src/demo/designationStore.ts), each a function from a list to a list or a refusal,
 * with the overlap rule of frontend/src/planner/buildingOverlap.ts. Times are integer milliseconds.
 */
module DesignationStore {
  import opened Wrappers
  import opened Ranges

  const MAX_PER_SERVER: nat := 50

  /** One building: its id when the game gave one, its class and position. */
  datatype Member = Member(id: Option<string>, c: string, x: int, y: int)

  /** `parentId`: the key may be missing, null, or name a designation. */
  datatype Parent = Absent | Top | Under(id: string)

  datatype Designation = Designation(
    id: string,
    name: string,
    members: seq<Member>,
    createdAt: int,
    updatedAt: int,
    revision: int,
    parent: Parent)

  datatype Expectation = Expectation(id: string, revision: int)

  datatype Put = Put(id: Option<string>, name: string, members: seq<Member>, createdAt: Option<int>, parent: Parent)

  datatype Replace = Replace(expected: seq<Expectation>, put: seq<Put>)

  datatype Failure = BadRequest | NotFound | Stale | Overlap(id: string, name: string) | Cap

  /** The new list and the designations written, or why nothing changed. */
  datatype Outcome = Written(next: seq<Designation>, written: seq<Designation>) | Refused(failure: Failure)

  // ----- the overlap rule -----

  /** The same building id, or the same (class, x, y) when a side has no id. */
  predicate SameBuilding(a: Member, b: Member) {
    if a.id.Some? && b.id.Some? then a.id == b.id else a.c == b.c && a.x == b.x && a.y == b.y
  }

  predicate Taken(taken: seq<Member>, m: Member) {
    exists o :: o in taken && SameBuilding(m, o)
  }

  predicate Share(members: seq<Member>, others: seq<Member>) {
    exists m :: m in members && Taken(others, m)
  }

  lemma ShareIsSymmetric(a: seq<Member>, b: seq<Member>)
    ensures Share(a, b) <==> Share(b, a)
  {
    if Share(a, b) {
      var m :| m in a && Taken(b, m);
      var o :| o in b && SameBuilding(m, o);
      assert SameBuilding(o, m);
      assert Taken(a, o);
    }
    if Share(b, a) {
      var m :| m in b && Taken(a, m);
      var o :| o in a && SameBuilding(m, o);
      assert SameBuilding(o, m);
      assert Taken(b, o);
    }
  }

  // ----- lists -----

  function Find(list: seq<Designation>, id: string): (r: Option<Designation>)
    ensures r.Some? ==> r.value in list && r.value.id == id
    ensures r.None? <==> forall d :: d in list ==> d.id != id
  {
    if list == [] then None else if list[0].id == id then Some(list[0]) else Find(list[1..], id)
  }

  predicate IsExpected(expected: seq<Expectation>, id: string) {
    exists e :: e in expected && e.id == id
  }

  function Rest(list: seq<Designation>, expected: seq<Expectation>): (r: seq<Designation>)
    ensures |r| <= |list|
    ensures forall d :: d in r <==> d in list && !IsExpected(expected, d.id)
  {
    if list == [] then []
    else if IsExpected(expected, list[0].id) then Rest(list[1..], expected)
    else [list[0]] + Rest(list[1..], expected)
  }

  /** The first designation of `list` holding one of the members' buildings. */
  function OverlapWith(list: seq<Designation>, members: seq<Member>): (r: Option<Failure>)
    ensures r.None? <==> forall d :: d in list ==> !Share(members, d.members)
    ensures r.Some? ==> FirstSharing(list, members, r.value)
  {
    if list == [] then None
    else if Share(members, list[0].members) then
      var r := Overlap(list[0].id, list[0].name);
      assert FirstSharing(list, members, r) by { assert r == Overlap(list[0].id, list[0].name); }
      Some(r)
    else
      var r := OverlapWith(list[1..], members);
      assert r.Some? ==> FirstSharing(list, members, r.value) by {
        if r.Some? { SharingLater(list, members, r.value); }
      }
      r
  }

  /** The failure names a designation that holds one of the buildings, and none before it in the list does. */
  ghost predicate FirstSharing(list: seq<Designation>, members: seq<Member>, f: Failure) {
    exists i :: 0 <= i < |list| && f == Overlap(list[i].id, list[i].name) && Share(members, list[i].members)
      && forall j :: 0 <= j < i ==> !Share(members, list[j].members)
  }

  lemma SharingLater(list: seq<Designation>, members: seq<Member>, f: Failure)
    requires list != [] && !Share(members, list[0].members) && FirstSharing(list[1..], members, f)
    ensures FirstSharing(list, members, f)
  {
    hide Share;
    var rest := list[1..];
    var i :| 0 <= i < |rest| && f == Overlap(rest[i].id, rest[i].name) && Share(members, rest[i].members)
      && forall j :: 0 <= j < i ==> !Share(members, rest[j].members);
    assert rest[i] == list[i + 1];
    forall j | 0 <= j < i + 1 ensures !Share(members, list[j].members) {
      if j > 0 { assert list[j] == rest[j - 1]; }
    }
  }

  function FirstOverlap(list: seq<Designation>, put: seq<Put>): (r: Option<Failure>)
    ensures r.None? <==> forall p, d :: p in put && d in list ==> !Share(p.members, d.members)
    ensures r.Some? ==>
              exists p, d :: p in put && d in list && Share(p.members, d.members) && r.value == Overlap(d.id, d.name)
  {
    if put == [] then None
    else if OverlapWith(list, put[0].members).Some? then OverlapWith(list, put[0].members)
    else FirstOverlap(list, put[1..])
  }

  // ----- oldest first -----

  ghost predicate Sorted(list: seq<Designation>) {
    forall i, j :: 0 <= i < j < |list| ==> list[i].createdAt <= list[j].createdAt
  }

  /** Where `d` goes in a sorted list: after everything as old as it. */
  function Position(list: seq<Designation>, d: Designation): (k: nat)
    ensures k <= |list|
    ensures Sorted(list) ==> forall i :: 0 <= i < |list| ==> (i < k <==> list[i].createdAt <= d.createdAt)
  {
    if list == [] then 0
    else if list[|list| - 1].createdAt <= d.createdAt then |list|
    else Position(list[..|list| - 1], d)
  }

  function OldestFirst(list: seq<Designation>): (r: seq<Designation>)
    ensures Sorted(r) && |r| == |list|
    ensures forall d :: d in r <==> d in list
  {
    if list == [] then []
    else
      var n := |list| - 1;
      var before, d := OldestFirst(list[..n]), list[n];
      var k := Position(before, d);
      var r := before[..k] + [d] + before[k..];
      assert list == list[..n] + [d] && before == before[..k] + before[k..];
      r
  }

  // ----- the writes -----

  function WriteOne(current: seq<Designation>, expected: seq<Expectation>, p: Put, now: int, newId: string): Designation {
    var before := if p.id.None? then None else Find(current, p.id.value);
    if before.Some? && IsExpected(expected, before.value.id) then
      before.value.(name := p.name, members := p.members, updatedAt := now, revision := before.value.revision + 1,
                    parent := if p.parent.Absent? then before.value.parent else p.parent)
    else
      Designation(if p.id.Some? then p.id.value else newId, p.name, p.members,
                  if p.createdAt.Some? then p.createdAt.value else now, now, 1,
                  if p.parent.Under? then p.parent else Absent)
  }

  /** `newIds[i]` is what the i-th put gets when it needs a new id. */
  function WriteAll(current: seq<Designation>, body: Replace, now: int, newIds: seq<string>): (r: seq<Designation>)
    requires |newIds| == |body.put|
    ensures |r| == |body.put|
    ensures forall i :: 0 <= i < |r| ==> r[i] == WriteOne(current, body.expected, body.put[i], now, newIds[i])
  {
    seq(|body.put|, i requires 0 <= i < |body.put| => WriteOne(current, body.expected, body.put[i], now, newIds[i]))
  }

  predicate Matches(current: seq<Designation>, e: Expectation) {
    Find(current, e.id).Some? && Find(current, e.id).value.revision == e.revision
  }

  function ApplyReplace(current: seq<Designation>, body: Replace, now: int, newIds: seq<string>): Outcome
    requires |newIds| == |body.put|
  {
    var rest := Rest(current, body.expected);
    if exists e :: e in body.expected && !Matches(current, e) then Refused(Stale)
    else if exists p :: p in body.put && p.createdAt.Some? && now < p.createdAt.value then Refused(BadRequest)
    else if exists p :: p in body.put && p.id.Some? && !IsExpected(body.expected, p.id.value) && Find(rest, p.id.value).Some?
      then Refused(Stale)
    else if FirstOverlap(rest, body.put).Some? then Refused(FirstOverlap(rest, body.put).value)
    else if |rest| + |body.put| > MAX_PER_SERVER then Refused(Cap)
    else
      var written := WriteAll(current, body, now, newIds);
      Written(OldestFirst(rest + written), written)
  }

  /** The ids the response of a replace reports as removed. */
  function RemovedIds(expected: seq<Expectation>, written: seq<Designation>): (r: seq<string>)
    ensures forall id :: id in r <==> IsExpected(expected, id) && Find(written, id).None?
  {
    if expected == [] then []
    else if Find(written, expected[0].id).None? then [expected[0].id] + RemovedIds(expected[1..], written)
    else RemovedIds(expected[1..], written)
  }

  function ApplyCreate(current: seq<Designation>, name: string, members: seq<Member>, now: int, newId: string): Outcome {
    if OverlapWith(current, members).Some? then Refused(OverlapWith(current, members).value)
    else if |current| >= MAX_PER_SERVER then Refused(Cap)
    else
      var d := Designation(newId, name, members, now, now, 1, Absent);
      Written(current + [d], [d])
  }

  function ApplyUpdate(
      current: seq<Designation>, id: string, name: Option<string>, members: Option<seq<Member>>, now: int): Outcome {
    var before := Find(current, id);
    if before.None? then Refused(NotFound)
    else if members.Some? && OverlapWith(Rest(current, [Expectation(id, 0)]), members.value).Some?
      then Refused(OverlapWith(Rest(current, [Expectation(id, 0)]), members.value).value)
    else
      var d := before.value.(name := if name.Some? then name.value else before.value.name,
                             members := if members.Some? then members.value else before.value.members,
                             updatedAt := now, revision := before.value.revision + 1);
      Written(seq(|current|, i requires 0 <= i < |current| => if current[i].id == id then d else current[i]), [d])
  }

  function ApplyRemove(current: seq<Designation>, id: string): Outcome {
    if Find(current, id).None? then Refused(NotFound) else Written(Rest(current, [Expectation(id, 0)]), [])
  }

  datatype Write =
    | DoReplace(body: Replace, newIds: seq<string>)
    | DoCreate(name: string, members: seq<Member>, newId: string)
    | DoUpdate(id: string, newName: Option<string>, newMembers: Option<seq<Member>>)
    | DoRemove(id: string)

  predicate Supplied(w: Write) {
    w.DoReplace? ==> |w.newIds| == |w.body.put|
  }

  function Apply(current: seq<Designation>, w: Write, now: int): Outcome
    requires Supplied(w)
  {
    match w
    case DoReplace(body, newIds) => ApplyReplace(current, body, now, newIds)
    case DoCreate(name, members, newId) => ApplyCreate(current, name, members, now, newId)
    case DoUpdate(id, name, members) => ApplyUpdate(current, id, name, members, now)
    case DoRemove(id) => ApplyRemove(current, id)
  }

  function Next(current: seq<Designation>, w: Write, now: int): seq<Designation>
    requires Supplied(w)
  {
    var outcome := Apply(current, w, now);
    if outcome.Written? then outcome.next else current
  }

  // ----- what every run keeps -----

  ghost predicate Apart(a: Designation, b: Designation) {
    a.id != b.id && !Share(a.members, b.members)
  }

  ghost predicate AllApart(list: seq<Designation>) {
    forall i, j :: 0 <= i < j < |list| ==> Apart(list[i], list[j])
  }

  ghost predicate Settled(list: seq<Designation>, now: int) {
    forall d :: d in list ==> d.createdAt <= now && 1 <= d.revision
  }

  ghost predicate Inv(list: seq<Designation>, now: int) {
    AllApart(list) && Sorted(list) && |list| <= MAX_PER_SERVER && Settled(list, now)
  }

  /** What the request schema checks: an id is put once, and the puts share no building. */
  ghost predicate PutsApart(put: seq<Put>) {
    forall i, j :: 0 <= i < j < |put| ==>
      (put[i].id.Some? ==> put[i].id != put[j].id) && !Share(put[i].members, put[j].members)
  }

  /** New ids are new: not in the list, not put, and no two alike. */
  ghost predicate FreshIds(current: seq<Designation>, put: seq<Put>, newIds: seq<string>) {
    && |newIds| == |put|
    && (forall i, j :: 0 <= i < j < |newIds| ==> newIds[i] != newIds[j])
    && (forall i, j :: 0 <= i < |newIds| && 0 <= j < |put| ==> put[j].id != Some(newIds[i]))
    && (forall i :: 0 <= i < |newIds| ==> Find(current, newIds[i]).None?)
  }

  ghost predicate WellFormed(current: seq<Designation>, w: Write) {
    match w
    case DoReplace(body, newIds) => PutsApart(body.put) && FreshIds(current, body.put, newIds)
    case DoCreate(_, _, newId) => Find(current, newId).None?
    case _ => true
  }

  lemma ApartSymmetric(a: Designation, b: Designation)
    ensures Apart(a, b) <==> Apart(b, a)
  {
    ShareIsSymmetric(a.members, b.members);
  }

  lemma InsertApart(list: seq<Designation>, k: nat, d: Designation)
    requires AllApart(list) && k <= |list|
    requires forall x :: x in list ==> Apart(x, d) && Apart(d, x)
    ensures AllApart(list[..k] + [d] + list[k..])
  {
    hide Apart;
    var r := list[..k] + [d] + list[k..];
    forall i, j | 0 <= i < j < |r| ensures Apart(r[i], r[j]) {
      if i < k { assert r[i] == list[i]; }
      if j < k { assert r[j] == list[j]; }
      if k < i { assert r[i] == list[i - 1]; }
      if k < j { assert r[j] == list[j - 1]; }
    }
  }

  lemma TailApart(list: seq<Designation>)
    requires AllApart(list) && list != []
    ensures AllApart(list[1..]) && forall x :: x in list[1..] ==> Apart(list[0], x)
  {
    hide Apart;
    forall x | x in list[1..] ensures Apart(list[0], x) {
      var i :| 0 <= i < |list[1..]| && list[1..][i] == x;
      assert x == list[i + 1];
    }
  }

  lemma ConsApart(d: Designation, list: seq<Designation>)
    requires AllApart(list) && forall x :: x in list ==> Apart(d, x)
    ensures AllApart([d] + list)
  {
    hide Apart;
    var r := [d] + list;
    forall i, j | 0 <= i < j < |r| ensures Apart(r[i], r[j]) {
      assert r[j] == list[j - 1];
      if i > 0 { assert r[i] == list[i - 1]; }
    }
  }

  lemma {:induction false} RestApart(list: seq<Designation>, expected: seq<Expectation>)
    requires AllApart(list)
    ensures AllApart(Rest(list, expected))
  {
    if list != [] {
      hide AllApart, Apart, IsExpected;
      TailApart(list);
      RestApart(list[1..], expected);
      if !IsExpected(expected, list[0].id) {
        assert forall d :: d in Rest(list[1..], expected) ==> d in list[1..];
        ConsApart(list[0], Rest(list[1..], expected));
      }
    }
  }

  lemma {:induction false} RestSorted(list: seq<Designation>, expected: seq<Expectation>)
    requires Sorted(list)
    ensures Sorted(Rest(list, expected))
  {
    if list != [] {
      hide IsExpected;
      RestSorted(list[1..], expected);
      forall d | d in Rest(list[1..], expected) ensures list[0].createdAt <= d.createdAt {
        assert d in list[1..];
      }
    }
  }

  lemma {:induction false} OldestFirstApart(list: seq<Designation>)
    requires AllApart(list)
    ensures AllApart(OldestFirst(list))
  {
    if list != [] {
      hide Apart, Position;
      var n := |list| - 1;
      OldestFirstApart(list[..n]);
      var before, d := OldestFirst(list[..n]), list[n];
      forall x | x in before ensures Apart(x, d) && Apart(d, x) {
        assert x in list[..n];
        ApartSymmetric(x, d);
      }
      InsertApart(before, Position(before, d), d);
    }
  }

  lemma Find1(list: seq<Designation>, d: Designation)
    requires AllApart(list) && d in list
    ensures Find(list, d.id) == Some(d)
  {
    var found := Find(list, d.id).value;
    var i :| 0 <= i < |list| && list[i] == d;
    var j :| 0 <= j < |list| && list[j] == found;
  }

  ghost predicate Accepts(current: seq<Designation>, body: Replace, now: int) {
    var rest := Rest(current, body.expected);
    && (forall e :: e in body.expected ==> Matches(current, e))
    && (forall p :: p in body.put ==>
          && (p.createdAt.Some? ==> p.createdAt.value <= now)
          && (p.id.Some? && !IsExpected(body.expected, p.id.value) ==> Find(rest, p.id.value).None?)
          && (forall d :: d in rest ==> !Share(p.members, d.members)))
    && |rest| + |body.put| <= MAX_PER_SERVER
  }

  /** A replace is accepted exactly when every check passes; the refusals are told apart by their order in the body. */
  lemma ReplaceAccepted(current: seq<Designation>, body: Replace, now: int, newIds: seq<string>)
    requires |newIds| == |body.put|
    ensures ApplyReplace(current, body, now, newIds).Written? <==> Accepts(current, body, now)
    ensures Accepts(current, body, now) ==>
              var written := WriteAll(current, body, now, newIds);
              ApplyReplace(current, body, now, newIds)
                == Written(OldestFirst(Rest(current, body.expected) + written), written)
  {
    hide OldestFirst, WriteAll, Share;
  }

  lemma WriteFacts(current: seq<Designation>, expected: seq<Expectation>, p: Put, now: int, newId: string)
    ensures var d := WriteOne(current, expected, p, now, newId);
            && d.id == (if p.id.Some? then p.id.value else newId) && d.members == p.members && d.name == p.name
            && (Settled(current, now) && (p.createdAt.Some? ==> p.createdAt.value <= now) ==>
                  d.createdAt <= now && 1 <= d.revision)
  {
  }

  lemma WrittenApart(current: seq<Designation>, body: Replace, now: int, newIds: seq<string>)
    requires PutsApart(body.put) && FreshIds(current, body.put, newIds)
    ensures AllApart(WriteAll(current, body, now, newIds))
  {
    hide Share, WriteOne, Find;
    var written := WriteAll(current, body, now, newIds);
    forall i, j | 0 <= i < j < |written| ensures Apart(written[i], written[j]) {
      WriteFacts(current, body.expected, body.put[i], now, newIds[i]);
      WriteFacts(current, body.expected, body.put[j], now, newIds[j]);
    }
  }

  lemma RestVersusWritten(current: seq<Designation>, body: Replace, now: int, newIds: seq<string>, d: Designation, i: nat)
    requires Accepts(current, body, now) && FreshIds(current, body.put, newIds)
    requires d in Rest(current, body.expected) && i < |body.put|
    ensures Apart(d, WriteOne(current, body.expected, body.put[i], now, newIds[i]))
  {
    hide Share, WriteOne, IsExpected;
    var p := body.put[i];
    WriteFacts(current, body.expected, p, now, newIds[i]);
    ShareIsSymmetric(p.members, d.members);
    assert p in body.put;
  }

  lemma AppendApart(a: seq<Designation>, b: seq<Designation>)
    requires AllApart(a) && AllApart(b)
    requires forall x, y :: x in a && y in b ==> Apart(x, y)
    ensures AllApart(a + b)
  {
    hide Apart;
    var r := a + b;
    forall i, j | 0 <= i < j < |r| ensures Apart(r[i], r[j]) {
      if i < |a| { assert r[i] in a; } else { assert r[i] == b[i - |a|]; }
      if j < |a| { assert r[j] in a; } else { assert r[j] == b[j - |a|] && r[j] in b; }
    }
  }

  lemma ReplaceKeeps(current: seq<Designation>, body: Replace, now: int, newIds: seq<string>)
    requires Inv(current, now) && Accepts(current, body, now) && PutsApart(body.put) && FreshIds(current, body.put, newIds)
    ensures Inv(OldestFirst(Rest(current, body.expected) + WriteAll(current, body, now, newIds)), now)
    ensures AllApart(Rest(current, body.expected) + WriteAll(current, body, now, newIds))
  {
    hide Apart, Share, WriteOne, IsExpected, PutsApart, OldestFirst, Find;
    var rest, written := Rest(current, body.expected), WriteAll(current, body, now, newIds);
    RestApart(current, body.expected);
    WrittenApart(current, body, now, newIds);
    forall x, y | x in rest && y in written ensures Apart(x, y) {
      var i :| 0 <= i < |written| && written[i] == y;
      RestVersusWritten(current, body, now, newIds, x, i);
    }
    AppendApart(rest, written);
    OldestFirstApart(rest + written);
    forall d | d in rest + written ensures d.createdAt <= now && 1 <= d.revision {
      if d in written {
        var i :| 0 <= i < |written| && written[i] == d;
        assert body.put[i] in body.put;
        WriteFacts(current, body.expected, body.put[i], now, newIds[i]);
      }
    }
  }

  lemma CreateKeeps(current: seq<Designation>, name: string, members: seq<Member>, now: int, newId: string)
    requires Inv(current, now) && Find(current, newId).None?
    requires |current| < MAX_PER_SERVER && forall d :: d in current ==> !Share(members, d.members)
    ensures Inv(current + [Designation(newId, name, members, now, now, 1, Absent)], now)
  {
    hide Share;
    var d := Designation(newId, name, members, now, now, 1, Absent);
    forall x | x in current ensures Apart(x, d) && Apart(d, x) {
      ApartSymmetric(x, d);
    }
    InsertApart(current, |current|, d);
    assert current[..|current|] + [d] + current[|current|..] == current + [d];
  }

  /** Overwriting a designation by one of the same id and age, apart from all the others. */
  lemma OverwriteKeeps(current: seq<Designation>, k: nat, d: Designation, now: int)
    requires Inv(current, now) && k < |current| && d.id == current[k].id && d.createdAt == current[k].createdAt
    requires 1 <= d.revision
    requires forall i :: 0 <= i < |current| && i != k ==> !Share(d.members, current[i].members)
    ensures Inv(current[k := d], now)
  {
    hide Share;
    var r := current[k := d];
    forall i, j | 0 <= i < j < |r| ensures Apart(r[i], r[j]) {
      assert Apart(current[i], current[j]);
      if j == k { ShareIsSymmetric(d.members, current[i].members); }
    }
  }

  lemma UpdateKeeps(
      current: seq<Designation>, id: string, name: Option<string>, members: Option<seq<Member>>, now: int, before: int)
    requires Inv(current, before) && before <= now && ApplyUpdate(current, id, name, members, now).Written?
    ensures Inv(ApplyUpdate(current, id, name, members, now).next, now)
  {
    hide Share;
    var out := ApplyUpdate(current, id, name, members, now);
    var d := out.written[0];
    var k :| 0 <= k < |current| && current[k] == Find(current, id).value;
    forall i | 0 <= i < |current| && i != k ensures current[i].id != id && !Share(d.members, current[i].members) {
      if i < k { assert Apart(current[i], current[k]); } else { assert Apart(current[k], current[i]); }
      ShareIsSymmetric(current[k].members, current[i].members);
      if members.Some? { Others(current, id, current[i]); }
    }
    assert out.next == current[k := d];
    assert Inv(current, now);
    OverwriteKeeps(current, k, d, now);
  }

  lemma Others(current: seq<Designation>, id: string, d: Designation)
    requires d in current && d.id != id
    ensures d in Rest(current, [Expectation(id, 0)])
  {
  }

  lemma StepKeeps(current: seq<Designation>, w: Write, before: int, now: int)
    requires Inv(current, before) && before <= now && WellFormed(current, w) && Supplied(w)
    ensures Inv(Next(current, w, now), now)
  {
    hide AllApart, Sorted, Rest, OldestFirst, PutsApart, FreshIds, Share, ApplyReplace, Accepts, ApplyUpdate, OverlapWith;
    assert Inv(current, now);
    match w {
      case DoReplace(body, newIds) =>
        ReplaceAccepted(current, body, now, newIds);
        if Accepts(current, body, now) { ReplaceKeeps(current, body, now, newIds); }
      case DoCreate(name, members, newId) =>
        if ApplyCreate(current, name, members, now, newId).Written? {
          CreateKeeps(current, name, members, now, newId);
        }
      case DoUpdate(id, name, members) =>
        if ApplyUpdate(current, id, name, members, now).Written? {
          UpdateKeeps(current, id, name, members, now, before);
        }
      case DoRemove(id) =>
        RestApart(current, [Expectation(id, 0)]);
        RestSorted(current, [Expectation(id, 0)]);
    }
  }

  datatype Timed = Timed(write: Write, now: int)

  ghost predicate AllSupplied(events: seq<Timed>) {
    forall i :: 0 <= i < |events| ==> Supplied(events[i].write)
  }

  function Run(start: seq<Designation>, events: seq<Timed>): seq<Designation>
    requires AllSupplied(events)
  {
    if events == [] then start
    else
      var n := |events| - 1;
      Next(Run(start, events[..n]), events[n].write, events[n].now)
  }

  /** The clock never goes back, new ids are new, and each replace's puts passed the schema. */
  ghost predicate Legal(start: seq<Designation>, events: seq<Timed>, since: int)
    requires AllSupplied(events)
  {
    && (forall i, j :: 0 <= i <= j < |events| ==> since <= events[i].now <= events[j].now)
    && (forall i :: 0 <= i < |events| ==> WellFormed(Run(start, events[..i]), events[i].write))
  }

  function LastNow(events: seq<Timed>, since: int): int {
    if events == [] then since else events[|events| - 1].now
  }

  lemma LegalPrefix(start: seq<Designation>, events: seq<Timed>, since: int)
    requires AllSupplied(events) && Legal(start, events, since) && events != []
    ensures Legal(start, events[..|events| - 1], since)
    ensures LastNow(events[..|events| - 1], since) <= LastNow(events, since)
    ensures WellFormed(Run(start, events[..|events| - 1]), events[|events| - 1].write)
  {
    hide Run, WellFormed;
    var before := events[..|events| - 1];
    forall i | 0 <= i < |before| ensures WellFormed(Run(start, before[..i]), before[i].write) {
      assert before[..i] == events[..i];
    }
  }

  /** Every run keeps ids unique, designations pairwise non-overlapping, the cap, and creation order. */
  lemma {:induction false} RunKeeps(start: seq<Designation>, events: seq<Timed>, since: int)
    requires Inv(start, since) && AllSupplied(events) && Legal(start, events, since)
    ensures Inv(Run(start, events), LastNow(events, since))
  {
    if events != [] {
      hide Inv, Next, WellFormed, Legal;
      var n := |events| - 1;
      LegalPrefix(start, events, since);
      RunKeeps(start, events[..n], since);
      StepKeeps(Run(start, events[..n]), events[n].write, LastNow(events[..n], since), events[n].now);
    }
  }

  // ----- what each write changes -----

  /** The designations created at `time`, in list order. */
  function CreatedAt(list: seq<Designation>, time: int): seq<Designation> {
    if list == [] then []
    else
      var n := |list| - 1;
      CreatedAt(list[..n], time) + if list[n].createdAt == time then [list[n]] else []
  }

  lemma {:induction false} CreatedAtJoin(a: seq<Designation>, b: seq<Designation>, time: int)
    ensures CreatedAt(a + b, time) == CreatedAt(a, time) + CreatedAt(b, time)
  {
    if b == [] {
      assert a + b == a;
    } else {
      var n := |b| - 1;
      CreatedAtJoin(a, b[..n], time);
      assert (a + b)[..|a + b| - 1] == a + b[..n];
    }
  }

  lemma {:induction false} NoneCreatedAt(list: seq<Designation>, time: int)
    requires forall d :: d in list ==> d.createdAt != time
    ensures CreatedAt(list, time) == []
  {
    if list != [] {
      var n := |list| - 1;
      assert list[n] in list;
      forall d | d in list[..n] ensures d in list {}
      NoneCreatedAt(list[..n], time);
    }
  }

  /** Oldest first keeps the given order on a tie. */
  lemma {:induction false} OldestFirstIsStable(list: seq<Designation>, time: int)
    ensures CreatedAt(OldestFirst(list), time) == CreatedAt(list, time)
  {
    if list != [] {
      var n := |list| - 1;
      OldestFirstIsStable(list[..n], time);
      InsertedLast(OldestFirst(list[..n]), list[n], time);
    }
  }

  lemma InsertedLast(list: seq<Designation>, d: Designation, time: int)
    requires Sorted(list)
    ensures var k := Position(list, d);
            CreatedAt(list[..k] + [d] + list[k..], time) == CreatedAt(list, time) + if d.createdAt == time then [d] else []
  {
    var k := Position(list, d);
    var older, newer := list[..k], list[k..];
    if d.createdAt == time {
      forall x | x in newer ensures x.createdAt != time {
        var i :| k <= i < |list| && list[i] == x;
      }
      NoneCreatedAt(newer, time);
    }
    assert list == older + newer;
    OneCreatedAt(d, time);
    hide Position, CreatedAt, Sorted;
    assert list[..k] + [d] + list[k..] == older + [d] + newer;
    CreatedAtJoin(older, newer, time);
    CreatedAtJoin(older + [d], newer, time);
    CreatedAtJoin(older, [d], time);
    EitherLast(CreatedAt(older, time), CreatedAt([d], time), CreatedAt(newer, time));
  }

  lemma EitherLast(x: seq<Designation>, one: seq<Designation>, y: seq<Designation>)
    requires one == [] || y == []
    ensures x + one + y == x + y + one
  {
  }

  lemma OneCreatedAt(d: Designation, time: int)
    ensures CreatedAt([d], time) == if d.createdAt == time then [d] else []
  {
    assert [d][..0] == [];
  }

  lemma UpdateWrites(
      current: seq<Designation>, id: string, name: Option<string>, members: Option<seq<Member>>, now: int)
    requires ApplyUpdate(current, id, name, members, now).Written?
    ensures Find(current, id).Some? && |ApplyUpdate(current, id, name, members, now).written| == 1
    ensures var before, d := Find(current, id).value, ApplyUpdate(current, id, name, members, now).written[0];
            && d.id == id && d.revision == before.revision + 1 && d.updatedAt == now
            && d.createdAt == before.createdAt && d.parent == before.parent
            && d.name == (if name.Some? then name.value else before.name)
            && d.members == (if members.Some? then members.value else before.members)
    ensures var out := ApplyUpdate(current, id, name, members, now);
            Overwritten(current, out.next, id, out.written[0])
  {
    hide Share, OverlapWith, Rest;
  }

  ghost predicate Overwritten(list: seq<Designation>, next: seq<Designation>, id: string, d: Designation) {
    && |next| == |list| && d.id == id
    && forall i :: 0 <= i < |list| ==> next[i] == if list[i].id == id then d else list[i]
  }

  lemma FindWritten(list: seq<Designation>, next: seq<Designation>, id: string, d: Designation)
    requires Overwritten(list, next, id, d) && Find(list, id).Some?
    ensures Find(next, id) == Some(d)
  {
    var k :| 0 <= k < |list| && list[k] == Find(list, id).value;
    assert next[k] in next;
    var j :| 0 <= j < |next| && next[j] == Find(next, id).value;
  }

  lemma FindOther(list: seq<Designation>, next: seq<Designation>, id: string, d: Designation, other: string)
    requires AllApart(list) && Overwritten(list, next, id, d) && other != id
    ensures Find(next, other) == Find(list, other)
  {
    hide AllApart;
    if Find(list, other).Some? {
      var k :| 0 <= k < |list| && list[k] == Find(list, other).value;
      assert next[k] in next;
    }
    if Find(next, other).Some? {
      var k :| 0 <= k < |next| && next[k] == Find(next, other).value;
      Find1(list, list[k]);
    }
  }

  /** An update writes its own designation, keeping its age and parent, and no other. */
  lemma UpdateChangesOne(
      current: seq<Designation>, id: string, name: Option<string>, members: Option<seq<Member>>, now: int, other: string)
    requires AllApart(current) && ApplyUpdate(current, id, name, members, now).Written?
    ensures var out := ApplyUpdate(current, id, name, members, now);
            && |out.written| == 1 && Find(out.next, id) == Some(out.written[0])
            && Find(current, id).Some?
            && var before, after := Find(current, id).value, out.written[0];
            && after.createdAt == before.createdAt && after.parent == before.parent
            && after.revision == before.revision + 1 && after.updatedAt == now
            && after.name == (if name.Some? then name.value else before.name)
            && after.members == (if members.Some? then members.value else before.members)
            && (other != id ==> Find(out.next, other) == Find(current, other))
  {
    UpdateWrites(current, id, name, members, now);
    hide AllApart, Overwritten, ApplyUpdate;
    var out := ApplyUpdate(current, id, name, members, now);
    FindWritten(current, out.next, id, out.written[0]);
    if other != id { FindOther(current, out.next, id, out.written[0], other); }
  }

  /** A removal removes its own designation and no other. */
  lemma RemoveChangesOne(current: seq<Designation>, id: string, other: string)
    requires AllApart(current) && ApplyRemove(current, id).Written?
    ensures Find(ApplyRemove(current, id).next, id).None?
    ensures other != id ==> Find(ApplyRemove(current, id).next, other) == Find(current, other)
  {
    hide Share;
    var expected := [Expectation(id, 0)];
    assert expected[0].id == id;
    var next := ApplyRemove(current, id).next;
    if other != id {
      if Find(current, other).Some? { Others(current, id, Find(current, other).value); }
      if Find(next, other).Some? { Find1(current, Find(next, other).value); }
    }
  }

  /** A replace leaves every designation it neither expected nor wrote as it was, and writes each put's name and members. */
  lemma ReplaceWritesPuts(
      current: seq<Designation>, body: Replace, now: int, newIds: seq<string>, i: nat, other: string)
    requires Inv(current, now) && Accepts(current, body, now) && PutsApart(body.put) && FreshIds(current, body.put, newIds)
    requires i < |body.put|
    ensures var out := ApplyReplace(current, body, now, newIds);
            && out.Written? && |out.written| == |body.put|
            && out.written[i].name == body.put[i].name && out.written[i].members == body.put[i].members
            && Find(out.next, out.written[i].id) == Some(out.written[i])
            && (!IsExpected(body.expected, other) && Find(current, other).Some? ==>
                  Find(out.next, other) == Find(current, other))
  {
    hide Share, OldestFirst, WriteOne, IsExpected, PutsApart;
    ReplaceAccepted(current, body, now, newIds);
    ReplaceKeeps(current, body, now, newIds);
    hide FreshIds, Accepts, ApplyReplace, Inv;
    WriteFacts(current, body.expected, body.put[i], now, newIds[i]);
    var rest, written := Rest(current, body.expected), WriteAll(current, body, now, newIds);
    var next := OldestFirst(rest + written);
    InvApart(next, now);
    assert written[i] in rest + written;
    Find1(next, written[i]);
    if !IsExpected(body.expected, other) && Find(current, other).Some? {
      assert Find(current, other).value in rest + written;
      Find1(next, Find(current, other).value);
    }
  }

  lemma InvApart(list: seq<Designation>, now: int)
    requires Inv(list, now)
    ensures AllApart(list)
  {
  }

  // ----- revisions -----

  /** Where the designation of an id comes from in a replace's result: left alone, or its own put. */
  lemma AfterReplace(current: seq<Designation>, body: Replace, now: int, newIds: seq<string>, x: Designation)
    requires AllApart(current) && Accepts(current, body, now) && FreshIds(current, body.put, newIds)
    requires x in OldestFirst(Rest(current, body.expected) + WriteAll(current, body, now, newIds))
    requires Find(current, x.id).Some?
    ensures var d := Find(current, x.id).value;
            || (!IsExpected(body.expected, x.id) && x == d)
            || (IsExpected(body.expected, x.id) && x.revision == d.revision + 1 && x.createdAt == d.createdAt)
  {
    hide Share, OldestFirst;
    var rest, written := Rest(current, body.expected), WriteAll(current, body, now, newIds);
    assert x in rest + written;
    if x in rest {
      Find1(current, x);
    } else {
      var i :| 0 <= i < |written| && written[i] == x;
      assert body.put[i] in body.put;
      WriteFacts(current, body.expected, body.put[i], now, newIds[i]);
    }
  }

  /** A designation that is still there after a write has at least the revision it had. */
  lemma RevisionsGrow(current: seq<Designation>, w: Write, before: int, now: int, id: string)
    requires Inv(current, before) && before <= now && WellFormed(current, w) && Supplied(w)
    requires Find(current, id).Some? && Find(Next(current, w, now), id).Some?
    ensures Find(current, id).value.revision <= Find(Next(current, w, now), id).value.revision
  {
    hide Share, OldestFirst, ApplyReplace;
    var x := Find(Next(current, w, now), id).value;
    match w {
      case DoReplace(body, newIds) =>
        ReplaceAccepted(current, body, now, newIds);
        if Accepts(current, body, now) { AfterReplace(current, body, now, newIds, x); }
      case DoCreate(name, members, newId) => if x in current { Find1(current, x); }
      case DoUpdate(_, name, members) => if x in current { Find1(current, x); }
      case DoRemove(_) => if x in current { Find1(current, x); }
    }
  }

  lemma StillFound(start: seq<Designation>, events: seq<Timed>, before: seq<Timed>, id: string)
    requires AllSupplied(events) && events != [] && before == events[..|events| - 1]
    requires forall i :: 0 <= i <= |events| ==> Find(Run(start, events[..i]), id).Some?
    ensures forall i :: 0 <= i <= |before| ==> Find(Run(start, before[..i]), id).Some?
    ensures Find(Run(start, events), id).Some?
  {
    hide Run, Find;
    assert events[..|events|] == events;
    forall i | 0 <= i <= |before| ensures Find(Run(start, before[..i]), id).Some? {
      assert before[..i] == events[..i];
    }
  }

  lemma RunLast(start: seq<Designation>, events: seq<Timed>, since: int)
    requires Inv(start, since) && AllSupplied(events) && Legal(start, events, since) && events != []
    ensures var n := |events| - 1;
            && Run(start, events) == Next(Run(start, events[..n]), events[n].write, events[n].now)
            && LastNow(events[..n], since) <= events[n].now
  {
    hide Inv, Next, WellFormed;
  }

  lemma {:induction false} RevisionLasts(start: seq<Designation>, events: seq<Timed>, since: int, id: string, revision: int)
    requires Inv(start, since) && AllSupplied(events) && Legal(start, events, since)
    requires Find(start, id).Some? && revision <= Find(start, id).value.revision
    requires forall i :: 0 <= i <= |events| ==> Find(Run(start, events[..i]), id).Some?
    ensures Find(Run(start, events), id).Some? && revision <= Find(Run(start, events), id).value.revision
  {
    if events != [] {
      hide Inv, Next, WellFormed, Legal, Find;
      var n := |events| - 1;
      LegalPrefix(start, events, since);
      RunLast(start, events, since);
      StillFound(start, events, events[..n], id);
      hide Run, LastNow;
      RevisionLasts(start, events[..n], since, id, revision);
      RunKeeps(start, events[..n], since);
      RevisionsGrow(Run(start, events[..n]), events[n].write, LastNow(events[..n], since), events[n].now, id);
    }
  }

  /**
   * Two replaces that name the same id at the same revision cannot both succeed: after the first, whatever is written in
   * between, the second is stale while the designation has been there all along, and stale once it is gone.
   */
  lemma SecondReplaceIsStale(
      current: seq<Designation>, first: Replace, firstIds: seq<string>, before: int, now: int, e: Expectation,
      events: seq<Timed>, second: Replace, secondIds: seq<string>, later: int)
    requires Inv(current, before) && before <= now && PutsApart(first.put) && FreshIds(current, first.put, firstIds)
    requires |secondIds| == |second.put| && e in first.expected && e in second.expected
    requires Accepts(current, first, now) && AllSupplied(events)
    requires var next := Next(current, DoReplace(first, firstIds), now);
             && Legal(next, events, now)
             && ((forall i :: 0 <= i <= |events| ==> Find(Run(next, events[..i]), e.id).Some?)
                 || Find(Run(next, events), e.id).None?)
    ensures ApplyReplace(Run(Next(current, DoReplace(first, firstIds), now), events), second, later, secondIds)
            == Refused(Stale)
  {
    hide OldestFirst, Share, Run, Inv, Legal;
    var next := Next(current, DoReplace(first, firstIds), now);
    assert Inv(next, now) by { StepKeeps(current, DoReplace(first, firstIds), before, now); }
    ReplaceAccepted(current, first, now, firstIds);
    var last := Run(next, events);
    if Find(last, e.id).Some? {
      assert Run(next, events[..0]) == next by { StartOf(next, events); }
      FirstBumps(current, first, firstIds, before, now, e);
      RevisionLasts(next, events, now, e.id, e.revision + 1);
    }
    assert !Matches(last, e);
  }

  lemma StartOf(start: seq<Designation>, events: seq<Timed>)
    requires AllSupplied(events)
    ensures Run(start, events[..0]) == start
  {
  }

  lemma FirstBumps(current: seq<Designation>, first: Replace, ids: seq<string>, before: int, now: int, e: Expectation)
    requires Inv(current, before) && Accepts(current, first, now) && FreshIds(current, first.put, ids)
    requires e in first.expected
    ensures var next := OldestFirst(Rest(current, first.expected) + WriteAll(current, first, now, ids));
            Find(next, e.id).Some? ==> Find(next, e.id).value.revision == e.revision + 1
  {
    hide OldestFirst, Share;
    var next := OldestFirst(Rest(current, first.expected) + WriteAll(current, first, now, ids));
    if Find(next, e.id).Some? {
      AfterReplace(current, first, now, ids, Find(next, e.id).value);
      assert Matches(current, e);
    }
  }

  function RemoveOne(d: Designation): Replace {
    Replace([Expectation(d.id, d.revision)], [])
  }

  function PutBack(d: Designation): Replace {
    Replace([], [Put(Some(d.id), d.name, d.members, Some(d.createdAt), d.parent)])
  }

  /** Removing a designation by a replace leaves all the others, apart from it. */
  lemma RemoveOneAccepted(current: seq<Designation>, d: Designation, now: int)
    requires Inv(current, now) && d in current
    ensures Accepts(current, RemoveOne(d), now)
    ensures var gone := Next(current, DoReplace(RemoveOne(d), []), now);
            Inv(gone, now) && |gone| < |current| && forall x :: x in gone ==> x in current && Apart(d, x)
  {
    hide Share, OldestFirst, ApplyReplace;
    Find1(current, d);
    Shrinks(current, d, now);
    ReplaceAccepted(current, RemoveOne(d), now, []);
    StepKeeps(current, DoReplace(RemoveOne(d), []), now, now);
    var rest := Rest(current, RemoveOne(d).expected);
    var gone := Next(current, DoReplace(RemoveOne(d), []), now);
    assert gone == OldestFirst(rest) by { assert rest + WriteAll(current, RemoveOne(d), now, []) == rest; }
    forall x | x in gone ensures x in current && Apart(d, x) {
      assert x in rest;
      assert RemoveOne(d).expected[0].id == d.id;
      OthersApart(current, d, x);
    }
  }

  lemma OthersApart(list: seq<Designation>, d: Designation, x: Designation)
    requires AllApart(list) && d in list && x in list && x.id != d.id
    ensures Apart(d, x)
  {
    hide Share;
    var i :| 0 <= i < |list| && list[i] == d;
    var j :| 0 <= j < |list| && list[j] == x;
    ApartSymmetric(x, d);
  }

  lemma PutBackPasses(gone: seq<Designation>, d: Designation, now: int, newId: string)
    requires |gone| < MAX_PER_SERVER && d.createdAt <= now && Find(gone, newId).None? && newId != d.id
    requires forall x :: x in gone ==> Apart(d, x)
    ensures Accepts(gone, PutBack(d), now) && WellFormed(gone, DoReplace(PutBack(d), [newId]))
  {
    hide Share;
    assert PutBack(d).put[0].members == d.members;
  }

  lemma PutBackWrites(gone: seq<Designation>, d: Designation, now: int, newId: string)
    requires Find(gone, d.id).None?
    ensures var w := WriteAll(gone, PutBack(d), now, [newId])[0]; w.id == d.id && w.revision == 1
  {
  }

  lemma PutBackAccepted(gone: seq<Designation>, d: Designation, now: int, newId: string)
    requires Inv(gone, now) && |gone| < MAX_PER_SERVER && d.createdAt <= now
    requires forall x :: x in gone ==> Apart(d, x)
    requires Find(gone, newId).None? && newId != d.id
    ensures Accepts(gone, PutBack(d), now)
    ensures var back := Next(gone, DoReplace(PutBack(d), [newId]), now);
            Inv(back, now) && Find(back, d.id).Some? && Find(back, d.id).value.revision == 1
  {
    PutBackPasses(gone, d, now, newId);
    PutBackWrites(gone, d, now, newId);
    hide Share, OldestFirst, ApplyReplace, Accepts, WellFormed, AllApart, WriteAll, Rest;
    ReplaceAccepted(gone, PutBack(d), now, [newId]);
    StepKeeps(gone, DoReplace(PutBack(d), [newId]), now, now);
    var written := WriteAll(gone, PutBack(d), now, [newId]);
    assert written[0] in Rest(gone, []) + written;
    Find1(OldestFirst(Rest(gone, []) + written), written[0]);
  }

  /** The way out: removed and put back, a designation is at revision 1 again, and the old expectation matches it. */
  lemma PutBackMatchesAgain(current: seq<Designation>, d: Designation, now: int, newId: string)
    requires Inv(current, now) && d in current && d.revision == 1 && Find(current, newId).None?
    ensures var gone := Next(current, DoReplace(RemoveOne(d), []), now);
            var back := Next(gone, DoReplace(PutBack(d), [newId]), now);
            && ApplyReplace(current, RemoveOne(d), now, []).Written?
            && ApplyReplace(gone, PutBack(d), now, [newId]).Written?
            && Matches(back, RemoveOne(d).expected[0]) && !Find(gone, d.id).Some?
  {
    hide Share, ApplyReplace, Accepts, Next;
    RemoveOneAccepted(current, d, now);
    var gone := Next(current, DoReplace(RemoveOne(d), []), now);
    PutBackAccepted(gone, d, now, newId);
    ReplaceAccepted(current, RemoveOne(d), now, []);
    ReplaceAccepted(gone, PutBack(d), now, [newId]);
  }

  lemma Shrinks(current: seq<Designation>, d: Designation, now: int)
    requires Inv(current, now) && d in current
    ensures |Rest(current, RemoveOne(d).expected)| < |current|
  {
    hide Share;
    var rest := Rest(current, RemoveOne(d).expected);
    RestApart(current, RemoveOne(d).expected);
    assert RemoveOne(d).expected[0].id == d.id;
    IdsCount(current);
    IdsCount(rest);
    SubsetSize(Ids(rest) + {d.id}, Ids(current));
  }

  ghost function Ids(list: seq<Designation>): set<string> {
    set d | d in list :: d.id
  }

  lemma {:induction false} IdsCount(list: seq<Designation>)
    requires AllApart(list)
    ensures |Ids(list)| == |list|
  {
    if list != [] {
      hide Share;
      IdsCount(list[1..]);
      assert list == [list[0]] + list[1..];
      assert Ids(list) == {list[0].id} + Ids(list[1..]);
      forall d | d in list[1..] ensures d.id != list[0].id {
        var i :| 0 <= i < |list[1..]| && list[1..][i] == d;
        assert Apart(list[0], list[i + 1]);
      }
    }
  }

  /** The response's removed ids are the expected ones that are gone. */
  lemma RemovedAreGone(current: seq<Designation>, body: Replace, now: int, newIds: seq<string>, id: string)
    requires |newIds| == |body.put| && ApplyReplace(current, body, now, newIds).Written?
    ensures var out := ApplyReplace(current, body, now, newIds);
            id in RemovedIds(body.expected, out.written) <==> IsExpected(body.expected, id) && Find(out.next, id).None?
  {
    hide Share, OldestFirst, WriteAll, IsExpected;
    ReplaceAccepted(current, body, now, newIds);
    var out := ApplyReplace(current, body, now, newIds);
    assert forall d :: d in out.next <==> d in Rest(current, body.expected) || d in out.written;
  }
}

/**
 * Undo of a replace (frontend/src/planner/designationOps.ts): the request that puts back what the client had read, and what
 * the store makes of it.
 */
module DesignationUndo {
  import opened Wrappers
  import opened Ranges
  import opened DesignationStore

  function Untaken(members: seq<Member>, taken: seq<Member>): (r: seq<Member>)
    ensures (forall m :: m in members ==> !Taken(taken, m)) ==> r == members
    ensures forall m :: m in r <==> m in members && !Taken(taken, m)
  {
    if members == [] then []
    else if Taken(taken, members[0]) then Untaken(members[1..], taken)
    else [members[0]] + Untaken(members[1..], taken)
  }

  /** Where the originals overlapped the older keeps the building; one left with no member at all is left out. */
  function UndoPuts(oldest: seq<Designation>, taken: seq<Member>): seq<Put> {
    if oldest == [] then []
    else
      var d := oldest[0];
      var members := Untaken(d.members, taken);
      var rest := UndoPuts(oldest[1..], taken + members);
      if members != [] || d.members == [] then
        [Put(Some(d.id), d.name, members, Some(d.createdAt), d.parent)] + rest
      else rest
  }

  function Expecting(written: seq<Designation>): (r: seq<Expectation>)
    ensures |r| == |written|
    ensures forall i :: 0 <= i < |r| ==> r[i] == Expectation(written[i].id, written[i].revision)
  {
    seq(|written|, i requires 0 <= i < |written| => Expectation(written[i].id, written[i].revision))
  }

  function UndoRequest(preImage: seq<Designation>, written: seq<Designation>): Replace {
    Replace(Expecting(written), UndoPuts(OldestFirst(preImage), []))
  }

  function AsPut(d: Designation): Put {
    Put(Some(d.id), d.name, d.members, Some(d.createdAt), d.parent)
  }

  /** The designations a replace expected, as they were read, in any order. */
  ghost predicate PreImage(current: seq<Designation>, body: Replace, preImage: seq<Designation>) {
    AllApart(preImage) && forall d :: d in preImage <==> d in current && IsExpected(body.expected, d.id)
  }

  ghost predicate SameCore(a: Option<Designation>, b: Option<Designation>) {
    && (a.Some? <==> b.Some?)
    && (a.Some? ==>
          && a.value.id == b.value.id && a.value.name == b.value.name
          && a.value.members == b.value.members && a.value.createdAt == b.value.createdAt)
  }

  lemma TakenAppend(taken: seq<Member>, more: seq<Member>, m: Member)
    ensures Taken(taken + more, m) <==> Taken(taken, m) || Taken(more, m)
  {
    if Taken(taken, m) {
      var o :| o in taken && SameBuilding(m, o);
      assert o in taken + more;
    }
    if Taken(more, m) {
      var o :| o in more && SameBuilding(m, o);
      assert o in taken + more;
    }
  }

  lemma {:induction false} UndoPutsAll(oldest: seq<Designation>, taken: seq<Member>)
    requires AllApart(oldest) && forall d :: d in oldest ==> !Share(d.members, taken)
    ensures |UndoPuts(oldest, taken)| == |oldest|
    ensures forall i :: 0 <= i < |oldest| ==> UndoPuts(oldest, taken)[i] == AsPut(oldest[i])
  {
    if oldest != [] {
      var d := oldest[0];
      assert Untaken(d.members, taken) == d.members;
      forall x | x in oldest[1..] ensures !Share(x.members, taken + d.members) {
        var i :| 0 <= i < |oldest[1..]| && oldest[1..][i] == x;
        assert Apart(d, oldest[i + 1]);
        ShareIsSymmetric(x.members, d.members);
        forall m | m in x.members ensures !Taken(taken + d.members, m) {
          TakenAppend(taken, d.members, m);
        }
      }
      UndoPutsAll(oldest[1..], taken + d.members);
    }
  }

  ghost predicate Keeps(put: seq<Put>, m: Member) {
    exists i :: 0 <= i < |put| && Taken(put[i].members, m)
  }

  /** The put of a designation: it as it was but for members, and without any only when it had none. */
  ghost predicate PutOf(p: Put, d: Designation) {
    && p == AsPut(d).(members := p.members) && (forall m :: m in p.members ==> m in d.members)
    && (p.members == [] ==> d.members == [])
  }

  ghost predicate NoneShared(put: seq<Put>, taken: seq<Member>) {
    && (forall i :: 0 <= i < |put| ==> !Share(put[i].members, taken))
    && forall i, j :: 0 <= i < j < |put| ==> !Share(put[j].members, put[i].members)
  }

  lemma NoneSharedNext(first: Put, rest: seq<Put>, taken: seq<Member>)
    requires !Share(first.members, taken) && NoneShared(rest, taken + first.members)
    ensures NoneShared([first] + rest, taken) && NoneShared(rest, taken)
  {
    var r := [first] + rest;
    forall i | 0 <= i < |rest| ensures !Share(rest[i].members, taken) && !Share(rest[i].members, first.members) {
      assert r[i + 1] == rest[i];
      forall m | m in rest[i].members ensures !Taken(taken, m) && !Taken(first.members, m) {
        TakenAppend(taken, first.members, m);
      }
    }
    hide Share;
    forall i, j | 0 <= i < j < |r| ensures !Share(r[j].members, r[i].members) {
      if i > 0 { assert r[i] == rest[i - 1]; }
      assert r[j] == rest[j - 1];
    }
    forall i | 0 <= i < |r| ensures !Share(r[i].members, taken) {
      if i > 0 { assert r[i] == rest[i - 1]; }
    }
  }

  lemma KeepsMore(first: Put, rest: seq<Put>, m: Member)
    ensures Keeps(rest, m) || Taken(first.members, m) ==> Keeps([first] + rest, m)
  {
    hide Taken;
    var r := [first] + rest;
    if Keeps(rest, m) {
      var i :| 0 <= i < |rest| && Taken(rest[i].members, m);
      assert r[i + 1] == rest[i];
    }
    if Taken(first.members, m) { assert Taken(r[0].members, m); }
  }

  /** Where the originals overlap, the older keeps the building: no two puts share one, and each building is in some put. */
  lemma {:induction false} OlderKeeps(oldest: seq<Designation>, taken: seq<Member>)
    ensures NoneShared(UndoPuts(oldest, taken), taken)
    ensures forall d, m :: d in oldest && m in d.members ==> Taken(taken, m) || Keeps(UndoPuts(oldest, taken), m)
    ensures forall p :: p in UndoPuts(oldest, taken) ==> exists d :: d in oldest && PutOf(p, d)
  {
    if oldest != [] {
      var d := oldest[0];
      var members := Untaken(d.members, taken);
      var first := Put(Some(d.id), d.name, members, Some(d.createdAt), d.parent);
      var rest := UndoPuts(oldest[1..], taken + members);
      OlderKeeps(oldest[1..], taken + members);
      assert !Share(members, taken);
      NoneSharedNext(first, rest, taken);
      forall x, m | x in oldest && m in x.members ensures Taken(taken, m) || Keeps(UndoPuts(oldest, taken), m) {
        KeepsMore(first, rest, m);
        TakenAppend(taken, members, m);
        if m in d.members && !Taken(taken, m) {
          assert m in members && SameBuilding(m, m);
        }
        if x in oldest[1..] && members == [] { assert taken + members == taken; }
      }
      forall p | p in UndoPuts(oldest, taken) ensures exists x :: x in oldest && PutOf(p, x) {
        if p in rest {
          var x :| x in oldest[1..] && PutOf(p, x);
        } else {
          assert PutOf(p, d);
        }
      }
    }
  }

  /** So for any pre-image, as it was read or not: the undo's puts share no building, and leave none out. */
  lemma UndoSplitsOverlaps(preImage: seq<Designation>)
    ensures var put := UndoPuts(OldestFirst(preImage), []);
            && (forall i, j :: 0 <= i < j < |put| ==> !Share(put[i].members, put[j].members))
            && (forall d, m :: d in preImage && m in d.members ==> Keeps(put, m))
            && (forall p :: p in put ==> exists d :: d in preImage && PutOf(p, d))
  {
    hide Share, PutOf, Keeps, UndoPuts, OldestFirst;
    var put := UndoPuts(OldestFirst(preImage), []);
    OlderKeeps(OldestFirst(preImage), []);
    forall i, j | 0 <= i < j < |put| ensures !Share(put[i].members, put[j].members) {
      ShareIsSymmetric(put[i].members, put[j].members);
    }
  }

  /** Whatever a replace did, its undo sends every designation it had expected, whole. */
  lemma UndoPutsBack(preImage: seq<Designation>)
    requires AllApart(preImage)
    ensures var oldest, put := OldestFirst(preImage), UndoPuts(OldestFirst(preImage), []);
            && AllApart(oldest) && |put| == |oldest| == |preImage|
            && (forall i :: 0 <= i < |put| ==> put[i] == AsPut(oldest[i]))
            && PutsApart(put)
  {
    hide OldestFirst, Share;
    var oldest := OldestFirst(preImage);
    OldestFirstApart(preImage);
    forall d | d in oldest ensures !Share(d.members, []) {
      NothingShared(d.members);
    }
    UndoPutsAll(oldest, []);
    var put := UndoPuts(oldest, []);
    forall i, j | 0 <= i < j < |put| ensures put[i].id != put[j].id && !Share(put[i].members, put[j].members) {
      assert Apart(oldest[i], oldest[j]);
    }
  }

  lemma NothingShared(members: seq<Member>)
    ensures !Share(members, [])
  {
  }

  lemma AcrossParts(a: seq<Designation>, b: seq<Designation>, x: Designation, w: Designation)
    requires AllApart(a + b) && x in a && w in b
    ensures Apart(x, w)
  {
    hide Apart;
    var i :| 0 <= i < |a| && a[i] == x;
    var j :| 0 <= j < |b| && b[j] == w;
    assert (a + b)[i] == x && (a + b)[|a| + j] == w;
  }

  /** What a replace left alone is what its undo leaves alone. */
  lemma UndoLeavesAlone(rest: seq<Designation>, written: seq<Designation>, x: Designation)
    requires AllApart(rest + written)
    ensures x in Rest(OldestFirst(rest + written), Expecting(written)) <==> x in rest
  {
    hide OldestFirst, Share, IsExpected, AllApart;
    WrittenIds(written, x.id);
    if x in rest {
      forall w | w in written ensures w.id != x.id {
        AcrossParts(rest, written, x, w);
      }
    }
  }

  lemma WrittenIds(written: seq<Designation>, id: string)
    ensures IsExpected(Expecting(written), id) <==> exists w :: w in written && w.id == id
  {
    if IsExpected(Expecting(written), id) {
      var e :| e in Expecting(written) && e.id == id;
      var i :| 0 <= i < |written| && Expecting(written)[i] == e;
      assert written[i] in written;
    }
    if w :| w in written && w.id == id {
      var i :| 0 <= i < |written| && written[i] == w;
      assert Expecting(written)[i] in Expecting(written);
    }
  }

  /** The hypotheses of an undo: a legal replace was accepted at `now`, and the client had read what it expected. */
  ghost predicate Done(current: seq<Designation>, body: Replace, now: int, newIds: seq<string>, preImage: seq<Designation>) {
    && Inv(current, now) && Accepts(current, body, now)
    && PutsApart(body.put) && FreshIds(current, body.put, newIds)
    && PreImage(current, body, preImage)
  }

  ghost function AfterDo(current: seq<Designation>, body: Replace, now: int, newIds: seq<string>): seq<Designation>
    requires |newIds| == |body.put|
  {
    OldestFirst(Rest(current, body.expected) + WriteAll(current, body, now, newIds))
  }

  lemma DoneFacts(current: seq<Designation>, body: Replace, now: int, newIds: seq<string>, preImage: seq<Designation>)
    requires Done(current, body, now, newIds, preImage)
    ensures Inv(AfterDo(current, body, now, newIds), now)
    ensures AllApart(Rest(current, body.expected) + WriteAll(current, body, now, newIds))
    ensures var undo := UndoRequest(preImage, WriteAll(current, body, now, newIds));
            && |undo.put| == |preImage| && PutsApart(undo.put)
            && (forall p :: p in undo.put <==> exists d :: d in preImage && p == AsPut(d))
  {
    hide Share, OldestFirst, PutsApart, Accepts, UndoPuts, Inv, AllApart, WriteAll, IsExpected;
    ReplaceKeeps(current, body, now, newIds);
    UndoPutsBack(preImage);
    var undo := UndoRequest(preImage, WriteAll(current, body, now, newIds));
    var oldest := OldestFirst(preImage);
    forall d | d in preImage ensures AsPut(d) in undo.put {
      var i :| 0 <= i < |oldest| && oldest[i] == d;
      assert undo.put[i] == AsPut(d);
    }
    forall p | p in undo.put ensures exists d :: d in preImage && p == AsPut(d) {
      var i :| 0 <= i < |undo.put| && undo.put[i] == p;
      assert oldest[i] in preImage;
    }
  }

  lemma RoomForUndo(current: seq<Designation>, body: Replace, now: int, newIds: seq<string>, preImage: seq<Designation>)
    requires Done(current, body, now, newIds, preImage)
    ensures var written := WriteAll(current, body, now, newIds);
            |Rest(AfterDo(current, body, now, newIds), Expecting(written))| + |preImage| <= |current|
  {
    var rest, written := Rest(current, body.expected), WriteAll(current, body, now, newIds);
    DoneFacts(current, body, now, newIds, preImage);
    hide Share, OldestFirst, Accepts, FreshIds, IsExpected, WriteAll, AllApart;
    var left := Rest(AfterDo(current, body, now, newIds), Expecting(written));
    forall x ensures x in left <==> x in rest {
      UndoLeavesAlone(rest, written, x);
    }
    RestApart(AfterDo(current, body, now, newIds), Expecting(written));
    IdsCount(left);
    IdsCount(preImage);
    IdsCount(current);
    forall d, e | d in left && e in preImage ensures d.id != e.id {
      assert d in rest;
    }
    assert Ids(left) * Ids(preImage) == {};
    SubsetSize(Ids(left) + Ids(preImage), Ids(current));
  }

  lemma UndoPasses(
      current: seq<Designation>, body: Replace, now: int, newIds: seq<string>, preImage: seq<Designation>, p: Put)
    requires Done(current, body, now, newIds, preImage)
    requires p in UndoRequest(preImage, WriteAll(current, body, now, newIds)).put
    ensures var written := WriteAll(current, body, now, newIds);
            var left := Rest(AfterDo(current, body, now, newIds), Expecting(written));
            && p.createdAt.Some? && p.createdAt.value <= now
            && p.id.Some? && Find(left, p.id.value).None?
            && forall d :: d in left ==> !Share(p.members, d.members)
  {
    var rest, written := Rest(current, body.expected), WriteAll(current, body, now, newIds);
    DoneFacts(current, body, now, newIds, preImage);
    hide Share, OldestFirst, Accepts, FreshIds, IsExpected, WriteAll, AllApart, UndoRequest, AfterDo;
    var d :| d in preImage && p == AsPut(d);
    var left := Rest(AfterDo(current, body, now, newIds), Expecting(written));
    forall x | x in left ensures x.id != d.id && !Share(d.members, x.members) {
      LeftIsRest(current, body, now, newIds, x);
      assert x in rest;
      OthersApart(current, d, x);
    }
  }

  lemma LeftIsRest(current: seq<Designation>, body: Replace, now: int, newIds: seq<string>, x: Designation)
    requires |newIds| == |body.put| && AllApart(Rest(current, body.expected) + WriteAll(current, body, now, newIds))
    ensures x in Rest(AfterDo(current, body, now, newIds), Expecting(WriteAll(current, body, now, newIds)))
            <==> x in Rest(current, body.expected)
  {
    hide OldestFirst, WriteAll, Rest;
    UndoLeavesAlone(Rest(current, body.expected), WriteAll(current, body, now, newIds), x);
  }

  lemma UndoAccepted(
      current: seq<Designation>, body: Replace, now: int, newIds: seq<string>, preImage: seq<Designation>, later: int)
    requires Done(current, body, now, newIds, preImage) && now <= later
    ensures Accepts(AfterDo(current, body, now, newIds),
                    UndoRequest(preImage, WriteAll(current, body, now, newIds)), later)
  {
    var written := WriteAll(current, body, now, newIds);
    hide Share, OldestFirst, FreshIds, IsExpected, UndoPuts, PreImage;
    var undo := UndoRequest(preImage, written);
    var next := AfterDo(current, body, now, newIds);
    DoneFacts(current, body, now, newIds, preImage);
    RoomForUndo(current, body, now, newIds, preImage);
    hide Inv, Accepts, Done, AllApart;
    forall e | e in undo.expected ensures Matches(next, e) {
      var i :| 0 <= i < |written| && Expecting(written)[i] == e;
      assert written[i] in Rest(current, body.expected) + written;
      InvApart(next, now);
      Find1(next, written[i]);
    }
    forall p | p in undo.put
      ensures p.createdAt.Some? && p.createdAt.value <= later && p.id.Some?
      ensures Find(Rest(next, undo.expected), p.id.value).None?
      ensures forall d :: d in Rest(next, undo.expected) ==> !Share(p.members, d.members)
    {
      UndoPasses(current, body, now, newIds, preImage, p);
    }
    CurrentBound(current, now) by { DoneIsInv(current, body, now, newIds, preImage); }
    AcceptsOf(next, undo, later);
  }

  lemma DoneIsInv(current: seq<Designation>, body: Replace, now: int, newIds: seq<string>, preImage: seq<Designation>)
    requires Done(current, body, now, newIds, preImage)
    ensures Inv(current, now)
  {
  }

  lemma CurrentBound(current: seq<Designation>, now: int)
    requires Inv(current, now)
    ensures |current| <= MAX_PER_SERVER
  {
  }

  lemma AcceptsOf(current: seq<Designation>, body: Replace, now: int)
    requires forall e :: e in body.expected ==> Matches(current, e)
    requires forall p :: p in body.put ==>
      && p.createdAt.Some? && p.createdAt.value <= now
      && p.id.Some? && Find(Rest(current, body.expected), p.id.value).None?
      && forall d :: d in Rest(current, body.expected) ==> !Share(p.members, d.members)
    requires |Rest(current, body.expected)| + |body.put| <= MAX_PER_SERVER
    ensures Accepts(current, body, now)
  {
    hide Share, Rest;
  }

  /** What the undo writes for an original: its id, name, members and creation time, whether it was still there or not. */
  lemma UndoWrites(
      current: seq<Designation>, body: Replace, now: int, newIds: seq<string>, preImage: seq<Designation>, d: Designation,
      later: int, newId: string)
    requires Done(current, body, now, newIds, preImage) && d in preImage
    ensures var next, written := AfterDo(current, body, now, newIds), WriteAll(current, body, now, newIds);
            SameCore(Some(d), Some(WriteOne(next, Expecting(written), AsPut(d), later, newId)))
  {
    var next, written := AfterDo(current, body, now, newIds), WriteAll(current, body, now, newIds);
    if Find(next, d.id).Some? { StillThere(current, body, now, newIds, preImage, d); }
    hide AfterDo, WriteAll, WriteOne, IsExpected, Done, SameCore;
    RestoreOne(next, Expecting(written), d, later, newId);
  }

  lemma RestoreOne(next: seq<Designation>, expected: seq<Expectation>, d: Designation, later: int, newId: string)
    requires Find(next, d.id).Some? ==> IsExpected(expected, d.id) && Find(next, d.id).value.createdAt == d.createdAt
    ensures SameCore(Some(d), Some(WriteOne(next, expected, AsPut(d), later, newId)))
  {
    hide IsExpected;
  }

  /** An original still there after the replace is one it wrote in place, keeping the creation time. */
  lemma StillThere(
      current: seq<Designation>, body: Replace, now: int, newIds: seq<string>, preImage: seq<Designation>, d: Designation)
    requires Done(current, body, now, newIds, preImage) && d in preImage
    requires Find(AfterDo(current, body, now, newIds), d.id).Some?
    ensures IsExpected(Expecting(WriteAll(current, body, now, newIds)), d.id)
    ensures Find(AfterDo(current, body, now, newIds), d.id).value.createdAt == d.createdAt
  {
    var rest, written := Rest(current, body.expected), WriteAll(current, body, now, newIds);
    var x := Find(AfterDo(current, body, now, newIds), d.id).value;
    hide Share, OldestFirst, WriteAll, FreshIds, PutsApart, IsExpected, Accepts;
    Find1(current, d);
    AfterReplace(current, body, now, newIds, x);
    assert x in rest + written;
    WrittenIds(written, x.id);
  }

  ghost predicate SameParent(a: Parent, b: Parent) {
    a == b || (!a.Under? && !b.Under?)
  }

  /** What the undo writes for an original: its parent too, unless it has no `parentId` key and was put under a parent. */
  lemma OneParent(
      current: seq<Designation>, body: Replace, now: int, newIds: seq<string>, preImage: seq<Designation>, d: Designation,
      later: int, newId: string)
    requires Done(current, body, now, newIds, preImage) && d in preImage
    ensures var next, written := AfterDo(current, body, now, newIds), WriteAll(current, body, now, newIds);
            var x := WriteOne(next, Expecting(written), AsPut(d), later, newId);
            && x.id == d.id
            && (SameParent(d.parent, x.parent) <==> !PutUnder(d, Find(next, d.id)))
  {
    var next, written := AfterDo(current, body, now, newIds), WriteAll(current, body, now, newIds);
    if Find(next, d.id).Some? { StillThere(current, body, now, newIds, preImage, d); }
    hide Share, OldestFirst, WriteAll, FreshIds, PutsApart, IsExpected, AllApart, Inv, Accepts, Done;
  }

  /** Stored with no `parentId` key, and under a parent now. */
  ghost predicate PutUnder(d: Designation, x: Option<Designation>) {
    d.parent.Absent? && x.Some? && x.value.parent.Under?
  }

  /** A put of the undo and the original it restores. */
  lemma UndoneAt(
      current: seq<Designation>, body: Replace, now: int, newIds: seq<string>, preImage: seq<Designation>,
      later: int, undoIds: seq<string>, i: nat) returns (d: Designation)
    requires Done(current, body, now, newIds, preImage)
    requires |undoIds| == |UndoRequest(preImage, WriteAll(current, body, now, newIds)).put|
    requires i < |undoIds|
    ensures d in preImage
    ensures var undo := UndoRequest(preImage, WriteAll(current, body, now, newIds));
            SameCore(Some(d), Some(WriteAll(AfterDo(current, body, now, newIds), undo, later, undoIds)[i]))
  {
    var undo := UndoRequest(preImage, WriteAll(current, body, now, newIds));
    DoneFacts(current, body, now, newIds, preImage);
    hide Share, OldestFirst, PutsApart, FreshIds, IsExpected, Accepts, UndoPuts, WriteOne, Done;
    assert undo.put[i] in undo.put;
    d :| d in preImage && undo.put[i] == AsPut(d);
    UndoWrites(current, body, now, newIds, preImage, d, later, undoIds[i]);
  }

  /** Every designation after the undo is one of before, with its id, name, members and creation time. */
  lemma UndoAddsNothing(
      current: seq<Designation>, body: Replace, now: int, newIds: seq<string>, preImage: seq<Designation>,
      later: int, undoIds: seq<string>, x: Designation)
    requires Done(current, body, now, newIds, preImage)
    requires |undoIds| == |UndoRequest(preImage, WriteAll(current, body, now, newIds)).put|
    requires x in AfterDo(AfterDo(current, body, now, newIds), UndoRequest(preImage, WriteAll(current, body, now, newIds)),
                          later, undoIds)
    ensures Find(current, x.id).Some? && SameCore(Find(current, x.id), Some(x))
  {
    var next, written := AfterDo(current, body, now, newIds), WriteAll(current, body, now, newIds);
    var undo := UndoRequest(preImage, written);
    DoneFacts(current, body, now, newIds, preImage);
    DoneIsInv(current, body, now, newIds, preImage);
    InvApart(current, now);
    hide Share, OldestFirst, PutsApart, FreshIds, IsExpected, Accepts, UndoPuts, WriteOne, AllApart, Inv, WriteAll;
    var again := WriteAll(next, undo, later, undoIds);
    assert x in Rest(next, Expecting(written)) + again;
    if x in Rest(next, Expecting(written)) {
      LeftIsRest(current, body, now, newIds, x);
      Find1(current, x);
    } else {
      var i :| 0 <= i < |again| && again[i] == x;
      var d := UndoneAt(current, body, now, newIds, preImage, later, undoIds, i);
      Find1(current, d);
    }
  }

  /** And every designation of before is among those after the undo. */
  lemma UndoLosesNothing(
      current: seq<Designation>, body: Replace, now: int, newIds: seq<string>, preImage: seq<Designation>,
      later: int, undoIds: seq<string>, d: Designation) returns (x: Designation)
    requires Done(current, body, now, newIds, preImage) && d in current
    requires |undoIds| == |UndoRequest(preImage, WriteAll(current, body, now, newIds)).put|
    ensures x in AfterDo(AfterDo(current, body, now, newIds), UndoRequest(preImage, WriteAll(current, body, now, newIds)),
                         later, undoIds)
    ensures x.id == d.id
  {
    var next, written := AfterDo(current, body, now, newIds), WriteAll(current, body, now, newIds);
    var undo := UndoRequest(preImage, written);
    DoneFacts(current, body, now, newIds, preImage);
    hide Share, OldestFirst, PutsApart, FreshIds, Accepts, UndoPuts, WriteOne, AllApart, Inv, WriteAll, IsExpected;
    var again := WriteAll(next, undo, later, undoIds);
    var all := Rest(next, Expecting(written)) + again;
    if IsExpected(body.expected, d.id) {
      assert AsPut(d) in undo.put;
      var i :| 0 <= i < |undo.put| && undo.put[i] == AsPut(d);
      x := again[i];
      WriteFacts(next, undo.expected, undo.put[i], later, undoIds[i]);
      assert x in all;
    } else {
      x := d;
      LeftIsRest(current, body, now, newIds, x);
      assert x in all;
    }
  }

  /**
   * The round trip: a replace followed by its inverse is accepted, and restores every designation's id, name, members and
   * creation time, whichever were updated in place, removed or added, and whatever the clock did in between.
   */
  lemma UndoRestores(
      current: seq<Designation>, body: Replace, now: int, newIds: seq<string>, preImage: seq<Designation>,
      later: int, undoIds: seq<string>, id: string)
    requires Done(current, body, now, newIds, preImage) && now <= later
    requires var next := AfterDo(current, body, now, newIds);
             FreshIds(next, UndoRequest(preImage, WriteAll(current, body, now, newIds)).put, undoIds)
    ensures ApplyReplace(current, body, now, newIds) == Written(
              AfterDo(current, body, now, newIds), WriteAll(current, body, now, newIds))
    ensures var undo := UndoRequest(preImage, WriteAll(current, body, now, newIds));
            var out := ApplyReplace(AfterDo(current, body, now, newIds), undo, later, undoIds);
            out.Written? && SameCore(Find(current, id), Find(out.next, id))
  {
    var next, undo := AfterDo(current, body, now, newIds), UndoRequest(preImage, WriteAll(current, body, now, newIds));
    ReplaceAccepted(current, body, now, newIds);
    UndoAccepted(current, body, now, newIds, preImage, later);
    DoneFacts(current, body, now, newIds, preImage);
    hide Share, OldestFirst, PutsApart, Accepts, UndoPuts, WriteOne, AllApart, Inv, IsExpected, WriteAll, ApplyReplace, Done;
    ReplaceAccepted(next, undo, later, undoIds);
    var last := AfterDo(next, undo, later, undoIds);
    if Find(last, id).Some? { UndoAddsNothing(current, body, now, newIds, preImage, later, undoIds, Find(last, id).value); }
    if Find(current, id).Some? {
      var x := UndoLosesNothing(current, body, now, newIds, preImage, later, undoIds, Find(current, id).value);
      assert x in last;
    }
  }

  ghost predicate Undone(
      current: seq<Designation>, body: Replace, now: int, newIds: seq<string>, preImage: seq<Designation>,
      later: int, undoIds: seq<string>) {
    && Done(current, body, now, newIds, preImage) && now <= later
    && FreshIds(AfterDo(current, body, now, newIds),
                UndoRequest(preImage, WriteAll(current, body, now, newIds)).put, undoIds)
  }

  ghost function AfterUndo(
      current: seq<Designation>, body: Replace, now: int, newIds: seq<string>, preImage: seq<Designation>,
      later: int, undoIds: seq<string>): seq<Designation>
    requires Undone(current, body, now, newIds, preImage, later, undoIds)
  {
    AfterDo(AfterDo(current, body, now, newIds), UndoRequest(preImage, WriteAll(current, body, now, newIds)), later, undoIds)
  }

  lemma LaterInv(list: seq<Designation>, now: int, later: int)
    requires Inv(list, now) && now <= later
    ensures Inv(list, later)
  {
  }

  /** The undone list is what the store has after accepting the undo, and it keeps ids unique. */
  lemma UndoneFacts(
      current: seq<Designation>, body: Replace, now: int, newIds: seq<string>, preImage: seq<Designation>,
      later: int, undoIds: seq<string>)
    requires Undone(current, body, now, newIds, preImage, later, undoIds)
    ensures var last := AfterUndo(current, body, now, newIds, preImage, later, undoIds);
            && AllApart(last)
            && Next(AfterDo(current, body, now, newIds),
                    DoReplace(UndoRequest(preImage, WriteAll(current, body, now, newIds)), undoIds), later) == last
  {
    var next, undo := AfterDo(current, body, now, newIds), UndoRequest(preImage, WriteAll(current, body, now, newIds));
    DoneFacts(current, body, now, newIds, preImage);
    UndoAccepted(current, body, now, newIds, preImage, later);
    LaterInv(next, now, later);
    hide Inv, Accepts, Done, OldestFirst, WriteAll, FreshIds, PutsApart, AllApart, ApplyReplace;
    ReplaceAccepted(next, undo, later, undoIds);
    ReplaceKeeps(next, undo, later, undoIds);
    InvApart(AfterDo(next, undo, later, undoIds), later);
  }

  /** An original is among those after the undo as the undo writes it. */
  lemma OriginalWritten(
      current: seq<Designation>, body: Replace, now: int, newIds: seq<string>, preImage: seq<Designation>,
      later: int, undoIds: seq<string>, d: Designation) returns (newId: string)
    requires Undone(current, body, now, newIds, preImage, later, undoIds) && d in preImage
    ensures WriteOne(AfterDo(current, body, now, newIds), Expecting(WriteAll(current, body, now, newIds)), AsPut(d), later, newId)
            in AfterUndo(current, body, now, newIds, preImage, later, undoIds)
  {
    var next, undo := AfterDo(current, body, now, newIds), UndoRequest(preImage, WriteAll(current, body, now, newIds));
    DoneFacts(current, body, now, newIds, preImage);
    hide Done, OldestFirst, FreshIds, PutsApart, AllApart, WriteOne, UndoPuts, Inv;
    assert AsPut(d) in undo.put;
    var i :| 0 <= i < |undo.put| && undo.put[i] == AsPut(d);
    newId := undoIds[i];
    var again := WriteAll(next, undo, later, undoIds);
    assert again[i] in Rest(next, undo.expected) + again;
  }

  /** What the replace did not expect, the undo leaves too. */
  lemma OtherStays(
      current: seq<Designation>, body: Replace, now: int, newIds: seq<string>, preImage: seq<Designation>,
      later: int, undoIds: seq<string>, d: Designation)
    requires Undone(current, body, now, newIds, preImage, later, undoIds) && d in current && d !in preImage
    ensures d in AfterUndo(current, body, now, newIds, preImage, later, undoIds)
    ensures Find(AfterDo(current, body, now, newIds), d.id) == Some(d)
  {
    var next, undo := AfterDo(current, body, now, newIds), UndoRequest(preImage, WriteAll(current, body, now, newIds));
    DoneFacts(current, body, now, newIds, preImage);
    InvApart(next, now);
    hide OldestFirst, FreshIds, PutsApart, AllApart, WriteOne, WriteAll, UndoPuts, Inv, IsExpected, Accepts;
    LeftIsRest(current, body, now, newIds, d);
    assert d in Rest(current, body.expected) + WriteAll(current, body, now, newIds);
    Find1(next, d);
    assert d in Rest(next, undo.expected) + WriteAll(next, undo, later, undoIds);
  }

  /**
   * The parent comes back too, but for one case: an original with no `parentId` key, which the replace kept in place and
   * put under a parent, is still there after the undo.
   */
  lemma UndoRestoresParent(
      current: seq<Designation>, body: Replace, now: int, newIds: seq<string>, preImage: seq<Designation>,
      later: int, undoIds: seq<string>, d: Designation)
    requires Undone(current, body, now, newIds, preImage, later, undoIds) && d in current
    ensures var next := AfterDo(current, body, now, newIds);
            var undo := UndoRequest(preImage, WriteAll(current, body, now, newIds));
            var found := Find(Next(next, DoReplace(undo, undoIds), later), d.id);
            found.Some? && (SameParent(d.parent, found.value.parent) <==> !PutUnder(d, Find(next, d.id)))
  {
    var last := AfterUndo(current, body, now, newIds, preImage, later, undoIds);
    UndoneFacts(current, body, now, newIds, preImage, later, undoIds);
    if d in preImage {
      var newId := OriginalWritten(current, body, now, newIds, preImage, later, undoIds, d);
      OneParent(current, body, now, newIds, preImage, d, later, newId);
      hide Done, AfterUndo, AfterDo, AllApart, WriteOne, SameParent, Next, WriteAll, UndoRequest;
      Find1(last, WriteOne(AfterDo(current, body, now, newIds), Expecting(WriteAll(current, body, now, newIds)),
                           AsPut(d), later, newId));
    } else {
      OtherStays(current, body, now, newIds, preImage, later, undoIds, d);
      hide Done, AfterUndo, AfterDo, AllApart, Next, WriteAll, UndoRequest;
      Find1(last, d);
    }
  }

  // ----- the case where the parent does not come back -----

  const PARENT: Designation := Designation("p", "Steel", [Member(Some("a"), "Smelter", 0, 0)], 0, 0, 1, Absent)
  const ORIGINAL: Designation := Designation("f", "Screws", [Member(Some("b"), "Constructor", 9, 0)], 0, 0, 1, Absent)

  /** Screws is put under Steel, with what it has otherwise. */
  const MOVE: Replace := Replace([Expectation("f", 1)], [Put(Some("f"), "Screws", ORIGINAL.members, None, Under("p"))])

  lemma MoveIsDone()
    ensures Done([PARENT, ORIGINAL], MOVE, 1, ["n"], [ORIGINAL])
    ensures WriteAll([PARENT, ORIGINAL], MOVE, 1, ["n"]) ==
            [ORIGINAL.(updatedAt := 1, revision := 2, parent := Under("p"))]
  {
    var current := [PARENT, ORIGINAL];
    MovedApart();
    assert Find(current[1..], "f") == Some(ORIGINAL) && Find(current, "f") == Some(ORIGINAL);
    assert MOVE.expected[0] in MOVE.expected;
    assert IsExpected(MOVE.expected, "f") && !IsExpected(MOVE.expected, "p");
    assert Rest(current[1..], MOVE.expected) == [];
    assert Rest(current, MOVE.expected) == [PARENT];
    assert Find(current, "n").None?;
  }

  lemma MovedApart()
    ensures Apart(PARENT, ORIGINAL) && !Share(ORIGINAL.members, PARENT.members)
  {
    ShareIsSymmetric(PARENT.members, ORIGINAL.members);
  }

  /** The list after the move. */
  lemma Moved(x: Designation)
    ensures var next := AfterDo([PARENT, ORIGINAL], MOVE, 1, ["n"]);
            && Next([PARENT, ORIGINAL], DoReplace(MOVE, ["n"]), 1) == next
            && (x in next <==> x == PARENT || x == ORIGINAL.(updatedAt := 1, revision := 2, parent := Under("p")))
            && AllApart(next)
  {
    MoveIsDone();
    DoneFacts([PARENT, ORIGINAL], MOVE, 1, ["n"], [ORIGINAL]);
    ReplaceAccepted([PARENT, ORIGINAL], MOVE, 1, ["n"]);
    InvApart(AfterDo([PARENT, ORIGINAL], MOVE, 1, ["n"]), 1);
    RestOfMove();
    hide OldestFirst, Rest, WriteAll, AllApart, Inv, Accepts, ApplyReplace;
  }

  lemma RestOfMove()
    ensures Rest([PARENT, ORIGINAL], MOVE.expected) == [PARENT]
  {
    var current := [PARENT, ORIGINAL];
    assert MOVE.expected[0] in MOVE.expected;
    assert IsExpected(MOVE.expected, "f") && !IsExpected(MOVE.expected, "p");
    assert Rest(current[1..], MOVE.expected) == [];
  }

  lemma MovedUnder()
    ensures PutUnder(ORIGINAL, Find(AfterDo([PARENT, ORIGINAL], MOVE, 1, ["n"]), "f"))
    ensures Find(AfterDo([PARENT, ORIGINAL], MOVE, 1, ["n"]), "m").None?
  {
    hide AfterDo, AllApart, Next, Find;
    var next, moved := AfterDo([PARENT, ORIGINAL], MOVE, 1, ["n"]), ORIGINAL.(updatedAt := 1, revision := 2, parent := Under("p"));
    Moved(moved);
    Find1(next, moved);
    forall x | x in next ensures x.id != "m" { Moved(x); }
  }

  lemma MoveUndone(later: int)
    requires 1 <= later
    ensures Undone([PARENT, ORIGINAL], MOVE, 1, ["n"], [ORIGINAL], later, ["m"])
  {
    var undo := UndoRequest([ORIGINAL], WriteAll([PARENT, ORIGINAL], MOVE, 1, ["n"]));
    MoveIsDone();
    DoneFacts([PARENT, ORIGINAL], MOVE, 1, ["n"], [ORIGINAL]);
    hide Done, AfterDo, UndoRequest, AllApart, WriteAll, Next, FreshIds, PutsApart, Inv, Find;
    MovedUnder();
    assert undo.put[0] in undo.put;
    var d :| d in [ORIGINAL] && undo.put[0] == AsPut(d);
    OneFresh(AfterDo([PARENT, ORIGINAL], MOVE, 1, ["n"]), undo.put, "m");
  }

  lemma OneFresh(current: seq<Designation>, put: seq<Put>, id: string)
    requires |put| == 1 && put[0].id != Some(id) && Find(current, id).None?
    ensures FreshIds(current, put, [id])
  {
  }

  /** A top-level designation stored without a `parentId`, put under another, and undone: it is still under it. */
  lemma ParentStays(later: int)
    requires 1 <= later
    ensures var next := Next([PARENT, ORIGINAL], DoReplace(MOVE, ["n"]), 1);
            var undo := UndoRequest([ORIGINAL], WriteAll([PARENT, ORIGINAL], MOVE, 1, ["n"]));
            && |undo.put| == 1
            && var found := Find(Next(next, DoReplace(undo, ["m"]), later), "f");
            found.Some? && found.value.parent.Under? && !SameParent(ORIGINAL.parent, found.value.parent)
  {
    MoveUndone(later);
    MovedUnder();
    Moved(PARENT);
    hide AfterDo, Next, WriteAll, UndoRequest, Undone, PutUnder;
    UndoRestoresParent([PARENT, ORIGINAL], MOVE, 1, ["n"], [ORIGINAL], later, ["m"], ORIGINAL);
    OnePut(later);
  }

  lemma OnePut(later: int)
    requires Undone([PARENT, ORIGINAL], MOVE, 1, ["n"], [ORIGINAL], later, ["m"])
    ensures |UndoRequest([ORIGINAL], WriteAll([PARENT, ORIGINAL], MOVE, 1, ["n"])).put| == 1
  {
    hide Done, AfterDo, UndoRequest, WriteAll;
  }
}
