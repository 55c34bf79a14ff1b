/**
 * The demo's designated factories (frontend/src/demo/designations.ts): who owns each group of the production graph, and the
 * factories rebuilt from that. `links` are the graph's edges, then its transports.
 */
module DemoDesignations {
  import opened Wrappers
  import opened Ranges

  datatype Node = Node(key: string, factoryKey: Option<string>, machineIds: seq<string>, count: nat)

  datatype Factory = Factory(key: string, nodeKeys: seq<string>)

  datatype Link = Link(from: string, to: string)

  datatype Graph = Graph(nodes: seq<Node>, factories: seq<Factory>, links: seq<Link>)

  datatype Designation = Designation(id: string, members: seq<Option<string>>)

  function DesignatedKey(id: string): string {
    "factory|designation|" + id
  }

  function Get<K, V>(m: map<K, V>, key: K): Option<V> {
    if key in m then Some(m[key]) else None
  }

  // ----- which designation holds a building -----

  /** The first designation that lists the building. */
  function HolderOf(list: seq<Designation>, building: string): Option<string> {
    if list == [] then None
    else
      var before, last := HolderOf(list[..|list| - 1], building), list[|list| - 1];
      if before.Some? then before else if Some(building) in last.members then Some(last.id) else None
  }

  method Holders(list: seq<Designation>) returns (holder: map<string, string>)
    ensures forall b :: Get(holder, b) == HolderOf(list, b)
  {
    holder := map[];
    for i := 0 to |list|
      invariant forall b :: Get(holder, b) == HolderOf(list[..i], b)
    {
      var d := list[i];
      assert list[..i + 1][..i] == list[..i];
      for j := 0 to |d.members|
        invariant forall b ::
          Get(holder, b) == if HolderOf(list[..i], b).Some? then HolderOf(list[..i], b)
                            else if Some(b) in d.members[..j] then Some(d.id) else None
      {
        assert d.members[..j + 1] == d.members[..j] + [d.members[j]];
        if d.members[j].Some? && d.members[j].value !in holder { holder := holder[d.members[j].value := d.id]; }
      }
      assert d.members[..|d.members|] == d.members;
    }
    assert list[..|list|] == list;
  }

  lemma {:induction false} HolderIsListed(list: seq<Designation>, building: string)
    requires HolderOf(list, building).Some?
    ensures exists i :: 0 <= i < |list| && list[i].id == HolderOf(list, building).value && Some(building) in list[i].members
    ensures forall i :: 0 <= i < |list| && Some(building) in list[i].members ==>
              exists j :: 0 <= j <= i && list[j].id == HolderOf(list, building).value && Some(building) in list[j].members
  {
    var n := |list| - 1;
    if HolderOf(list[..n], building).Some? {
      HolderIsListed(list[..n], building);
      var k :| 0 <= k < n && list[..n][k].id == HolderOf(list, building).value && Some(building) in list[..n][k].members;
      assert list[k] == list[..n][k];
      forall i | 0 <= i < |list| && Some(building) in list[i].members
        ensures exists j :: 0 <= j <= i && list[j].id == HolderOf(list, building).value && Some(building) in list[j].members
      {
        if i < n {
          assert list[..n][i] == list[i];
          var j :| 0 <= j <= i && list[..n][j].id == HolderOf(list, building).value && Some(building) in list[..n][j].members;
          assert list[j] == list[..n][j];
        }
      }
    } else {
      forall i | 0 <= i < n && Some(building) in list[i].members ensures false {
        NobodyBefore(list[..n], building, i);
      }
    }
  }

  lemma {:induction false} NobodyBefore(list: seq<Designation>, building: string, i: nat)
    requires HolderOf(list, building).None? && i < |list|
    ensures Some(building) !in list[i].members
  {
    if i < |list| - 1 { NobodyBefore(list[..|list| - 1], building, i); }
  }

  // ----- the most votes -----

  datatype Vote = Vote(key: string, weight: nat)

  function Weight(votes: seq<Vote>, key: string): nat {
    if votes == [] then 0
    else
      var last := votes[|votes| - 1];
      Weight(votes[..|votes| - 1], key) + if last.key == key then last.weight else 0
  }

  ghost predicate Voted(votes: seq<Vote>, key: string) {
    exists i :: 0 <= i < |votes| && votes[i].key == key
  }

  /** Some vote for `a` comes before every vote for `b`. */
  ghost predicate Before(votes: seq<Vote>, a: string, b: string) {
    exists i :: 0 <= i < |votes| && votes[i].key == a && forall j :: 0 <= j <= i ==> votes[j].key != b
  }

  /** No other key has more votes, nor as many and an earlier first vote. */
  ghost predicate Wins(votes: seq<Vote>, key: string) {
    && Voted(votes, key)
    && forall other :: Voted(votes, other) && other != key ==>
         Weight(votes, other) < Weight(votes, key) || (Weight(votes, other) == Weight(votes, key) && Before(votes, key, other))
  }

  /** An insertion-ordered Map of totals. */
  ghost predicate Tallied(votes: seq<Vote>, tally: seq<Vote>) {
    && (forall j :: 0 <= j < |tally| ==> Voted(votes, tally[j].key) && tally[j].weight == Weight(votes, tally[j].key))
    && (forall i :: 0 <= i < |votes| ==> Voted(tally, votes[i].key))
    && (forall j, k :: 0 <= j < k < |tally| ==> Before(votes, tally[j].key, tally[k].key))
  }

  lemma Ballot(votes: seq<Vote>, i: nat)
    requires i < |votes|
    ensures forall key :: Weight(votes[..i + 1], key) == Weight(votes[..i], key) + (if votes[i].key == key then votes[i].weight else 0)
    ensures forall key :: Voted(votes[..i + 1], key) <==> Voted(votes[..i], key) || key == votes[i].key
    ensures forall a, b :: Before(votes[..i], a, b) ==> Before(votes[..i + 1], a, b)
    ensures forall a :: Voted(votes[..i], a) && !Voted(votes[..i], votes[i].key) ==> Before(votes[..i + 1], a, votes[i].key)
  {
    var before, after := votes[..i], votes[..i + 1];
    assert after[..i] == before;
    forall key ensures Voted(after, key) <==> Voted(before, key) || key == votes[i].key {
      if Voted(before, key) {
        var j :| 0 <= j < i && before[j].key == key;
        assert after[j].key == key;
      }
      assert after[i] == votes[i];
    }
    forall a, b | Before(before, a, b) ensures Before(after, a, b) {
      var j :| 0 <= j < i && before[j].key == a && forall k :: 0 <= k <= j ==> before[k].key != b;
      assert after[j].key == a && forall k :: 0 <= k <= j ==> after[k] == before[k];
    }
    forall a | Voted(before, a) && !Voted(before, votes[i].key) ensures Before(after, a, votes[i].key) {
      var j :| 0 <= j < i && before[j].key == a;
      assert after[j].key == a && forall k :: 0 <= k <= j ==> after[k] == before[k];
    }
  }

  lemma NoVotes()
    ensures Tallied([], [])
  {
  }

  lemma AllTallied(votes: seq<Vote>, tally: seq<Vote>)
    requires Tallied(votes, tally)
    ensures tally == [] <==> votes == []
  {
    if votes != [] { assert Voted(tally, votes[0].key); }
    if tally != [] { assert Voted(votes, tally[0].key); }
  }

  method Tally(votes: seq<Vote>) returns (tally: seq<Vote>)
    ensures Tallied(votes, tally)
  {
    hide Tallied;
    NoVotes();
    tally := [];
    for i := 0 to |votes|
      invariant Tallied(votes[..i], tally)
    {
      var v := votes[i];
      var j := 0;
      while j < |tally| && tally[j].key != v.key
        invariant 0 <= j <= |tally| && forall k :: 0 <= k < j ==> tally[k].key != v.key
      {
        j := j + 1;
      }
      if j < |tally| {
        TallyAgain(votes, i, tally, j);
        tally := tally[j := Vote(v.key, tally[j].weight + v.weight)];
      } else {
        TallyNew(votes, i, tally);
        tally := tally + [v];
      }
    }
    assert votes[..|votes|] == votes;
  }

  lemma TallyAgain(votes: seq<Vote>, i: nat, tally: seq<Vote>, j: nat)
    requires i < |votes| && Tallied(votes[..i], tally) && j < |tally| && tally[j].key == votes[i].key
    ensures Tallied(votes[..i + 1], tally[j := Vote(votes[i].key, tally[j].weight + votes[i].weight)])
  {
    hide Weight, Before;
    Ballot(votes, i);
    var r := tally[j := Vote(votes[i].key, tally[j].weight + votes[i].weight)];
    forall k, l | 0 <= k < l < |tally| ensures tally[k].key != tally[l].key {
      assert Before(votes[..i], tally[k].key, tally[l].key);
      Apart(votes[..i], tally[k].key, tally[l].key);
    }
    forall k | 0 <= k <= i ensures Voted(r, votes[k].key) {
      if k < i {
        assert votes[..i][k] == votes[k];
        var l :| 0 <= l < |tally| && tally[l].key == votes[k].key;
        assert r[l].key == votes[k].key;
      } else {
        assert r[j].key == votes[i].key;
      }
    }
    hide Voted;
    assert forall k :: 0 <= k <= i ==> votes[..i + 1][k] == votes[k];
  }

  lemma Apart(votes: seq<Vote>, a: string, b: string)
    requires Before(votes, a, b)
    ensures a != b
  {
  }

  lemma TallyNew(votes: seq<Vote>, i: nat, tally: seq<Vote>)
    requires i < |votes| && Tallied(votes[..i], tally)
    requires forall k :: 0 <= k < |tally| ==> tally[k].key != votes[i].key
    ensures Tallied(votes[..i + 1], tally + [votes[i]])
  {
    hide Before;
    var r, v := tally + [votes[i]], votes[i];
    assert !Voted(votes[..i], v.key) by {
      forall k | 0 <= k < i ensures votes[..i][k].key != v.key {
        assert Voted(tally, votes[..i][k].key);
      }
    }
    Unvoted(votes[..i], v.key);
    hide Weight;
    Ballot(votes, i);
    forall k | 0 <= k <= i ensures Voted(r, votes[k].key) {
      if k < i {
        assert votes[..i][k] == votes[k];
        var l :| 0 <= l < |tally| && tally[l].key == votes[k].key;
        assert r[l].key == votes[k].key;
      } else {
        assert r[|tally|].key == v.key;
      }
    }
    hide Voted;
    assert forall k :: 0 <= k <= i ==> votes[..i + 1][k] == votes[k];
  }

  lemma {:induction false} Unvoted(votes: seq<Vote>, key: string)
    requires !Voted(votes, key)
    ensures Weight(votes, key) == 0
  {
    if votes != [] {
      var n := |votes| - 1;
      assert votes[n].key != key;
      forall i | 0 <= i < n ensures votes[..n][i].key != key {
        assert votes[i] == votes[..n][i];
      }
      Unvoted(votes[..n], key);
    }
  }

  /** Whoever has the most votes, the earliest voted for among equals; nobody when there are none. */
  method Winner(votes: seq<Vote>) returns (best: Option<string>)
    ensures best.None? <==> votes == []
    ensures best.Some? ==> Wins(votes, best.value)
  {
    var tally := Tally(votes);
    AllTallied(votes, tally);
    if tally == [] { return None; }
    var b := 0;
    for i := 1 to |tally|
      invariant 0 <= b < i
      invariant forall j :: 0 <= j < i ==> tally[j].weight <= tally[b].weight && (j < b ==> tally[j].weight < tally[b].weight)
    {
      if tally[i].weight > tally[b].weight { b := i; }
    }
    best := Some(tally[b].key);
    forall other | Voted(votes, other) && other != tally[b].key
      ensures Weight(votes, other) < Weight(votes, tally[b].key)
              || (Weight(votes, other) == Weight(votes, tally[b].key) && Before(votes, tally[b].key, other))
    {
      var i :| 0 <= i < |votes| && votes[i].key == other;
      assert Voted(tally, votes[i].key);
      var j :| 0 <= j < |tally| && tally[j].key == other;
    }
  }

  // ----- links and paths -----

  ghost predicate Joined(links: seq<Link>, a: string, b: string) {
    Link(a, b) in links || Link(b, a) in links
  }

  /** The keys joined to `key`, in link order. */
  function LinksOf(links: seq<Link>, key: string): (r: seq<string>)
    ensures forall b :: b in r <==> Joined(links, key, b)
  {
    if links == [] then []
    else
      var n := |links| - 1;
      var e := links[n];
      assert links == links[..n] + [e];
      LinksOf(links[..n], key) + (if e.from == key then [e.to] else []) + (if e.to == key then [e.from] else [])
  }

  function Listed(m: map<string, seq<string>>, key: string): seq<string> {
    if key in m then m[key] else []
  }

  /** What one more link adds to the neighbours of `key`. */
  function Added(e: Link, key: string): seq<string> {
    (if e.from == key then [e.to] else []) + (if e.to == key then [e.from] else [])
  }

  lemma LinkAdded(links: seq<Link>, i: nat, key: string)
    requires i < |links|
    ensures LinksOf(links[..i + 1], key) == LinksOf(links[..i], key) + Added(links[i], key)
  {
    assert links[..i + 1][..i] == links[..i];
  }

  lemma ListedAdded(m: map<string, seq<string>>, e: Link, key: string)
    ensures var m1 := m[e.from := Listed(m, e.from) + [e.to]];
            Listed(m1[e.to := Listed(m1, e.to) + [e.from]], key) == Listed(m, key) + Added(e, key)
  {
  }

  method BuildLinks(links: seq<Link>) returns (m: map<string, seq<string>>)
    ensures forall key :: Listed(m, key) == LinksOf(links, key)
  {
    m := map[];
    for i := 0 to |links|
      invariant forall key :: Listed(m, key) == LinksOf(links[..i], key)
    {
      hide LinksOf, Listed, Added;
      ghost var before := m;
      var e := links[i];
      m := m[e.from := Listed(m, e.from) + [e.to]];
      m := m[e.to := Listed(m, e.to) + [e.from]];
      forall key ensures Listed(m, key) == LinksOf(links[..i + 1], key) {
        LinkAdded(links, i, key);
        ListedAdded(before, e, key);
      }
    }
    assert links[..|links|] == links;
  }

  /** A walk inside `inside`, link by link, from one of `sources` to `key`. */
  ghost predicate IsPath(links: seq<Link>, inside: set<string>, sources: set<string>, p: seq<string>, key: string) {
    && p != [] && p[0] in sources && p[|p| - 1] == key
    && (forall i :: 0 <= i < |p| ==> p[i] in inside)
    && (forall i :: 0 <= i && i + 1 < |p| ==> Joined(links, p[i], p[i + 1]))
  }

  /** Some source is at minimum distance along `p`, and its owner is `o`; or no walk from any source leads to `key`. */
  ghost predicate Nearest(
      links: seq<Link>, inside: set<string>, sources: set<string>, owner: map<string, string>, key: string,
      o: Option<string>)
  {
    if o.None? then forall p :: !IsPath(links, inside, sources, p, key)
    else
      exists p :: IsPath(links, inside, sources, p, key) && Get(owner, p[0]) == o
                  && forall q :: IsPath(links, inside, sources, q, key) ==> |p| <= |q|
  }

  /** A breadth-first search in progress: what is queued, and the path by which each queued key was reached. */
  datatype Search = Search(links: seq<Link>, inside: set<string>, sources: set<string>, queue: seq<string>,
                           path: map<string, seq<string>>)

  ghost predicate Found(s: Search) {
    && (forall a, b :: 0 <= a < b < |s.queue| ==> s.queue[a] != s.queue[b])
    && (forall k :: k in s.path <==> k in s.queue)
    && (forall k :: k in s.path ==> IsPath(s.links, s.inside, s.sources, s.path[k], k))
    && (forall k :: k in s.sources ==> k in s.path && |s.path[k]| == 1)
  }

  ghost predicate Layered(s: Search, i: nat)
    requires Found(s)
  {
    && (forall a, b :: 0 <= a < b < |s.queue| ==> |s.path[s.queue[a]]| <= |s.path[s.queue[b]]|)
    && (i < |s.queue| ==> forall b :: 0 <= b < |s.queue| ==> |s.path[s.queue[b]]| <= |s.path[s.queue[i]]| + 1)
  }

  /** `next` was reached, no more than one hop past `at`. */
  ghost predicate Near(s: Search, at: string, next: string) {
    at in s.path && next in s.path && |s.path[next]| <= |s.path[at]| + 1
  }

  ghost predicate Expanded(s: Search, i: nat) {
    forall a, next :: 0 <= a < i && a < |s.queue| && next in s.inside && Joined(s.links, s.queue[a], next) ==>
      Near(s, s.queue[a], next)
  }

  ghost function Reach(s: Search, at: string, next: string): Search
    requires at in s.path
  {
    s.(queue := s.queue + [next], path := s.path[next := s.path[at] + [next]])
  }

  lemma LongerPath(links: seq<Link>, inside: set<string>, sources: set<string>, p: seq<string>, at: string, next: string)
    requires IsPath(links, inside, sources, p, at) && next in inside && Joined(links, at, next)
    ensures IsPath(links, inside, sources, p + [next], next)
  {
    hide Joined;
    var r := p + [next];
    forall j | 0 <= j && j + 1 < |r| ensures Joined(links, r[j], r[j + 1]) {
      if j + 1 < |p| { assert r[j] == p[j] && r[j + 1] == p[j + 1]; }
    }
  }

  lemma ReachFound(s: Search, at: string, next: string)
    requires Found(s) && at in s.path && next in s.inside && next !in s.path && Joined(s.links, at, next)
    ensures Found(Reach(s, at, next))
  {
    LongerPath(s.links, s.inside, s.sources, s.path[at], at, next);
    hide Joined, IsPath;
    var r := Reach(s, at, next);
    assert r.path[next] == s.path[at] + [next];
    forall k ensures k in r.path <==> k in r.queue {
    }
  }

  lemma ReachLayered(s: Search, i: nat, next: string)
    requires i < |s.queue| && Found(s) && Layered(s, i) && next !in s.path && Found(Reach(s, s.queue[i], next))
    ensures Layered(Reach(s, s.queue[i], next), i)
  {
    hide Joined, IsPath;
    var r := Reach(s, s.queue[i], next);
    forall a | 0 <= a < |s.queue| ensures r.queue[a] == s.queue[a] && r.path[r.queue[a]] == s.path[s.queue[a]] {
      assert s.queue[a] in s.path;
    }
    assert |r.path[next]| == |s.path[s.queue[i]]| + 1;
  }

  lemma ReachKeeps(s: Search, i: nat, next: string)
    requires i < |s.queue| && Found(s) && Layered(s, i) && Expanded(s, i)
    requires next in s.inside && next !in s.path && Joined(s.links, s.queue[i], next)
    ensures var r := Reach(s, s.queue[i], next);
            && Found(r) && Layered(r, i) && Expanded(r, i) && Near(r, s.queue[i], next)
            && (forall a, b :: Near(s, a, b) ==> Near(r, a, b))
  {
    assert s.queue[i] in s.path;
    ReachFound(s, s.queue[i], next);
    ReachLayered(s, i, next);
    ReachNear(s, s.queue[i], next);
    hide Joined, IsPath, Found, Layered, Near;
    var r := Reach(s, s.queue[i], next);
    forall a, b | 0 <= a < i && b in s.inside && Joined(s.links, r.queue[a], b) ensures Near(r, r.queue[a], b) {
      assert r.queue[a] == s.queue[a];
      assert Near(s, s.queue[a], b);
    }
  }

  lemma ReachNear(s: Search, at: string, next: string)
    requires at in s.path && next !in s.path
    ensures var r := Reach(s, at, next);
            Near(r, at, next) && (forall a, b :: Near(s, a, b) ==> Near(r, a, b))
  {
    var r := Reach(s, at, next);
    assert r.path[next] == s.path[at] + [next];
  }

  /** Every neighbour of every queued key is queued within one hop more, so no path is shorter than the one found. */
  lemma {:induction false} FoundIsNearest(s: Search, p: seq<string>, key: string)
    requires Found(s) && Expanded(s, |s.queue|) && IsPath(s.links, s.inside, s.sources, p, key)
    ensures key in s.path && |s.path[key]| <= |p|
    decreases |p|
  {
    hide Joined;
    if |p| > 1 {
      var n := |p| - 1;
      var before := p[n - 1];
      assert IsPath(s.links, s.inside, s.sources, p[..n], before);
      FoundIsNearest(s, p[..n], before);
      var a :| 0 <= a < |s.queue| && s.queue[a] == before;
      assert Joined(s.links, p[n - 1], p[n - 1 + 1]);
      assert Near(s, s.queue[a], key);
    }
  }

  lemma AlreadyNear(s: Search, i: nat, next: string)
    requires Found(s) && Layered(s, i) && i < |s.queue| && next in s.path
    ensures Near(s, s.queue[i], next)
  {
    var b :| 0 <= b < |s.queue| && s.queue[b] == next;
    assert s.queue[i] in s.path;
  }

  lemma Deeper(s: Search, i: nat, nexts: seq<string>)
    requires Found(s) && Layered(s, i) && Expanded(s, i) && i < |s.queue|
    requires forall b :: b in nexts <==> Joined(s.links, s.queue[i], b)
    requires forall j :: 0 <= j < |nexts| && nexts[j] in s.inside ==> Near(s, s.queue[i], nexts[j])
    ensures Layered(s, i + 1) && Expanded(s, i + 1)
  {
    hide Joined, IsPath, Near;
    if i + 1 < |s.queue| {
      assert s.queue[i] in s.path && s.queue[i + 1] in s.path;
    }
    forall a, next | 0 <= a < i + 1 && next in s.inside && Joined(s.links, s.queue[a], next)
      ensures Near(s, s.queue[a], next)
    {
      if a == i {
        assert next in nexts;
        var j :| 0 <= j < |nexts| && nexts[j] == next;
      }
    }
  }

  /** `reached` names, for each key found, the owner of the source its path begins at. */
  ghost predicate Carries(s: Search, owner: map<string, string>, reached: map<string, string>) {
    && (forall k :: k in reached <==> k in s.path)
    && (forall k :: k in s.path ==> s.path[k] != [] && s.path[k][0] in owner && reached[k] == owner[s.path[k][0]])
  }

  ghost predicate DistinctKeys(keys: seq<string>) {
    forall a, b :: 0 <= a < b < |keys| ==> keys[a] != keys[b]
  }

  lemma StartFound(links: seq<Link>, inside: set<string>, standing: seq<string>)
    requires DistinctKeys(standing) && forall k :: k in standing ==> k in inside
    ensures var s := Search(links, inside, (set k | k in standing), standing, map k | k in standing :: [k]);
            Found(s) && Layered(s, 0) && Expanded(s, 0)
  {
    hide Joined;
  }

  lemma QueueFits(s: Search)
    requires Found(s)
    ensures |s.queue| <= |s.inside|
  {
    hide Joined;
    forall k | k in s.path ensures k in s.inside {
      assert IsPath(s.links, s.inside, s.sources, s.path[k], k);
      assert s.path[k][|s.path[k]| - 1] == k;
    }
    QueueCount(s.queue);
    SubsetSize((set k | k in s.queue), s.inside);
  }

  lemma {:induction false} QueueCount(keys: seq<string>)
    requires DistinctKeys(keys)
    ensures |(set k | k in keys)| == |keys|
  {
    if keys != [] {
      var n := |keys| - 1;
      QueueCount(keys[..n]);
      assert keys == keys[..n] + [keys[n]];
      assert (set k | k in keys) == (set k | k in keys[..n]) + {keys[n]};
    }
  }

  /** The breadth-first loop: from the placed groups, all at once, along the links inside the factory. */
  method Spread(
      neighbours: map<string, seq<string>>, inFactory: set<string>, standing: seq<string>, owner: map<string, string>,
      ghost links: seq<Link>) returns (reached: map<string, string>)
    requires forall key :: Listed(neighbours, key) == LinksOf(links, key)
    requires DistinctKeys(standing) && forall k :: k in standing ==> k in inFactory && k in owner
    ensures forall key :: Nearest(links, inFactory, (set k | k in standing), owner, key, Get(reached, key))
  {
    hide Joined, IsPath, Found, Layered, Expanded, LinksOf, Near, Nearest;
    reached := map k | k in standing :: owner[k];
    var queue := standing;
    ghost var sources := set k | k in standing;
    ghost var s := Search(links, inFactory, sources, standing, map k | k in standing :: [k]);
    StartFound(links, inFactory, standing);
    QueueFits(s);
    var i := 0;
    while i < |queue|
      invariant i <= |queue| <= |inFactory| && queue == s.queue
      invariant s.links == links && s.inside == inFactory && s.sources == sources
      invariant Found(s) && Layered(s, i) && Expanded(s, i) && Carries(s, owner, reached)
      decreases |inFactory| - i
    {
      var at := queue[i];
      QueuedIsReached(s, i);
      var nexts := Listed(neighbours, at);
      for j := 0 to |nexts|
        invariant i < |queue| <= |inFactory| && queue == s.queue && queue[i] == at && at in s.path
        invariant s.links == links && s.inside == inFactory && s.sources == sources
        invariant Found(s) && Layered(s, i) && Expanded(s, i) && Carries(s, owner, reached)
        invariant forall k :: 0 <= k < j && nexts[k] in s.inside ==> Near(s, at, nexts[k])
      {
        var next := nexts[j];
        assert next in LinksOf(links, at);
        if next in inFactory {
          if next in reached {
            AlreadyNear(s, i, next);
          } else {
            ReachKeeps(s, i, next);
            reached := reached[next := reached[at]];
            queue := queue + [next];
            s := Reach(s, at, next);
            QueueFits(s);
          }
        }
      }
      Deeper(s, i, nexts);
      i := i + 1;
    }
    forall key ensures Nearest(links, inFactory, sources, owner, key, Get(reached, key)) {
      SearchIsNearest(s, owner, reached, key);
    }
  }

  /** A search with nothing left to expand has found the nearest source of every key there is a walk to. */
  lemma SearchIsNearest(s: Search, owner: map<string, string>, reached: map<string, string>, key: string)
    requires Found(s) && Expanded(s, |s.queue|) && Carries(s, owner, reached)
    ensures Nearest(s.links, s.inside, s.sources, owner, key, Get(reached, key))
  {
    hide Joined, Expanded;
    forall q | IsPath(s.links, s.inside, s.sources, q, key) ensures key in s.path && |s.path[key]| <= |q| {
      FoundIsNearest(s, q, key);
    }
    if key in reached {
      assert IsPath(s.links, s.inside, s.sources, s.path[key], key);
    }
  }

  lemma QueuedIsReached(s: Search, i: nat)
    requires Found(s) && i < |s.queue|
    ensures s.queue[i] in s.path
  {
  }

  // ----- owners -----

  ghost predicate UniqueKeys(nodes: seq<Node>) {
    forall i, j :: 0 <= i < j < |nodes| ==> nodes[i].key != nodes[j].key
  }

  /** One vote for the holder of each of the group's machines that a designation lists. */
  function MachineVotes(list: seq<Designation>, machineIds: seq<string>): seq<Vote> {
    if machineIds == [] then []
    else
      var n := |machineIds| - 1;
      var holder := HolderOf(list, machineIds[n]);
      MachineVotes(list, machineIds[..n]) + if holder.Some? then [Vote(holder.value, 1)] else []
  }

  /** Which of these machines the designation holds. */
  ghost function HeldBy(list: seq<Designation>, machineIds: seq<string>, id: string): set<nat> {
    set i: nat | i < |machineIds| && HolderOf(list, machineIds[i]) == Some(id)
  }

  /** Some `a` among the picks comes before every `b`. */
  ghost predicate Precedes(picks: seq<Option<string>>, a: string, b: string) {
    exists i :: 0 <= i < |picks| && picks[i] == Some(a) && Some(b) !in picks[..i + 1]
  }

  lemma PickAdded(picks: seq<Option<string>>, x: Option<string>, a: string, b: string)
    ensures Precedes(picks + [x], a, b) <==> Precedes(picks, a, b) || (x == Some(a) && a != b && Some(b) !in picks)
  {
    var r, n := picks + [x], |picks|;
    if Precedes(picks, a, b) {
      var i :| 0 <= i < n && picks[i] == Some(a) && Some(b) !in picks[..i + 1];
      assert r[i] == picks[i] && r[..i + 1] == picks[..i + 1];
    }
    if x == Some(a) && a != b && Some(b) !in picks {
      assert r[n] == Some(a) && r[..n + 1] == r;
    }
    if Precedes(r, a, b) {
      var i :| 0 <= i < |r| && r[i] == Some(a) && Some(b) !in r[..i + 1];
      if i < n {
        assert r[..i + 1] == picks[..i + 1] && picks[i] == Some(a);
      } else {
        assert r[..i + 1] == r;
      }
    }
  }

  /** Who holds each of the machines. */
  ghost function HoldersOf(list: seq<Designation>, machineIds: seq<string>): seq<Option<string>> {
    seq(|machineIds|, i requires 0 <= i < |machineIds| => HolderOf(list, machineIds[i]))
  }

  /** A machine of `a` comes before every machine of `b`. */
  ghost predicate HeldFirst(list: seq<Designation>, machineIds: seq<string>, a: string, b: string) {
    Precedes(HoldersOf(list, machineIds), a, b)
  }

  /** No other designation holds more of these machines, nor as many with one before the first of this one. */
  ghost predicate HoldsMost(list: seq<Designation>, machineIds: seq<string>, id: string) {
    && HeldBy(list, machineIds, id) != {}
    && forall other :: other != id && HeldBy(list, machineIds, other) != {} ==>
         || |HeldBy(list, machineIds, other)| < |HeldBy(list, machineIds, id)|
         || (|HeldBy(list, machineIds, other)| == |HeldBy(list, machineIds, id)| && HeldFirst(list, machineIds, id, other))
  }

  /** The votes as picks of their keys. */
  ghost function KeysVoted(votes: seq<Vote>): seq<Option<string>> {
    seq(|votes|, i requires 0 <= i < |votes| => Some(votes[i].key))
  }

  lemma BeforePrecedes(votes: seq<Vote>, a: string, b: string)
    ensures Before(votes, a, b) <==> Precedes(KeysVoted(votes), a, b)
    ensures Voted(votes, a) <==> Some(a) in KeysVoted(votes)
  {
    var picks := KeysVoted(votes);
    if Before(votes, a, b) {
      var i :| 0 <= i < |votes| && votes[i].key == a && forall j :: 0 <= j <= i ==> votes[j].key != b;
      assert picks[i] == Some(a) && Some(b) !in picks[..i + 1];
    }
    if Precedes(picks, a, b) {
      var i :| 0 <= i < |picks| && picks[i] == Some(a) && Some(b) !in picks[..i + 1];
      forall j | 0 <= j <= i ensures votes[j].key != b { assert picks[..i + 1][j] == Some(votes[j].key); }
    }
    if Voted(votes, a) {
      var i :| 0 <= i < |votes| && votes[i].key == a;
      assert picks[i] == Some(a);
    }
  }

  lemma VoteAdded(votes: seq<Vote>, v: Vote, a: string, b: string)
    ensures Weight(votes + [v], a) == Weight(votes, a) + if v.key == a then v.weight else 0
    ensures Voted(votes + [v], a) <==> Voted(votes, a) || v.key == a
    ensures Before(votes + [v], a, b) <==> Before(votes, a, b) || (v.key == a && a != b && !Voted(votes, b))
  {
    assert (votes + [v])[..|votes|] == votes;
    assert KeysVoted(votes + [v]) == KeysVoted(votes) + [Some(v.key)];
    hide Before, Voted, KeysVoted, Precedes;
    BeforePrecedes(votes, a, b);
    BeforePrecedes(votes, b, a);
    BeforePrecedes(votes + [v], a, b);
    PickAdded(KeysVoted(votes), Some(v.key), a, b);
  }

  lemma HeldIsPicked(list: seq<Designation>, machineIds: seq<string>, id: string)
    ensures HeldBy(list, machineIds, id) != {} <==> Some(id) in HoldersOf(list, machineIds)
  {
    hide HolderOf;
    var holders := HoldersOf(list, machineIds);
    assert (forall i :: i !in HeldBy(list, machineIds, id)) ==> HeldBy(list, machineIds, id) == {};
    forall i | i in HeldBy(list, machineIds, id) ensures Some(id) in holders { assert holders[i] == Some(id); }
    if Some(id) in holders {
      var i :| 0 <= i < |machineIds| && holders[i] == Some(id);
      assert i in HeldBy(list, machineIds, id);
    }
  }

  lemma MachineAdded(list: seq<Designation>, machineIds: seq<string>, m: string, a: string, b: string)
    ensures var held := HolderOf(list, m) == Some(a);
            && HeldBy(list, machineIds + [m], a) == HeldBy(list, machineIds, a) + (if held then {|machineIds|} else {})
            && (HeldFirst(list, machineIds + [m], a, b) <==>
                  HeldFirst(list, machineIds, a, b) || (held && a != b && HeldBy(list, machineIds, b) == {}))
  {
    hide HolderOf, Precedes;
    HeldIsPicked(list, machineIds, b);
    assert HoldersOf(list, machineIds + [m]) == HoldersOf(list, machineIds) + [HolderOf(list, m)];
    PickAdded(HoldersOf(list, machineIds), HolderOf(list, m), a, b);
  }

  /** The votes for `a` count the machines it holds, and come before those for `b` when its machines do. */
  ghost predicate VotesCount(votes: seq<Vote>, list: seq<Designation>, machineIds: seq<string>, a: string, b: string) {
    && Weight(votes, a) == |HeldBy(list, machineIds, a)|
    && (Voted(votes, a) <==> HeldBy(list, machineIds, a) != {})
    && (Voted(votes, b) <==> HeldBy(list, machineIds, b) != {})
    && (Before(votes, a, b) <==> HeldFirst(list, machineIds, a, b))
  }

  lemma CountOneMore(votes: seq<Vote>, list: seq<Designation>, machineIds: seq<string>, m: string, a: string, b: string)
    requires VotesCount(votes, list, machineIds, a, b)
    ensures var holder := HolderOf(list, m);
            VotesCount(votes + (if holder.Some? then [Vote(holder.value, 1)] else []), list, machineIds + [m], a, b)
  {
    MachineAdded(list, machineIds, m, a, b);
    MachineAdded(list, machineIds, m, b, a);
    InRange(list, machineIds, a);
    var holder := HolderOf(list, m);
    hide HolderOf, Weight, Voted, Before, HeldFirst, HeldBy;
    if holder.Some? {
      VoteAdded(votes, Vote(holder.value, 1), a, b);
      VoteAdded(votes, Vote(holder.value, 1), b, a);
    } else {
      assert votes + [] == votes;
    }
  }

  /** The votes for a designation are the machines it holds, in the same order. */
  lemma {:induction false} VotesAreHeld(list: seq<Designation>, machineIds: seq<string>, a: string, b: string)
    ensures VotesCount(MachineVotes(list, machineIds), list, machineIds, a, b)
  {
    if machineIds == [] {
      assert HeldBy(list, [], a) == {} && HeldBy(list, [], b) == {};
    } else {
      hide HolderOf, VotesCount;
      var n := |machineIds| - 1;
      assert machineIds == machineIds[..n] + [machineIds[n]];
      VotesAreHeld(list, machineIds[..n], a, b);
      CountOneMore(MachineVotes(list, machineIds[..n]), list, machineIds[..n], machineIds[n], a, b);
    }
  }

  lemma InRange(list: seq<Designation>, machineIds: seq<string>, id: string)
    ensures |machineIds| !in HeldBy(list, machineIds, id)
  {
  }

  lemma NobodyVotes(votes: seq<Vote>)
    ensures votes == [] <==> forall key :: !Voted(votes, key)
  {
    if votes != [] { assert Voted(votes, votes[0].key); }
  }

  lemma WinnerHoldsMost(list: seq<Designation>, machineIds: seq<string>, id: string)
    requires Wins(MachineVotes(list, machineIds), id)
    ensures HoldsMost(list, machineIds, id)
  {
    hide MachineVotes, HeldBy, HeldFirst, Weight, Voted, Before;
    var votes := MachineVotes(list, machineIds);
    VotesAreHeld(list, machineIds, id, id);
    forall other | other != id && HeldBy(list, machineIds, other) != {}
      ensures || |HeldBy(list, machineIds, other)| < |HeldBy(list, machineIds, id)|
              || (|HeldBy(list, machineIds, other)| == |HeldBy(list, machineIds, id)| && HeldFirst(list, machineIds, id, other))
    {
      VotesAreHeld(list, machineIds, id, other);
      VotesAreHeld(list, machineIds, other, id);
    }
  }

  /** None of the machines is held by a designation. */
  ghost predicate Undesignated(list: seq<Designation>, machineIds: seq<string>) {
    forall i :: 0 <= i < |machineIds| ==> HolderOf(list, machineIds[i]).None?
  }

  lemma NoVotesMeansUndesignated(list: seq<Designation>, machineIds: seq<string>)
    ensures MachineVotes(list, machineIds) == [] <==> Undesignated(list, machineIds)
  {
    hide MachineVotes, HolderOf, Voted;
    var votes := MachineVotes(list, machineIds);
    NobodyVotes(votes);
    if votes == [] {
      forall i, id | 0 <= i < |machineIds| ensures HolderOf(list, machineIds[i]) != Some(id) {
        VotesAreHeld(list, machineIds, id, id);
        assert i !in HeldBy(list, machineIds, id);
      }
    } else {
      var id :| Voted(votes, id);
      VotesAreHeld(list, machineIds, id, id);
      assert (forall i :: i !in HeldBy(list, machineIds, id)) ==> HeldBy(list, machineIds, id) == {};
    }
  }

  /** The first factory that lists the group, none exactly when none does. */
  ghost predicate ListedFirst(factories: seq<Factory>, nodeKey: string, o: Option<string>) {
    if o.None? then forall f :: f in factories ==> nodeKey !in f.nodeKeys
    else
      exists i :: 0 <= i < |factories| && factories[i].key == o.value && nodeKey in factories[i].nodeKeys
                  && forall j :: 0 <= j < i ==> nodeKey !in factories[j].nodeKeys
  }

  lemma ListedLater(factories: seq<Factory>, nodeKey: string, o: Option<string>)
    requires factories != [] && nodeKey !in factories[0].nodeKeys && ListedFirst(factories[1..], nodeKey, o)
    ensures ListedFirst(factories, nodeKey, o)
  {
    var rest := factories[1..];
    if o.Some? {
      var i :| 0 <= i < |rest| && rest[i].key == o.value && nodeKey in rest[i].nodeKeys
               && forall j :: 0 <= j < i ==> nodeKey !in rest[j].nodeKeys;
      assert rest[i] == factories[i + 1];
      forall j | 0 <= j < i + 1 ensures nodeKey !in factories[j].nodeKeys {
        if j > 0 { assert factories[j] == rest[j - 1]; }
      }
    }
  }

  function FirstListing(factories: seq<Factory>, nodeKey: string): (r: Option<string>)
    ensures ListedFirst(factories, nodeKey, r)
  {
    if factories == [] then None
    else if nodeKey in factories[0].nodeKeys then Some(factories[0].key)
    else
      ListedLater(factories, nodeKey, FirstListing(factories[1..], nodeKey));
      FirstListing(factories[1..], nodeKey)
  }

  /** The factory the graph has the group in. */
  function Fallback(g: Graph, n: Node): (o: Option<string>)
    ensures GraphOwner(g, n, o)
  {
    if n.factoryKey.Some? then n.factoryKey else FirstListing(g.factories, n.key)
  }

  /** The factory the group names, else the first that lists it. */
  ghost predicate GraphOwner(g: Graph, n: Node, o: Option<string>) {
    if n.factoryKey.Some? then o == n.factoryKey else ListedFirst(g.factories, n.key, o)
  }

  /** The designation holding most of the group's machines, else the factory the graph has it in, if any. */
  ghost predicate MajorityOwner(list: seq<Designation>, g: Graph, n: Node, o: Option<string>) {
    if Undesignated(list, n.machineIds) then GraphOwner(g, n, o)
    else o.Some? && exists d :: HoldsMost(list, n.machineIds, d) && o.value == DesignatedKey(d)
  }

  lemma OneHolder(list: seq<Designation>, machineIds: seq<string>, a: string, b: string)
    requires HoldsMost(list, machineIds, a) && HoldsMost(list, machineIds, b)
    ensures a == b
  {
    hide HeldBy, HolderOf;
  }

  /** There is only one such owner. */
  lemma OneMajorityOwner(list: seq<Designation>, g: Graph, n: Node, a: Option<string>, b: Option<string>)
    requires MajorityOwner(list, g, n, a) && MajorityOwner(list, g, n, b)
    ensures a == b
  {
    hide HoldsMost, DesignatedKey, HolderOf;
    if !Undesignated(list, n.machineIds) {
      var d :| HoldsMost(list, n.machineIds, d) && a.value == DesignatedKey(d);
      var e :| HoldsMost(list, n.machineIds, e) && b.value == DesignatedKey(e);
      OneHolder(list, n.machineIds, d, e);
    } else if n.factoryKey.None? {
      OneListing(g.factories, n.key, a, b);
    }
  }

  lemma OneListing(factories: seq<Factory>, nodeKey: string, a: Option<string>, b: Option<string>)
    requires ListedFirst(factories, nodeKey, a) && ListedFirst(factories, nodeKey, b)
    ensures a == b
  {
  }

  method VotesOf(holder: map<string, string>, machineIds: seq<string>, ghost list: seq<Designation>)
    returns (votes: seq<Vote>)
    requires forall b :: Get(holder, b) == HolderOf(list, b)
    ensures votes == MachineVotes(list, machineIds)
  {
    votes := [];
    for i := 0 to |machineIds|
      invariant votes == MachineVotes(list, machineIds[..i])
    {
      assert machineIds[..i + 1][..i] == machineIds[..i];
      assert Get(holder, machineIds[i]) == HolderOf(list, machineIds[i]);
      if machineIds[i] in holder { votes := votes + [Vote(holder[machineIds[i]], 1)]; }
    }
    assert machineIds[..|machineIds|] == machineIds;
  }

  method MajorityOwners(list: seq<Designation>, g: Graph) returns (owner: map<string, string>)
    requires UniqueKeys(g.nodes)
    ensures forall n :: n in g.nodes ==> MajorityOwner(list, g, n, Get(owner, n.key))
  {
    hide MachineVotes, Wins, Fallback, GraphOwner, HoldsMost, Undesignated;
    var holder := Holders(list);
    owner := map[];
    for i := 0 to |g.nodes|
      invariant forall j :: 0 <= j < i ==> MajorityOwner(list, g, g.nodes[j], Get(owner, g.nodes[j].key))
      invariant forall j :: i <= j < |g.nodes| ==> g.nodes[j].key !in owner
    {
      var n := g.nodes[i];
      var votes := VotesOf(holder, n.machineIds, list);
      var best := Winner(votes);
      var fallback := Fallback(g, n);
      NoVotesMeansUndesignated(list, n.machineIds);
      if best.Some? { WinnerHoldsMost(list, n.machineIds, best.value); }
      if best.Some? { owner := owner[n.key := DesignatedKey(best.value)]; }
      else if fallback.Some? { owner := owner[n.key := fallback.value]; }
      assert MajorityOwner(list, g, n, Get(owner, n.key));
    }
  }

  // ----- following the placed groups -----

  predicate IsPlaced(placed: set<string>, n: Node) {
    exists id :: id in n.machineIds && id in placed
  }

  /** The node is a placed group of the factory. */
  predicate Stands(placed: set<string>, factory: string, n: Node) {
    n.factoryKey == Some(factory) && IsPlaced(placed, n)
  }

  function Mine(nodes: seq<Node>, factory: string): (r: seq<Node>)
    ensures forall n :: n in r <==> n in nodes && n.factoryKey == Some(factory)
  {
    if nodes == [] then []
    else
      var m := |nodes| - 1;
      assert nodes == nodes[..m] + [nodes[m]];
      Mine(nodes[..m], factory) + if nodes[m].factoryKey == Some(factory) then [nodes[m]] else []
  }

  function PlacedOf(nodes: seq<Node>, placed: set<string>): (r: seq<Node>)
    ensures forall n :: n in r <==> n in nodes && IsPlaced(placed, n)
  {
    if nodes == [] then []
    else
      var m := |nodes| - 1;
      assert nodes == nodes[..m] + [nodes[m]];
      PlacedOf(nodes[..m], placed) + if IsPlaced(placed, nodes[m]) then [nodes[m]] else []
  }

  function Keys(nodes: seq<Node>): (r: seq<string>)
    ensures |r| == |nodes| && forall i :: 0 <= i < |r| ==> r[i] == nodes[i].key
    ensures forall k :: k in r <==> exists n :: n in nodes && n.key == k
  {
    var r := seq(|nodes|, i requires 0 <= i < |nodes| => nodes[i].key);
    assert forall i :: 0 <= i < |nodes| ==> nodes[i] in nodes && r[i] == nodes[i].key;
    r
  }

  function OwnerVotes(nodes: seq<Node>, owner: map<string, string>): (r: seq<Vote>)
    requires forall n :: n in nodes ==> n.key in owner
    ensures |r| == |nodes| && forall i :: 0 <= i < |r| ==> r[i] == Vote(owner[nodes[i].key], nodes[i].count)
  {
    seq(|nodes|, i requires 0 <= i < |nodes| => assert nodes[i] in nodes; Vote(owner[nodes[i].key], nodes[i].count))
  }

  /** The keys of the factory's placed groups. */
  ghost function StandingKeys(g: Graph, placed: set<string>, factory: string): set<string> {
    set n | n in g.nodes && Stands(placed, factory, n) :: n.key
  }

  /** The keys of the factory's groups. */
  ghost function Inside(g: Graph, factory: string): set<string> {
    set n | n in g.nodes && n.factoryKey == Some(factory) :: n.key
  }

  /** The node is a placed group of the factory that went to `o`. */
  ghost predicate WentTo(placed: set<string>, factory: string, owner: map<string, string>, n: Node, o: string) {
    Stands(placed, factory, n) && Get(owner, n.key) == Some(o)
  }

  /** How many groups of the factory, counted as often as each node says, went to `o`. */
  ghost function GroupsAt(nodes: seq<Node>, placed: set<string>, factory: string, owner: map<string, string>, o: string): nat {
    if nodes == [] then 0
    else
      var m := |nodes| - 1;
      GroupsAt(nodes[..m], placed, factory, owner, o) + if WentTo(placed, factory, owner, nodes[m], o) then nodes[m].count else 0
  }

  /** Where each placed group of the factory went. */
  ghost function Gone(nodes: seq<Node>, placed: set<string>, factory: string, owner: map<string, string>): seq<Option<string>> {
    seq(|nodes|, i requires 0 <= i < |nodes| => if Stands(placed, factory, nodes[i]) then Get(owner, nodes[i].key) else None)
  }

  /** Some placed group of the factory went to `o`. */
  ghost predicate HasGroups(nodes: seq<Node>, placed: set<string>, factory: string, owner: map<string, string>, o: string) {
    Some(o) in Gone(nodes, placed, factory, owner)
  }

  /** A group that went to `a` comes before every group that went to `b`. */
  ghost predicate WentFirst(
      nodes: seq<Node>, placed: set<string>, factory: string, owner: map<string, string>, a: string, b: string)
  {
    Precedes(Gone(nodes, placed, factory, owner), a, b)
  }

  /** No other owner got more of the factory's placed groups, nor as many with one before the first of this one. */
  ghost predicate GotMost(nodes: seq<Node>, placed: set<string>, factory: string, owner: map<string, string>, o: string) {
    && HasGroups(nodes, placed, factory, owner, o)
    && forall other :: other != o && HasGroups(nodes, placed, factory, owner, other) ==>
         var mine, others := GroupsAt(nodes, placed, factory, owner, o), GroupsAt(nodes, placed, factory, owner, other);
         others < mine || (others == mine && WentFirst(nodes, placed, factory, owner, o, other))
  }

  lemma WentAdded(
      nodes: seq<Node>, n: Node, placed: set<string>, factory: string, owner: map<string, string>, a: string, b: string)
    ensures var went := WentTo(placed, factory, owner, n, a);
            && (HasGroups(nodes + [n], placed, factory, owner, a) <==> HasGroups(nodes, placed, factory, owner, a) || went)
            && (WentFirst(nodes + [n], placed, factory, owner, a, b) <==>
                  || WentFirst(nodes, placed, factory, owner, a, b)
                  || (went && a != b && !HasGroups(nodes, placed, factory, owner, b)))
  {
    hide Stands, Precedes;
    var last := if Stands(placed, factory, n) then Get(owner, n.key) else None;
    assert Gone(nodes + [n], placed, factory, owner) == Gone(nodes, placed, factory, owner) + [last];
    PickAdded(Gone(nodes, placed, factory, owner), last, a, b);
  }

  /** The votes for `a` count the groups that went to it, and come before those for `b` when its groups do. */
  ghost predicate GroupsCount(
      votes: seq<Vote>, nodes: seq<Node>, placed: set<string>, factory: string, owner: map<string, string>, a: string, b: string)
  {
    && Weight(votes, a) == GroupsAt(nodes, placed, factory, owner, a)
    && (Voted(votes, a) <==> HasGroups(nodes, placed, factory, owner, a))
    && (Voted(votes, b) <==> HasGroups(nodes, placed, factory, owner, b))
    && (Before(votes, a, b) <==> WentFirst(nodes, placed, factory, owner, a, b))
  }

  lemma CountOneGroup(
      votes: seq<Vote>, nodes: seq<Node>, n: Node, placed: set<string>, factory: string, owner: map<string, string>,
      a: string, b: string)
    requires GroupsCount(votes, nodes, placed, factory, owner, a, b)
    requires Stands(placed, factory, n) ==> n.key in owner
    ensures GroupsCount(
              votes + (if Stands(placed, factory, n) then [Vote(owner[n.key], n.count)] else []), nodes + [n], placed, factory,
              owner, a, b)
  {
    WentAdded(nodes, n, placed, factory, owner, a, b);
    WentAdded(nodes, n, placed, factory, owner, b, a);
    hide Stands, Weight, Voted, Before, WentFirst, HasGroups;
    assert (nodes + [n])[..|nodes|] == nodes;
    if Stands(placed, factory, n) {
      VoteAdded(votes, Vote(owner[n.key], n.count), a, b);
      VoteAdded(votes, Vote(owner[n.key], n.count), b, a);
    } else {
      assert votes + [] == votes;
    }
  }

  lemma LastVote(before: seq<Node>, n: Node, placed: set<string>, factory: string, owner: map<string, string>)
    requires forall k :: k in before + [n] && k.factoryKey == Some(factory) ==> k.key in owner
    ensures OwnerVotes(PlacedOf(Mine(before + [n], factory), placed), owner) ==
            OwnerVotes(PlacedOf(Mine(before, factory), placed), owner)
              + (if Stands(placed, factory, n) then [Vote(owner[n.key], n.count)] else [])
  {
    hide IsPlaced;
    var mine, nodes := Mine(before, factory), before + [n];
    assert nodes[..|before|] == before;
    assert Mine(nodes, factory) == mine + if n.factoryKey == Some(factory) then [n] else [];
    if n.factoryKey == Some(factory) {
      assert (mine + [n])[..|mine|] == mine;
    } else {
      assert mine + [] == mine;
    }
  }

  /** The votes of the factory's placed groups are the groups that went to each owner, in the same order. */
  lemma {:induction false} VotesAreGroups(
      nodes: seq<Node>, placed: set<string>, factory: string, owner: map<string, string>, a: string, b: string)
    requires forall n :: n in nodes && n.factoryKey == Some(factory) ==> n.key in owner
    ensures GroupsCount(
              OwnerVotes(PlacedOf(Mine(nodes, factory), placed), owner), nodes, placed, factory, owner, a, b)
  {
    if nodes != [] {
      hide GroupsCount, IsPlaced;
      var m := |nodes| - 1;
      var n := nodes[m];
      assert nodes == nodes[..m] + [n];
      VotesAreGroups(nodes[..m], placed, factory, owner, a, b);
      LastVote(nodes[..m], n, placed, factory, owner);
      hide Mine, PlacedOf, OwnerVotes;
      CountOneGroup(
        OwnerVotes(PlacedOf(Mine(nodes[..m], factory), placed), owner), nodes[..m], n, placed, factory, owner, a, b);
    }
  }

  lemma WinnerGotMost(nodes: seq<Node>, placed: set<string>, factory: string, owner: map<string, string>, o: string)
    requires forall n :: n in nodes && n.factoryKey == Some(factory) ==> n.key in owner
    requires Wins(OwnerVotes(PlacedOf(Mine(nodes, factory), placed), owner), o)
    ensures GotMost(nodes, placed, factory, owner, o)
  {
    hide Mine, PlacedOf, OwnerVotes, GroupsAt, HasGroups, WentFirst, Weight, Voted, Before;
    VotesAreGroups(nodes, placed, factory, owner, o, o);
    forall other | other != o && HasGroups(nodes, placed, factory, owner, other)
      ensures var mine, others := GroupsAt(nodes, placed, factory, owner, o), GroupsAt(nodes, placed, factory, owner, other);
              others < mine || (others == mine && WentFirst(nodes, placed, factory, owner, o, other))
    {
      VotesAreGroups(nodes, placed, factory, owner, o, other);
      VotesAreGroups(nodes, placed, factory, owner, other, o);
    }
  }

  /** Every group of a factory has an owner, as each of them names that factory. */
  ghost predicate Owned(g: Graph, factory: string, owner: map<string, string>) {
    forall n :: n in g.nodes && n.factoryKey == Some(factory) ==> n.key in owner
  }

  /** The factory has placed groups, and all of them have gone to other owners. */
  ghost predicate AllGone(g: Graph, placed: set<string>, factory: string, owner: map<string, string>) {
    && (exists n :: n in g.nodes && Stands(placed, factory, n))
    && forall n :: n in g.nodes && Stands(placed, factory, n) ==> Get(owner, n.key) != Some(factory)
  }

  /** The owner of a placed group at minimum hop distance inside the factory, or who got most when none is reachable. */
  ghost predicate Follows(
      g: Graph, placed: set<string>, factory: string, owner: map<string, string>, key: string, o: string)
  {
    || Nearest(g.links, Inside(g, factory), StandingKeys(g, placed, factory), owner, key, Some(o))
    || (&& Nearest(g.links, Inside(g, factory), StandingKeys(g, placed, factory), owner, key, None)
        && GotMost(g.nodes, placed, factory, owner, o))
  }

  lemma FollowsFrom(
      g: Graph, placed: set<string>, factory: string, owner: map<string, string>, key: string, o: Option<string>, target: string)
    requires Nearest(g.links, Inside(g, factory), StandingKeys(g, placed, factory), owner, key, o)
    requires GotMost(g.nodes, placed, factory, owner, target)
    ensures Follows(g, placed, factory, owner, key, if o.Some? then o.value else target)
  {
    hide Nearest, GotMost;
  }

  lemma {:induction false} MineUnique(nodes: seq<Node>, factory: string)
    requires UniqueKeys(nodes)
    ensures UniqueKeys(Mine(nodes, factory))
  {
    if nodes != [] {
      var m := |nodes| - 1;
      MineUnique(nodes[..m], factory);
      forall n | n in Mine(nodes[..m], factory) ensures n.key != nodes[m].key {
        assert n in nodes[..m];
      }
    }
  }

  lemma {:induction false} PlacedUnique(nodes: seq<Node>, placed: set<string>)
    requires UniqueKeys(nodes)
    ensures UniqueKeys(PlacedOf(nodes, placed))
  {
    if nodes != [] {
      hide IsPlaced;
      var m := |nodes| - 1;
      PlacedUnique(nodes[..m], placed);
      forall n | n in PlacedOf(nodes[..m], placed) ensures n.key != nodes[m].key {
        assert n in nodes[..m];
      }
    }
  }

  /** The keys as the loop has them. */
  lemma TheKeys(g: Graph, placed: set<string>, factory: string)
    ensures (set k | k in Keys(PlacedOf(Mine(g.nodes, factory), placed))) == StandingKeys(g, placed, factory)
    ensures (set k | k in Keys(Mine(g.nodes, factory))) == Inside(g, factory)
  {
    hide IsPlaced;
  }

  /** What one factory's turn makes of a group. */
  ghost predicate Turned(
      g: Graph, placed: set<string>, factory: string, first: map<string, string>,
      before: map<string, string>, after: map<string, string>, n: Node)
  {
    if n.factoryKey == Some(factory) && !IsPlaced(placed, n) && AllGone(g, placed, factory, first) then
      n.key in after && Follows(g, placed, factory, first, n.key, after[n.key])
    else Get(after, n.key) == Get(before, n.key)
  }

  /** The groups of the factory still have the owner they began with. */
  ghost predicate Untouched(g: Graph, factory: string, first: map<string, string>, owner: map<string, string>) {
    forall n :: n in g.nodes && n.factoryKey == Some(factory) ==> Get(owner, n.key) == Get(first, n.key)
  }

  ghost predicate Strays(nodes: seq<Node>, placed: set<string>, key: string) {
    exists n :: n in nodes && n.key == key && !IsPlaced(placed, n)
  }

  method Reassign(
      mine: seq<Node>, placed: set<string>, before: map<string, string>, reached: map<string, string>, target: string)
    returns (owner: map<string, string>)
    ensures forall key ::
              Get(owner, key) == (if Strays(mine, placed, key) then Some(if key in reached then reached[key] else target)
                                  else Get(before, key))
  {
    hide IsPlaced;
    owner := before;
    for i := 0 to |mine|
      invariant forall key ::
                  Get(owner, key) == (if Strays(mine[..i], placed, key) then Some(if key in reached then reached[key] else target)
                                      else Get(before, key))
    {
      var n := mine[i];
      assert mine[..i + 1] == mine[..i] + [n];
      forall key ensures Strays(mine[..i + 1], placed, key) <==>
                         Strays(mine[..i], placed, key) || (key == n.key && !IsPlaced(placed, n))
      {
        if m :| m in mine[..i] && m.key == key && !IsPlaced(placed, m) { assert m in mine[..i + 1]; }
      }
      if !IsPlaced(placed, n) { owner := owner[n.key := if n.key in reached then reached[n.key] else target]; }
    }
    assert mine[..|mine|] == mine;
  }

  /** A group of the factory whose placed groups have all gone is reassigned as it should be. */
  lemma TurnedNode(
      g: Graph, placed: set<string>, factory: string, first: map<string, string>, before: map<string, string>,
      reached: map<string, string>, target: string, owner: map<string, string>, n: Node)
    requires UniqueKeys(g.nodes) && n in g.nodes && AllGone(g, placed, factory, first)
    requires Nearest(g.links, Inside(g, factory), StandingKeys(g, placed, factory), first, n.key, Get(reached, n.key))
    requires GotMost(g.nodes, placed, factory, first, target)
    requires Get(owner, n.key) ==
             if Strays(Mine(g.nodes, factory), placed, n.key) then Some(if n.key in reached then reached[n.key] else target)
             else Get(before, n.key)
    ensures Turned(g, placed, factory, first, before, owner, n)
  {
    FollowsFrom(g, placed, factory, first, n.key, Get(reached, n.key), target);
    StrayNode(g.nodes, placed, factory, n);
    hide IsPlaced, Nearest, GotMost, Follows, Strays, Mine, StandingKeys, Inside, AllGone, UniqueKeys;
  }

  method FollowPlaced(
      g: Graph, placed: set<string>, factory: string, before: map<string, string>,
      neighbours: map<string, seq<string>>, ghost first: map<string, string>) returns (owner: map<string, string>)
    requires UniqueKeys(g.nodes) && Owned(g, factory, first) && Untouched(g, factory, first, before)
    requires forall key :: Listed(neighbours, key) == LinksOf(g.links, key)
    ensures forall n :: n in g.nodes ==> Turned(g, placed, factory, first, before, owner, n)
  {
    hide IsPlaced, Nearest, Wins, LinksOf, Follows, Mine, PlacedOf, GotMost, StandingKeys, Inside;
    owner := before;
    var mine := Mine(g.nodes, factory);
    var standing := PlacedOf(mine, placed);
    forall n | n in mine ensures Get(before, n.key) == Get(first, n.key) && n.key in before {
    }
    if standing == [] || exists n :: n in standing && Get(before, n.key) == Some(factory) {
      NotGone(g, placed, factory, first, standing);
      return;
    }
    assert standing[0] in standing;
    var votes := OwnerVotes(standing, before);
    assert votes == OwnerVotes(standing, first);
    var target := Winner(votes);
    WinnerGotMost(g.nodes, placed, factory, first, target.value);
    MineUnique(g.nodes, factory);
    PlacedUnique(mine, placed);
    var inFactory := set k | k in Keys(mine);
    TheKeys(g, placed, factory);
    var reached := Spread(neighbours, inFactory, Keys(standing), before, g.links);
    owner := Reassign(mine, placed, before, reached, target.value);
    forall n | n in g.nodes ensures Turned(g, placed, factory, first, before, owner, n) {
      SameNearest(g.links, inFactory, StandingKeys(g, placed, factory), before, first, n.key, Get(reached, n.key));
      TurnedNode(g, placed, factory, first, before, reached, target.value, owner, n);
    }
  }

  lemma NotGone(g: Graph, placed: set<string>, factory: string, owner: map<string, string>, standing: seq<Node>)
    requires forall n :: n in standing <==> n in g.nodes && Stands(placed, factory, n)
    requires standing == [] || exists n :: n in standing && Get(owner, n.key) == Some(factory)
    ensures !AllGone(g, placed, factory, owner)
  {
    hide Stands;
  }

  /** Distances and owners of the placed groups are all that matters. */
  lemma SameNearest(
      links: seq<Link>, inside: set<string>, standing: set<string>, before: map<string, string>, first: map<string, string>,
      key: string, o: Option<string>)
    requires Nearest(links, inside, standing, before, key, o)
    requires forall k :: k in standing ==> Get(before, k) == Get(first, k)
    ensures Nearest(links, inside, standing, first, key, o)
  {
    hide Joined;
    if o.Some? {
      var p :| IsPath(links, inside, standing, p, key) && Get(before, p[0]) == o
               && forall q :: IsPath(links, inside, standing, q, key) ==> |p| <= |q|;
      assert Get(first, p[0]) == o;
    }
  }

  lemma StrayNode(nodes: seq<Node>, placed: set<string>, factory: string, n: Node)
    requires UniqueKeys(nodes) && n in nodes
    ensures Strays(Mine(nodes, factory), placed, n.key) <==> n.factoryKey == Some(factory) && !IsPlaced(placed, n)
  {
    hide IsPlaced;
    if m :| m in Mine(nodes, factory) && m.key == n.key && !IsPlaced(placed, m) {
      if m != n { OnlyOne(nodes, m, n); }
    }
  }

  lemma OnlyOne(nodes: seq<Node>, a: Node, b: Node)
    requires UniqueKeys(nodes) && a in nodes && b in nodes && a != b
    ensures a.key != b.key
  {
  }

  ghost predicate UniqueFactories(factories: seq<Factory>) {
    forall i, j :: 0 <= i < j < |factories| ==> factories[i].key != factories[j].key
  }

  ghost predicate IsBase(g: Graph, key: string, turns: nat) {
    exists i :: 0 <= i < |g.factories| && i < turns && g.factories[i].key == key
  }

  /** What the first `turns` factories' turns make of a group. */
  ghost predicate Settled(
      g: Graph, placed: set<string>, first: map<string, string>, owner: map<string, string>, n: Node, turns: nat)
  {
    if n.factoryKey.Some? && IsBase(g, n.factoryKey.value, turns) && !IsPlaced(placed, n)
       && AllGone(g, placed, n.factoryKey.value, first)
    then n.key in owner && Follows(g, placed, n.factoryKey.value, first, n.key, owner[n.key])
    else Get(owner, n.key) == Get(first, n.key)
  }

  lemma MajorityOwned(list: seq<Designation>, g: Graph, first: map<string, string>, f: string)
    requires forall n :: n in g.nodes ==> MajorityOwner(list, g, n, Get(first, n.key))
    ensures Owned(g, f, first)
  {
    hide HoldsMost, HolderOf;
    forall n | n in g.nodes && n.factoryKey == Some(f) ensures n.key in first {
      assert MajorityOwner(list, g, n, Get(first, n.key));
    }
  }

  lemma NextTurn(
      g: Graph, placed: set<string>, first: map<string, string>, before: map<string, string>, owner: map<string, string>,
      n: Node, i: nat)
    requires (forall f :: Owned(g, f, first)) && i < |g.factories| && UniqueFactories(g.factories)
    requires Settled(g, placed, first, before, n, i) && Turned(g, placed, g.factories[i].key, first, before, owner, n)
    ensures Settled(g, placed, first, owner, n, i + 1)
  {
    hide IsPlaced, Follows, AllGone;
    if n.factoryKey.Some? && IsBase(g, n.factoryKey.value, i) {
      assert n.factoryKey != Some(g.factories[i].key);
    }
  }

  /**
   * Every group's owner: its majority owner at first, and for an unplaced group of a factory whose placed groups have all
   * gone, the owner of the nearest of them.
   */
  method Owners(list: seq<Designation>, g: Graph, placed: set<string>)
    returns (owner: map<string, string>, first: map<string, string>)
    requires UniqueKeys(g.nodes) && UniqueFactories(g.factories)
    ensures forall n :: n in g.nodes ==> MajorityOwner(list, g, n, Get(first, n.key))
    ensures forall f :: Owned(g, f, first)
    ensures forall n :: n in g.nodes ==> Settled(g, placed, first, owner, n, |g.factories|)
  {
    hide IsPlaced, Follows, AllGone, LinksOf, MajorityOwner;
    owner := MajorityOwners(list, g);
    first := owner;
    forall f ensures Owned(g, f, first) { MajorityOwned(list, g, first, f); }
    var neighbours := BuildLinks(g.links);
    for i := 0 to |g.factories|
      invariant forall n :: n in g.nodes ==> Settled(g, placed, first, owner, n, i)
    {
      ghost var before := owner;
      Unturned(g, placed, first, owner, i);
      owner := FollowPlaced(g, placed, g.factories[i].key, owner, neighbours, first);
      forall n | n in g.nodes ensures Settled(g, placed, first, owner, n, i + 1) {
        NextTurn(g, placed, first, before, owner, n, i);
      }
    }
  }

  lemma Unturned(g: Graph, placed: set<string>, first: map<string, string>, owner: map<string, string>, i: nat)
    requires (forall f :: Owned(g, f, first)) && i < |g.factories| && UniqueFactories(g.factories)
    requires forall n :: n in g.nodes ==> Settled(g, placed, first, owner, n, i)
    ensures Untouched(g, g.factories[i].key, first, owner)
  {
    hide IsPlaced, Follows, AllGone;
    forall n | n in g.nodes && n.factoryKey == Some(g.factories[i].key) ensures Get(owner, n.key) == Get(first, n.key) {
      assert !IsBase(g, n.factoryKey.value, i);
    }
  }

  // ----- the rebuilt factories -----

  function NodesOf(nodes: seq<Node>, owner: map<string, string>, key: string): (r: seq<string>)
    ensures forall k :: k in r <==> exists n :: n in nodes && n.key == k && Get(owner, k) == Some(key)
  {
    if nodes == [] then []
    else if Get(owner, nodes[0].key) == Some(key) then [nodes[0].key] + NodesOf(nodes[1..], owner, key)
    else NodesOf(nodes[1..], owner, key)
  }

  /** The factories of the given keys that own any group, in order. */
  function FactoriesOf(keys: seq<string>, nodes: seq<Node>, owner: map<string, string>): (r: seq<Factory>)
    ensures forall f :: f in r ==> f.key in keys && f.nodeKeys == NodesOf(nodes, owner, f.key) && f.nodeKeys != []
    ensures forall k :: k in keys && NodesOf(nodes, owner, k) != [] ==> Factory(k, NodesOf(nodes, owner, k)) in r
  {
    if keys == [] then []
    else
      var nodeKeys, rest := NodesOf(nodes, owner, keys[0]), FactoriesOf(keys[1..], nodes, owner);
      if nodeKeys == [] then rest else [Factory(keys[0], nodeKeys)] + rest
  }

  function DesignatedKeys(list: seq<Designation>): seq<string> {
    seq(|list|, i requires 0 <= i < |list| => DesignatedKey(list[i].id))
  }

  function BaseKeys(factories: seq<Factory>): seq<string> {
    seq(|factories|, i requires 0 <= i < |factories| => factories[i].key)
  }

  /** Designated factories first, then the automatic ones. */
  function Rebuilt(list: seq<Designation>, g: Graph, owner: map<string, string>): seq<Factory> {
    FactoriesOf(DesignatedKeys(list), g.nodes, owner) + FactoriesOf(BaseKeys(g.factories), g.nodes, owner)
  }

  lemma SameDesignation(a: string, b: string)
    requires DesignatedKey(a) == DesignatedKey(b)
    ensures a == b
  {
    var prefix := "factory|designation|";
    assert a == (prefix + a)[|prefix|..] && b == (prefix + b)[|prefix|..];
  }

  lemma {:induction false} FactoriesDiffer(keys: seq<string>, nodes: seq<Node>, owner: map<string, string>)
    requires DistinctKeys(keys)
    ensures UniqueFactories(FactoriesOf(keys, nodes, owner))
  {
    if keys != [] {
      hide NodesOf;
      FactoriesDiffer(keys[1..], nodes, owner);
      var rest := FactoriesOf(keys[1..], nodes, owner);
      forall f | f in rest ensures f.key != keys[0] {
        assert f.key in keys[1..];
      }
      forall i | 0 <= i < |rest| ensures rest[i].key != keys[0] {
        assert rest[i] in rest;
      }
    }
  }

  lemma JoinedDiffer(x: seq<Factory>, y: seq<Factory>)
    requires UniqueFactories(x) && UniqueFactories(y)
    requires forall f, h :: f in x && h in y ==> f.key != h.key
    ensures UniqueFactories(x + y)
  {
    var r := x + y;
    forall i, j | 0 <= i < j < |r| ensures r[i].key != r[j].key {
      if i < |x| { assert r[i] in x; } else { assert r[i] == y[i - |x|]; }
      if j < |x| { assert r[j] == x[j]; } else { assert r[j] == y[j - |x|] && r[j] in y; }
    }
  }

  lemma {:induction false} NodesOfDistinct(nodes: seq<Node>, owner: map<string, string>, key: string)
    requires UniqueKeys(nodes)
    ensures DistinctKeys(NodesOf(nodes, owner, key))
  {
    if nodes != [] {
      NodesOfDistinct(nodes[1..], owner, key);
      forall k | k in NodesOf(nodes[1..], owner, key) ensures k != nodes[0].key {
        var n :| n in nodes[1..] && n.key == k;
      }
    }
  }

  ghost predicate UniqueIds(list: seq<Designation>) {
    forall i, j :: 0 <= i < j < |list| ==> list[i].id != list[j].id
  }

  /** Base factory keys are distinct, and none is a designation's key. */
  ghost predicate KeysApart(list: seq<Designation>, g: Graph) {
    && UniqueIds(list) && UniqueFactories(g.factories)
    && forall i, j :: 0 <= i < |list| && 0 <= j < |g.factories| ==> DesignatedKey(list[i].id) != g.factories[j].key
  }

  ghost predicate KnownOwner(list: seq<Designation>, g: Graph, o: string) {
    o in DesignatedKeys(list) || o in BaseKeys(g.factories)
  }

  lemma RebuiltDiffer(list: seq<Designation>, g: Graph, owner: map<string, string>)
    requires KeysApart(list, g)
    ensures UniqueFactories(Rebuilt(list, g, owner))
  {
    hide NodesOf, FactoriesOf;
    var d, b := DesignatedKeys(list), BaseKeys(g.factories);
    forall i, j | 0 <= i < j < |d| ensures d[i] != d[j] {
      if d[i] == d[j] { SameDesignation(list[i].id, list[j].id); }
    }
    FactoriesDiffer(d, g.nodes, owner);
    FactoriesDiffer(b, g.nodes, owner);
    var x, y := FactoriesOf(d, g.nodes, owner), FactoriesOf(b, g.nodes, owner);
    forall f, h | f in x && h in y ensures f.key != h.key {
      var i :| 0 <= i < |d| && d[i] == f.key;
      var j :| 0 <= j < |b| && b[j] == h.key;
    }
    JoinedDiffer(x, y);
  }

  /**
   * The factories partition the owned groups: each such group is in just one factory, its owner's, once, and a factory
   * lists nothing else.
   */
  ghost predicate Partitions(nodes: seq<Node>, owner: map<string, string>, r: seq<Factory>) {
    && UniqueFactories(r)
    && (forall i :: 0 <= i < |r| ==> r[i].nodeKeys != [] && DistinctKeys(r[i].nodeKeys))
    && (forall i, k :: 0 <= i < |r| && k in r[i].nodeKeys ==>
          (exists n :: n in nodes && n.key == k) && Get(owner, k) == Some(r[i].key))
    && (forall n :: n in nodes && n.key in owner ==>
          exists i :: 0 <= i < |r| && r[i].key == owner[n.key] && n.key in r[i].nodeKeys)
  }

  lemma FactoriesPartition(list: seq<Designation>, g: Graph, owner: map<string, string>)
    requires UniqueKeys(g.nodes) && KeysApart(list, g)
    requires forall n :: n in g.nodes && n.key in owner ==> KnownOwner(list, g, owner[n.key])
    ensures Partitions(g.nodes, owner, Rebuilt(list, g, owner))
  {
    RebuiltDiffer(list, g, owner);
    var r := Rebuilt(list, g, owner);
    hide FactoriesOf;
    forall i | 0 <= i < |r| ensures r[i].nodeKeys == NodesOf(g.nodes, owner, r[i].key) && r[i].nodeKeys != [] {
      assert r[i] in r;
    }
    forall i | 0 <= i < |r| ensures DistinctKeys(r[i].nodeKeys) {
      NodesOfDistinct(g.nodes, owner, r[i].key);
    }
    forall n | n in g.nodes && n.key in owner
      ensures exists i :: 0 <= i < |r| && r[i].key == owner[n.key] && n.key in r[i].nodeKeys
    {
      var o := owner[n.key];
      assert n.key in NodesOf(g.nodes, owner, o);
      assert Factory(o, NodesOf(g.nodes, owner, o)) in r;
      var i :| 0 <= i < |r| && r[i] == Factory(o, NodesOf(g.nodes, owner, o));
    }
  }

  // ----- the order of what is rebuilt -----

  /** What `keys` has of `all` is in the order of `all`. */
  ghost predicate InOrder(keys: seq<string>, all: seq<string>) {
    forall i, j, a, b :: 0 <= i < j < |keys| && 0 <= a < |all| && 0 <= b < |all| && keys[i] == all[a] && keys[j] == all[b] ==>
      a < b
  }

  lemma OneInFront(key: string, keys: seq<string>, all: seq<string>)
    requires all != [] && DistinctKeys(all) && InOrder(keys, all[1..])
    requires forall k :: k in keys ==> k in all[1..]
    ensures InOrder(keys, all) && (key == all[0] ==> InOrder([key] + keys, all))
  {
    var rest := all[1..];
    forall i, j, a, b | 0 <= i < j < |keys| && 0 <= a < |all| && 0 <= b < |all| && keys[i] == all[a] && keys[j] == all[b]
      ensures a < b
    {
      assert keys[i] in rest && keys[j] in rest;
      assert a > 0 && b > 0;
      assert keys[i] == rest[a - 1] && keys[j] == rest[b - 1];
    }
    if key == all[0] {
      var r := [key] + keys;
      forall i, j, a, b | 0 <= i < j < |r| && 0 <= a < |all| && 0 <= b < |all| && r[i] == all[a] && r[j] == all[b]
        ensures a < b
      {
        assert r[j] == keys[j - 1] && keys[j - 1] in rest;
        if i > 0 { assert r[i] == keys[i - 1]; }
      }
    }
  }

  lemma DistinctTail(keys: seq<string>)
    requires keys != [] && DistinctKeys(keys)
    ensures DistinctKeys(keys[1..])
  {
  }

  lemma KeysDistinct(nodes: seq<Node>)
    requires UniqueKeys(nodes)
    ensures DistinctKeys(Keys(nodes))
  {
  }

  /** A factory lists its groups in the graph's order. */
  lemma {:induction false} NodesInOrder(nodes: seq<Node>, owner: map<string, string>, key: string)
    requires DistinctKeys(Keys(nodes))
    ensures InOrder(NodesOf(nodes, owner, key), Keys(nodes))
  {
    if nodes != [] {
      var rest, all := NodesOf(nodes[1..], owner, key), Keys(nodes);
      assert all[1..] == Keys(nodes[1..]);
      DistinctTail(all);
      NodesInOrder(nodes[1..], owner, key);
      hide DistinctKeys, InOrder;
      OneInFront(nodes[0].key, rest, all);
    }
  }

  function FactoryKeys(factories: seq<Factory>): (r: seq<string>)
    ensures |r| == |factories| && forall i :: 0 <= i < |r| ==> r[i] == factories[i].key
  {
    seq(|factories|, i requires 0 <= i < |factories| => factories[i].key)
  }

  lemma FactoriesListed(keys: seq<string>, nodes: seq<Node>, owner: map<string, string>)
    ensures forall k :: k in FactoryKeys(FactoriesOf(keys, nodes, owner)) ==> k in keys
  {
    hide NodesOf;
    var r := FactoriesOf(keys, nodes, owner);
    forall i | 0 <= i < |r| ensures r[i].key in keys { assert r[i] in r; }
  }

  lemma KeysOfMore(f: Factory, rest: seq<Factory>)
    ensures FactoryKeys([f] + rest) == [f.key] + FactoryKeys(rest)
  {
  }

  lemma {:induction false} FactoriesInOrder(keys: seq<string>, nodes: seq<Node>, owner: map<string, string>)
    requires DistinctKeys(keys)
    ensures InOrder(FactoryKeys(FactoriesOf(keys, nodes, owner)), keys)
  {
    if keys != [] {
      DistinctTail(keys);
      FactoriesInOrder(keys[1..], nodes, owner);
      FactoriesListed(keys[1..], nodes, owner);
      var rest := FactoriesOf(keys[1..], nodes, owner);
      KeysOfMore(Factory(keys[0], NodesOf(nodes, owner, keys[0])), rest);
      OneInFront(keys[0], FactoryKeys(rest), keys);
      hide DistinctKeys, InOrder, NodesOf, FactoryKeys;
    }
  }

  lemma {:induction false} FactoriesJoined(a: seq<string>, b: seq<string>, nodes: seq<Node>, owner: map<string, string>)
    ensures FactoriesOf(a + b, nodes, owner) == FactoriesOf(a, nodes, owner) + FactoriesOf(b, nodes, owner)
  {
    if a == [] {
      assert a + b == b;
    } else {
      hide NodesOf;
      assert (a + b)[1..] == a[1..] + b;
      FactoriesJoined(a[1..], b, nodes, owner);
    }
  }

  lemma AllDistinct(list: seq<Designation>, g: Graph)
    requires KeysApart(list, g)
    ensures DistinctKeys(DesignatedKeys(list) + BaseKeys(g.factories))
  {
    var d, b := DesignatedKeys(list), BaseKeys(g.factories);
    var all := d + b;
    forall i, j | 0 <= i < j < |all| ensures all[i] != all[j] {
      if j < |d| {
        if d[i] == d[j] { SameDesignation(list[i].id, list[j].id); }
      }
    }
  }

  /** Designated factories come first, in the list's order, then the automatic ones in the graph's. */
  lemma DesignatedFirst(list: seq<Designation>, g: Graph, owner: map<string, string>)
    requires KeysApart(list, g)
    ensures InOrder(FactoryKeys(Rebuilt(list, g, owner)), DesignatedKeys(list) + BaseKeys(g.factories))
  {
    hide FactoriesOf, DistinctKeys, InOrder;
    AllDistinct(list, g);
    FactoriesJoined(DesignatedKeys(list), BaseKeys(g.factories), g.nodes, owner);
    FactoriesInOrder(DesignatedKeys(list) + BaseKeys(g.factories), g.nodes, owner);
  }

  ghost predicate BasesNamed(g: Graph) {
    forall n :: n in g.nodes && n.factoryKey.Some? ==> n.factoryKey.value in BaseKeys(g.factories)
  }

  lemma FirstOwnerKnown(list: seq<Designation>, g: Graph, n: Node, o: string)
    requires n in g.nodes && BasesNamed(g) && MajorityOwner(list, g, n, Some(o))
    ensures KnownOwner(list, g, o)
  {
    hide DesignatedKey, HolderOf;
    if !Undesignated(list, n.machineIds) {
      var d :| HoldsMost(list, n.machineIds, d) && o == DesignatedKey(d);
      assert (forall i :: i !in HeldBy(list, n.machineIds, d)) ==> HeldBy(list, n.machineIds, d) == {};
      var i :| i in HeldBy(list, n.machineIds, d);
      HolderIsListed(list, n.machineIds[i]);
      var j :| 0 <= j < |list| && list[j].id == d;
      assert DesignatedKeys(list)[j] == o;
    } else if n.factoryKey.None? {
      var i :| 0 <= i < |g.factories| && g.factories[i].key == o;
      assert BaseKeys(g.factories)[i] == o;
    }
  }

  /** Following changes no owner to one that no placed group of the factory had. */
  lemma FollowedOwner(g: Graph, placed: set<string>, factory: string, first: map<string, string>, key: string, o: string)
    returns (n: Node)
    requires Follows(g, placed, factory, first, key, o)
    ensures n in g.nodes && WentTo(placed, factory, first, n, o)
  {
    hide Joined;
    var standing := StandingKeys(g, placed, factory);
    if Nearest(g.links, Inside(g, factory), standing, first, key, Some(o)) {
      var p :| IsPath(g.links, Inside(g, factory), standing, p, key) && Get(first, p[0]) == Some(o);
      n :| n in g.nodes && Stands(placed, factory, n) && n.key == p[0];
    } else {
      var gone := Gone(g.nodes, placed, factory, first);
      var i :| 0 <= i < |gone| && gone[i] == Some(o);
      n := g.nodes[i];
    }
  }

  lemma OwnerKnown(
      list: seq<Designation>, g: Graph, placed: set<string>, first: map<string, string>, owner: map<string, string>, n: Node)
    requires BasesNamed(g) && n in g.nodes && n.key in owner
    requires forall m :: m in g.nodes ==> MajorityOwner(list, g, m, Get(first, m.key))
    requires (forall f :: Owned(g, f, first)) && Settled(g, placed, first, owner, n, |g.factories|)
    ensures KnownOwner(list, g, owner[n.key])
  {
    hide MajorityOwner, Follows, IsPlaced, KnownOwner, BasesNamed;
    if Get(owner, n.key) == Get(first, n.key) {
      FirstOwnerKnown(list, g, n, owner[n.key]);
    } else {
      var m := FollowedOwner(g, placed, n.factoryKey.value, first, n.key, owner[n.key]);
      FirstOwnerKnown(list, g, m, owner[n.key]);
    }
  }

  /**
   * The designations applied to the graph. `first` is each group's majority owner; `owner` differs from it only for the
   * unplaced groups of a factory whose placed groups have all gone, which follow the nearest of them; and the factories
   * partition the owned groups when the keys are as the graph's schema has them.
   */
  method WithDemoDesignations(list: seq<Designation>, g: Graph, placed: set<string>)
    returns (owner: map<string, string>, factories: seq<Factory>, first: map<string, string>)
    requires UniqueKeys(g.nodes) && UniqueFactories(g.factories)
    ensures forall n :: n in g.nodes ==> MajorityOwner(list, g, n, Get(first, n.key))
    ensures forall f :: Owned(g, f, first)
    ensures forall n :: n in g.nodes ==> Settled(g, placed, first, owner, n, |g.factories|)
    ensures forall f :: f in factories ==> f.nodeKeys == NodesOf(g.nodes, owner, f.key)
    ensures forall f :: f in factories ==> InOrder(f.nodeKeys, Keys(g.nodes))
    ensures KeysApart(list, g) ==> InOrder(FactoryKeys(factories), DesignatedKeys(list) + BaseKeys(g.factories))
    ensures KeysApart(list, g) && BasesNamed(g) ==> Partitions(g.nodes, owner, factories)
  {
    hide MajorityOwner, Settled, KeysApart, BasesNamed, Partitions, NodesOf, FactoriesOf, KnownOwner, InOrder;
    owner, first := Owners(list, g, placed);
    factories := Rebuilt(list, g, owner);
    KeysDistinct(g.nodes);
    forall f | f in factories ensures InOrder(f.nodeKeys, Keys(g.nodes)) { NodesInOrder(g.nodes, owner, f.key); }
    if KeysApart(list, g) { DesignatedFirst(list, g, owner); }
    if KeysApart(list, g) && BasesNamed(g) {
      forall n | n in g.nodes && n.key in owner ensures KnownOwner(list, g, owner[n.key]) {
        OwnerKnown(list, g, placed, first, owner, n);
      }
      FactoriesPartition(list, g, owner);
    }
  }
}
