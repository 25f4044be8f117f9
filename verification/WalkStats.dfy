/**
 * walkStats and filterStats of adapter.js: a depth-first walk over statistics that refer to one another by
 * properties whose names end in Id or Ids, through a map of what was visited.
 */
module WalkStats {
  datatype Value = Text(text: string) | List(items: seq<string>)

  datatype Property = Property(name: string, value: Value)

  datatype Stat = Stat(id: string, properties: seq<Property>)

  datatype Option<T> = None | Some(value: T)

  predicate EndsWith(name: string, suffix: string) {
    |suffix| <= |name| && name[|name| - |suffix|..] == suffix
  }

  predicate IsSingle(p: Property) {
    EndsWith(p.name, "Id")
  }

  /** Looked at only when the name does not end in Id. */
  predicate IsMany(p: Property) {
    !IsSingle(p) && EndsWith(p.name, "Ids")
  }

  /** The ids a property leads to. */
  function Ids(p: Property): seq<string> {
    if IsSingle(p) && p.value.Text? then [p.value.text] else if IsMany(p) && p.value.List? then p.value.items else []
  }

  /** The walk can go on from here: every property named ...Ids is a list, so that it has a forEach. */
  predicate Proper(s: Stat) {
    forall i :: 0 <= i < |s.properties| && IsMany(s.properties[i]) ==> s.properties[i].value.List?
  }

  ghost predicate Refers(s: Stat, id: string) {
    exists i :: 0 <= i < |s.properties| && id in Ids(s.properties[i])
  }

  /** Every entry is filed under its own id. */
  ghost predicate Keyed(stats: map<string, Stat>) {
    forall k :: k in stats ==> stats[k].id == k
  }

  /** k can be reached from s in n steps. */
  ghost predicate ReachesIn(stats: map<string, Stat>, s: Stat, k: string, n: nat)
    decreases n
  {
    if n == 0 then k == s.id
    else exists via :: via in stats && Refers(s, via) && ReachesIn(stats, stats[via], k, n - 1)
  }

  ghost predicate Reachable(stats: map<string, Stat>, s: Stat, k: string) {
    exists n: nat :: ReachesIn(stats, s, k, n)
  }

  /** The visited set holds what its members refer to, except for those still being walked. */
  ghost predicate Closed(stats: map<string, Stat>, visited: map<string, Stat>, walking: set<string>) {
    forall k, id :: k in visited && k !in walking && Refers(visited[k], id) && id in stats ==> stats[id].id in visited
  }

  ghost predicate Extends(visited: map<string, Stat>, visited': map<string, Stat>) {
    forall k :: k in visited ==> k in visited' && visited'[k] == visited[k]
  }

  /** What came in is reachable, and is the entry of that id. */
  ghost predicate Gained(stats: map<string, Stat>, s: Stat, visited: map<string, Stat>, visited': map<string, Stat>) {
    forall k :: k in visited' && k !in visited ==> Reachable(stats, s, k) && visited'[k].id == k && (visited'[k] == s || visited'[k] in stats.Values)
  }

  /** Everything that came in is proper, but perhaps the entry still being walked. */
  ghost predicate ProperBut(visited: map<string, Stat>, visited': map<string, Stat>, id: Option<string>) {
    forall k :: k in visited' && k !in visited && Some(k) != id ==> Proper(visited'[k])
  }

  /** Some entry that came in is reachable, and the walk could not go on from it. */
  ghost predicate Stuck(stats: map<string, Stat>, s: Stat, visited: map<string, Stat>, visited': map<string, Stat>) {
    exists k :: k in visited' && k !in visited && visited'[k].id == k && (visited'[k] == s || visited'[k] in stats.Values)
                && Reachable(stats, s, k) && !Proper(visited'[k])
  }

  lemma ReachableOn(stats: map<string, Stat>, s: Stat, via: string, k: string)
    requires via in stats && Refers(s, via) && Reachable(stats, stats[via], k)
    ensures Reachable(stats, s, k)
  {
    var n: nat :| ReachesIn(stats, stats[via], k, n);
    assert ReachesIn(stats, s, k, n + 1);
  }

  lemma GainedOn(stats: map<string, Stat>, s: Stat, via: string, v0: map<string, Stat>, v1: map<string, Stat>, v2: map<string, Stat>)
    requires via in stats && Refers(s, via) && Gained(stats, s, v0, v1) && Gained(stats, stats[via], v1, v2) && Extends(v1, v2)
    ensures Gained(stats, s, v0, v2)
  {
    forall k | k in v2 && k !in v0
      ensures Reachable(stats, s, k) && v2[k].id == k && (v2[k] == s || v2[k] in stats.Values)
    {
      if k !in v1 {
        ReachableOn(stats, s, via, k);
      }
    }
  }

  function IdsOf(stats: map<string, Stat>): set<string> {
    set k | k in stats :: stats[k].id
  }

  class StatsWalk {
    const stats: map<string, Stat>
    var resultSet: map<string, Stat>

    constructor (stats: map<string, Stat>)
      ensures this.stats == stats && resultSet == map[]
    {
      this.stats := stats;
      resultSet := map[];
    }

    ghost function Unvisited(): set<string>
      reads this
    {
      IdsOf(stats) - resultSet.Keys
    }

    /** Inside the walk of s, which began when the visited set was `start`. */
    ghost predicate Inside(s: Stat, walking: set<string>, start: map<string, Stat>)
      reads this
    {
      && Closed(stats, resultSet, walking) && Extends(start, resultSet) && Gained(stats, s, start, resultSet)
      && s.id !in start && s.id in resultSet && resultSet[s.id] == s && s.id in walking
      && ProperBut(start, resultSet, Some(s.id))
    }

    ghost predicate Followed(ids: seq<string>)
      reads this
    {
      forall id :: id in ids && id in stats ==> stats[id].id in resultSet
    }

    /**
     * walkStats; false for the error of a property named ...Ids that is no list: it comes exactly if such an entry
     * was visited. `walking` are the calls in progress.
     */
    method Walk(base: Option<Stat>, ghost walking: set<string>) returns (ok: bool)
      requires Closed(stats, resultSet, walking)
      modifies this
      ensures Extends(old(resultSet), resultSet)
      ensures ok ==> Closed(stats, resultSet, walking)
      ensures ok && base.Some? ==> base.value.id in resultSet && Gained(stats, base.value, old(resultSet), resultSet)
      ensures ok ==> ProperBut(old(resultSet), resultSet, None)
      ensures base.None? ==> ok && resultSet == old(resultSet)
      ensures !ok ==> base.Some? && Stuck(stats, base.value, old(resultSet), resultSet)
      decreases |Unvisited()|, if base.Some? && base.value.id !in IdsOf(stats) then 1 else 0, 0
    {
      if base.None? || base.value.id in resultSet {
        return true;
      }
      ghost var start := resultSet;
      var s := base.value;
      resultSet := resultSet[s.id := s];
      ghost var inside := walking + {s.id};
      Entered(stats, s, start, walking);
      GrowingShrinks(IdsOf(stats), start, resultSet, s.id);
      ok := WalkProperties(s, inside, start);
      if ok {
        Left(stats, s, resultSet, walking);
        LeftProper(s, start, resultSet);
      }
    }

    /**
     * walkStats between two walks, on entries that are filed under their ids: beside what was there, the visited
     * set gains the entry and exactly what is reachable from it. It succeeds exactly if everything it has to go on
     * from is proper.
     */
    method WalkFrom(base: Option<Stat>) returns (ok: bool)
      requires Keyed(stats) && Closed(stats, resultSet, {}) && Agrees(stats, resultSet)
      requires base.Some? ==>
                 && (base.value.id in stats ==> stats[base.value.id] == base.value)
                 && (base.value.id in resultSet ==> resultSet[base.value.id] == base.value)
      modifies this
      ensures Extends(old(resultSet), resultSet)
      ensures ok ==> Closed(stats, resultSet, {}) && Agrees(stats, resultSet)
      ensures ok && base.Some? ==> base.value.id in resultSet && resultSet[base.value.id] == base.value
      ensures ok ==> forall k :: k in resultSet <==> k in old(resultSet) || (base.Some? && Reachable(stats, base.value, k))
      ensures ok <==> base.None? ||
                      forall k :: k !in old(resultSet) && Reachable(stats, base.value, k) ==> ProperEntry(stats, base.value, k)
    {
      hide Closed, Gained, Keyed, Agrees, Reachable, Proper, ProperEntry, ProperBut, Stuck;
      ghost var before := resultSet;
      ok := Walk(base, {});
      if ok && base.Some? {
        WalkIsExact(stats, base.value, before, resultSet);
        GainedAgrees(stats, base.value, before, resultSet);
        AllEntriesProper(stats, base.value, before, resultSet);
        EntryIsOwn(stats, base.value, before, resultSet);
      } else if base.Some? {
        var k := StuckEntry(stats, base.value, before, resultSet);
      }
    }

    /** The first n properties have been walked. */
    ghost predicate AllFollowed(s: Stat, n: nat)
      requires n <= |s.properties|
      reads this
    {
      forall j :: 0 <= j < n ==> Followed(Ids(s.properties[j])) && (IsMany(s.properties[j]) ==> s.properties[j].value.List?)
    }

    method WalkProperties(s: Stat, ghost walking: set<string>, ghost start: map<string, Stat>) returns (ok: bool)
      requires Inside(s, walking, start)
      modifies this
      ensures Extends(start, resultSet)
      ensures ok ==> Inside(s, walking, start) && AllFollowed(s, |s.properties|)
      ensures !ok ==> Stuck(stats, s, start, resultSet)
      decreases |Unvisited()|, 0, 3
    {
      hide Closed, Gained, Extends, Stuck, ProperBut;
      ghost var entry := resultSet;
      ExtendsItself(resultSet);
      for i := 0 to |s.properties|
        invariant Inside(s, walking, start) && AllFollowed(s, i) && Extends(entry, resultSet)
      {
        ghost var before := resultSet;
        ShrinksToo(IdsOf(stats), entry, resultSet);
        ok := WalkProperty(s, i, walking, start);
        ExtendsTwice(entry, before, resultSet);
        if !ok {
          return;
        }
        AllStillFollowed(s, i, before);
      }
      ok := true;
    }

    lemma AllStillFollowed(s: Stat, n: nat, before: map<string, Stat>)
      requires n <= |s.properties| && Extends(before, resultSet)
      requires forall j :: 0 <= j < n ==> forall id :: id in Ids(s.properties[j]) && id in stats ==> stats[id].id in before
      requires forall j :: 0 <= j < n && IsMany(s.properties[j]) ==> s.properties[j].value.List?
      ensures AllFollowed(s, n)
    {
    }

    method WalkProperty(s: Stat, i: nat, ghost walking: set<string>, ghost start: map<string, Stat>) returns (ok: bool)
      requires i < |s.properties| && Inside(s, walking, start)
      modifies this
      ensures Extends(old(resultSet), resultSet) && Extends(start, resultSet)
      ensures ok ==> Inside(s, walking, start) && Followed(Ids(s.properties[i]))
      ensures ok ==> (IsMany(s.properties[i]) ==> s.properties[i].value.List?)
      ensures !ok ==> Stuck(stats, s, start, resultSet)
      decreases |Unvisited()|, 0, 2
    {
      hide Closed, Gained, Extends, Stuck, ProperBut;
      ExtendsItself(resultSet);
      var p := s.properties[i];
      ghost var entry := resultSet;
      if IsSingle(p) {
        if p.value.Text? {
          ok := Follow(s, i, p.value.text, walking, start);
          return;
        }
      } else if IsMany(p) {
        if p.value.Text? {
          StuckHere(stats, s, i, start, resultSet);
          return false;
        }
        for j := 0 to |p.value.items|
          invariant Inside(s, walking, start) && Followed(p.value.items[..j]) && Extends(entry, resultSet)
        {
          ShrinksToo(IdsOf(stats), entry, resultSet);
          ghost var before := resultSet;
          ok := Follow(s, i, p.value.items[j], walking, start);
          ExtendsTwice(entry, before, resultSet);
          if !ok {
            return;
          }
          StillFollowed(p.value.items[..j], before);
          assert p.value.items[..j + 1] == p.value.items[..j] + [p.value.items[j]];
        }
        assert p.value.items[..|p.value.items|] == p.value.items;
      }
      ok := true;
    }

    /** What was followed before stays followed. */
    lemma StillFollowed(ids: seq<string>, before: map<string, Stat>)
      requires Extends(before, resultSet) && forall id :: id in ids && id in stats ==> stats[id].id in before
      ensures Followed(ids)
    {
    }

    /** One recursive call: the entry of this id, if there is one. */
    method Follow(s: Stat, i: nat, id: string, ghost walking: set<string>, ghost start: map<string, Stat>) returns (ok: bool)
      requires i < |s.properties| && id in Ids(s.properties[i]) && Inside(s, walking, start)
      modifies this
      ensures Extends(old(resultSet), resultSet) && Extends(start, resultSet)
      ensures ok ==> Inside(s, walking, start) && Followed([id])
      ensures !ok ==> Stuck(stats, s, start, resultSet)
      decreases |Unvisited()|, 0, 1
    {
      ghost var before := resultSet;
      ok := Walk(if id in stats then Some(stats[id]) else None, walking);
      ExtendsTwice(start, before, resultSet);
      if id in stats {
        assert Refers(s, id);
        if ok {
          GainedOn(stats, s, id, start, before, resultSet);
        } else {
          StuckOn(stats, s, id, start, before, resultSet);
        }
      }
    }
  }

  lemma ExtendsItself(visited: map<string, Stat>)
    ensures Extends(visited, visited)
  {
  }

  lemma ExtendsTwice(a: map<string, Stat>, b: map<string, Stat>, c: map<string, Stat>)
    requires Extends(a, b) && Extends(b, c)
    ensures Extends(a, c)
  {
  }

  /** s has just been put into the visited set. */
  lemma Entered(stats: map<string, Stat>, s: Stat, start: map<string, Stat>, walking: set<string>)
    requires Closed(stats, start, walking) && s.id !in start
    ensures var visited := start[s.id := s];
            Closed(stats, visited, walking + {s.id}) && Extends(start, visited) && Gained(stats, s, start, visited)
  {
    assert ReachesIn(stats, s, s.id, 0);
  }

  /** Everything s refers to has been visited. */
  lemma Left(stats: map<string, Stat>, s: Stat, visited: map<string, Stat>, walking: set<string>)
    requires Closed(stats, visited, walking + {s.id}) && s.id in visited && visited[s.id] == s
    requires forall j :: 0 <= j < |s.properties| ==>
               forall id :: id in Ids(s.properties[j]) && id in stats ==> stats[id].id in visited
    ensures Closed(stats, visited, walking)
  {
    forall id | Refers(s, id) && id in stats
      ensures stats[id].id in visited
    {
      var j :| 0 <= j < |s.properties| && id in Ids(s.properties[j]);
    }
  }

  /** The walk of s is over, and so everything that came in is proper. */
  lemma LeftProper(s: Stat, start: map<string, Stat>, visited: map<string, Stat>)
    requires ProperBut(start, visited, Some(s.id)) && s.id in visited && visited[s.id] == s
    requires forall j :: 0 <= j < |s.properties| && IsMany(s.properties[j]) ==> s.properties[j].value.List?
    ensures ProperBut(start, visited, None)
  {
    assert Proper(s);
  }

  /** The error of a property named ...Ids that is no list. */
  lemma StuckHere(stats: map<string, Stat>, s: Stat, i: nat, start: map<string, Stat>, visited: map<string, Stat>)
    requires i < |s.properties| && IsMany(s.properties[i]) && !s.properties[i].value.List?
    requires s.id !in start && s.id in visited && visited[s.id] == s
    ensures Stuck(stats, s, start, visited)
  {
    assert ReachesIn(stats, s, s.id, 0);
  }

  lemma StuckOn(stats: map<string, Stat>, s: Stat, via: string, v0: map<string, Stat>, v1: map<string, Stat>, v2: map<string, Stat>)
    requires via in stats && Refers(s, via) && Extends(v0, v1) && Stuck(stats, stats[via], v1, v2)
    ensures Stuck(stats, s, v0, v2)
  {
    hide Reachable, Refers, Proper;
    var k :| k in v2 && k !in v1 && v2[k].id == k && (v2[k] == stats[via] || v2[k] in stats.Values)
             && Reachable(stats, stats[via], k) && !Proper(v2[k]);
    ReachableOn(stats, s, via, k);
  }

  lemma SubsetIsSmaller(a: set<string>, b: set<string>)
    requires a <= b
    ensures |a| <= |b|
  {
    assert b == a + (b - a);
  }

  lemma GrowingShrinks(ids: set<string>, start: map<string, Stat>, visited: map<string, Stat>, id: string)
    requires Extends(start, visited) && id in visited && id !in start
    ensures |ids - visited.Keys| <= |ids - start.Keys|
    ensures id in ids ==> |ids - visited.Keys| < |ids - start.Keys|
  {
    var a, b := ids - visited.Keys, ids - start.Keys;
    assert a <= b && id !in a && (id in ids ==> id in b);
    hide Extends;
    SubsetIsSmaller(a, b);
    if id in b {
      SubsetIsSmaller(a, b - {id});
    }
  }

  lemma ShrinksToo(ids: set<string>, start: map<string, Stat>, visited: map<string, Stat>)
    requires Extends(start, visited)
    ensures |ids - visited.Keys| <= |ids - start.Keys|
  {
    SubsetIsSmaller(ids - visited.Keys, ids - start.Keys);
  }

  // The result

  lemma ReferredIsVisited(stats: map<string, Stat>, visited: map<string, Stat>, s: Stat, via: string)
    requires Keyed(stats) && Closed(stats, visited, {}) && s.id in visited && visited[s.id] == s && via in stats && Refers(s, via)
    ensures stats[via].id == via && via in visited
  {
    hide Refers;
  }

  lemma FirstStep(stats: map<string, Stat>, s: Stat, k: string, n: nat) returns (via: string)
    requires n > 0 && ReachesIn(stats, s, k, n)
    ensures via in stats && Refers(s, via) && ReachesIn(stats, stats[via], k, n - 1)
  {
    hide Refers;
    via :| via in stats && Refers(s, via) && ReachesIn(stats, stats[via], k, n - 1);
  }

  /** In a closed set everything reachable from a member is a member, when entries are filed under their ids. */
  lemma {:induction false} ClosedHoldsReachable(stats: map<string, Stat>, visited: map<string, Stat>, s: Stat, k: string, n: nat)
    requires Keyed(stats) && Closed(stats, visited, {}) && s.id in visited && ReachesIn(stats, s, k, n)
    requires visited[s.id] == s && Agrees(stats, visited)
    ensures k in visited
    decreases n
  {
    if n > 0 {
      hide Closed, Keyed, Refers, ReachesIn;
      var via := FirstStep(stats, s, k, n);
      ReferredIsVisited(stats, visited, s, via);
      ClosedHoldsReachable(stats, visited, stats[via], k, n - 1);
    }
  }

  /** Entries of the visited set are those of the statistics, or the one walked from. */
  ghost predicate Agrees(stats: map<string, Stat>, visited: map<string, Stat>) {
    forall k :: k in visited && k in stats ==> visited[k] == stats[k]
  }

  lemma GainedAgrees(stats: map<string, Stat>, s: Stat, visited: map<string, Stat>, visited': map<string, Stat>)
    requires Keyed(stats) && Agrees(stats, visited) && Extends(visited, visited') && Gained(stats, s, visited, visited')
    requires s.id in stats ==> stats[s.id] == s
    ensures Agrees(stats, visited')
  {
    hide Reachable;
    forall k | k in visited' && k in stats && k !in visited
      ensures visited'[k] == stats[k]
    {
      if visited'[k] != s {
        var k' :| k' in stats && stats[k'] == visited'[k];
        assert stats[k'].id == k';
      }
    }
  }

  /** From a closed set, the walk adds exactly what is reachable. */
  lemma WalkIsExact(stats: map<string, Stat>, s: Stat, visited: map<string, Stat>, visited': map<string, Stat>)
    requires Keyed(stats) && Agrees(stats, visited) && (s.id in stats ==> stats[s.id] == s) && (s.id in visited ==> visited[s.id] == s)
    requires Closed(stats, visited', {}) && Extends(visited, visited') && Gained(stats, s, visited, visited') && s.id in visited'
    ensures forall k :: k in visited' <==> k in visited || Reachable(stats, s, k)
  {
    GainedAgrees(stats, s, visited, visited');
    EntryIsOwn(stats, s, visited, visited');
    forall k | Reachable(stats, s, k)
      ensures k in visited'
    {
      var n: nat :| ReachesIn(stats, s, k, n);
      ClosedHoldsReachable(stats, visited', s, k, n);
    }
    hide Closed, Keyed, Agrees, ReachesIn;
  }

  lemma EntryIsOwn(stats: map<string, Stat>, s: Stat, visited: map<string, Stat>, visited': map<string, Stat>)
    requires Keyed(stats) && (s.id in stats ==> stats[s.id] == s) && (s.id in visited ==> visited[s.id] == s)
    requires Extends(visited, visited') && Gained(stats, s, visited, visited') && s.id in visited'
    ensures visited'[s.id] == s
  {
    hide Reachable;
    var v := visited'[s.id];
    if s.id !in visited && v in stats.Values {
      var k :| k in stats && stats[k] == v;
      assert stats[k].id == k;
    }
  }

  /** The entry that a walk from s visits as k can be gone on from. */
  ghost predicate ProperEntry(stats: map<string, Stat>, s: Stat, k: string) {
    if k == s.id then Proper(s) else k in stats ==> Proper(stats[k])
  }

  /** What is visited as k. */
  lemma VisitedEntry(stats: map<string, Stat>, s: Stat, v: Stat, k: string)
    requires Keyed(stats) && (s.id in stats ==> stats[s.id] == s) && v.id == k && (v == s || v in stats.Values)
    ensures ProperEntry(stats, s, k) <==> Proper(v)
  {
    if v != s {
      var k' :| k' in stats && stats[k'] == v;
      assert stats[k'].id == k';
    }
  }

  /** A walk that succeeded has visited proper entries alone. */
  lemma AllEntriesProper(stats: map<string, Stat>, s: Stat, visited: map<string, Stat>, visited': map<string, Stat>)
    requires Keyed(stats) && (s.id in stats ==> stats[s.id] == s)
    requires Gained(stats, s, visited, visited') && ProperBut(visited, visited', None)
    ensures forall k :: k in visited' && k !in visited ==> ProperEntry(stats, s, k)
  {
    hide Proper, ProperEntry, Reachable, Keyed;
    forall k | k in visited' && k !in visited
      ensures ProperEntry(stats, s, k)
    {
      VisitedEntry(stats, s, visited'[k], k);
    }
  }

  /** A walk that failed has met an entry that is not proper. */
  lemma StuckEntry(stats: map<string, Stat>, s: Stat, visited: map<string, Stat>, visited': map<string, Stat>) returns (k: string)
    requires Keyed(stats) && (s.id in stats ==> stats[s.id] == s) && Stuck(stats, s, visited, visited')
    ensures k !in visited && Reachable(stats, s, k) && !ProperEntry(stats, s, k)
  {
    hide Proper, ProperEntry, Reachable, Keyed;
    k :| k in visited' && k !in visited && visited'[k].id == k && (visited'[k] == s || visited'[k] in stats.Values)
         && Reachable(stats, s, k) && !Proper(visited'[k]);
    VisitedEntry(stats, s, visited'[k], k);
  }

  // filterStats

  function Lookup(s: Stat, name: string): Option<Value> {
    LookupIn(s.properties, name)
  }

  function LookupIn(properties: seq<Property>, name: string): Option<Value> {
    if properties == [] then None
    else if properties[0].name == name then Some(properties[0].value)
    else LookupIn(properties[1..], name)
  }

  predicate Is(s: Stat, name: string, text: string) {
    Lookup(s, name) == Some(Text(text))
  }

  /** A stream of the wanted direction that belongs to a track entry of the wanted track. */
  ghost predicate IsRoot(stats: map<string, Stat>, s: Stat, track: string, streamType: string) {
    Is(s, "type", streamType) && exists t :: t in stats && IsTrack(stats[t], track) && Is(s, "trackId", stats[t].id)
  }

  predicate IsTrack(s: Stat, track: string) {
    Is(s, "type", "track") && Is(s, "trackIdentifier", track)
  }

  ghost predicate FromRoot(stats: map<string, Stat>, track: string, streamType: string, k: string) {
    exists r :: r in stats && IsRoot(stats, stats[r], track, streamType) && Reachable(stats, stats[r], k)
  }

  /** What has been collected so far: closed, and all of it from some root, under its id, and proper. */
  ghost predicate Collected(stats: map<string, Stat>, visited: map<string, Stat>, track: string, streamType: string) {
    && Closed(stats, visited, {}) && Agrees(stats, visited)
    && forall k :: k in visited ==> FromRoot(stats, track, streamType, k) && k in stats && Proper(visited[k])
  }

  /** An entry to be collected that the walk cannot go on from. */
  ghost predicate StuckFromRoot(stats: map<string, Stat>, track: string, streamType: string) {
    exists k :: k in stats && FromRoot(stats, track, streamType, k) && !Proper(stats[k])
  }

  lemma StuckOnTheWay(stats: map<string, Stat>, r: string, visited: map<string, Stat>, visited': map<string, Stat>, track: string, streamType: string)
    requires Keyed(stats) && r in stats && IsRoot(stats, stats[r], track, streamType) && Stuck(stats, stats[r], visited, visited')
    ensures StuckFromRoot(stats, track, streamType)
  {
    hide Reachable, Proper, IsRoot;
    var k :| k in visited' && k !in visited && visited'[k].id == k && (visited'[k] == stats[r] || visited'[k] in stats.Values)
             && Reachable(stats, stats[r], k) && !Proper(visited'[k]);
    var k' :| k' in stats && stats[k'] == visited'[k];
    assert stats[k'].id == k';
  }

  lemma CollectsOn(stats: map<string, Stat>, r: string, visited: map<string, Stat>, visited': map<string, Stat>, track: string, streamType: string)
    requires Keyed(stats) && Collected(stats, visited, track, streamType) && r in stats && IsRoot(stats, stats[r], track, streamType)
    requires Closed(stats, visited', {}) && Extends(visited, visited') && Gained(stats, stats[r], visited, visited')
    requires ProperBut(visited, visited', None)
    ensures Collected(stats, visited', track, streamType)
  {
    hide Reachable, Proper, IsRoot;
    GainedAgrees(stats, stats[r], visited, visited');
    forall k | k in visited'
      ensures FromRoot(stats, track, streamType, k) && k in stats && Proper(visited'[k])
    {
      if k !in visited {
        assert Reachable(stats, stats[r], k);
        var k' :| k' in stats && stats[k'] == visited'[k];
        assert stats[k'].id == k';
      }
    }
  }

  /** Every root has been walked from. */
  ghost predicate RootsVisited(stats: map<string, Stat>, visited: map<string, Stat>, track: string, streamType: string) {
    forall r :: r in stats && IsRoot(stats, stats[r], track, streamType) ==> r in visited
  }

  lemma RootReachIsVisited(stats: map<string, Stat>, visited: map<string, Stat>, track: string, streamType: string, k: string)
    requires Keyed(stats) && Closed(stats, visited, {}) && Agrees(stats, visited) && RootsVisited(stats, visited, track, streamType)
    requires FromRoot(stats, track, streamType, k)
    ensures k in visited
  {
    hide ReachesIn, Refers, IsRoot;
    var r :| r in stats && IsRoot(stats, stats[r], track, streamType) && Reachable(stats, stats[r], k);
    var n: nat :| ReachesIn(stats, stats[r], k, n);
    assert stats[r].id == r && r in visited && visited[r] == stats[r];
    hide Closed;
    ClosedHoldsReachable(stats, visited, stats[r], k, n);
  }

  lemma CollectedIsExact(stats: map<string, Stat>, visited: map<string, Stat>, track: string, streamType: string)
    requires Keyed(stats) && Collected(stats, visited, track, streamType) && RootsVisited(stats, visited, track, streamType)
    ensures forall k :: k in visited <==> FromRoot(stats, track, streamType, k)
    ensures forall k :: k in visited ==> k in stats && visited[k] == stats[k]
    ensures !StuckFromRoot(stats, track, streamType)
  {
    hide Closed, Proper, IsRoot;
    forall k | FromRoot(stats, track, streamType, k)
      ensures k in visited
    {
      RootReachIsVisited(stats, visited, track, streamType, k);
    }
  }

  /** The entries for which a forEach callback that collects matching ones has run. */
  method TrackStats(stats: map<string, Stat>, order: seq<string>, track: string) returns (found: seq<Stat>)
    requires forall k :: k in order ==> k in stats
    ensures forall t :: t in found <==> exists k :: k in order && stats[k] == t && IsTrack(t, track)
  {
    found := [];
    for i := 0 to |order|
      invariant forall t :: t in found ==> exists k :: k in order && stats[k] == t && IsTrack(t, track)
      invariant forall k :: k in order[..i] && IsTrack(stats[k], track) ==> stats[k] in found
    {
      assert order[..i + 1] == order[..i] + [order[i]];
      if IsTrack(stats[order[i]], track) {
        found := found + [stats[order[i]]];
      }
    }
    assert order[..|order|] == order;
  }

  /** The streams of one track entry have been walked from. */
  ghost predicate StreamsVisited(stats: map<string, Stat>, visited: map<string, Stat>, order: seq<string>, id: string, streamType: string) {
    forall r :: r in order && r in stats && Is(stats[r], "type", streamType) && Is(stats[r], "trackId", id) ==> r in visited
  }

  /** The inner forEach: walks from every stream of this track entry. */
  method WalkFromStreams(walk: StatsWalk, order: seq<string>, t: Stat, track: string, streamType: string) returns (ok: bool)
    requires Keyed(walk.stats) && (forall k :: k in order ==> k in walk.stats)
    requires Collected(walk.stats, walk.resultSet, track, streamType)
    requires t in walk.stats.Values && IsTrack(t, track)
    modifies walk
    ensures Extends(old(walk.resultSet), walk.resultSet)
    ensures ok ==> Collected(walk.stats, walk.resultSet, track, streamType)
    ensures ok ==> StreamsVisited(walk.stats, walk.resultSet, order, t.id, streamType)
    ensures !ok ==> StuckFromRoot(walk.stats, track, streamType)
  {
    hide Closed, Agrees, FromRoot, Is, Gained, ProperBut, Stuck, StuckFromRoot, Proper, IsRoot;
    var stats := walk.stats;
    for j := 0 to |order|
      invariant Collected(stats, walk.resultSet, track, streamType) && Extends(old(walk.resultSet), walk.resultSet)
      invariant StreamsVisited(stats, walk.resultSet, order[..j], t.id, streamType)
    {
      assert order[..j + 1] == order[..j] + [order[j]];
      var s := stats[order[j]];
      if Is(s, "type", streamType) && Is(s, "trackId", t.id) {
        ghost var visited := walk.resultSet;
        OfTrack(stats, s, t, track, streamType);
        ok := walk.Walk(Some(s), {});
        if !ok {
          StuckOnTheWay(stats, order[j], visited, walk.resultSet, track, streamType);
          return;
        }
        CollectsOn(stats, order[j], visited, walk.resultSet, track, streamType);
      }
    }
    assert order[..|order|] == order;
    ok := true;
  }

  lemma OfTrack(stats: map<string, Stat>, s: Stat, t: Stat, track: string, streamType: string)
    requires t in stats.Values && IsTrack(t, track) && Is(s, "type", streamType) && Is(s, "trackId", t.id)
    ensures IsRoot(stats, s, track, streamType)
  {
  }

  /**
   * filterStats: exactly what can be reached from the streams of the track, in the wanted direction; `order`
   * is the order in which the map's entries are visited. It fails exactly if one of these entries is not proper.
   */
  method FilterStats(stats: map<string, Stat>, order: seq<string>, track: Option<string>, outbound: bool)
    returns (ok: bool, filtered: map<string, Stat>)
    requires Keyed(stats) && forall k :: k in stats <==> k in order
    ensures track.None? ==> ok && filtered == map[]
    ensures track.Some? ==>
              var streamType := if outbound then "outbound-rtp" else "inbound-rtp";
              && (ok <==> forall k :: k in stats && FromRoot(stats, track.value, streamType, k) ==> Proper(stats[k]))
              && (ok ==> forall k :: k in filtered <==> FromRoot(stats, track.value, streamType, k))
              && (ok ==> forall k :: k in filtered ==> k in stats && filtered[k] == stats[k])
  {
    hide Closed, Agrees, FromRoot, Is, Gained, IsTrack, Proper;
    var streamType := if outbound then "outbound-rtp" else "inbound-rtp";
    var walk := new StatsWalk(stats);
    if track.None? {
      return true, walk.resultSet;
    }
    EmptyIsCollected(stats, track.value, streamType);
    var trackStats := TrackStats(stats, order, track.value);
    for i := 0 to |trackStats|
      invariant Collected(stats, walk.resultSet, track.value, streamType)
      invariant forall j :: 0 <= j < i ==> StreamsVisited(stats, walk.resultSet, order, trackStats[j].id, streamType)
    {
      assert trackStats[i] in trackStats;
      ghost var k :| k in order && stats[k] == trackStats[i] && IsTrack(trackStats[i], track.value);
      assert stats[k] in stats.Values;
      ok := WalkFromStreams(walk, order, trackStats[i], track.value, streamType);
      if !ok {
        return ok, walk.resultSet;
      }
    }
    RootsAreVisited(stats, walk.resultSet, order, trackStats, track.value, streamType);
    CollectedIsExact(stats, walk.resultSet, track.value, streamType);
    ok, filtered := true, walk.resultSet;
  }

  lemma RootsAreVisited(stats: map<string, Stat>, visited: map<string, Stat>, order: seq<string>, trackStats: seq<Stat>,
                        track: string, streamType: string)
    requires forall k :: k in stats ==> k in order
    requires forall k :: k in order && k in stats && IsTrack(stats[k], track) ==> stats[k] in trackStats
    requires forall j :: 0 <= j < |trackStats| ==> StreamsVisited(stats, visited, order, trackStats[j].id, streamType)
    ensures RootsVisited(stats, visited, track, streamType)
  {
    hide Is, IsTrack;
    forall r | r in stats && IsRoot(stats, stats[r], track, streamType)
      ensures r in visited
    {
      var t :| t in stats && IsTrack(stats[t], track) && Is(stats[r], "trackId", stats[t].id);
      assert stats[t] in trackStats;
    }
  }

  lemma EmptyIsCollected(stats: map<string, Stat>, track: string, streamType: string)
    ensures Collected(stats, map[], track, streamType)
  {
  }
}
