/**
 The preload: climbs the marker graph level by level with one query for each level, then fetches
 every vtxo that carries one of the markers found.
 */
module MarkerPreload {
  import opened Outpoints
  import opened VtxoChain
  import opened VtxoChainTheorems
  import opened MarkerIndex
  import opened MarkerRank
  import opened VtxoStore

  type Markers = map<MarkerId, Marker>

  // The levels of the climb.

  ghost function Parents(markers: Markers, ids: set<MarkerId>): set<MarkerId> {
    set id, p | id in ids && id in markers && p in markers[id].parents :: p
  }

  ghost function AllParents(markers: Markers): set<MarkerId> {
    set id, p | id in markers && p in markers[id].parents :: p
  }

  ghost function Next(markers: Markers, current: set<MarkerId>, visited: set<MarkerId>): set<MarkerId> {
    Parents(markers, current) - (visited + current)
  }

  /** What is left to climb. */
  ghost function Above(markers: Markers, current: set<MarkerId>, visited: set<MarkerId>): set<MarkerId> {
    AllParents(markers) + current - visited
  }

  lemma ClimbShrinks(markers: Markers, current: set<MarkerId>, visited: set<MarkerId>)
    requires current !! visited && current != {}
    ensures |Above(markers, Next(markers, current, visited), visited + current)| < |Above(markers, current, visited)|
  {
    var above, above' := Above(markers, current, visited), Above(markers, Next(markers, current, visited), visited + current);
    var id :| id in current;
    assert above' <= above - {id};
    Fewer(above', above - {id});
  }

  lemma Fewer(a: set<MarkerId>, b: set<MarkerId>)
    requires a <= b
    ensures |a| <= |b|
  {
    assert b == a + (b - a);
  }

  ghost function Levels(markers: Markers, current: set<MarkerId>, visited: set<MarkerId>): seq<set<MarkerId>>
    requires current !! visited
    decreases |Above(markers, current, visited)|
  {
    if current == {} then []
    else
      ClimbShrinks(markers, current, visited);
      [current] + Levels(markers, Next(markers, current, visited), visited + current)
  }

  ghost predicate Disjoint(levels: seq<set<MarkerId>>, visited: set<MarkerId>) {
    && (forall i :: 0 <= i < |levels| ==> levels[i] != {} && levels[i] !! visited)
    && (forall i, j :: 0 <= i < j < |levels| ==> levels[i] !! levels[j])
  }

  lemma NoLevels(visited: set<MarkerId>)
    ensures Disjoint([], visited)
  {
  }

  lemma LevelBefore(current: set<MarkerId>, rest: seq<set<MarkerId>>, visited: set<MarkerId>)
    requires Disjoint(rest, visited + current) && current != {} && current !! visited
    ensures Disjoint([current] + rest, visited)
  {
    var levels := [current] + rest;
    forall i | 0 <= i < |levels| ensures levels[i] != {} && levels[i] !! visited && (i > 0 ==> current !! levels[i]) {
      if i > 0 {
        assert levels[i] == rest[i - 1] && rest[i - 1] !! visited + current;
      }
    }
  }

  /** No marker is fetched in two levels. */
  lemma {:induction false} LevelsDisjoint(markers: Markers, current: set<MarkerId>, visited: set<MarkerId>)
    requires current !! visited
    ensures Disjoint(Levels(markers, current, visited), visited)
    decreases |Above(markers, current, visited)|
  {
    hide Next, Above, Disjoint;
    if current == {} {
      NoLevels(visited);
    } else {
      ClimbShrinks(markers, current, visited);
      NextIsNew(markers, current, visited);
      LevelsDisjoint(markers, Next(markers, current, visited), visited + current);
      LevelBefore(current, Levels(markers, Next(markers, current, visited), visited + current), visited);
    }
  }

  ghost function Union(levels: seq<set<MarkerId>>): set<MarkerId> {
    if levels == [] then {} else levels[0] + Union(levels[1..])
  }

  lemma {:induction false} LevelsClosed(markers: Markers, current: set<MarkerId>, visited: set<MarkerId>)
    requires current !! visited
    ensures var found := Union(Levels(markers, current, visited));
            current <= found && Parents(markers, found) <= found + visited
    decreases |Above(markers, current, visited)|
  {
    if current != {} {
      ClimbShrinks(markers, current, visited);
      var next := Next(markers, current, visited);
      LevelsClosed(markers, next, visited + current);
      var rest := Union(Levels(markers, next, visited + current));
      var levels := Levels(markers, current, visited);
      assert levels[1..] == Levels(markers, next, visited + current);
      forall p | p in Parents(markers, current + rest) ensures p in current + rest + visited {
        assert p in Parents(markers, current) || p in Parents(markers, rest);
      }
    }
  }

  lemma {:induction false} LevelsReachable(
    markers: Markers, starts: seq<MarkerId>, current: set<MarkerId>, visited: set<MarkerId>)
    requires current !! visited && forall id :: id in current ==> MarkerReachable(markers, starts, id)
    ensures forall id :: id in Union(Levels(markers, current, visited)) ==> MarkerReachable(markers, starts, id)
    decreases |Above(markers, current, visited)|
  {
    hide MarkerReachable;
    if current != {} {
      ClimbShrinks(markers, current, visited);
      var next := Next(markers, current, visited);
      forall p | p in next ensures MarkerReachable(markers, starts, p) {
        var id :| id in current && id in markers && p in markers[id].parents;
        MarkerParent(markers, starts, id, p);
      }
      LevelsReachable(markers, starts, next, visited + current);
      assert Levels(markers, current, visited)[1..] == Levels(markers, next, visited + current);
    }
  }

  ghost function Elements(ids: seq<MarkerId>): set<MarkerId> {
    set id | id in ids
  }

  lemma {:induction false} ClosedUnderPaths(
    markers: Markers, starts: seq<MarkerId>, found: set<MarkerId>, path: seq<MarkerId>, id: MarkerId)
    requires Elements(starts) <= found && Parents(markers, found) <= found && LeadsTo(markers, starts, path, id)
    ensures id in found
    decreases |path|
  {
    var n := |path| - 1;
    if n > 0 {
      assert LeadsTo(markers, starts, path[..n], path[n - 1]);
      ClosedUnderPaths(markers, starts, found, path[..n], path[n - 1]);
      assert id in Parents(markers, found);
    } else {
      assert id in Elements(starts);
    }
  }

  /** The climb finds exactly the markers that the start markers lead to. */
  lemma ClimbFindsReachable(markers: Markers, starts: seq<MarkerId>)
    ensures forall id :: id in Union(Levels(markers, Elements(starts), {})) <==> MarkerReachable(markers, starts, id)
  {
    hide MarkerReachable, LeadsTo;
    var found := Union(Levels(markers, Elements(starts), {}));
    forall id | id in Elements(starts) ensures MarkerReachable(markers, starts, id) {
      MarkerStart(markers, starts, id);
    }
    LevelsReachable(markers, starts, Elements(starts), {});
    LevelsClosed(markers, Elements(starts), {});
    forall id | MarkerReachable(markers, starts, id) ensures id in found {
      var path := PathTo(markers, starts, id);
      ClosedUnderPaths(markers, starts, found, path, id);
    }
  }

  lemma PathTo(markers: Markers, starts: seq<MarkerId>, id: MarkerId) returns (path: seq<MarkerId>)
    requires MarkerReachable(markers, starts, id)
    ensures LeadsTo(markers, starts, path, id)
  {
    path :| LeadsTo(markers, starts, path, id);
  }

  // How many levels there are.

  /** The level holds markers of rank at most rank; dust markers have their parents beside them. */
  ghost predicate Climbing(db: Db, current: set<MarkerId>, visited: set<MarkerId>, rank: nat) {
    && (forall id :: id in current ==> Rank(db.vtxos, id) <= rank)
    && (forall id, p :: id in current && id.OutpointMarker? && id in db.markers && p in db.markers[id].parents ==>
          p in current || p in visited)
  }

  lemma ClimbsDown(db: Db, current: set<MarkerId>, visited: set<MarkerId>, rank: nat)
    requires Ranked(db) && Climbing(db, current, visited, rank)
    requires Next(db.markers, current, visited) != {}
    ensures rank > 0 && Climbing(db, Next(db.markers, current, visited), visited + current, rank - 1)
  {
    var next := Next(db.markers, current, visited);
    forall p | p in next
      ensures rank > 0 && Rank(db.vtxos, p) <= rank - 1
      ensures p.OutpointMarker? && p in db.markers ==>
                forall q :: q in db.markers[p].parents ==> q in next || q in visited + current
    {
      var id :| id in current && id in db.markers && p in db.markers[id].parents;
      assert MarkerRanked(db, db.markers[id]);
      assert id.TxMarker?;
      assert forall q :: q in db.markers[id].parents ==> q in Parents(db.markers, current);
    }
    var p :| p in next;
  }

  lemma {:induction false} LevelsBound(db: Db, current: set<MarkerId>, visited: set<MarkerId>, rank: nat)
    requires Ranked(db) && current !! visited && Climbing(db, current, visited, rank)
    ensures |Levels(db.markers, current, visited)| <= rank + 1
    decreases |Above(db.markers, current, visited)|
  {
    hide Ranked, Climbing, Next, Above;
    if current != {} {
      ClimbShrinks(db.markers, current, visited);
      var next := Next(db.markers, current, visited);
      NextIsNew(db.markers, current, visited);
      if next != {} {
        ClimbsDown(db, current, visited, rank);
        LevelsBound(db, next, visited + current, rank - 1);
      }
    }
  }

  lemma NextIsNew(markers: Markers, current: set<MarkerId>, visited: set<MarkerId>)
    ensures Next(markers, current, visited) !! visited + current
  {
  }

  /** From the markers of vtxos no deeper than depth, the climb takes at most depth / 100 + 1 levels. */
  lemma ClimbBound(db: Db, vtxos: seq<Outpoint>, starts: seq<MarkerId>, depth: nat)
    requires Ranked(db)
    requires forall op :: op in vtxos ==> op in db.vtxos && db.vtxos[op].depth <= depth
    requires forall id :: id in starts <==> exists op :: op in vtxos && MarkerOf(db, op, id)
    ensures |Levels(db.markers, Elements(starts), {})| <= depth / MarkerInterval + 1
  {
    forall id | id in starts
      ensures Rank(db.vtxos, id) <= depth / MarkerInterval
      ensures id.OutpointMarker? && id in db.markers ==> forall p :: p in db.markers[id].parents ==> p in starts
    {
      var op :| op in vtxos && MarkerOf(db, op, id);
      assert RowRanked(db, db.vtxos[op]);
      assert forall p :: p in db.vtxos[op].markers ==> MarkerOf(db, op, p);
    }
    LevelsBound(db, Elements(starts), {}, depth / MarkerInterval);
  }

  /** For every database built from leaves and offchain txs whose depths fit 32 bits. */
  lemma BuiltClimbBound(steps: seq<BuildStep>, op: Outpoint)
    requires CanBuildAll(Empty, steps) && DepthsFit(Empty, steps) && op in BuildAll(Empty, steps).vtxos
    ensures var db := BuildAll(Empty, steps);
            |Levels(db.markers, Elements(db.vtxos[op].markers), {})| <= db.vtxos[op].depth / 100 + 1
  {
    hide CanBuildAll, BuildAll, DepthsFit, Levels, RowRanked, MarkerRanked;
    assert Ranked(Empty);
    BuiltRanked(Empty, steps);
    var db := BuildAll(Empty, steps);
    assert forall id :: id in db.vtxos[op].markers <==> MarkerOf(db, op, id);
    ClimbBound(db, [op], db.vtxos[op].markers, db.vtxos[op].depth);
  }

  // The climb itself.

  ghost predicate SomeParent(rows: seq<Marker>, p: MarkerId) {
    exists k :: 0 <= k < |rows| && p in rows[k].parents
  }

  /** The parents that were not visited yet, with repetitions where markers share a parent. */
  method UnvisitedParents(rows: seq<Marker>, visited: set<MarkerId>) returns (next: seq<MarkerId>)
    ensures forall p :: p in next <==> p !in visited && SomeParent(rows, p)
  {
    next := [];
    for i := 0 to |rows|
      invariant forall p :: p in next <==> p !in visited && SomeParent(rows[..i], p)
    {
      ghost var before := next;
      for j := 0 to |rows[i].parents|
        invariant forall p :: p in next <==> p in before || (p !in visited && p in rows[i].parents[..j])
      {
        var pid := rows[i].parents[j];
        assert rows[i].parents[..j + 1] == rows[i].parents[..j] + [pid];
        if pid !in visited {
          next := next + [pid];
        }
      }
      assert rows[i].parents[..|rows[i].parents|] == rows[i].parents;
      assert rows[..i + 1] == rows[..i] + [rows[i]];
      forall p ensures SomeParent(rows[..i + 1], p) <==> SomeParent(rows[..i], p) || p in rows[i].parents {
        SomeParentSnoc(rows[..i], rows[i], p);
      }
    }
    assert rows[..|rows|] == rows;
  }

  lemma SomeParentSnoc(rows: seq<Marker>, m: Marker, p: MarkerId)
    ensures SomeParent(rows + [m], p) <==> SomeParent(rows, p) || p in m.parents
  {
    var all := rows + [m];
    if p in m.parents {
      assert all[|rows|] == m;
    }
    if SomeParent(rows, p) {
      var k :| 0 <= k < |rows| && p in rows[k].parents;
      assert all[k] == rows[k];
    }
  }

  ghost function AsSets(fetches: seq<seq<MarkerId>>): seq<set<MarkerId>> {
    seq(|fetches|, i requires 0 <= i < |fetches| => Elements(fetches[i]))
  }

  lemma FetchedParents(db: Db, ids: seq<MarkerId>, rows: seq<Marker>, visited: set<MarkerId>, next: seq<MarkerId>)
    requires forall m :: m in rows <==> exists id :: id in ids && id in db.markers && m == db.markers[id]
    requires forall p :: p in next <==> p !in visited + Elements(ids) && SomeParent(rows, p)
    ensures Elements(next) == Next(db.markers, Elements(ids), visited)
  {
    forall p ensures SomeParent(rows, p) <==> p in Parents(db.markers, Elements(ids)) {
      if SomeParent(rows, p) {
        var k :| 0 <= k < |rows| && p in rows[k].parents;
        assert rows[k] in rows;
      }
      if p in Parents(db.markers, Elements(ids)) {
        var id :| id in Elements(ids) && id in db.markers && p in db.markers[id].parents;
        assert db.markers[id] in rows;
      }
    }
  }

  lemma UnionConcat(a: seq<set<MarkerId>>, b: set<MarkerId>)
    ensures Union(a + [b]) == Union(a) + b
  {
    if a == [] {
      assert a + [b] == [b];
    } else {
      UnionConcat(a[1..], b);
      assert (a + [b])[1..] == a[1..] + [b];
    }
  }

  ghost predicate ClimbInv(
    db: Db, starts: seq<MarkerId>, ids: seq<MarkerId>, fetches: seq<seq<MarkerId>>, current: seq<MarkerId>,
    visited: set<MarkerId>)
  {
    && Elements(current) !! visited
    && AsSets(fetches) + Levels(db.markers, Elements(current), visited) == Levels(db.markers, Elements(starts), {})
    && Elements(ids) == Union(AsSets(fetches)) + Elements(current)
  }

  lemma ClimbStep(
    db: Db, starts: seq<MarkerId>, ids: seq<MarkerId>, fetches: seq<seq<MarkerId>>, current: seq<MarkerId>,
    visited: set<MarkerId>, next: seq<MarkerId>)
    requires ClimbInv(db, starts, ids, fetches, current, visited) && current != []
    requires Elements(next) == Next(db.markers, Elements(current), visited)
    ensures ClimbInv(db, starts, ids + next, fetches + [current], next, visited + Elements(current))
    ensures |Above(db.markers, Elements(next), visited + Elements(current))| < |Above(db.markers, Elements(current), visited)|
  {
    hide Next, Above, Union;
    assert current[0] in Elements(current);
    ClimbShrinks(db.markers, Elements(current), visited);
    NextIsNew(db.markers, Elements(current), visited);
    assert AsSets(fetches + [current]) == AsSets(fetches) + [Elements(current)];
    UnionConcat(AsSets(fetches), Elements(current));
    assert Elements(ids + next) == Elements(ids) + Elements(next);
  }

  lemma ClimbDone(db: Db, starts: seq<MarkerId>, ids: seq<MarkerId>, fetches: seq<seq<MarkerId>>, visited: set<MarkerId>)
    requires ClimbInv(db, starts, ids, fetches, [], visited)
    ensures AsSets(fetches) == Levels(db.markers, Elements(starts), {})
    ensures forall id :: id in ids <==> MarkerReachable(db.markers, starts, id)
  {
    hide MarkerReachable, Union;
    assert Elements([]) == {};
    ClimbFindsReachable(db.markers, starts);
    assert AsSets(fetches) == Levels(db.markers, Elements(starts), {});
    assert forall id :: id in ids <==> id in Elements(ids);
  }

  lemma ClimbStart(db: Db, starts: seq<MarkerId>)
    ensures ClimbInv(db, starts, starts, [], starts, {})
  {
    assert AsSets([]) == [];
  }

  /**
   Climbs from the start markers. fetches are the queries made, one for each level; ids are the
   markers discovered. The climb ends on every graph, cycles included, unless a query fails.
   */
  method ClimbMarkers(db: Db, starts: seq<MarkerId>, up: bool)
    returns (ok: bool, ids: seq<MarkerId>, fetches: seq<seq<MarkerId>>)
    ensures up ==> ok
    ensures ok ==> AsSets(fetches) == Levels(db.markers, Elements(starts), {})
    ensures ok ==> forall id :: id in ids <==> MarkerReachable(db.markers, starts, id)
  {
    hide ClimbInv, Next, Above, MarkerReachable, Levels, AsSets;
    ids := starts;
    fetches := [];
    var current := starts;
    var visited: set<MarkerId> := {};
    ClimbStart(db, starts);
    while current != []
      invariant ClimbInv(db, starts, ids, fetches, current, visited)
      decreases |Above(db.markers, Elements(current), visited)|
    {
      var rows := GetMarkersByIds(db, current, up);
      if rows.Err? {
        return false, ids, fetches;
      }
      var expanded := set id | id in current;
      var next := UnvisitedParents(rows.value, visited + expanded);
      FetchedParents(db, current, rows.value, visited, next);
      ClimbStep(db, starts, ids, fetches, current, visited, next);
      fetches := fetches + [current];
      visited := visited + expanded;
      ids := ids + next;
      current := next;
    }
    ClimbDone(db, starts, ids, fetches, visited);
    return true, ids, fetches;
  }
}
