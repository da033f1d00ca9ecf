/** What a placed chunk guarantees: isolation of its blocks, completeness of the search, and
    determinism. The lemmas speak about the runs that the methods of Allocator establish. */
module Placement {
  import opened Finite
  import opened Lib
  import opened Index
  import opened Pickers
  import opened Allocator

  // ----- what every pick of a chain satisfies -----

  lemma ChoiceFits(tree: Tree, q: Probe, p: Pick)
    requires Picks(tree, q, p)
    ensures Listed(tree, p.entity, p.device, p.nisd) && Fits(q.nisds, q.left, p.nisd)
    ensures Eligible(tree[p.entity], q.usage, p.device)
  {
    var nisds := tree[p.entity][p.device].nisds;
    var k: nat :| Fullest(nisds, q.nisds, q.left, p.nisd, k, |nisds|);
    assert nisds[k] in nisds;
  }

  lemma {:induction false} ChainListed(tree: Tree, usage: DeviceUsage, left: map<Id, int>, off: nat, picks: seq<Pick>)
    requires Chain(tree, usage, left, off, picks)
    ensures forall p :: p in picks ==> Listed(tree, p.entity, p.device, p.nisd)
  {
    if picks != [] {
      var n := |picks| - 1;
      ChainListed(tree, usage, left, off, picks[..n]);
      ChoiceFits(tree, ProbeAfter(tree, usage, left, off, picks[..n]), picks[n]);
    }
  }

  lemma {:induction false} PickAt(tree: Tree, usage: DeviceUsage, left: map<Id, int>, off: nat, picks: seq<Pick>, i: nat)
    requires Chain(tree, usage, left, off, picks) && i < |picks|
    ensures Chain(tree, usage, left, off, picks[..i])
    ensures Picks(tree, ProbeAfter(tree, usage, left, off, picks[..i]), picks[i])
  {
    hide Picks, ProbeAfter;
    var n := |picks| - 1;
    if i < n {
      PickAt(tree, usage, left, off, picks[..n], i);
      assert picks[..n][..i] == picks[..i];
    }
  }

  // ----- fault isolation -----

  /** The blocks of a chunk lie on pairwise distinct NISDs. */
  lemma {:induction false} DistinctNisds(tree: Tree, usage: DeviceUsage, left: map<Id, int>, off: nat, picks: seq<Pick>)
    requires Chain(tree, usage, left, off, picks)
    ensures forall i, j :: 0 <= i < j < |picks| ==> picks[i].nisd != picks[j].nisd
  {
    if picks != [] {
      var n := |picks| - 1;
      DistinctNisds(tree, usage, left, off, picks[..n]);
      ChoiceFits(tree, ProbeAfter(tree, usage, left, off, picks[..n]), picks[n]);
      forall i | 0 <= i < n ensures picks[i].nisd != picks[n].nisd {
        assert picks[..n][i] in picks[..n];
      }
    }
  }

  lemma StopsAtNew(tree: Tree, start: nat, before: seq<Pick>, q: Probe, p: Pick)
    requires Stops(tree, start, before, q, p)
    ensures p.entity in tree && p.entity !in EntitiesOf(before)
  {
    assert p.entity in Ranked(tree.Keys);
  }

  lemma OneMoreEntity(before: seq<Pick>, p: Pick)
    requires p.entity !in EntitiesOf(before)
    ensures EntitiesOf(before + [p]) == EntitiesOf(before) + {p.entity}
    ensures |EntitiesOf(before + [p])| == |EntitiesOf(before)| + 1
    ensures forall i :: 0 <= i < |before| ==> before[i].entity != p.entity
  {
    forall i | 0 <= i < |before| ensures before[i].entity != p.entity { assert before[i] in before; }
  }

  lemma NoEntities()
    ensures EntitiesOf([]) == {}
  {
  }

  /** The blocks of an unfiltered chunk lie in pairwise distinct entities of its level. */
  lemma {:induction false} DistinctEntities(tree: Tree, start: nat, usage: DeviceUsage, left: map<Id, int>, off: nat, picks: seq<Pick>)
    requires WalkChain(tree, start, usage, left, off, picks)
    ensures forall i, j :: 0 <= i < j < |picks| ==> picks[i].entity != picks[j].entity
    ensures |EntitiesOf(picks)| == |picks| && EntitiesOf(picks) <= tree.Keys
  {
    hide Stops, ProbeAfter, EntitiesOf;
    if picks == [] {
      NoEntities();
    } else {
      var n := |picks| - 1;
      var before := picks[..n];
      DistinctEntities(tree, start, usage, left, off, before);
      StopsAtNew(tree, start, before, ProbeAfter(tree, usage, left, off, before), picks[n]);
      OneMoreEntity(before, picks[n]);
      assert picks == before + [picks[n]];
      forall i, j | 0 <= i < j < |picks| ensures picks[i].entity != picks[j].entity {
        if j < n { assert before[i].entity != before[j].entity; } else { assert before[i].entity != picks[n].entity; }
      }
    }
  }

  lemma {:induction false} TupleOf(tree: Tree, i: nat, objs: map<Id, Nisd>, usage: DeviceUsage, left: map<Id, int>,
                                   off: nat, picks: seq<Pick>, p: Pick)
    requires TreeAgrees(tree, i, objs) && Chain(tree, usage, left, off, picks) && p in picks
    ensures p.nisd in objs && Under(objs[p.nisd], i, p.entity, p.device)
  {
    ChainListed(tree, usage, left, off, picks);
  }

  /** Fault isolation: two blocks of an unfiltered chunk placed at level fd never share an entity
      of level fd or of any finer level, whatever the state they were placed in. */
  lemma FaultIsolation(levels: seq<Tree>, objs: map<Id, Nisd>, fd: nat, total: nat, start: nat, usage: DeviceUsage,
                       left: map<Id, int>, off: nat, out: Outcome, picks: seq<Pick>, a: nat, b: nat, i: nat)
    requires Agrees(levels, objs) && Nested(objs) && fd <= i < FD_MAX
    requires AcrossRun(levels[fd], total, start, usage, left, off, out, picks)
    requires a < b < |picks|
    ensures picks[a].nisd in objs && picks[b].nisd in objs && picks[a].nisd != picks[b].nisd
    ensures objs[picks[a].nisd].fdom[i] != objs[picks[b].nisd].fdom[i]
  {
    assert TreeAgrees(levels[fd], fd, objs);
    TupleOf(levels[fd], fd, objs, usage, left, off, picks, picks[a]);
    TupleOf(levels[fd], fd, objs, usage, left, off, picks, picks[b]);
    DistinctNisds(levels[fd], usage, left, off, picks);
    DistinctEntities(levels[fd], start, usage, left, off, picks);
    CoarserFollows(objs, picks[a].nisd, picks[b].nisd, fd, i);
  }

  /** Tuples that agree at a level agree at every coarser level. */
  lemma {:induction false} CoarserFollows(objs: map<Id, Nisd>, n: Id, m: Id, fd: nat, i: nat)
    requires WellTyped(objs) && Nested(objs) && n in objs && m in objs && fd <= i < FD_MAX
    ensures objs[n].fdom[i] == objs[m].fdom[i] ==> objs[n].fdom[fd] == objs[m].fdom[fd]
    decreases i
  {
    if fd < i && objs[n].fdom[i] == objs[m].fdom[i] {
      assert objs[n].fdom[i-1] == objs[m].fdom[i-1];
      CoarserFollows(objs, n, m, fd, i - 1);
    }
  }

  // ----- determinism -----

  lemma PicksUnique(tree: Tree, q: Probe, p1: Pick, p2: Pick)
    requires Picks(tree, q, p1) && Picks(tree, q, p2) && p1.entity == p2.entity
    ensures p1.device == p2.device && p1.nisd == p2.nisd
  {
    DeviceChoiceUnique(tree[p1.entity], q.devices, q.usage, q.off, Some(p1.device), Some(p2.device));
    NisdChoiceUnique(tree[p1.entity][p1.device].nisds, q.nisds, q.left, p1.nisd, Some(p2.nisd));
  }

  lemma StopsUnique(tree: Tree, start: nat, before: seq<Pick>, q: Probe, p1: Pick, p2: Pick)
    requires Stops(tree, start, before, q, p1) && Stops(tree, start, before, q, p2)
    requires Picks(tree, q, p1) && Picks(tree, q, p2)
    ensures p1 == p2
  {
    ServiceableOnce(tree, q, p1);
    ServiceableOnce(tree, q, p2);
    var ents, c := Ranked(tree.Keys), Cursor(|tree|, start, before);
    assert !Passed(tree, ents[p1.rank], EntitiesOf(before), q) && !Passed(tree, ents[p2.rank], EntitiesOf(before), q);
    assert Dist(c, p1.rank, |ents|) == Dist(c, p2.rank, |ents|);
    PicksUnique(tree, q, p1, p2);
  }

  /** Two runs from one state agree on every block both of them place. */
  lemma {:induction false} SameBlocks(tree: Tree, start: nat, usage: DeviceUsage, left: map<Id, int>, off: nat,
                                      p1: seq<Pick>, p2: seq<Pick>, n: nat)
    requires Chain(tree, usage, left, off, p1) && WalkChain(tree, start, usage, left, off, p1)
    requires Chain(tree, usage, left, off, p2) && WalkChain(tree, start, usage, left, off, p2)
    requires n <= |p1| && n <= |p2|
    ensures p1[..n] == p2[..n]
  {
    hide DeviceChoice, NisdChoice, Picks, UsageAfter, LeftAfter, Passed, Unserviceable, Stops;
    if n > 0 {
      SameBlocks(tree, start, usage, left, off, p1, p2, n - 1);
      ChainAt(tree, start, usage, left, off, p1, n - 1);
      ChainAt(tree, start, usage, left, off, p2, n - 1);
      StopsUnique(tree, start, p1[..n-1], ProbeAfter(tree, usage, left, off, p1[..n-1]), p1[n-1], p2[n-1]);
      assert p1[..n] == p1[..n-1] + [p1[n-1]] && p2[..n] == p2[..n-1] + [p2[n-1]];
    }
  }

  lemma {:induction false} ChainAt(tree: Tree, start: nat, usage: DeviceUsage, left: map<Id, int>, off: nat, picks: seq<Pick>, i: nat)
    requires Chain(tree, usage, left, off, picks) && WalkChain(tree, start, usage, left, off, picks) && i < |picks|
    ensures Picks(tree, ProbeAfter(tree, usage, left, off, picks[..i]), picks[i])
    ensures Stops(tree, start, picks[..i], ProbeAfter(tree, usage, left, off, picks[..i]), picks[i])
  {
    hide Picks, Stops, ProbeAfter;
    var n := |picks| - 1;
    assert picks[..i][..i] == picks[..i];
    if i < n {
      ChainAt(tree, start, usage, left, off, picks[..n], i);
      assert picks[..n][..i] == picks[..i];
    }
  }

  /** A run is a function of the state, the request, the hash and the offset: replicas that apply the
      same request with the same offset place the same blocks and end the same way. */
  lemma RunIsDeterministic(tree: Tree, total: nat, start: nat, usage: DeviceUsage, left: map<Id, int>, off: nat,
                           o1: Outcome, p1: seq<Pick>, o2: Outcome, p2: seq<Pick>)
    requires AcrossRun(tree, total, start, usage, left, off, o1, p1)
    requires AcrossRun(tree, total, start, usage, left, off, o2, p2)
    ensures o1 == o2 && p1 == p2
  {
    if |p1| < |p2| {
      EndsOnce(tree, total, start, usage, left, off, o1, p1, o2, p2);
    } else if |p2| < |p1| {
      EndsOnce(tree, total, start, usage, left, off, o2, p2, o1, p1);
    } else {
      SameBlocks(tree, start, usage, left, off, p1, p2, |p1|);
      assert p1[..|p1|] == p1 && p2[..|p2|] == p2;
    }
  }

  /** No run goes on where another one stopped. */
  lemma EndsOnce(tree: Tree, total: nat, start: nat, usage: DeviceUsage, left: map<Id, int>, off: nat,
                 o1: Outcome, p1: seq<Pick>, o2: Outcome, p2: seq<Pick>)
    requires AcrossRun(tree, total, start, usage, left, off, o1, p1)
    requires AcrossRun(tree, total, start, usage, left, off, o2, p2)
    ensures |p2| <= |p1|
  {
    var n := |p1|;
    if n < |p2| {
      SameBlocks(tree, start, usage, left, off, p1, p2, n);
      assert p1[..n] == p1;
      ChainAt(tree, start, usage, left, off, p2, n);
      NotPassed(tree, start, p1, ProbeAfter(tree, usage, left, off, p1), p2[n]);
    }
  }

  lemma NotPassed(tree: Tree, start: nat, before: seq<Pick>, q: Probe, p: Pick)
    requires Picks(tree, q, p) && Stops(tree, start, before, q, p)
    ensures p.entity in tree && !Passed(tree, p.entity, EntitiesOf(before), q)
  {
    ServiceableOnce(tree, q, p);
    assert p.entity in Ranked(tree.Keys);
  }

  // ----- filtered chunks are determined, too -----

  ghost predicate AllWithin(e: Id, picks: seq<Pick>) {
    forall p :: p in picks ==> p.entity == e && p.rank == 0
  }

  lemma {:induction false} SameWithin(tree: Tree, e: Id, usage: DeviceUsage, left: map<Id, int>, off: nat,
                                      p1: seq<Pick>, p2: seq<Pick>, n: nat)
    requires Chain(tree, usage, left, off, p1) && AllWithin(e, p1)
    requires Chain(tree, usage, left, off, p2) && AllWithin(e, p2)
    requires n <= |p1| && n <= |p2|
    ensures p1[..n] == p2[..n]
  {
    hide Picks, Chain, ProbeAfter;
    if n > 0 {
      SameWithin(tree, e, usage, left, off, p1, p2, n - 1);
      PickAt(tree, usage, left, off, p1, n - 1);
      PickAt(tree, usage, left, off, p2, n - 1);
      assert p1[n-1] in p1 && p2[n-1] in p2;
      PicksUnique(tree, ProbeAfter(tree, usage, left, off, p1[..n-1]), p1[n-1], p2[n-1]);
      assert p1[..n] == p1[..n-1] + [p1[n-1]] && p2[..n] == p2[..n-1] + [p2[n-1]];
    }
  }

  lemma WithinEndsOnce(tree: Tree, e: Id, total: nat, usage: DeviceUsage, left: map<Id, int>, off: nat,
                       o1: Outcome, p1: seq<Pick>, o2: Outcome, p2: seq<Pick>)
    requires WithinRun(tree, e, total, usage, left, off, o1, p1) && WithinRun(tree, e, total, usage, left, off, o2, p2)
    ensures |p2| <= |p1|
  {
    hide Picks, Chain, UsageAfter, LeftAfter;
    var n := |p1|;
    if n < |p2| {
      SameWithin(tree, e, usage, left, off, p1, p2, n);
      assert p1[..n] == p1;
      PickAt(tree, usage, left, off, p2, n);
      assert p2[n] in p2;
      ServiceableOnce(tree, ProbeAfter(tree, usage, left, off, p1), p2[n]);
    }
  }

  lemma WithinIsDeterministic(tree: Tree, e: Id, total: nat, usage: DeviceUsage, left: map<Id, int>, off: nat,
                              o1: Outcome, p1: seq<Pick>, o2: Outcome, p2: seq<Pick>)
    requires WithinRun(tree, e, total, usage, left, off, o1, p1) && WithinRun(tree, e, total, usage, left, off, o2, p2)
    ensures o1 == o2 && p1 == p2
  {
    hide Picks, Chain, UsageAfter, LeftAfter, Unserviceable;
    WithinEndsOnce(tree, e, total, usage, left, off, o1, p1, o2, p2);
    WithinEndsOnce(tree, e, total, usage, left, off, o2, p2, o1, p1);
    SameWithin(tree, e, usage, left, off, p1, p2, |p1|);
    assert p1[..|p1|] == p1 && p2[..|p2|] == p2;
  }

  /** The run of the chunk allocator, filtered or not, is a function of its inputs. */
  lemma ChunkIsDeterministic(tree: Tree, req: VdevReq, hash: nat, usage: DeviceUsage, left: map<Id, int>, off: nat,
                             o1: Outcome, p1: seq<Pick>, o2: Outcome, p2: seq<Pick>)
    requires ChunkRun(tree, req, hash, usage, left, off, o1, p1) && ChunkRun(tree, req, hash, usage, left, off, o2, p2)
    ensures o1 == o2 && p1 == p2
  {
    hide WithinRun, AcrossRun;
    var total := req.vdev.TotalRedundancyBlocksPerChunk();
    if |tree| == 0 || (req.filter.id != NO_ID && req.filter.id !in tree) {
    } else if req.filter.id != NO_ID {
      WithinIsDeterministic(tree, req.filter.id, total, usage, left, off, o1, p1, o2, p2);
    } else {
      RunIsDeterministic(tree, total, hash % |tree|, usage, left, off, o1, p1, o2, p2);
    }
  }
}
