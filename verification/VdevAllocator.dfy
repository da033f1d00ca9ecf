/** Placing all chunks of a vdev, and falling back to finer failure domains
    (controlplane/ctlplanefuncs/server/srvctlplanefuncs.go, lines 894-946). */
module VdevAllocator {
  import opened Changes
  import opened Finite
  import opened Lib
  import opened Index
  import opened Modulo
  import opened Pickers
  import opened Allocator
  import opened Placement

  // ----- runs over chunks -----

  ghost function Flat(plan: seq<seq<Pick>>): seq<Pick> {
    if plan == [] then [] else Flat(plan[..|plan|-1]) + plan[|plan|-1]
  }

  ghost function VdevChanges(v: VdevConfig, plan: seq<seq<Pick>>): seq<StoreChange> {
    if plan == [] then [] else
      var n := |plan| - 1;
      VdevChanges(v, plan[..n]) + ChunkChanges(v, n, plan[n])
  }

  /** The run of chunk |before| after the chunks in before are placed. */
  ghost predicate NextChunk(tree: Tree, req: VdevReq, hash: nat -> nat, offset: nat, left: map<Id, int>,
                            before: seq<seq<Pick>>, out: Outcome, picks: seq<Pick>)
  {
    ChunkRun(tree, req, hash(|before|), UsageAfter(tree, map[], Flat(before)), LeftAfter(left, Flat(before)),
             |before| + offset, out, picks)
  }

  /** Every chunk of the plan was placed, one after the other. */
  ghost predicate VdevRun(tree: Tree, req: VdevReq, hash: nat -> nat, offset: nat, left: map<Id, int>, plan: seq<seq<Pick>>) {
    plan == [] ||
    (var before := plan[..|plan|-1];
     VdevRun(tree, req, hash, offset, left, before)
     && NextChunk(tree, req, hash, offset, left, before, Placed, plan[|plan|-1]))
  }

  /** An attempt at one level: all chunks placed, or the chunk after the plan did not get through. */
  ghost predicate AttemptRun(tree: Tree, req: VdevReq, hash: nat -> nat, offset: nat, left: map<Id, int>,
                             out: Outcome, plan: seq<seq<Pick>>, rest: seq<Pick>)
  {
    VdevRun(tree, req, hash, offset, left, plan)
    && if out == Placed then |plan| == req.vdev.chunkCnt
       else |plan| < req.vdev.chunkCnt && NextChunk(tree, req, hash, offset, left, plan, out, rest)
  }

  ghost predicate AttemptEnds(tree: Tree, req: VdevReq, hash: nat -> nat, offset: nat, left: map<Id, int>, out: Outcome) {
    exists plan, rest :: AttemptRun(tree, req, hash, offset, left, out, plan, rest)
  }

  ghost predicate AttemptFails(tree: Tree, req: VdevReq, hash: nat -> nat, offset: nat, left: map<Id, int>) {
    AttemptEnds(tree, req, hash, offset, left, Failed)
  }

  lemma {:induction false} UsageAppend(tree: Tree, usage: DeviceUsage, a: seq<Pick>, b: seq<Pick>)
    ensures UsageAfter(tree, UsageAfter(tree, usage, a), b) == UsageAfter(tree, usage, a + b)
  {
    if b == [] {
      assert a + b == a;
    } else {
      var n := |b| - 1;
      UsageAppend(tree, usage, a, b[..n]);
      assert (a + b)[..|a| + n] == a + b[..n];
    }
  }

  lemma {:induction false} LeftAppend(left: map<Id, int>, a: seq<Pick>, b: seq<Pick>)
    ensures LeftAfter(LeftAfter(left, a), b) == LeftAfter(left, a + b)
  {
    if b == [] {
      assert a + b == a;
    } else {
      var n := |b| - 1;
      LeftAppend(left, a, b[..n]);
      assert (a + b)[..|a| + n] == a + b[..n];
    }
  }

  lemma {:induction false} FlatStep(plan: seq<seq<Pick>>, picks: seq<Pick>)
    ensures Flat(plan + [picks]) == Flat(plan) + picks
  {
    assert (plan + [picks])[..|plan|] == plan;
  }

  lemma {:induction false} VdevChangesStep(v: VdevConfig, plan: seq<seq<Pick>>, picks: seq<Pick>)
    ensures VdevChanges(v, plan + [picks]) == VdevChanges(v, plan) + ChunkChanges(v, |plan|, picks)
  {
    assert (plan + [picks])[..|plan|] == plan;
  }

  lemma {:induction false} VdevRunStep(tree: Tree, req: VdevReq, hash: nat -> nat, offset: nat, left: map<Id, int>,
                                       plan: seq<seq<Pick>>, picks: seq<Pick>)
    requires VdevRun(tree, req, hash, offset, left, plan)
    requires NextChunk(tree, req, hash, offset, left, plan, Placed, picks)
    ensures VdevRun(tree, req, hash, offset, left, plan + [picks])
  {
    assert (plan + [picks])[..|plan|] == plan;
  }

  /** The NISDs looked up while the chunks of the plan are placed. */
  ghost function VdevLooked(tree: Tree, req: VdevReq, hash: nat -> nat, offset: nat, left: map<Id, int>, plan: seq<seq<Pick>>): set<Id> {
    if plan == [] then {} else
      var before := plan[..|plan|-1];
      VdevLooked(tree, req, hash, offset, left, before)
      + ChunkLooked(tree, req, hash(|before|), UsageAfter(tree, map[], Flat(before)), LeftAfter(left, Flat(before)),
                    |before| + offset, plan[|plan|-1])
  }

  lemma {:induction false} VdevLookedStep(tree: Tree, req: VdevReq, hash: nat -> nat, offset: nat, left: map<Id, int>,
                                          plan: seq<seq<Pick>>, picks: seq<Pick>)
    ensures VdevLooked(tree, req, hash, offset, left, plan + [picks]) ==
            VdevLooked(tree, req, hash, offset, left, plan)
            + ChunkLooked(tree, req, hash(|plan|), UsageAfter(tree, map[], Flat(plan)), LeftAfter(left, Flat(plan)),
                          |plan| + offset, picks)
  {
    hide ChunkLooked, UsageAfter, LeftAfter, Flat;
    var all := plan + [picks];
    assert all[..|all|-1] == plan && all[|all|-1] == picks;
  }

  // ----- sizes -----

  lemma {:induction false} ChunkChangesSize(v: VdevConfig, chunk: nat, picks: seq<Pick>)
    ensures |ChunkChanges(v, chunk, picks)| == 2 * |picks|
  {
    if picks != [] { ChunkChangesSize(v, chunk, picks[..|picks|-1]); }
  }

  lemma PlacedSize(tree: Tree, req: VdevReq, hash: nat, usage: DeviceUsage, left: map<Id, int>, off: nat, picks: seq<Pick>)
    requires ChunkRun(tree, req, hash, usage, left, off, Placed, picks)
    ensures |picks| == req.vdev.TotalRedundancyBlocksPerChunk()
  {
  }

  /** A placed vdev writes two keys for each of its ChunkCnt x totalBlocks blocks. */
  lemma {:induction false} VdevChangesSize(tree: Tree, req: VdevReq, hash: nat -> nat, offset: nat, left: map<Id, int>, plan: seq<seq<Pick>>)
    requires VdevRun(tree, req, hash, offset, left, plan)
    ensures |VdevChanges(req.vdev, plan)| == 2 * (|plan| * req.vdev.TotalRedundancyBlocksPerChunk())
  {
    hide ChunkRun, ChunkChanges;
    if plan != [] {
      var n, b := |plan| - 1, req.vdev.TotalRedundancyBlocksPerChunk();
      var before := plan[..n];
      VdevChangesSize(tree, req, hash, offset, left, before);
      ChunkChangesSize(req.vdev, n, plan[n]);
      PlacedSize(tree, req, hash(n), UsageAfter(tree, map[], Flat(before)), LeftAfter(left, Flat(before)), n + offset, plan[n]);
      MulSplit(n, 1, b);
    }
  }

  /** With enough entities in the level the entity loop never spins. */
  lemma NoSpin(tree: Tree, req: VdevReq, hash: nat, usage: DeviceUsage, left: map<Id, int>, off: nat, out: Outcome, picks: seq<Pick>)
    requires ChunkRun(tree, req, hash, usage, left, off, out, picks)
    requires req.vdev.TotalRedundancyBlocksPerChunk() <= |tree|
    ensures out != Spins
  {
    if out == Spins {
      DistinctEntities(tree, hash % |tree|, usage, left, off, picks);
    }
  }

  // ----- the methods -----

  /** The changes a request carries to the store. */
  class FuncIntrm {
    var changes: seq<StoreChange>
    constructor (c: seq<StoreChange>) ensures changes == c { changes := c; }
  }

  /** One level: fresh device usage, then chunk after chunk. */
  method AllocateNisdPerVdev(a: Attempt, hr: Hierarchy, req: VdevReq, fd: nat, hash: nat -> nat, offset: nat)
    returns (out: Outcome, ghost plan: seq<seq<Pick>>, ghost rest: seq<Pick>)
    requires Agrees(hr.levels, hr.objs) && fd < FD_MAX
    requires req.filter.id != NO_ID ==> fd == GetFDIdx(req.filter.fdType)
    modifies a
    ensures AttemptRun(hr.levels[fd], req, hash, offset, Left(hr.objs, old(a.nisdMap)), out, plan, rest)
    ensures GrewWithin(old(a.nisdMap), a.nisdMap, hr.objs)
    ensures out == Placed ==>
              a.changes == VdevChanges(req.vdev, plan) && AllIn(Flat(plan), a.nisdMap)
              && Left(hr.objs, a.nisdMap) == LeftAfter(Left(hr.objs, old(a.nisdMap)), Flat(plan))
              && a.nisdMap.Keys == old(a.nisdMap).Keys
                   + VdevLooked(hr.levels[fd], req, hash, offset, Left(hr.objs, old(a.nisdMap)), plan)
  {
    hide ChunkRun, ChunkLooked, UsageAfter, LeftAfter, ChunkChanges, Left, Agrees;
    ghost var left := Left(hr.objs, a.nisdMap);
    LevelCount(hr.levels, hr.objs);
    ghost var tree := hr.levels[fd];
    a.deviceUsage, a.changes := map[], [];
    plan, rest := [], [];
    EmptyAfter(tree, left);
    for i := 0 to req.vdev.chunkCnt
      invariant |plan| == i && VdevRun(tree, req, hash, offset, left, plan)
      invariant GrewWithin(old(a.nisdMap), a.nisdMap, hr.objs) && AllIn(Flat(plan), a.nisdMap)
      invariant a.deviceUsage == UsageAfter(tree, map[], Flat(plan))
      invariant Left(hr.objs, a.nisdMap) == LeftAfter(left, Flat(plan))
      invariant a.changes == VdevChanges(req.vdev, plan)
      invariant a.nisdMap.Keys == old(a.nisdMap).Keys + VdevLooked(tree, req, hash, offset, left, plan)
    {
      var o;
      ghost var picks;
      o, picks := a.AllocateNisdPerChunk(hr, req, fd, i, hash(i), offset);
      if o != Placed {
        return o, plan, picks;
      }
      UsageAppend(tree, map[], Flat(plan), picks);
      LeftAppend(left, Flat(plan), picks);
      FlatStep(plan, picks);
      VdevChangesStep(req.vdev, plan, picks);
      VdevRunStep(tree, req, hash, offset, left, plan, picks);
      VdevLookedStep(tree, req, hash, offset, left, plan, picks);
      plan := plan + [picks];
    }
    return Placed, plan, [];
  }

  lemma {:induction false} EmptyAfter(tree: Tree, left: map<Id, int>)
    ensures UsageAfter(tree, map[], Flat([])) == map[] && LeftAfter(left, Flat([])) == left
  {
  }

  method AllocateNisdsAtFailureDomain(a: Attempt, hr: Hierarchy, req: VdevReq, fd: nat, hash: nat -> nat, txn: FuncIntrm, offset: nat)
    returns (out: Outcome, ghost plan: seq<seq<Pick>>, ghost rest: seq<Pick>)
    requires Agrees(hr.levels, hr.objs) && fd < FD_MAX
    requires req.filter.id != NO_ID ==> fd == GetFDIdx(req.filter.fdType)
    modifies a, txn
    ensures AttemptRun(hr.levels[fd], req, hash, offset, Left(hr.objs, old(a.nisdMap)), out, plan, rest)
    ensures GrewWithin(old(a.nisdMap), a.nisdMap, hr.objs)
    ensures out != Placed ==> txn.changes == old(txn.changes)
    ensures out == Placed ==>
              txn.changes == old(txn.changes) + VdevChanges(req.vdev, plan) && AllIn(Flat(plan), a.nisdMap)
              && Left(hr.objs, a.nisdMap) == LeftAfter(Left(hr.objs, old(a.nisdMap)), Flat(plan))
              && a.nisdMap.Keys == old(a.nisdMap).Keys
                   + VdevLooked(hr.levels[fd], req, hash, offset, Left(hr.objs, old(a.nisdMap)), plan)
  {
    out, plan, rest := AllocateNisdPerVdev(a, hr, req, fd, hash, offset);
    if out == Placed {
      txn.changes := txn.changes + a.changes;
    }
  }

  /** The first of the levels PDU to device with enough entities. */
  ghost predicate FirstWide(levels: seq<Tree>, total: nat, s: nat) {
    s <= DEVICE_IDX < |levels| && total <= |levels[s]| && forall k | 0 <= k < s :: |levels[k]| < total
  }

  /** The level an unscoped request is placed at: the coarsest, from the first wide level on, whose
      attempt succeeds; every coarser attempt fails on the untouched index. */
  ghost predicate CoarsestThatFits(levels: seq<Tree>, req: VdevReq, hash: nat -> nat, offset: nat, left: map<Id, int>, level: nat) {
    exists s: nat :: FirstWide(levels, req.vdev.TotalRedundancyBlocksPerChunk(), s) && s <= level
                && FailsBetween(levels, req, hash, offset, left, s, level)
  }

  ghost predicate FailsBetween(levels: seq<Tree>, req: VdevReq, hash: nat -> nat, offset: nat, left: map<Id, int>, s: nat, level: nat) {
    level <= FD_MAX <= |levels| && forall l | s <= l < level :: AttemptFails(levels[l], req, hash, offset, left)
  }

  ghost predicate NoWideLevel(levels: seq<Tree>, total: nat) {
    DEVICE_IDX < |levels| && forall l | 0 <= l <= DEVICE_IDX :: |levels[l]| < total
  }

  /** The plan of one level, complete, and the allocation map that goes with it: every NISD looked up
      on the way, with what the picks left it. */
  ghost predicate PlacedAt(tree: Tree, objs: map<Id, Nisd>, req: VdevReq, hash: nat -> nat, offset: nat,
                           plan: seq<seq<Pick>>, alloc: map<Id, int>)
  {
    var left := Left(objs, map[]);
    VdevRun(tree, req, hash, offset, left, plan) && |plan| == req.vdev.chunkCnt
    && alloc.Keys == VdevLooked(tree, req, hash, offset, left, plan) && alloc.Keys <= objs.Keys
    && AllIn(Flat(plan), alloc) && Left(objs, alloc) == LeftAfter(left, Flat(plan))
  }

  /** What the allocation of a vdev comes to: its outcome, the level, the plan and the allocation map. */
  ghost predicate AllocOutcome(levels: seq<Tree>, objs: map<Id, Nisd>, req: VdevReq, hash: nat -> nat, offset: nat,
                               out: Outcome, level: nat, plan: seq<seq<Pick>>, alloc: map<Id, int>)
  {
    var left, fd := Left(objs, map[]), GetFDIdx(req.filter.fdType);
    |levels| == FD_MAX &&
    if req.filter.fdType != FD_ANY then
      level == fd && if out == Placed then PlacedAt(levels[fd], objs, req, hash, offset, plan, alloc)
                     else AttemptEnds(levels[fd], req, hash, offset, left, out)
    else if out == Placed then
      level < FD_MAX && PlacedAt(levels[level], objs, req, hash, offset, plan, alloc)
      && CoarsestThatFits(levels, req, hash, offset, left, level)
    else
      out == Failed
      && (NoWideLevel(levels, req.vdev.TotalRedundancyBlocksPerChunk()) || CoarsestThatFits(levels, req, hash, offset, left, FD_MAX))
  }

  lemma AttemptEnded(tree: Tree, req: VdevReq, hash: nat -> nat, offset: nat, left: map<Id, int>, out: Outcome, plan: seq<seq<Pick>>, rest: seq<Pick>)
    requires AttemptRun(tree, req, hash, offset, left, out, plan, rest)
    ensures AttemptEnds(tree, req, hash, offset, left, out)
  {
  }

  /** AllocNISDs. On success the transaction gains the changes of one level's plan and the allocation
      map holds the draws of that plan only; on failure the transaction is as before. */
  method AllocNISDs(a: Attempt, hr: Hierarchy, req: VdevReq, hash: nat -> nat, txn: FuncIntrm, offset: nat)
    returns (out: Outcome, level: nat, ghost plan: seq<seq<Pick>>)
    requires Agrees(hr.levels, hr.objs) && Nested(hr.objs) && a.nisdMap == map[]
    requires req.filter.id != NO_ID ==> req.filter.fdType != FD_ANY
    modifies a, txn
    ensures AllocOutcome(hr.levels, hr.objs, req, hash, offset, out, level, plan, a.nisdMap)
    ensures out != Placed ==> txn.changes == old(txn.changes)
    ensures out == Placed ==>
              txn.changes == old(txn.changes) + VdevChanges(req.vdev, plan)
              && |VdevChanges(req.vdev, plan)| == 2 * (req.vdev.chunkCnt * req.vdev.TotalRedundancyBlocksPerChunk())
    ensures req.filter.fdType == FD_ANY && out == Failed ==> a.nisdMap == map[]
  {
    hide ChunkRun, UsageAfter, LeftAfter, VdevChanges, Left, Agrees, Nested, VdevRun, NextChunk, VdevLooked, Flat, AllIn, AttemptEnds, FDName;
    LevelCount(hr.levels, hr.objs);
    ghost var left := Left(hr.objs, map[]);
    ghost var rest;
    plan := [];
    if req.filter.fdType != FD_ANY {
      level := GetFDIdx(req.filter.fdType);
      out, plan, rest := AllocateNisdsAtFailureDomain(a, hr, req, level, hash, txn, offset);
      if out == Placed {
        VdevChangesSize(hr.levels[level], req, hash, offset, left, plan);
      } else {
        AttemptEnded(hr.levels[level], req, hash, offset, left, out, plan, rest);
      }
      return;
    }
    var total := req.vdev.TotalRedundancyBlocksPerChunk();
    var startFD := hr.GetFDLevel(total);
    if startFD.None? {
      return Failed, 0, [];
    }
    for fd := startFD.value to FD_MAX
      invariant txn.changes == old(txn.changes) && a.nisdMap == map[]
      invariant FailsBetween(hr.levels, req, hash, offset, left, startFD.value, fd)
    {
      CountsGrowTo(hr.levels, hr.objs, startFD.value, fd);
      out, plan, rest := AllocateNisdsAtFailureDomain(a, hr, req, fd, hash, txn, offset);
      if out == Placed {
        VdevChangesSize(hr.levels[fd], req, hash, offset, left, plan);
        assert FirstWide(hr.levels, total, startFD.value);
        return out, fd, plan;
      }
      NextNeverSpins(hr.levels[fd], req, hash, offset, left, plan, out, rest);
      AttemptEnded(hr.levels[fd], req, hash, offset, left, out, plan, rest);
      a.nisdMap := map[];
    }
    assert FirstWide(hr.levels, total, startFD.value);
    return Failed, 0, [];
  }

  lemma NextNeverSpins(tree: Tree, req: VdevReq, hash: nat -> nat, offset: nat, left: map<Id, int>, plan: seq<seq<Pick>>, out: Outcome, rest: seq<Pick>)
    requires NextChunk(tree, req, hash, offset, left, plan, out, rest)
    requires req.vdev.TotalRedundancyBlocksPerChunk() <= |tree|
    ensures out != Spins
  {
    NoSpin(tree, req, hash(|plan|), UsageAfter(tree, map[], Flat(plan)), LeftAfter(left, Flat(plan)), |plan| + offset, out, rest);
  }

  // ----- what a placed vdev guarantees -----

  lemma {:induction false} PlacedIsChain(tree: Tree, req: VdevReq, hash: nat, usage: DeviceUsage, left: map<Id, int>,
                                         off: nat, out: Outcome, picks: seq<Pick>)
    requires ChunkRun(tree, req, hash, usage, left, off, out, picks)
    ensures Chain(tree, usage, left, off, picks)
  {
  }

  /** No chain of picks takes more from a NISD than it has. */
  lemma {:induction false} ChainStaysNonNeg(tree: Tree, usage: DeviceUsage, left: map<Id, int>, off: nat, picks: seq<Pick>)
    requires Chain(tree, usage, left, off, picks) && forall n :: n in left ==> 0 <= left[n]
    ensures forall n :: n in LeftAfter(left, picks) ==> 0 <= LeftAfter(left, picks)[n]
  {
    if picks != [] {
      var before := picks[..|picks|-1];
      ChainStaysNonNeg(tree, usage, left, off, before);
      ChoiceFits(tree, ProbeAfter(tree, usage, left, off, before), picks[|picks|-1]);
    }
  }

  lemma {:induction false} VdevStaysNonNeg(tree: Tree, req: VdevReq, hash: nat -> nat, offset: nat, left: map<Id, int>, plan: seq<seq<Pick>>)
    requires VdevRun(tree, req, hash, offset, left, plan) && forall n :: n in left ==> 0 <= left[n]
    ensures forall n :: n in LeftAfter(left, Flat(plan)) ==> 0 <= LeftAfter(left, Flat(plan))[n]
  {
    hide ChunkRun, Chain, LeftAfter, UsageAfter;
    if plan == [] {
      EmptyAfter(tree, left);
    } else {
      var before, picks := plan[..|plan|-1], plan[|plan|-1];
      var usage, left1 := UsageAfter(tree, map[], Flat(before)), LeftAfter(left, Flat(before));
      VdevStaysNonNeg(tree, req, hash, offset, left, before);
      PlacedIsChain(tree, req, hash(|before|), usage, left1, |before| + offset, Placed, picks);
      ChainStaysNonNeg(tree, usage, left1, |before| + offset, picks);
      LeftAppend(left, Flat(before), picks);
    }
  }

  /** Fault isolation of a whole vdev: in every chunk of an unfiltered placed vdev, blocks lie on
      different NISDs in different entities of the chosen level and of every finer level. */
  lemma {:induction false} VdevIsolation(levels: seq<Tree>, objs: map<Id, Nisd>, fd: nat, req: VdevReq, hash: nat -> nat, offset: nat,
                                         left: map<Id, int>, plan: seq<seq<Pick>>, c: nat, a: nat, b: nat, i: nat)
    requires Agrees(levels, objs) && Nested(objs) && fd <= i < FD_MAX && req.filter.id == NO_ID
    requires VdevRun(levels[fd], req, hash, offset, left, plan)
    requires c < |plan| && a < b < |plan[c]|
    ensures plan[c][a].nisd in objs && plan[c][b].nisd in objs && plan[c][a].nisd != plan[c][b].nisd
    ensures objs[plan[c][a].nisd].fdom[i] != objs[plan[c][b].nisd].fdom[i]
  {
    hide AcrossRun, LeftAfter, UsageAfter, Agrees;
    LevelCount(levels, objs);
    var before := plan[..|plan|-1];
    if c < |before| {
      VdevIsolation(levels, objs, fd, req, hash, offset, left, before, c, a, b, i);
    } else {
      FaultIsolation(levels, objs, fd, req.vdev.TotalRedundancyBlocksPerChunk(), hash(|before|) % |levels[fd]|,
                     UsageAfter(levels[fd], map[], Flat(before)), LeftAfter(left, Flat(before)), |before| + offset, Placed, plan[c], a, b, i);
    }
  }
}
