/** The vdevs of one PFS, created one after the other inside one entity: the stored offset carries the
    rotation from each to the next (controlplane/ctlplanefuncs/server/srvctlplanefuncs.go, lines 1062-1095). */
module PfsRuns {
  import opened Changes
  import opened Finite
  import opened Lib
  import opened Index
  import opened Modulo
  import opened Pickers
  import opened Allocator
  import opened Placement
  import opened Completeness
  import opened VdevAllocator
  import opened Store
  import opened Ledger
  import opened Runs
  import opened ControlPlane
  import opened Replicas
  import opened DrawEffect
  import Turns = Rotation

  /** One create: the state it was applied to, the request, its result, and the index afterwards. */
  datatype PfsCreate = PfsCreate(store: KV, levels: seq<Tree>, objs: map<Id, Nisd>, prep: Prep, hash: nat -> nat, rand: nat,
                                 result: CreateResult, after: seq<Tree>)
  {
    function Total(): nat { prep.req.vdev.TotalRedundancyBlocksPerChunk() }
    function Chunks(): nat { prep.req.vdev.chunkCnt }
  }

  /** A placed vdev of PFS pfs. */
  ghost predicate CreatedIn(c: PfsCreate, pfs: Id) {
    CreateOutcome(c.store, c.levels, c.objs, c.prep, c.hash, c.rand, c.result) && c.result.reply == Created
    && c.result.pfs == pfs != NO_ID
  }

  /** It was placed inside entity e of level l. */
  ghost predicate Inside(c: PfsCreate, l: nat, e: Id) {
    && c.prep.req.filter.id == e != NO_ID && l <= DEVICE_IDX && GetFDIdx(c.prep.req.filter.fdType) == l
    && |c.levels| == FD_MAX
  }

  /** The entity has the devices ds, at least as many as a chunk has blocks, and the total of each has room
      for every chunk of the vdev. */
  ghost predicate Serves(c: PfsCreate, l: nat, e: Id, ds: set<Id>)
    requires l < |c.levels|
  {
    var t := c.levels[l];
    e in t && t[e].Keys == ds && ds != {} && c.Total() <= |ds| && Turns.RoomForAll(t, map[], e, c.Chunks())
  }

  /** Nothing wrote the offset of the PFS between two creates. */
  ghost predicate OffsetKept(a: PfsCreate, b: PfsCreate, pfs: Id) { SameAt(a.result.store, b.store, PfsOffset(pfs)) }

  /** Creates of one PFS, anywhere in the index. */
  ghost predicate Chained(cs: seq<PfsCreate>, pfs: Id) {
    (forall j :: 0 <= j < |cs| ==> CreatedIn(cs[j], pfs)) && forall j :: 0 < j < |cs| ==> OffsetKept(cs[j-1], cs[j], pfs)
  }

  ghost predicate History(cs: seq<PfsCreate>, pfs: Id, l: nat, e: Id, ds: set<Id>) {
    Chained(cs, pfs) && forall j :: 0 <= j < |cs| ==> Inside(cs[j], l, e) && Serves(cs[j], l, e, ds)
  }

  ghost function Totals(cs: seq<PfsCreate>): (r: seq<nat>)
    ensures |r| == |cs|
  {
    if cs == [] then [] else Totals(cs[..|cs|-1]) + [cs[|cs|-1].Total()]
  }

  /** Chunk c of every vdev. */
  ghost function ChunksAt(cs: seq<PfsCreate>, c: nat): (r: seq<seq<Pick>>)
    requires forall j :: 0 <= j < |cs| ==> c < |cs[j].result.plan|
    ensures |r| == |cs|
  {
    if cs == [] then [] else ChunksAt(cs[..|cs|-1], c) + [cs[|cs|-1].result.plan[c]]
  }

  // ----- the stored offset -----

  /** A create starts at the stored offset and leaves it moved on by its own block count. */
  lemma CreateMovesOffset(c: PfsCreate, pfs: Id)
    requires CreatedIn(c, pfs)
    ensures IsAt(c.store, PfsOffset(pfs), Num(c.result.off))
    ensures IsAt(c.result.store, PfsOffset(pfs), Num(c.result.off + c.Total()))
  {
    hide AllocOutcome, ApplyAll, CreateChanges, CommittedObjs, DrawsFrom, NameFree;
    OffsetMovesOn(c.store, c.prep, pfs, c.result.off, c.result.plan, c.result.alloc);
  }

  /** Whatever levels and entities the vdevs of a PFS are placed in, each starts at the running sum of the
      block counts before it, and that sum is what the store holds. */
  lemma {:induction false} OffsetsChain(cs: seq<PfsCreate>, pfs: Id)
    requires cs != [] && Chained(cs, pfs)
    ensures cs[|cs|-1].result.off == Turns.OffsetAfter(cs[0].result.off, Totals(cs[..|cs|-1]))
    ensures IsAt(cs[|cs|-1].result.store, PfsOffset(pfs), Num(Turns.OffsetAfter(cs[0].result.off, Totals(cs))))
  {
    hide CreatedIn;
    var n := |cs| - 1;
    CreateMovesOffset(cs[n], pfs);
    TotalsStep(cs);
    if n > 0 {
      assert cs[..n][0] == cs[0] && cs[..n][n-1] == cs[n-1];
      ChainedPrefix(cs, pfs);
      OffsetsChain(cs[..n], pfs);
      assert OffsetKept(cs[n-1], cs[n], pfs);
    }
  }

  lemma ChainedPrefix(cs: seq<PfsCreate>, pfs: Id)
    requires cs != [] && Chained(cs, pfs)
    ensures Chained(cs[..|cs|-1], pfs)
  {
    hide CreatedIn, OffsetKept;
    var n := |cs| - 1;
    forall j | 0 < j < n ensures OffsetKept(cs[..n][j-1], cs[..n][j], pfs) { assert OffsetKept(cs[j-1], cs[j], pfs); }
  }

  lemma HistoryPrefix(cs: seq<PfsCreate>, pfs: Id, l: nat, e: Id, ds: set<Id>)
    requires cs != [] && History(cs, pfs, l, e, ds)
    ensures History(cs[..|cs|-1], pfs, l, e, ds)
  {
    hide Chained, Inside, Serves;
    ChainedPrefix(cs, pfs);
    var n := |cs| - 1;
    forall j | 0 <= j < n ensures Inside(cs[..n][j], l, e) && l < |cs[j].levels| && Serves(cs[..n][j], l, e, ds) {
      InLevels(cs[j], l, e);
    }
  }

  lemma {:induction false} TotalsStep(cs: seq<PfsCreate>)
    requires cs != []
    ensures Totals(cs)[..|cs|-1] == Totals(cs[..|cs|-1]) && Totals(cs)[|cs|-1] == cs[|cs|-1].Total()
  {
  }

  // ----- every vdev rotates from the offset it found -----

  lemma CreateRotates(c: PfsCreate, pfs: Id, l: nat, e: Id, ds: set<Id>)
    requires CreatedIn(c, pfs) && Inside(c, l, e) && Serves(c, l, e, ds)
    ensures |c.result.plan| == c.Chunks()
    ensures Turns.Rotates(c.levels[l][e], c.result.plan, c.result.off, c.Total())
  {
    hide CreateOutcome, VdevRun, VdevLooked, LeftAfter, Left;
    CreatedAt(c.store, c.levels, c.objs, c.prep, c.hash, c.rand, c.result);
    Turns.FilteredVdevBalanced(c.levels[l], c.prep.req, c.hash, c.result.off, Left(c.objs, map[]), c.result.plan);
  }

  lemma SameTurns(devs1: Devices, devs2: Devices, picks: seq<Pick>, off: nat)
    requires devs1.Keys == devs2.Keys != {} && Turns.RotatesChunk(devs1, picks, off)
    ensures Turns.RotatesChunk(devs2, picks, off)
  {
  }

  /** The offsets found by the creates are the running sums of the block counts before them, so the
      chunks of one index rotate on from vdev to vdev. */
  lemma {:induction false} HistoryRotates(cs: seq<PfsCreate>, pfs: Id, l: nat, e: Id, ds: set<Id>, devs: Devices, c: nat)
    requires cs != [] && History(cs, pfs, l, e, ds) && devs.Keys == ds != {}
    requires forall j :: 0 <= j < |cs| ==> c < cs[j].Chunks() == |cs[j].result.plan|
    ensures Turns.RotatesPfs(devs, ChunksAt(cs, c), c, cs[0].result.off, Totals(cs))
  {
    hide CreatedIn, Inside, Serves, Turns.RotatesChunk, Turns.RotatesPfs, Turns.Rotates, Turns.OffsetAfter;
    var n := |cs| - 1;
    OffsetsChain(cs, pfs);
    TotalsStep(cs);
    InLevels(cs[n], l, e);
    CreateRotates(cs[n], pfs, l, e, ds);
    RotatesAt(cs[n], l, e, ds, c);
    SameTurns(cs[n].levels[l][e], devs, cs[n].result.plan[c], c + cs[n].result.off);
    if n > 0 {
      assert cs[..n][0] == cs[0];
      HistoryPrefix(cs, pfs, l, e, ds);
      HistoryRotates(cs[..n], pfs, l, e, ds, devs, c);
    } else {
      NoVdevsRotate(devs, c, cs[0].result.off);
    }
    RotatesNext(devs, ChunksAt(cs[..n], c), cs[n].result.plan[c], c, cs[0].result.off, Totals(cs[..n]));
  }

  lemma {:induction false} RotatesNext(devs: Devices, chunks: seq<seq<Pick>>, picks: seq<Pick>, c: nat, off: nat, totals: seq<nat>)
    requires devs.Keys != {} && Turns.RotatesPfs(devs, chunks, c, off, totals)
    requires Turns.RotatesChunk(devs, picks, c + Turns.OffsetAfter(off, totals))
    ensures Turns.RotatesPfs(devs, chunks + [picks], c, off, totals + [|picks|])
  {
    hide Turns.RotatesChunk;
    assert (chunks + [picks])[..|chunks|] == chunks && (totals + [|picks|])[..|totals|] == totals;
  }

  lemma {:induction false} NoVdevsRotate(devs: Devices, c: nat, off: nat)
    requires devs.Keys != {}
    ensures Turns.RotatesPfs(devs, [], c, off, [])
  {
  }

  lemma RotatesAt(x: PfsCreate, l: nat, e: Id, ds: set<Id>, c: nat)
    requires l < |x.levels| && Serves(x, l, e, ds) && c < |x.result.plan|
    requires Turns.Rotates(x.levels[l][e], x.result.plan, x.result.off, x.Total())
    ensures |x.result.plan[c]| == x.Total() && e in x.levels[l] && x.levels[l][e].Keys == ds
    ensures Turns.RotatesChunk(x.levels[l][e], x.result.plan[c], c + x.result.off)
  {
    hide Turns.RoomForAll, Turns.RotatesChunk, Turns.Turn;
  }

  /** Balance over a PFS: over consecutive creates of one PFS inside one entity, for any mix of block
      counts, the blocks of a chunk index on any two devices of the entity differ by at most one. */
  lemma {:induction false} PfsCreatesAreBalanced(cs: seq<PfsCreate>, pfs: Id, l: nat, e: Id, ds: set<Id>, c: nat, d1: Id, d2: Id)
    requires cs != [] && History(cs, pfs, l, e, ds) && d1 in ds && d2 in ds
    requires forall j :: 0 <= j < |cs| ==> c < cs[j].Chunks()
    ensures forall j :: 0 <= j < |cs| ==> c < |cs[j].result.plan|
    ensures Turns.PicksOfPfs(ChunksAt(cs, c), d1) <= Turns.PicksOfPfs(ChunksAt(cs, c), d2) + 1
  {
    hide CreatedIn, Inside, Turns.PicksOfPfs, Turns.RotatesPfs, ChunksAt, Turns.RoomForAll;
    forall j | 0 <= j < |cs| ensures |cs[j].result.plan| == cs[j].Chunks() {
      InLevels(cs[j], l, e);
      CreateRotates(cs[j], pfs, l, e, ds);
    }
    InLevels(cs[0], l, e);
    assert Serves(cs[0], l, e, ds);
    var devs := cs[0].levels[l][e];
    HistoryRotates(cs, pfs, l, e, ds, devs, c);
    Turns.PfsIsBalanced(devs, ChunksAt(cs, c), c, cs[0].result.off, Totals(cs), d1, d2);
  }

  lemma InLevels(c: PfsCreate, l: nat, e: Id)
    requires Inside(c, l, e)
    ensures |c.levels| == FD_MAX && l <= DEVICE_IDX
  {
  }

  // ----- where the conditions come from -----

  /** The entity has the devices ds, the total of each has room for `room` chunks, and each of its NISDs has
      more than that. */
  ghost predicate Ready(levels: seq<Tree>, objs: map<Id, Nisd>, l: nat, e: Id, ds: set<Id>, room: nat) {
    && Agrees(levels, objs) && |levels| == FD_MAX && l <= DEVICE_IDX
    && e in levels[l] && levels[l][e].Keys == ds && ds != {} && Turns.RoomForAll(levels[l], map[], e, room)
    && forall n :: Below(objs, n, l, e) ==> objs[n].avail >= (room + 1) * CHUNK_SIZE
  }

  /** NISD n is below entity e. */
  ghost predicate Below(objs: map<Id, Nisd>, n: Id, l: nat, e: Id)
    requires l < FD_MAX
  {
    n in objs && |objs[n].fdom| == FD_MAX && objs[n].fdom[l] == e
  }

  /** The index after the create is the one that the commit leaves. */
  ghost predicate Leaves(c: PfsCreate) {
    Agrees(c.after, c.result.objs)
    && SkewGrows(c.levels, c.objs, c.after, c.result.objs, EvictedTake(Ranked(c.result.alloc.Keys), c.objs, c.result.alloc))
  }

  /** Between two creates anything may happen outside the entity; inside it the devices stay, and neither
      their totals nor the NISDs below lose space. Deletes keep to that, in the entity too. */
  ghost predicate Undisturbed(levels: seq<Tree>, objs: map<Id, Nisd>, levels': seq<Tree>, objs': map<Id, Nisd>, l: nat, e: Id)
    requires l < FD_MAX
  {
    && Agrees(levels', objs') && |levels| == FD_MAX == |levels'|
    && e in levels[l] && e in levels'[l] && levels'[l][e].Keys == levels[l][e].Keys
    && (forall d :: d in levels[l][e] ==> levels'[l][e][d].avail >= levels[l][e][d].avail)
    && forall n :: Below(objs', n, l, e) ==> Below(objs, n, l, e) && objs'[n].avail >= objs[n].avail
  }

  lemma ReadyServes(c: PfsCreate, l: nat, e: Id, ds: set<Id>, room: nat)
    requires Ready(c.levels, c.objs, l, e, ds, room) && c.Chunks() <= room && c.Total() <= |ds|
    ensures Serves(c, l, e, ds)
  {
    hide Agrees, Below;
  }

  lemma UndisturbedReady(levels: seq<Tree>, objs: map<Id, Nisd>, levels': seq<Tree>, objs': map<Id, Nisd>, l: nat, e: Id, ds: set<Id>, room: nat)
    requires Ready(levels, objs, l, e, ds, room) && Undisturbed(levels, objs, levels', objs', l, e)
    ensures Ready(levels', objs', l, e, ds, room)
  {
    hide Agrees, Below;
    forall d | d in levels'[l][e] ensures LeftOn(levels'[l][e], map[], d) >= room * CHUNK_SIZE {
      assert LeftOn(levels[l][e], map[], d) >= room * CHUNK_SIZE;
    }
  }

  // ----- a create inside the entity evicts nothing there -----

  lemma {:induction false} WithinLooksBelow(tree: Tree, e: Id, usage: DeviceUsage, left: map<Id, int>, off: nat, picks: seq<Pick>, n: Id)
    requires n in WithinLooked(tree, e, usage, left, off, picks)
    ensures exists d :: Listed(tree, e, d, n)
  {
    hide LookedIn, ProbeAfter;
    var before := picks[..|picks|-1];
    if n in WithinLooked(tree, e, usage, left, off, before) {
      WithinLooksBelow(tree, e, usage, left, off, before, n);
    } else {
      LookedIsListed(tree, e, ProbeAfter(tree, usage, left, off, before), n);
    }
  }

  lemma LookedIsListed(tree: Tree, e: Id, q: Probe, n: Id)
    requires e in tree && n in LookedIn(tree[e], q)
    ensures exists d :: Listed(tree, e, d, n)
  {
    var d :| d in tree[e] && n in tree[e][d].nisds;
    assert Listed(tree, e, d, n);
  }

  lemma {:induction false} VdevLooksBelow(tree: Tree, req: VdevReq, hash: nat -> nat, offset: nat, left: map<Id, int>, plan: seq<seq<Pick>>, n: Id)
    requires req.filter.id != NO_ID && n in VdevLooked(tree, req, hash, offset, left, plan)
    ensures exists d :: Listed(tree, req.filter.id, d, n)
  {
    hide WithinLooked, UsageAfter, LeftAfter, Flat;
    var before := plan[..|plan|-1];
    if n in VdevLooked(tree, req, hash, offset, left, before) {
      VdevLooksBelow(tree, req, hash, offset, left, before, n);
    } else {
      WithinLooksBelow(tree, req.filter.id, UsageAfter(tree, map[], Flat(before)), LeftAfter(left, Flat(before)),
                       |before| + offset, plan[|plan|-1], n);
    }
  }

  /** A chunk draws on a NISD at most once. */
  lemma {:induction false} OncePerChunk(picks: seq<Pick>, n: Id)
    requires forall i, j :: 0 <= i < j < |picks| ==> picks[i].nisd != picks[j].nisd
    ensures Draws(picks, n) <= 1
  {
    if picks != [] {
      var k := |picks| - 1;
      OncePerChunk(picks[..k], n);
      DrawnIsIn(picks[..k], n);
      forall p | p in picks[..k] ensures p.nisd != picks[k].nisd { var i: nat :| i < k && picks[..k][i] == p; }
    }
  }

  lemma {:induction false} OnceForEachChunk(tree: Tree, req: VdevReq, hash: nat -> nat, offset: nat, left: map<Id, int>, plan: seq<seq<Pick>>, n: Id)
    requires VdevRun(tree, req, hash, offset, left, plan)
    ensures Draws(Flat(plan), n) <= |plan|
  {
    hide ChunkRun, UsageAfter, LeftAfter, Draws, Chain;
    if plan == [] {
      NoDraws(n);
    } else {
      var before, picks := plan[..|plan|-1], plan[|plan|-1];
      var u, x := UsageAfter(tree, map[], Flat(before)), LeftAfter(left, Flat(before));
      OnceForEachChunk(tree, req, hash, offset, left, before, n);
      PlacedIsChain(tree, req, hash(|before|), u, x, |before| + offset, Placed, picks);
      DistinctNisds(tree, u, x, |before| + offset, picks);
      OncePerChunk(picks, n);
      DrawsAppend(Flat(before), picks, n);
    }
  }

  lemma {:induction false} NoDraws(n: Id)
    ensures Flat([]) == [] && Draws([], n) == 0
  {
  }

  /** What the create takes from the NISDs it looked up: at most its chunks, and only below the entity. */
  lemma TakesAtMostChunks(c: PfsCreate, pfs: Id, l: nat, e: Id, ds: set<Id>, room: nat, n: Id)
    requires CreatedIn(c, pfs) && Inside(c, l, e) && Ready(c.levels, c.objs, l, e, ds, room) && c.Chunks() <= room && n in c.result.alloc
    ensures Below(c.objs, n, l, e) && c.result.alloc[n] >= (room - c.Chunks() + 1) * CHUNK_SIZE
  {
    hide Agrees, VdevRun, VdevLooked, LeftAfter, Left, CommittedObjs, ApplyAll, CreateChanges, Draws, Flat, CoarsestThatFits, Turns.RoomForAll;
    CreatedAt(c.store, c.levels, c.objs, c.prep, c.hash, c.rand, c.result);
    VdevLooksBelow(c.levels[l], c.prep.req, c.hash, c.result.off, Left(c.objs, map[]), c.result.plan, n);
    var d :| Listed(c.levels[l], e, d, n);
    ListedIsBelow(c.levels, c.objs, l, e, d, n);
    OnceForEachChunk(c.levels[l], c.prep.req, c.hash, c.result.off, Left(c.objs, map[]), c.result.plan, n);
  }

  lemma ListedIsBelow(levels: seq<Tree>, objs: map<Id, Nisd>, l: nat, e: Id, d: Id, n: Id)
    requires Agrees(levels, objs) && l < FD_MAX && Listed(levels[l], e, d, n)
    ensures Below(objs, n, l, e) && objs[n].fdom[DEVICE_IDX] == d
  {
    assert TreeAgrees(levels[l], l, objs);
  }

  ghost predicate TuplesKept(objs: map<Id, Nisd>, objs': map<Id, Nisd>) {
    objs'.Keys == objs.Keys && forall n :: n in objs ==> objs'[n].fdom == objs[n].fdom && objs'[n].id == objs[n].id
  }

  lemma TuplesKeptAgree(levels: seq<Tree>, objs: map<Id, Nisd>, objs': map<Id, Nisd>)
    requires Agrees(levels, objs) && TuplesKept(objs, objs')
    ensures Agrees(levels, objs')
  {
    forall i: nat | i < FD_MAX ensures TreeAgrees(levels[i], i, objs') {
      assert TreeAgrees(levels[i], i, objs);
      forall e, d, n ensures Listed(levels[i], e, d, n) <==> n in objs' && Under(objs'[n], i, e, d) {}
    }
  }

  lemma NoneEvicted(objs: map<Id, Nisd>, alloc: map<Id, int>, i: int, e: Id, d: Id)
    requires forall n :: n in alloc ==> alloc[n] >= CHUNK_SIZE
    ensures EvictedTake(Ranked(alloc.Keys), objs, alloc)(i, e, d) == 0
  {
    forall x | x in Ranked(alloc.Keys) ensures TakenAt(objs, alloc, i, e, d)(x) == 0 {
      if x in alloc { assert Taken(objs, x, alloc[x])(i, e, d) == 0; }
    }
    SumZero(Ranked(alloc.Keys), TakenAt(objs, alloc, i, e, d));
  }

  // ----- and takes at most a chunk from each device for each chunk created -----

  ghost function DrawnFrom(picks: seq<Pick>): Id -> int { n => CHUNK_SIZE * Draws(picks, n) }

  /** The NISDs of a device lose what the picks on it take. */
  lemma {:induction false} DrawsOnDevice(ns: seq<Id>, picks: seq<Pick>, d: Id)
    requires Distinct(ns) && forall p :: p in picks && p.nisd in ns ==> p.device == d
    ensures Sum(ns, DrawnFrom(picks)) <= CHUNK_SIZE * Turns.PicksOn(picks, d)
  {
    if picks == [] {
      SumZero(ns, DrawnFrom(picks));
    } else {
      var k := |picks| - 1;
      var before, p := picks[..k], picks[k];
      assert p in picks && forall x :: x in before ==> x in picks;
      DrawsOnDevice(ns, before, d);
      if p.nisd in ns { SumUpdate(ns, DrawnFrom(before), DrawnFrom(picks), p.nisd); } else { SumSame(ns, DrawnFrom(before), DrawnFrom(picks)); }
    }
  }

  lemma {:induction false} PicksOnAppend(a: seq<Pick>, b: seq<Pick>, d: Id)
    ensures Turns.PicksOn(a + b, d) == Turns.PicksOn(a, d) + Turns.PicksOn(b, d)
  {
    if b == [] {
      assert a + b == a;
    } else {
      var m := |b| - 1;
      PicksOnAppend(a, b[..m], d);
      assert (a + b)[..|a| + m] == a + b[..m];
    }
  }

  /** A rotating plan of narrow chunks puts at most one block of each chunk on a device. */
  lemma {:induction false} OncePerDevice(devs: Devices, plan: seq<seq<Pick>>, offset: nat, d: Id)
    requires devs.Keys != {} && d in devs && Turns.RotatesPlan(devs, plan, offset)
    requires forall c :: 0 <= c < |plan| ==> |plan[c]| <= |devs|
    ensures Turns.PicksOn(Flat(plan), d) <= |plan|
  {
    hide Turns.Turn, Turns.RotatesChunk, Turns.Hits;
    if plan != [] {
      var n, ds := |plan| - 1, Ranked(devs.Keys);
      forall c | 0 <= c < n ensures Turns.RotatesChunk(devs, plan[..n][c], c + offset) { assert Turns.RotatesChunk(devs, plan[c], c + offset); }
      OncePerDevice(devs, plan[..n], offset, d);
      PicksOnAppend(Flat(plan[..n]), plan[n], d);
      var r := PlaceOf(devs.Keys, ds, d);
      ChunkOnce(devs, plan[n], n + offset, r);
    }
  }

  lemma {:induction false} ChunkOnce(devs: Devices, picks: seq<Pick>, off: nat, r: nat)
    requires devs.Keys != {} && r < |Ranked(devs.Keys)| && Turns.RotatesChunk(devs, picks, off) && |picks| <= |devs|
    ensures Turns.PicksOn(picks, Ranked(devs.Keys)[r]) <= 1
  {
    Turns.RotatedCount(devs, picks, off, r);
    Turns.AtMostOneHit(off, |picks|, r, |Ranked(devs.Keys)|);
  }

  lemma {:induction false} FlatIsBelow(levels: seq<Tree>, objs: map<Id, Nisd>, l: nat, req: VdevReq, hash: nat -> nat,
                                       offset: nat, left: map<Id, int>, plan: seq<seq<Pick>>)
    requires Agrees(levels, objs) && l < FD_MAX && |levels| == FD_MAX && VdevRun(levels[l], req, hash, offset, left, plan)
    ensures forall p :: p in Flat(plan) ==> p.nisd in objs && Under(objs[p.nisd], l, p.entity, p.device)
  {
    hide ChunkRun, UsageAfter, LeftAfter, Chain, TreeAgrees;
    if plan != [] {
      var before, picks := plan[..|plan|-1], plan[|plan|-1];
      var u, x := UsageAfter(levels[l], map[], Flat(before)), LeftAfter(left, Flat(before));
      FlatIsBelow(levels, objs, l, req, hash, offset, left, before);
      PlacedIsChain(levels[l], req, hash(|before|), u, x, |before| + offset, Placed, picks);
      AgreesAt(levels, objs, l);
      forall p | p in picks ensures p.nisd in objs && Under(objs[p.nisd], l, p.entity, p.device) {
        TupleOf(levels[l], l, objs, u, x, |before| + offset, picks, p);
      }
    }
  }

  /** What the NISDs of a device lose in the create: at most a chunk for each chunk of the vdev. */
  lemma DeviceDraws(c: PfsCreate, pfs: Id, l: nat, e: Id, ds: set<Id>, d: Id)
    requires CreatedIn(c, pfs) && Inside(c, l, e) && Serves(c, l, e, ds) && Agrees(c.levels, c.objs) && d in ds
    ensures Sum(c.levels[l][e][d].nisds, DrawnFrom(Flat(c.result.plan))) <= CHUNK_SIZE * c.Chunks()
  {
    hide Agrees, VdevRun, VdevLooked, LeftAfter, Left, CreateOutcome, Turns.RotatesPlan, Turns.RoomForAll, Flat, Draws, Turns.PicksOn, DrawnFrom;
    CreatedAt(c.store, c.levels, c.objs, c.prep, c.hash, c.rand, c.result);
    CreateRotates(c, pfs, l, e, ds);
    OncePerDevice(c.levels[l][e], c.result.plan, c.result.off, d);
    FlatIsBelow(c.levels, c.objs, l, c.prep.req, c.hash, c.result.off, Left(c.objs, map[]), c.result.plan);
    var ns := c.levels[l][e][d].nisds;
    AgreesAt(c.levels, c.objs, l);
    ListIsDistinct(c.levels[l], l, c.objs, e, d);
    forall n | n in ns ensures n in c.objs && c.objs[n].fdom[DEVICE_IDX] == d { ListedIsBelow(c.levels, c.objs, l, e, d, n); }
    DrawsOnDevice(ns, Flat(c.result.plan), d);
  }

  lemma {:induction false} ObjectAfter(c: PfsCreate, pfs: Id, n: Id)
    requires CreatedIn(c, pfs) && n in c.objs
    requires forall x :: x in c.result.alloc ==> c.result.alloc[x] >= CHUNK_SIZE
    ensures TuplesKept(c.objs, c.result.objs)
    ensures c.result.objs[n].avail == if n in c.result.alloc then c.result.alloc[n] else c.objs[n].avail
    ensures c.result.objs[n].avail == c.objs[n].avail - CHUNK_SIZE * Draws(Flat(c.result.plan), n)
  {
    hide AllocOutcome, ApplyAll, CreateChanges, StartsAt, NameFree, FindsPfs, Draws, Flat;
    if n !in c.result.alloc { DrawnOnlyFrom(c.objs, c.result.alloc, Flat(c.result.plan), n); }
  }

  /** The total of a device follows its NISDs, whatever it was off by. */
  lemma TotalAfter(c: PfsCreate, pfs: Id, l: nat, e: Id, ds: set<Id>, d: Id)
    requires CreatedIn(c, pfs) && Inside(c, l, e) && Serves(c, l, e, ds) && Agrees(c.levels, c.objs) && Leaves(c) && d in ds
    requires forall x :: x in c.result.alloc ==> c.result.alloc[x] >= CHUNK_SIZE
    ensures |c.after| == FD_MAX && Dev(c.after[l], e, d).Some?
    ensures c.after[l][e][d].avail >= c.levels[l][e][d].avail - CHUNK_SIZE * c.Chunks()
  {
    hide Agrees, CreateOutcome, EvictedTake, Turns.RoomForAll, Draws, Flat, CreatedIn, TuplesKept;
    var objs, objs' := c.objs, c.result.objs;
    forall n | n in objs ensures n in objs' && objs'[n].avail == objs[n].avail - CHUNK_SIZE * Draws(Flat(c.result.plan), n) {
      ObjectAfter(c, pfs, n);
      TuplesKeptHas(objs, objs', n);
    }
    var x := SomeNisd(c.levels, objs, l, e, d);
    ObjectAfter(c, pfs, x);
    SameLists(c.levels, objs, c.after, objs', l, e, d);
    NoneEvicted(objs, c.result.alloc, l, e, d);
    DeviceDraws(c, pfs, l, e, ds, d);
    var ns, f := c.levels[l][e][d].nisds, DrawnFrom(Flat(c.result.plan));
    forall n | n in ns ensures Avail(objs)(n) == Avail(objs')(n) + f(n) { ListedIsBelow(c.levels, objs, l, e, d, n); }
    SumSplit(ns, Avail(objs'), Avail(objs), f);
  }

  lemma TuplesKeptHas(objs: map<Id, Nisd>, objs': map<Id, Nisd>, n: Id)
    requires TuplesKept(objs, objs') && n in objs
    ensures n in objs'
  {
  }

  lemma SomeNisd(levels: seq<Tree>, objs: map<Id, Nisd>, l: nat, e: Id, d: Id) returns (n: Id)
    requires Agrees(levels, objs) && l < FD_MAX && |levels| == FD_MAX && Dev(levels[l], e, d).Some?
    ensures n in objs
  {
    AgreesAt(levels, objs, l);
    n := levels[l][e][d].nisds[0];
    FirstIsMember(levels[l][e][d].nisds);
    assert Listed(levels[l], e, d, n);
  }

  /** Two indexes over tables with the same tuples list the same NISDs. */
  lemma SameLists(levels: seq<Tree>, objs: map<Id, Nisd>, levels': seq<Tree>, objs': map<Id, Nisd>, l: nat, e: Id, d: Id)
    requires Agrees(levels, objs) && Agrees(levels', objs') && TuplesKept(objs, objs') && l < FD_MAX
    ensures |levels| == FD_MAX == |levels'| && levels[l].Keys == levels'[l].Keys
    ensures e in levels[l] ==> levels[l][e].Keys == levels'[l][e].Keys
    ensures Dev(levels[l], e, d).Some? ==>
              Dev(levels'[l], e, d).Some?
              && Sum(levels'[l][e][d].nisds, Avail(objs')) == Sum(levels[l][e][d].nisds, Avail(objs'))
  {
    hide TuplesKept, TreeAgrees;
    TuplesKeptAgree(levels, objs, objs');
    AgreementDeterminesIndex(levels, levels', objs', l);
    if Dev(levels[l], e, d).Some? {
      AgreesAt(levels, objs', l);
      AgreesAt(levels', objs', l);
      ListIsDistinct(levels[l], l, objs', e, d);
      ListIsDistinct(levels'[l], l, objs', e, d);
      var s, s' := levels[l][e][d].nisds, levels'[l][e][d].nisds;
      forall n ensures n in s <==> n in s' { assert Listed(levels[l], e, d, n) <==> Listed(levels'[l], e, d, n); }
      SumOfSameMembers(s', s, Avail(objs'));
    }
  }

  lemma EvictsNothing(c: PfsCreate, pfs: Id, l: nat, e: Id, ds: set<Id>, room: nat)
    requires CreatedIn(c, pfs) && Inside(c, l, e) && Ready(c.levels, c.objs, l, e, ds, room) && c.Chunks() <= room
    ensures forall n :: n in c.result.alloc ==> c.result.alloc[n] >= CHUNK_SIZE
  {
    hide CreatedIn, Inside, Ready, Below;
    forall n | n in c.result.alloc ensures c.result.alloc[n] >= CHUNK_SIZE {
      TakesAtMostChunks(c, pfs, l, e, ds, room, n);
      MulNonNeg(room - c.Chunks(), CHUNK_SIZE);
    }
  }

  lemma NisdsAfter(c: PfsCreate, pfs: Id, l: nat, e: Id, ds: set<Id>, room: nat, n: Id)
    requires CreatedIn(c, pfs) && Inside(c, l, e) && Ready(c.levels, c.objs, l, e, ds, room) && c.Chunks() <= room
    requires Below(c.result.objs, n, l, e) && TuplesKept(c.objs, c.result.objs)
    ensures c.result.objs[n].avail >= (room - c.Chunks() + 1) * CHUNK_SIZE
  {
    hide CreatedIn, Inside, TuplesKept, Draws, Flat, Agrees, Turns.RoomForAll;
    StillBelow(c.objs, c.result.objs, l, e, n);
    EvictsNothing(c, pfs, l, e, ds, room);
    ObjectAfter(c, pfs, n);
    if n in c.result.alloc { TakesAtMostChunks(c, pfs, l, e, ds, room, n); }
    MulNonNeg(c.Chunks(), CHUNK_SIZE);
  }

  lemma TotalsAfter(c: PfsCreate, pfs: Id, l: nat, e: Id, ds: set<Id>, room: nat)
    requires CreatedIn(c, pfs) && Inside(c, l, e) && Leaves(c) && Ready(c.levels, c.objs, l, e, ds, room)
    requires c.Chunks() <= room && c.Total() <= |ds|
    ensures TuplesKept(c.objs, c.result.objs) && |c.after| == FD_MAX && e in c.after[l] && c.after[l][e].Keys == ds
    ensures Turns.RoomForAll(c.after[l], map[], e, room - c.Chunks())
  {
    hide Agrees, SkewGrows, EvictedTake, CreatedIn, Inside, TuplesKept, Draws, Flat, Below, Avail;
    ReadyServes(c, l, e, ds, room);
    EvictsNothing(c, pfs, l, e, ds, room);
    var d0 :| d0 in ds;
    var x := SomeNisd(c.levels, c.objs, l, e, d0);
    ObjectAfter(c, pfs, x);
    SameLists(c.levels, c.objs, c.after, c.result.objs, l, e, d0);
    forall d | d in ds ensures LeftOn(c.after[l][e], map[], d) >= (room - c.Chunks()) * CHUNK_SIZE {
      TotalAfter(c, pfs, l, e, ds, d);
      assert LeftOn(c.levels[l][e], map[], d) >= room * CHUNK_SIZE;
    }
  }

  /** After a create inside the entity it has the same devices, and room for what comes. */
  lemma ReadyStep(c: PfsCreate, pfs: Id, l: nat, e: Id, ds: set<Id>, room: nat)
    requires CreatedIn(c, pfs) && Inside(c, l, e) && Leaves(c) && Ready(c.levels, c.objs, l, e, ds, room)
    requires c.Chunks() <= room && c.Total() <= |ds|
    ensures Ready(c.after, c.result.objs, l, e, ds, room - c.Chunks())
  {
    hide Agrees, SkewGrows, EvictedTake, CreatedIn, Inside, TuplesKept, Turns.RoomForAll;
    TotalsAfter(c, pfs, l, e, ds, room);
    forall n | Below(c.result.objs, n, l, e) ensures c.result.objs[n].avail >= (room - c.Chunks() + 1) * CHUNK_SIZE {
      NisdsAfter(c, pfs, l, e, ds, room, n);
    }
  }

  lemma StillBelow(objs: map<Id, Nisd>, objs': map<Id, Nisd>, l: nat, e: Id, n: Id)
    requires TuplesKept(objs, objs') && l < FD_MAX && Below(objs', n, l, e)
    ensures Below(objs, n, l, e)
  {
  }

  // ----- what leaves an entity undisturbed -----

  /** Every delete does, whatever it stops at. */
  lemma DeleteLeavesUndisturbed(levels: seq<Tree>, s: KV, objs: map<Id, Nisd>, s': KV, objs': map<Id, Nisd>, id: Id, user: Id,
                                reached: set<Id>, l: nat, e: Id)
    requires Agrees(levels, objs) && Records(s) && Trails(s, objs) && DeleteStep(s, objs, s', objs', id, user, reached)
    requires l < FD_MAX && |levels| == FD_MAX && e in levels[l]
    ensures Undisturbed(levels, objs, levels, objs', l, e)
  {
    hide Agrees, Records, Trails, DeleteEffect, Refunded, Stored;
    RestoredAgrees(levels, objs, s', reached);
    forall n | Below(objs', n, l, e) ensures Below(objs, n, l, e) && objs'[n].avail >= objs[n].avail {
      if n in reached { OnlyMore(s, s', objs, id, user, n); }
    }
  }

  /** So does a create that looks at no NISD of the entity. */
  lemma CreateLeavesUndisturbed(c: PfsCreate, l: nat, e: Id)
    requires CreateOutcome(c.store, c.levels, c.objs, c.prep, c.hash, c.rand, c.result) && c.result.reply == Created
    requires Agrees(c.levels, c.objs) && Leaves(c) && l < FD_MAX && |c.levels| == FD_MAX && e in c.levels[l]
    requires forall n :: n in c.result.alloc ==> !Below(c.objs, n, l, e)
    ensures Undisturbed(c.levels, c.objs, c.after, c.result.objs, l, e)
  {
    hide Agrees, CreateOutcome, EvictedTake, SkewGrows;
    CommittedAfter(c);
    forall n ensures Below(c.result.objs, n, l, e) <==> Below(c.objs, n, l, e) {}
    forall n | Below(c.objs, n, l, e) ensures c.result.objs[n] == c.objs[n] {}
    SameBelow(c.levels, c.objs, c.after, c.result.objs, l, e);
    forall d | d in c.levels[l][e] ensures c.after[l][e][d].avail >= c.levels[l][e][d].avail { SameTotal(c, l, e, d); }
  }

  lemma UndisturbedTwice(levels1: seq<Tree>, objs1: map<Id, Nisd>, levels2: seq<Tree>, objs2: map<Id, Nisd>,
                         levels3: seq<Tree>, objs3: map<Id, Nisd>, l: nat, e: Id)
    requires l < FD_MAX && Undisturbed(levels1, objs1, levels2, objs2, l, e) && Undisturbed(levels2, objs2, levels3, objs3, l, e)
    ensures Undisturbed(levels1, objs1, levels3, objs3, l, e)
  {
    hide Agrees, Below;
    forall d | d in levels1[l][e] ensures levels3[l][e][d].avail >= levels1[l][e][d].avail {
      assert levels2[l][e][d].avail >= levels1[l][e][d].avail;
    }
  }

  lemma CommittedAfter(c: PfsCreate)
    requires CreateOutcome(c.store, c.levels, c.objs, c.prep, c.hash, c.rand, c.result) && c.result.reply == Created
    ensures c.result.objs == CommittedObjs(c.objs, c.result.alloc, c.result.alloc.Keys)
  {
    hide AllocOutcome, ApplyAll, CreateChanges, DrawsFrom, StartsAt;
  }

  ghost predicate SameNisds(objs: map<Id, Nisd>, objs': map<Id, Nisd>, l: nat, e: Id)
    requires l < FD_MAX
  {
    forall n :: (Below(objs, n, l, e) <==> Below(objs', n, l, e)) && (Below(objs, n, l, e) ==> objs'[n] == objs[n])
  }

  lemma SameBelow(levels: seq<Tree>, objs: map<Id, Nisd>, levels': seq<Tree>, objs': map<Id, Nisd>, l: nat, e: Id)
    requires Agrees(levels, objs) && Agrees(levels', objs') && l < FD_MAX && |levels| == FD_MAX && e in levels[l]
    requires SameNisds(objs, objs', l, e)
    ensures |levels'| == FD_MAX && e in levels'[l] && levels'[l][e].Keys == levels[l][e].Keys
  {
    AgreesAt(levels, objs, l);
    AgreesAt(levels', objs', l);
    DevicesStay(levels[l], objs, levels'[l], objs', l, e);
    DevicesStay(levels'[l], objs', levels[l], objs, l, e);
  }

  lemma DevicesStay(t: Tree, objs: map<Id, Nisd>, t': Tree, objs': map<Id, Nisd>, l: nat, e: Id)
    requires WellTyped(objs) && WellTyped(objs') && TreeAgrees(t, l, objs) && TreeAgrees(t', l, objs') && l < FD_MAX && e in t
    requires SameNisds(objs, objs', l, e)
    ensures e in t' && t[e].Keys <= t'[e].Keys
  {
    forall d | d in t[e] ensures Dev(t', e, d).Some? {
      assert Dev(t, e, d).Some?;
      var n := t[e][d].nisds[0];
      FirstIsMember(t[e][d].nisds);
      assert Listed(t, e, d, n) && Below(objs, n, l, e);
      assert Listed(t', e, d, n);
    }
    var d :| d in t[e].Keys;
    assert Dev(t', e, d).Some?;
  }

  lemma SameTotal(c: PfsCreate, l: nat, e: Id, d: Id)
    requires Agrees(c.levels, c.objs) && Leaves(c) && l < FD_MAX && |c.levels| == FD_MAX && e in c.levels[l] && d in c.levels[l][e]
    requires forall n :: n in c.result.alloc ==> !Below(c.objs, n, l, e)
    requires SameNisds(c.objs, c.result.objs, l, e)
    ensures |c.after| == FD_MAX && Dev(c.after[l], e, d).Some? && c.after[l][e][d].avail == c.levels[l][e][d].avail
  {
    SameBelow(c.levels, c.objs, c.after, c.result.objs, l, e);
    hide SkewGrows, SameNisds;
    AgreesAt(c.levels, c.objs, l);
    AgreesAt(c.after, c.result.objs, l);
    SameNisdLists(c.levels[l], c.objs, c.after[l], c.result.objs, l, e, d);
    NothingTakenHere(c, l, e, d);
    SkewAt(c, l, e, d);
  }

  lemma SkewAt(c: PfsCreate, l: nat, e: Id, d: Id)
    requires Leaves(c) && l < FD_MAX && |c.after| == FD_MAX && Dev(c.after[l], e, d).Some?
    ensures |c.levels| == FD_MAX
    ensures Skew(c.after, c.result.objs, l, e, d) ==
            Skew(c.levels, c.objs, l, e, d) + EvictedTake(Ranked(c.result.alloc.Keys), c.objs, c.result.alloc)(l, e, d)
  {
    hide Agrees, EvictedTake;
  }

  lemma NothingTakenHere(c: PfsCreate, l: nat, e: Id, d: Id)
    requires l < FD_MAX && forall n :: n in c.result.alloc ==> !Below(c.objs, n, l, e)
    ensures EvictedTake(Ranked(c.result.alloc.Keys), c.objs, c.result.alloc)(l, e, d) == 0
  {
    var alloc := c.result.alloc;
    forall x | x in Ranked(alloc.Keys) ensures TakenAt(c.objs, alloc, l, e, d)(x) == 0 {
      if x in alloc { assert !Below(c.objs, x, l, e); assert Taken(c.objs, x, alloc[x])(l, e, d) == 0; }
    }
    SumZero(Ranked(alloc.Keys), TakenAt(c.objs, alloc, l, e, d));
  }

  lemma SameNisdLists(t: Tree, objs: map<Id, Nisd>, t': Tree, objs': map<Id, Nisd>, l: nat, e: Id, d: Id)
    requires WellTyped(objs) && WellTyped(objs') && TreeAgrees(t, l, objs) && TreeAgrees(t', l, objs') && l < FD_MAX
    requires SameNisds(objs, objs', l, e) && Dev(t, e, d).Some? && Dev(t', e, d).Some?
    ensures Sum(t'[e][d].nisds, Avail(objs')) == Sum(t[e][d].nisds, Avail(objs))
  {
    var s, s' := t[e][d].nisds, t'[e][d].nisds;
    forall n ensures n in s <==> n in s' {
      assert Listed(t, e, d, n) <==> n in objs && Under(objs[n], l, e, d);
      assert Listed(t', e, d, n) <==> n in objs' && Under(objs'[n], l, e, d);
      assert Below(objs, n, l, e) <==> Below(objs', n, l, e);
    }
    forall n | n in s ensures Avail(objs')(n) == Avail(objs)(n) {
      assert Listed(t, e, d, n);
      assert Below(objs, n, l, e);
    }
    SumOfSameMembers(s', s, Avail(objs'));
    SumSame(s, Avail(objs'), Avail(objs));
  }

  // ----- the whole of it -----

  ghost predicate Consecutive(cs: seq<PfsCreate>, pfs: Id, l: nat, e: Id, width: nat)
    requires l < FD_MAX
  {
    && Chained(cs, pfs)
    && (forall j :: 0 <= j < |cs| ==> Inside(cs[j], l, e) && Leaves(cs[j]) && cs[j].Total() <= width)
    && forall j :: 0 < j < |cs| ==> Undisturbed(cs[j-1].after, cs[j-1].result.objs, cs[j].levels, cs[j].objs, l, e)
  }

  ghost function AllChunks(cs: seq<PfsCreate>): nat { if cs == [] then 0 else AllChunks(cs[..|cs|-1]) + cs[|cs|-1].Chunks() }

  lemma ConsecutivePrefix(cs: seq<PfsCreate>, pfs: Id, l: nat, e: Id, width: nat)
    requires cs != [] && l < FD_MAX && Consecutive(cs, pfs, l, e, width)
    ensures Consecutive(cs[..|cs|-1], pfs, l, e, width)
    ensures CreatedIn(cs[|cs|-1], pfs) && Inside(cs[|cs|-1], l, e) && Leaves(cs[|cs|-1]) && cs[|cs|-1].Total() <= width
  {
    hide CreatedIn, Inside, Leaves, OffsetKept, Undisturbed;
    ChainedPrefix(cs, pfs);
    var n := |cs| - 1;
    forall j | 0 < j < n ensures Undisturbed(cs[..n][j-1].after, cs[..n][j-1].result.objs, cs[..n][j].levels, cs[..n][j].objs, l, e) {
      assert Undisturbed(cs[j-1].after, cs[j-1].result.objs, cs[j].levels, cs[j].objs, l, e);
    }
  }

  /** Enough chunks in the entity at the start: all the creates find it with the same devices and room. */
  lemma {:induction false} ReadyAlong(cs: seq<PfsCreate>, pfs: Id, l: nat, e: Id, ds: set<Id>, room: nat)
    requires cs != [] && l <= DEVICE_IDX && Consecutive(cs, pfs, l, e, |ds|)
    requires Ready(cs[0].levels, cs[0].objs, l, e, ds, room) && AllChunks(cs) <= room
    ensures forall j :: 0 <= j < |cs| ==> l < |cs[j].levels| && Serves(cs[j], l, e, ds)
    ensures Ready(cs[|cs|-1].after, cs[|cs|-1].result.objs, l, e, ds, room - AllChunks(cs))
  {
    hide CreatedIn, Inside, Leaves, Ready, Serves, Undisturbed, Chained;
    var n := |cs| - 1;
    var last := cs[n];
    ConsecutivePrefix(cs, pfs, l, e, |ds|);
    if n > 0 {
      assert cs[..n][0] == cs[0] && cs[..n][n-1] == cs[n-1];
      ReadyAlong(cs[..n], pfs, l, e, ds, room);
      assert Undisturbed(cs[n-1].after, cs[n-1].result.objs, last.levels, last.objs, l, e);
      UndisturbedReady(cs[n-1].after, cs[n-1].result.objs, last.levels, last.objs, l, e, ds, room - AllChunks(cs[..n]));
    }
    var left := room - AllChunks(cs[..n]);
    InLevels(last, l, e);
    ReadyServes(last, l, e, ds, left);
    ReadyStep(last, pfs, l, e, ds, left);
    forall j | 0 <= j < |cs| ensures l < |cs[j].levels| && Serves(cs[j], l, e, ds) {
      if j < n { assert cs[..n][j] == cs[j]; }
    }
  }

  /** Creates of one PFS inside one entity, with anything in between that takes no device and no space away
      from that entity. If every device of it, by its total, and every NISD of it has room at the start for
      more chunks than all the creates ask for, the stored offset ends as the running sum of the block
      counts, and the blocks of a chunk index on any two devices differ by at most one. */
  lemma {:induction false} PfsStaysBalanced(cs: seq<PfsCreate>, pfs: Id, l: nat, e: Id, ds: set<Id>, c: nat, d1: Id, d2: Id)
    requires cs != [] && l <= DEVICE_IDX && Consecutive(cs, pfs, l, e, |ds|) && d1 in ds && d2 in ds
    requires Ready(cs[0].levels, cs[0].objs, l, e, ds, AllChunks(cs))
    requires forall j :: 0 <= j < |cs| ==> c < cs[j].Chunks()
    ensures IsAt(cs[|cs|-1].result.store, PfsOffset(pfs), Num(Turns.OffsetAfter(cs[0].result.off, Totals(cs))))
    ensures forall j :: 0 <= j < |cs| ==> c < |cs[j].result.plan|
    ensures Turns.PicksOfPfs(ChunksAt(cs, c), d1) <= Turns.PicksOfPfs(ChunksAt(cs, c), d2) + 1
  {
    hide Ready, Serves, Inside, Leaves, Undisturbed, Chained, Turns.PicksOfPfs, ChunksAt;
    ReadyAlong(cs, pfs, l, e, ds, AllChunks(cs));
    OffsetsChain(cs, pfs);
    PfsCreatesAreBalanced(cs, pfs, l, e, ds, c, d1, d2);
  }
}
