/** When the chunk allocator succeeds: an exact count of the entities that can still take a block.

    The count is exact while the running totals are backed by the NISDs: the space left on every device
    is a whole number of chunks, and its NISDs have at least that much, in whole chunks each. */
module Completeness {
  import opened Finite
  import opened Lib
  import opened Index
  import opened Modulo
  import opened Pickers
  import opened Allocator
  import opened Placement
  import opened VdevAllocator

  ghost function At(left: map<Id, int>): Id -> int { n => if n in left then left[n] else 0 }

  ghost predicate Whole(x: int) { x >= 0 && x % CHUNK_SIZE == 0 }

  /** NISDs have whole chunks, and what is left on a device is a whole number of chunks that its NISDs
      have: the totals may be too low, never too high. */
  ghost predicate Backed(tree: Tree, usage: DeviceUsage, left: map<Id, int>) {
    && (forall n :: n in left ==> Whole(left[n]))
    && (forall e, d :: Dev(tree, e, d).Some? ==> BackedOn(tree[e], usage, left, d))
  }

  ghost predicate BackedOn(devs: Devices, usage: DeviceUsage, left: map<Id, int>, d: Id)
    requires d in devs
  {
    LeftOn(devs, usage, d) <= Sum(devs[d].nisds, At(left)) && LeftOn(devs, usage, d) % CHUNK_SIZE == 0
  }

  /** Every device stands in one entity, every NISD on one device, and lists have no repetitions. */
  ghost predicate OneHome(tree: Tree) {
    && (forall e1, e2, d :: Dev(tree, e1, d).Some? && Dev(tree, e2, d).Some? ==> e1 == e2)
    && (forall e1, d1, e2, d2, n :: Listed(tree, e1, d1, n) && Listed(tree, e2, d2, n) ==> e1 == e2 && d1 == d2)
    && (forall e, d :: Dev(tree, e, d).Some? ==> Distinct(tree[e][d].nisds))
  }

  ghost predicate HasRoom(tree: Tree, usage: DeviceUsage, e: Id) {
    e in tree && exists d :: Eligible(tree[e], usage, d)
  }

  ghost function RoomyEntities(tree: Tree, usage: DeviceUsage): set<Id> {
    set e | e in tree && HasRoom(tree, usage, e)
  }

  // ----- the levels PDU to device satisfy this -----

  lemma LevelsHaveOneHome(levels: seq<Tree>, objs: map<Id, Nisd>, i: nat)
    requires Agrees(levels, objs) && Nested(objs) && i <= DEVICE_IDX
    ensures OneHome(levels[i])
  {
    var t := levels[i];
    assert TreeAgrees(t, i, objs);
    forall e1, e2, d | Dev(t, e1, d).Some? && Dev(t, e2, d).Some? ensures e1 == e2 {
      var n, m := t[e1][d].nisds[0], t[e2][d].nisds[0];
      FirstIsMember(t[e1][d].nisds);
      FirstIsMember(t[e2][d].nisds);
      assert Listed(t, e1, d, n) && Listed(t, e2, d, m);
      OneAncestor(objs, n, m, i);
    }
  }

  /** No total is above the space of its NISDs, nor off by part of a chunk. */
  ghost predicate NotHigh(levels: seq<Tree>, objs: map<Id, Nisd>, i: nat)
    requires i < |levels|
  {
    forall e, d :: Skew(levels, objs, i, e, d) <= 0 && Skew(levels, objs, i, e, d) % CHUNK_SIZE == 0
  }

  /** Such an index over chunk-aligned NISDs is backed before the first placement. */
  lemma StartsBacked(levels: seq<Tree>, objs: map<Id, Nisd>, i: nat)
    requires Agrees(levels, objs) && i < FD_MAX && NotHigh(levels, objs, i)
    requires forall n :: n in objs ==> Whole(objs[n].avail)
    ensures Backed(levels[i], map[], Left(objs, map[]))
  {
    hide Whole;
    var t, left := levels[i], Left(objs, map[]);
    forall e, d | Dev(t, e, d).Some? ensures BackedOn(t[e], map[], left, d) {
      var x := Skew(levels, objs, i, e, d);
      SumSame(t[e][d].nisds, Avail(objs), At(left));
      SumWhole(t[e][d].nisds, left);
      WholeAndSkew(Sum(t[e][d].nisds, At(left)), x);
    }
  }

  lemma WholeAndSkew(x: int, y: int)
    requires Whole(x) && y % CHUNK_SIZE == 0
    ensures (x + y) % CHUNK_SIZE == 0
  {
    assert x == CHUNK_SIZE * (x / CHUNK_SIZE) && y == CHUNK_SIZE * (y / CHUNK_SIZE);
    assert x + y == CHUNK_SIZE * (x / CHUNK_SIZE + y / CHUNK_SIZE);
  }

  // ----- one pick -----

  lemma ChargeElsewhere(tree: Tree, usage: DeviceUsage, p: Pick, e: Id, d: Id)
    requires OneHome(tree) && Dev(tree, p.entity, p.device).Some? && Dev(tree, e, d).Some?
    ensures LeftOn(tree[e], Charge(usage, tree[p.entity], p.device), d) ==
            LeftOn(tree[e], usage, d) - if d == p.device then CHUNK_SIZE else 0
    ensures d == p.device <==> e == p.entity && d == p.device
  {
  }

  lemma PickHasDevice(tree: Tree, q: Probe, p: Pick)
    requires Picks(tree, q, p)
    ensures Dev(tree, p.entity, p.device).Some?
  {
  }

  lemma BackedStep(tree: Tree, q: Probe, p: Pick)
    requires OneHome(tree) && Backed(tree, q.usage, q.left) && Picks(tree, q, p)
    ensures Backed(tree, Charge(q.usage, tree[p.entity], p.device), Draw(q.left, p.nisd))
  {
    ChoiceFits(tree, q, p);
    PickHasDevice(tree, q, p);
    hide Picks, Eligible, OneHome, BackedOn, Charge, Listed;
    forall e, d | Dev(tree, e, d).Some?
      ensures BackedOn(tree[e], Charge(q.usage, tree[p.entity], p.device), Draw(q.left, p.nisd), d)
    {
      BackedStepAt(tree, q, p, e, d);
    }
  }

  lemma BackedStepAt(tree: Tree, q: Probe, p: Pick, e: Id, d: Id)
    requires OneHome(tree) && Listed(tree, p.entity, p.device, p.nisd) && Fits(q.nisds, q.left, p.nisd)
    requires Dev(tree, e, d).Some? && BackedOn(tree[e], q.usage, q.left, d)
    ensures BackedOn(tree[e], Charge(q.usage, tree[p.entity], p.device), Draw(q.left, p.nisd), d)
  {
    ChargeElsewhere(tree, q.usage, p, e, d);
    ListedOnce(tree, p.entity, p.device, e, d, p.nisd);
    hide OneHome, Charge, LeftOn;
    var s, f, g := tree[e][d].nisds, At(q.left), At(Draw(q.left, p.nisd));
    if d == p.device {
      SumUpdate(s, f, g, p.nisd);
    } else {
      SumSame(s, f, g);
    }
  }

  lemma ListedOnce(tree: Tree, e1: Id, d1: Id, e2: Id, d2: Id, n: Id)
    requires OneHome(tree) && Listed(tree, e1, d1, n) && Dev(tree, e2, d2).Some?
    ensures n in tree[e2][d2].nisds <==> e1 == e2 && d1 == d2
    ensures Distinct(tree[e2][d2].nisds)
  {
    if n in tree[e2][d2].nisds { assert Listed(tree, e2, d2, n); }
  }

  lemma {:induction false} BackedChain(tree: Tree, usage: DeviceUsage, left: map<Id, int>, off: nat, picks: seq<Pick>)
    requires OneHome(tree) && Backed(tree, usage, left) && Chain(tree, usage, left, off, picks)
    ensures Backed(tree, UsageAfter(tree, usage, picks), LeftAfter(left, picks))
  {
    hide Backed, Picks, OneHome;
    if picks != [] {
      var n := |picks| - 1;
      BackedChain(tree, usage, left, off, picks[..n]);
      var q := ProbeAfter(tree, usage, left, off, picks[..n]);
      BackedStep(tree, q, picks[n]);
      PickHasDevice(tree, q, picks[n]);
    }
  }

  /** Picks do not touch the space of entities they do not use. */
  lemma {:induction false} UnusedUntouched(tree: Tree, usage: DeviceUsage, left: map<Id, int>, off: nat, picks: seq<Pick>, e: Id, d: Id)
    requires OneHome(tree) && Chain(tree, usage, left, off, picks)
    requires Dev(tree, e, d).Some? && e !in EntitiesOf(picks)
    ensures LeftOn(tree[e], UsageAfter(tree, usage, picks), d) == LeftOn(tree[e], usage, d)
  {
    hide Picks;
    if picks != [] {
      var n := |picks| - 1;
      assert picks == picks[..n] + [picks[n]] && picks[n] in picks;
      UnusedUntouched(tree, usage, left, off, picks[..n], e, d);
      PickHasDevice(tree, ProbeAfter(tree, usage, left, off, picks[..n]), picks[n]);
      ChargeElsewhere(tree, UsageAfter(tree, usage, picks[..n]), picks[n], e, d);
    }
  }

  /** While the totals are backed, an unused entity with a device that has room is serviceable:
      the device the first phase chooses has a NISD for the second. */
  lemma {:induction false} RoomIsServiceable(tree: Tree, usage: DeviceUsage, left: map<Id, int>, off: nat, picks: seq<Pick>, e: Id)
    requires OneHome(tree) && Backed(tree, usage, left) && Chain(tree, usage, left, off, picks)
    requires HasRoom(tree, usage, e) && e !in EntitiesOf(picks)
    ensures !Unserviceable(tree[e], ProbeAfter(tree, usage, left, off, picks))
  {
    var q := ProbeAfter(tree, usage, left, off, picks);
    if Unserviceable(tree[e], q) {
      var d0 :| Eligible(tree[e], usage, d0);
      UnusedUntouched(tree, usage, left, off, picks, e, d0);
      assert Eligible(tree[e], q.usage, d0);
      var r: Option<Id> :| DeviceChoice(tree[e], q.devices, q.usage, q.off, r)
        && (r.Some? ==> r.value in tree[e] && NisdChoice(tree[e][r.value].nisds, q.nisds, q.left, None));
      BackedChain(tree, usage, left, off, picks);
      FitsSomewhere(tree, usage, left, off, picks, e, r.value);
    }
  }

  lemma {:induction false} FitsSomewhere(tree: Tree, usage: DeviceUsage, left: map<Id, int>, off: nat, picks: seq<Pick>, e: Id, d: Id)
    requires OneHome(tree) && Chain(tree, usage, left, off, picks)
    requires Backed(tree, UsageAfter(tree, usage, picks), LeftAfter(left, picks))
    requires e in tree && Eligible(tree[e], UsageAfter(tree, usage, picks), d) && e !in EntitiesOf(picks)
    ensures !NisdChoice(tree[e][d].nisds, NisdsOf(picks), LeftAfter(left, picks), None)
  {
    hide Chain, UsageAfter, LeftAfter;
    var s, l := tree[e][d].nisds, LeftAfter(left, picks);
    assert Dev(tree, e, d).Some?;
    var n := SumPositive(s, At(l));
    assert n in l && Whole(l[n]);
    NotPickedHere(tree, usage, left, off, picks, e, d, n);
    var k: nat :| k < |s| && s[k] == n;
    assert Fits(NisdsOf(picks), l, s[k]);
  }

  lemma {:induction false} NotPickedHere(tree: Tree, usage: DeviceUsage, left: map<Id, int>, off: nat, picks: seq<Pick>, e: Id, d: Id, n: Id)
    requires OneHome(tree) && Chain(tree, usage, left, off, picks) && e !in EntitiesOf(picks) && Listed(tree, e, d, n)
    ensures n !in NisdsOf(picks)
  {
    ChainListed(tree, usage, left, off, picks);
  }

  /** A used entity had room when the chunk began. */
  lemma {:induction false} UsedHadRoom(tree: Tree, start: nat, usage: DeviceUsage, left: map<Id, int>, off: nat, picks: seq<Pick>)
    requires OneHome(tree) && Chain(tree, usage, left, off, picks) && WalkChain(tree, start, usage, left, off, picks)
    ensures EntitiesOf(picks) <= RoomyEntities(tree, usage)
  {
    hide Picks, Stops;
    if picks != [] {
      var n := |picks| - 1;
      var before, p := picks[..n], picks[n];
      UsedHadRoom(tree, start, usage, left, off, before);
      var q := ProbeAfter(tree, usage, left, off, before);
      StopsAtNew(tree, start, before, q, p);
      ChoiceFits(tree, q, p);
      UnusedUntouched(tree, usage, left, off, before, p.entity, p.device);
      assert Eligible(tree[p.entity], usage, p.device);
      assert picks == before + [p];
      assert EntitiesOf(picks) == EntitiesOf(before) + {p.entity};
    }
  }

  /** Completeness of chunk allocation, both ways: with backed totals an unfiltered chunk is placed
      exactly when enough entities have room; the loop spins exactly when every entity has room and
      that is still not enough; and otherwise the chunk fails. */
  lemma ChunkComplete(tree: Tree, total: nat, start: nat, usage: DeviceUsage, left: map<Id, int>, off: nat,
                      out: Outcome, picks: seq<Pick>)
    requires OneHome(tree) && Backed(tree, usage, left)
    requires AcrossRun(tree, total, start, usage, left, off, out, picks)
    ensures out == Placed <==> total <= |RoomyEntities(tree, usage)|
    ensures out == Spins <==> RoomyEntities(tree, usage) == tree.Keys && |tree| < total
  {
    var used, roomy := EntitiesOf(picks), RoomyEntities(tree, usage);
    DistinctEntities(tree, start, usage, left, off, picks);
    UsedHadRoom(tree, start, usage, left, off, picks);
    CardBelow(used, roomy);
    CardBelow(roomy, tree.Keys);
    if out == Failed {
      forall e | e in roomy ensures e in used {
        assert Passed(tree, e, used, ProbeAfter(tree, usage, left, off, picks));
        if e !in used { RoomIsServiceable(tree, usage, left, off, picks, e); }
      }
      CardBelow(roomy, used);
    }
  }

  // ----- a whole vdev -----

  /** The space left in an entity: the sum over its devices. */
  ghost function EntityLeft(tree: Tree, usage: DeviceUsage, e: Id): int
    requires e in tree
  {
    Sum(Ranked(tree[e].Keys), LeftIn(tree[e], usage))
  }

  ghost function LeftIn(devs: Devices, usage: DeviceUsage): Id -> int {
    d => if d in devs then LeftOn(devs, usage, d) else 0
  }

  /** A chunk takes exactly one chunk of space from each entity it uses and none from the others. */
  lemma {:induction false} ChunkTakesOne(tree: Tree, start: nat, usage: DeviceUsage, left: map<Id, int>, off: nat, picks: seq<Pick>, e: Id)
    requires OneHome(tree) && e in tree
    requires Chain(tree, usage, left, off, picks) && WalkChain(tree, start, usage, left, off, picks)
    ensures EntityLeft(tree, UsageAfter(tree, usage, picks), e) ==
            EntityLeft(tree, usage, e) - if e in EntitiesOf(picks) then CHUNK_SIZE else 0
  {
    hide Picks, Stops, ProbeAfter, EntityLeft;
    if picks != [] {
      var n := |picks| - 1;
      var before, p := picks[..n], picks[n];
      ChunkTakesOne(tree, start, usage, left, off, before, e);
      PickHasDevice(tree, ProbeAfter(tree, usage, left, off, before), p);
      StopsAtNew(tree, start, before, ProbeAfter(tree, usage, left, off, before), p);
      ChargeEntity(tree, UsageAfter(tree, usage, before), p, e);
      OneMoreEntity(before, p);
      assert picks == before + [p];
    }
  }

  lemma ChargeEntity(tree: Tree, usage: DeviceUsage, p: Pick, e: Id)
    requires OneHome(tree) && e in tree && Dev(tree, p.entity, p.device).Some?
    ensures EntityLeft(tree, Charge(usage, tree[p.entity], p.device), e) ==
            EntityLeft(tree, usage, e) - if e == p.entity then CHUNK_SIZE else 0
  {
    var ds := Ranked(tree[e].Keys);
    var f, g := LeftIn(tree[e], usage), LeftIn(tree[e], Charge(usage, tree[p.entity], p.device));
    RankedIsDistinct(tree[e].Keys);
    forall d | d in ds ensures g(d) == f(d) - if d == p.device && e == p.entity then CHUNK_SIZE else 0 {
      assert Dev(tree, e, d).Some?;
      ChargeElsewhere(tree, usage, p, e, d);
    }
    if e == p.entity {
      SumUpdate(ds, f, g, p.device);
    } else {
      SumSame(ds, f, g);
    }
  }

  lemma {:induction false} SumWhole(s: seq<Id>, left: map<Id, int>)
    requires forall n :: n in left ==> Whole(left[n])
    ensures Whole(Sum(s, At(left)))
  {
    if s != [] {
      SumWhole(s[..|s|-1], left);
      var a, b := Sum(s[..|s|-1], At(left)), At(left)(s[|s|-1]);
      assert a == CHUNK_SIZE * (a / CHUNK_SIZE) && b == CHUNK_SIZE * (b / CHUNK_SIZE);
      assert a + b == CHUNK_SIZE * (a / CHUNK_SIZE + b / CHUNK_SIZE);
    }
  }

  /** With backed totals, any space left in an entity is room for a block. */
  lemma SpaceIsRoom(tree: Tree, usage: DeviceUsage, left: map<Id, int>, e: Id)
    requires Backed(tree, usage, left) && e in tree && EntityLeft(tree, usage, e) > 0
    ensures HasRoom(tree, usage, e)
  {
    var d := SumPositive(Ranked(tree[e].Keys), LeftIn(tree[e], usage));
    assert Dev(tree, e, d).Some? && BackedOn(tree[e], usage, left, d);
    assert Eligible(tree[e], usage, d);
  }

  lemma {:induction false} UnfilteredRun(tree: Tree, req: VdevReq, hash: nat, usage: DeviceUsage, left: map<Id, int>,
                                         off: nat, out: Outcome, picks: seq<Pick>)
    requires ChunkRun(tree, req, hash, usage, left, off, out, picks) && req.filter.id == NO_ID && |tree| > 0
    ensures Chain(tree, usage, left, off, picks) && WalkChain(tree, hash % |tree|, usage, left, off, picks)
  {
  }

  /** Whatever chunks are placed, filtered or not, backed totals stay backed. */
  lemma {:induction false} PlanStaysBacked(tree: Tree, req: VdevReq, hash: nat -> nat, offset: nat, left: map<Id, int>, plan: seq<seq<Pick>>)
    requires OneHome(tree) && Backed(tree, map[], left) && VdevRun(tree, req, hash, offset, left, plan)
    ensures Backed(tree, UsageAfter(tree, map[], Flat(plan)), LeftAfter(left, Flat(plan)))
  {
    hide Chain, Backed, OneHome, UsageAfter, LeftAfter, ChunkRun;
    if plan == [] {
      EmptyAfter(tree, left);
    } else {
      var n := |plan| - 1;
      var before, picks := plan[..n], plan[n];
      PlanStaysBacked(tree, req, hash, offset, left, before);
      var u, l := UsageAfter(tree, map[], Flat(before)), LeftAfter(left, Flat(before));
      UsageAppend(tree, map[], Flat(before), picks);
      LeftAppend(left, Flat(before), picks);
      PlacedIsChain(tree, req, hash(n), u, l, n + offset, Placed, picks);
      BackedChain(tree, u, l, n + offset, picks);
    }
  }

  /** After k chunks no entity lost more than k chunks. */
  lemma {:induction false} AfterChunks(tree: Tree, req: VdevReq, hash: nat -> nat, offset: nat, left: map<Id, int>, plan: seq<seq<Pick>>)
    requires OneHome(tree) && req.filter.id == NO_ID && |tree| > 0
    requires VdevRun(tree, req, hash, offset, left, plan)
    ensures forall e :: e in tree ==>
              EntityLeft(tree, UsageAfter(tree, map[], Flat(plan)), e) >= EntityLeft(tree, map[], e) - |plan| * CHUNK_SIZE
  {
    hide Chain, WalkChain, EntityLeft, OneHome, UsageAfter, LeftAfter, ChunkRun;
    if plan == [] {
      EmptyAfter(tree, left);
    } else {
      var n := |plan| - 1;
      var before, picks := plan[..n], plan[n];
      AfterChunks(tree, req, hash, offset, left, before);
      var u, l := UsageAfter(tree, map[], Flat(before)), LeftAfter(left, Flat(before));
      UsageAppend(tree, map[], Flat(before), picks);
      UnfilteredRun(tree, req, hash(n), u, l, n + offset, Placed, picks);
      forall e | e in tree ensures EntityLeft(tree, UsageAfter(tree, u, picks), e) >= EntityLeft(tree, u, e) - CHUNK_SIZE {
        ChunkTakesOne(tree, hash(n) % |tree|, u, l, n + offset, picks, e);
      }
    }
  }

  /** Guaranteed placement: if at least totalBlocks entities of the level have room for one block of
      every chunk, the attempt at that level succeeds, whatever the hashes and the offset. */
  lemma EnoughRoomPlaces(tree: Tree, req: VdevReq, hash: nat -> nat, offset: nat, left: map<Id, int>,
                         out: Outcome, plan: seq<seq<Pick>>, rest: seq<Pick>, roomy: set<Id>)
    requires OneHome(tree) && Backed(tree, map[], left) && req.filter.id == NO_ID && |tree| > 0
    requires AttemptRun(tree, req, hash, offset, left, out, plan, rest)
    requires roomy <= tree.Keys && req.vdev.TotalRedundancyBlocksPerChunk() <= |roomy|
    requires forall e :: e in roomy ==> EntityLeft(tree, map[], e) >= req.vdev.chunkCnt * CHUNK_SIZE
    ensures out == Placed
  {
    hide Chain, WalkChain, EntityLeft, Backed, OneHome, VdevRun, UsageAfter, LeftAfter, Flat, HasRoom, AcrossRun;
    if out != Placed {
      var u, l := UsageAfter(tree, map[], Flat(plan)), LeftAfter(left, Flat(plan));
      AfterChunks(tree, req, hash, offset, left, plan);
      PlanStaysBacked(tree, req, hash, offset, left, plan);
      forall e | e in roomy ensures e in RoomyEntities(tree, u) {
        SpaceIsRoom(tree, u, l, e);
      }
      CardBelow(roomy, RoomyEntities(tree, u));
      ChunkComplete(tree, req.vdev.TotalRedundancyBlocksPerChunk(), hash(|plan|) % |tree|, u, l, |plan| + offset, out, rest);
    }
  }

  /** At least `total` entities of level l have space for one block of each of the chunks. */
  ghost predicate EnoughRoom(tree: Tree, total: nat, chunks: nat, roomy: set<Id>) {
    roomy <= tree.Keys && tree.Keys != {} && total <= |roomy|
    && forall e :: e in roomy ==> EntityLeft(tree, map[], e) >= chunks * CHUNK_SIZE
  }

  /** Tuples nest, NISDs have whole chunks, and no total of the index is too high. */
  ghost predicate NeverHigh(levels: seq<Tree>, objs: map<Id, Nisd>) {
    Agrees(levels, objs) && Nested(objs) && |levels| == FD_MAX
    && (forall i: nat | i < FD_MAX :: NotHigh(levels, objs, i))
    && forall n :: n in objs ==> Whole(objs[n].avail)
  }

  /** Every total of the index is exact. */
  ghost predicate Settled(levels: seq<Tree>, objs: map<Id, Nisd>) {
    Agrees(levels, objs) && Nested(objs) && |levels| == FD_MAX
    && (forall i: nat, e, d | i < FD_MAX :: Skew(levels, objs, i, e, d) == 0)
    && forall n :: n in objs ==> Whole(objs[n].avail)
  }

  lemma SettledIsNeverHigh(levels: seq<Tree>, objs: map<Id, Nisd>)
    requires Settled(levels, objs)
    ensures NeverHigh(levels, objs)
  {
    hide Agrees, Nested, Whole, Skew;
    forall i: nat | i < FD_MAX ensures NotHigh(levels, objs, i) {}
  }

  lemma SettledAgrees(levels: seq<Tree>, objs: map<Id, Nisd>, l: nat)
    requires Settled(levels, objs) && l < FD_MAX
    ensures Agrees(levels, objs) && |levels| == FD_MAX && TreeAgrees(levels[l], l, objs)
    ensures forall n :: n in objs ==> |objs[n].fdom| == FD_MAX
  {
  }

  lemma DeviceHolds(levels: seq<Tree>, objs: map<Id, Nisd>, i: nat, e: Id, d: Id)
    requires Settled(levels, objs) && i < FD_MAX && Dev(levels[i], e, d).Some?
    ensures levels[i][e][d].avail >= 0
    ensures forall n :: n in levels[i][e][d].nisds ==> n in objs && objs[n].avail <= levels[i][e][d].avail
  {
    var s := levels[i][e][d].nisds;
    assert TreeAgrees(levels[i], i, objs) && Skew(levels, objs, i, e, d) == 0;
    forall n | n in s ensures n in objs && 0 <= Avail(objs)(n) { assert Listed(levels[i], e, d, n); }
    SumNonNeg(s, Avail(objs));
  }

  /** A NISD is room in its device and in its entity. */
  lemma NisdIsRoom(levels: seq<Tree>, objs: map<Id, Nisd>, n: Id, i: nat)
    requires Settled(levels, objs) && n in objs && i < FD_MAX
    ensures |objs[n].fdom| == FD_MAX
    ensures var e, d := objs[n].fdom[i], objs[n].fdom[DEVICE_IDX];
            Dev(levels[i], e, d).Some? && levels[i][e][d].avail >= objs[n].avail && EntityLeft(levels[i], map[], e) >= objs[n].avail
  {
    var t, e, d := levels[i], objs[n].fdom[i], objs[n].fdom[DEVICE_IDX];
    assert TreeAgrees(t, i, objs);
    assert Listed(t, e, d, n);
    DeviceHolds(levels, objs, i, e, d);
    forall x | x in Ranked(t[e].Keys) ensures 0 <= LeftIn(t[e], map[])(x) {
      assert Dev(t, e, x).Some?;
      DeviceHolds(levels, objs, i, e, x);
    }
    SumNonNeg(Ranked(t[e].Keys), LeftIn(t[e], map[]));
    assert d in Ranked(t[e].Keys);
  }

  lemma RoomMeansPlaced(levels: seq<Tree>, objs: map<Id, Nisd>, l: nat, req: VdevReq, hash: nat -> nat, offset: nat, out: Outcome, roomy: set<Id>)
    requires NeverHigh(levels, objs) && l <= DEVICE_IDX && req.filter.id == NO_ID
    requires EnoughRoom(levels[l], req.vdev.TotalRedundancyBlocksPerChunk(), req.vdev.chunkCnt, roomy)
    requires AttemptEnds(levels[l], req, hash, offset, Left(objs, map[]), out)
    ensures out == Placed
  {
    hide AttemptRun, EntityLeft, Agrees, Nested, Skew, Whole, OneHome, Backed, Left;
    var plan, rest :| AttemptRun(levels[l], req, hash, offset, Left(objs, map[]), out, plan, rest);
    LevelsHaveOneHome(levels, objs, l);
    StartsBacked(levels, objs, l);
    assert |levels[l].Keys| > 0;
    EnoughRoomPlaces(levels[l], req, hash, offset, Left(objs, map[]), out, plan, rest, roomy);
  }

  /** A search that ends past a wide level has failed there. */
  lemma SearchPasses(levels: seq<Tree>, req: VdevReq, hash: nat -> nat, offset: nat, left: map<Id, int>, l: nat, top: nat)
    requires l <= DEVICE_IDX < |levels| && req.vdev.TotalRedundancyBlocksPerChunk() <= |levels[l]|
    ensures !NoWideLevel(levels, req.vdev.TotalRedundancyBlocksPerChunk())
    ensures CoarsestThatFits(levels, req, hash, offset, left, top) && l < top ==> AttemptFails(levels[l], req, hash, offset, left)
  {
    hide AttemptEnds;
  }

  /** Guaranteed placement of a request without a filter entity: with totals that are never too high, if
      level l is the one asked for, or the request is unscoped, and enough entities of level l have
      room, then the vdev is placed, at level l or at a coarser one. */
  lemma RoomIsFound(levels: seq<Tree>, objs: map<Id, Nisd>, req: VdevReq, hash: nat -> nat, offset: nat,
                    out: Outcome, level: nat, plan: seq<seq<Pick>>, alloc: map<Id, int>, l: nat, roomy: set<Id>)
    requires NeverHigh(levels, objs) && l <= DEVICE_IDX
    requires req.filter.id == NO_ID && (req.filter.fdType == FD_ANY || GetFDIdx(req.filter.fdType) == l)
    requires EnoughRoom(levels[l], req.vdev.TotalRedundancyBlocksPerChunk(), req.vdev.chunkCnt, roomy)
    requires AllocOutcome(levels, objs, req, hash, offset, out, level, plan, alloc)
    ensures out == Placed && level <= l
  {
    hide AttemptEnds, Agrees, Nested, Skew, EntityLeft, PlacedAt;
    var left, total := Left(objs, map[]), req.vdev.TotalRedundancyBlocksPerChunk();
    CardBelow(roomy, levels[l].Keys);
    if AttemptEnds(levels[l], req, hash, offset, left, Failed) {
      RoomMeansPlaced(levels, objs, l, req, hash, offset, Failed, roomy);
    }
    if req.filter.fdType != FD_ANY {
      if out != Placed { RoomMeansPlaced(levels, objs, l, req, hash, offset, out, roomy); }
    } else {
      SearchPasses(levels, req, hash, offset, left, l, if out == Placed then level else FD_MAX);
    }
  }

  // ----- when a request hangs -----

  lemma {:induction false} FirstChunkPlaced(tree: Tree, req: VdevReq, hash: nat -> nat, offset: nat, left: map<Id, int>, plan: seq<seq<Pick>>)
    requires VdevRun(tree, req, hash, offset, left, plan) && plan != [] && req.filter.id == NO_ID
    ensures req.vdev.TotalRedundancyBlocksPerChunk() <= |tree|
  {
    hide AcrossRun, UsageAfter, LeftAfter;
    var before := plan[..|plan|-1];
    var u, l := UsageAfter(tree, map[], Flat(before)), LeftAfter(left, Flat(before));
    ChunkFits(tree, req, hash(|before|), u, l, |before| + offset, plan[|plan|-1]);
  }

  /** A placed unfiltered chunk uses as many entities as it has blocks. */
  lemma ChunkFits(tree: Tree, req: VdevReq, hash: nat, usage: DeviceUsage, left: map<Id, int>, off: nat, picks: seq<Pick>)
    requires ChunkRun(tree, req, hash, usage, left, off, Placed, picks) && req.filter.id == NO_ID
    ensures req.vdev.TotalRedundancyBlocksPerChunk() <= |tree|
  {
    hide Chain, WalkChain;
    DistinctEntities(tree, hash % |tree|, usage, left, off, picks);
    CardBelow(EntitiesOf(picks), tree.Keys);
  }

  /** The state in which the entity loop makes no progress: more blocks wanted than there are entities,
      and room in every one of them. */
  ghost predicate Jams(tree: Tree, total: nat) {
    tree.Keys != {} && |tree| < total && RoomyEntities(tree, map[]) == tree.Keys
  }

  lemma AttemptSpinsIff(tree: Tree, req: VdevReq, hash: nat -> nat, offset: nat, left: map<Id, int>,
                        out: Outcome, plan: seq<seq<Pick>>, rest: seq<Pick>)
    requires OneHome(tree) && Backed(tree, map[], left) && req.filter.id == NO_ID && req.vdev.chunkCnt > 0
    requires AttemptRun(tree, req, hash, offset, left, out, plan, rest)
    ensures out == Spins <==> Jams(tree, req.vdev.TotalRedundancyBlocksPerChunk())
  {
    hide Backed, OneHome, AcrossRun, UsageAfter, LeftAfter, VdevRun, RoomyEntities;
    var total := req.vdev.TotalRedundancyBlocksPerChunk();
    if plan != [] {
      FirstChunkPlaced(tree, req, hash, offset, left, plan);
      if out != Placed { NextNeverSpins(tree, req, hash, offset, left, plan, out, rest); }
    } else {
      EmptyAfter(tree, left);
      assert |tree| == |tree.Keys|;
      if |tree| > 0 { ChunkComplete(tree, total, hash(0) % |tree|, map[], left, offset, out, rest); }
    }
  }

  /** A request that names a level and no entity hangs if and only if it asks for more blocks than the
      level has entities while every entity has room, totals being never too high. */
  lemma HangsIffJammed(levels: seq<Tree>, objs: map<Id, Nisd>, req: VdevReq, hash: nat -> nat, offset: nat,
                       out: Outcome, level: nat, plan: seq<seq<Pick>>, alloc: map<Id, int>)
    requires NeverHigh(levels, objs) && AllocOutcome(levels, objs, req, hash, offset, out, level, plan, alloc)
    requires req.filter.id == NO_ID && 0 <= GetFDIdx(req.filter.fdType) <= DEVICE_IDX && req.vdev.chunkCnt > 0
    ensures out == Spins <==> Jams(levels[GetFDIdx(req.filter.fdType)], req.vdev.TotalRedundancyBlocksPerChunk())
  {
    hide AttemptRun, Agrees, Nested, Skew, Whole, OneHome, Backed, Left, Jams, VdevRun, VdevLooked, LeftAfter;
    var l := GetFDIdx(req.filter.fdType);
    var left := Left(objs, map[]);
    LevelsHaveOneHome(levels, objs, l);
    StartsBacked(levels, objs, l);
    if out == Placed {
      PlacedIsAttempt(levels[l], objs, req, hash, offset, plan, alloc);
      AttemptSpinsIff(levels[l], req, hash, offset, left, Placed, plan, []);
    } else {
      var plan1, rest :| AttemptRun(levels[l], req, hash, offset, left, out, plan1, rest);
      AttemptSpinsIff(levels[l], req, hash, offset, left, out, plan1, rest);
    }
  }

  lemma PlacedIsAttempt(tree: Tree, objs: map<Id, Nisd>, req: VdevReq, hash: nat -> nat, offset: nat, plan: seq<seq<Pick>>, alloc: map<Id, int>)
    requires PlacedAt(tree, objs, req, hash, offset, plan, alloc)
    ensures AttemptRun(tree, req, hash, offset, Left(objs, map[]), Placed, plan, [])
  {
    hide VdevRun, VdevLooked, LeftAfter, Left;
  }

  function OneDisk(): Tree { map[Id("p") := map[Id("d") := DeviceAlloc(2 * CHUNK_SIZE, [Id("x")])]] }
  function TwoChunks(): map<Id, int> { map[Id("x") := 2 * CHUNK_SIZE] }

  lemma OneDiskIsBacked()
    ensures OneHome(OneDisk()) && Backed(OneDisk(), map[], TwoChunks())
  {
    SumOfOne(Id("x"), At(TwoChunks()));
  }

  lemma OneDiskHasRoom()
    ensures RoomyEntities(OneDisk(), map[]) == OneDisk().Keys && |OneDisk()| == 1
  {
    assert Eligible(OneDisk()[Id("p")], map[], Id("d"));
    assert HasRoom(OneDisk(), map[], Id("p"));
  }

  /** The least such input: one entity with room for two blocks, and two blocks wanted. */
  lemma TwoBlocksOneEntity(start: nat, off: nat, out: Outcome, picks: seq<Pick>)
    requires AcrossRun(OneDisk(), 2, start, map[], TwoChunks(), off, out, picks)
    ensures out == Spins
  {
    hide AcrossRun, OneDisk, TwoChunks, OneHome, Backed, RoomyEntities;
    OneDiskIsBacked();
    OneDiskHasRoom();
    ChunkComplete(OneDisk(), 2, start, map[], TwoChunks(), off, out, picks);
  }

  // ----- what the conditions are for -----

  function SplitDevices(): Devices {
    map[Id("d1") := DeviceAlloc(CHUNK_SIZE, [Id("x"), Id("y")]), Id("d2") := DeviceAlloc(CHUNK_SIZE, [Id("z")])]
  }

  function SplitLeft(): map<Id, int> {
    map[Id("x") := CHUNK_SIZE / 2, Id("y") := CHUNK_SIZE / 2, Id("z") := CHUNK_SIZE]
  }

  /** Whole chunks matter: this entity has exact totals and a device with a free NISD of a full chunk,
      and yet it serves no block, because the first phase settles on the device whose chunk of space
      is split over two NISDs. */
  lemma SplitChunkHidesRoom()
    ensures var devs, left := SplitDevices(), SplitLeft();
            (forall d :: d in devs ==> LeftOn(devs, map[], d) == Sum(devs[d].nisds, At(left)))
            && devs[Id("d2")].nisds == [Id("z")] && Fits({}, left, Id("z"))
            && Unserviceable(devs, Probe({}, {}, map[], left, 0))
  {
    var devs, left := SplitDevices(), SplitLeft();
    hide DeviceChoice;
    SumOfTwo(Id("x"), Id("y"), At(left));
    SumOfOne(Id("z"), At(left));
    FirstDeviceWins(devs, Id("d1"), Id("d2"));
    assert DeviceChoice(devs, {}, map[], 0, Some(Id("d1")));
    assert NisdChoice(devs[Id("d1")].nisds, {}, left, None);
  }

  lemma FirstDeviceWins(devs: Devices, a: Id, b: Id)
    requires devs.Keys == {a, b} && Before(a, b) && devs[a].avail >= CHUNK_SIZE
    ensures DeviceChoice(devs, {}, map[], 0, Some(a))
  {
    hide IsRanking;
    var ds := Ranked(devs.Keys);
    FirstOfTwo(a, b, devs.Keys);
    RotationAt(ds, 0, 0);
    ModIs(0, 0, 0, |ds|);
    assert Rotation(ds, 0)[0] == a;
    assert FirstOpen(devs, {}, map[], Rotation(ds, 0), a, 0);
  }

  /** The levels PDU to device matter: usage is kept per device, so at partition level, where two
      partitions of one device are two entities, a block in the first hides the room of the second. */
  lemma PartitionsShareUsage()
    ensures var tree: Tree := map[Id("p1") := map[Id("d") := DeviceAlloc(CHUNK_SIZE, [Id("x")])],
                                  Id("p2") := map[Id("d") := DeviceAlloc(100 * CHUNK_SIZE, [Id("y")])]];
            var left := map[Id("x") := CHUNK_SIZE, Id("y") := 100 * CHUNK_SIZE];
            Backed(tree, map[], left) && HasRoom(tree, map[], Id("p1")) && HasRoom(tree, map[], Id("p2"))
            && !HasRoom(tree, Charge(map[], tree[Id("p1")], Id("d")), Id("p2"))
  {
    var d1: Devices := map[Id("d") := DeviceAlloc(CHUNK_SIZE, [Id("x")])];
    var d2: Devices := map[Id("d") := DeviceAlloc(100 * CHUNK_SIZE, [Id("y")])];
    var left := map[Id("x") := CHUNK_SIZE, Id("y") := 100 * CHUNK_SIZE];
    SumOfOne(Id("x"), At(left));
    SumOfOne(Id("y"), At(left));
    assert Eligible(d1, map[], Id("d")) && Eligible(d2, map[], Id("d"));
  }

  lemma SumOfOne(a: Id, f: Id -> int)
    ensures Sum([a], f) == f(a)
  {
    assert [a][..0] == [];
  }

  lemma SumOfTwo(a: Id, b: Id, f: Id -> int)
    ensures Sum([a, b], f) == f(a) + f(b)
  {
    assert [a, b][..1] == [a];
    SumOfOne(a, f);
  }

  lemma FirstOfTwo(a: Id, b: Id, s: set<Id>)
    requires s == {a, b} && Before(a, b)
    ensures |Ranked(s)| == 2 && Ranked(s)[0] == a
  {
    var r := Ranked(s);
    TextBeforeIsTotal(a.text, b.text);
    assert |{a, b}| == 2;
    assert InOrder(r, 0);
    assert r[0] in r && r[1] in r;
  }

  // ----- over several chunks the hashes decide -----

  /** Three entities of one device each; c has two chunks, a and b have one. */
  function ThreeEntities(): Tree {
    map[Id("a") := map[Id("da") := DeviceAlloc(CHUNK_SIZE, [Id("x")])],
        Id("b") := map[Id("db") := DeviceAlloc(CHUNK_SIZE, [Id("y")])],
        Id("c") := map[Id("dc") := DeviceAlloc(2 * CHUNK_SIZE, [Id("z")])]]
  }

  function FourChunks(): map<Id, int> { map[Id("x") := CHUNK_SIZE, Id("y") := CHUNK_SIZE, Id("z") := 2 * CHUNK_SIZE] }

  function DeviceOf(e: Id): Id { if e == Id("a") then Id("da") else if e == Id("b") then Id("db") else Id("dc") }
  function EntityOf(d: Id): Id { if d == Id("da") then Id("a") else if d == Id("db") then Id("b") else Id("c") }
  function HomeOf(n: Id): Id { if n == Id("x") then Id("da") else if n == Id("y") then Id("db") else Id("dc") }
  function NisdOf(d: Id): Id { if d == Id("da") then Id("x") else if d == Id("db") then Id("y") else Id("z") }

  lemma ThreeAreBacked()
    ensures OneHome(ThreeEntities()) && Backed(ThreeEntities(), map[], FourChunks())
  {
    hide BackedOn;
    ThreeHaveOneHome();
    forall e, d | Dev(ThreeEntities(), e, d).Some? ensures BackedOn(ThreeEntities()[e], map[], FourChunks(), d) { EachIsBacked(e, d); }
  }

  lemma ThreeHaveOneHome()
    ensures OneHome(ThreeEntities())
  {
    hide ThreeEntities, EntityOf, NisdOf, HomeOf;
    forall e, d | Dev(ThreeEntities(), e, d).Some?
      ensures e == EntityOf(d) && ThreeEntities()[e][d].nisds == [NisdOf(d)] && d == HomeOf(NisdOf(d))
    {
      EachIsAlone(e, d);
    }
  }

  lemma EachIsAlone(e: Id, d: Id)
    requires Dev(ThreeEntities(), e, d).Some?
    ensures e == EntityOf(d) && ThreeEntities()[e][d].nisds == [NisdOf(d)] && d == HomeOf(NisdOf(d))
  {
  }

  lemma EachIsBacked(e: Id, d: Id)
    requires Dev(ThreeEntities(), e, d).Some?
    ensures BackedOn(ThreeEntities()[e], map[], FourChunks(), d)
  {
    SumOfOne(ThreeEntities()[e][d].nisds[0], At(FourChunks()));
  }

  lemma ThreeRanked()
    ensures Ranked(ThreeEntities().Keys) == [Id("a"), Id("b"), Id("c")] && |ThreeEntities()| == 3
  {
    var s, r := {Id("a"), Id("b"), Id("c")}, [Id("a"), Id("b"), Id("c")];
    assert ThreeEntities().Keys == s && |s| == 3;
    forall i ensures InOrder(r, i) {}
    RankingIsUnique(s, Ranked(s), r);
  }

  /** What is left in one of the three is what is left on its device. */
  lemma LeftInThree(usage: DeviceUsage, e: Id)
    requires e in ThreeEntities()
    ensures EntityLeft(ThreeEntities(), usage, e) == LeftOn(ThreeEntities()[e], usage, DeviceOf(e))
    ensures HasRoom(ThreeEntities(), usage, e) <==> EntityLeft(ThreeEntities(), usage, e) >= CHUNK_SIZE
    ensures usage == map[] ==> EntityLeft(ThreeEntities(), usage, e) == if e == Id("c") then 2 * CHUNK_SIZE else CHUNK_SIZE
  {
    var devs, d := ThreeEntities()[e], DeviceOf(e);
    assert devs.Keys == {d};
    assert IsRanking({d}, [d]);
    RankingIsUnique({d}, Ranked({d}), [d]);
    SumOfOne(d, LeftIn(devs, usage));
    assert HasRoom(ThreeEntities(), usage, e) <==> Eligible(devs, usage, d);
  }

  lemma AllThreeRoomy()
    ensures RoomyEntities(ThreeEntities(), map[]) == ThreeEntities().Keys
  {
    hide HasRoom, EntityLeft, ThreeEntities;
    forall e | e in ThreeEntities() ensures HasRoom(ThreeEntities(), map[], e) { LeftInThree(map[], e); }
  }

  /** The walk stops where it starts if that entity is unused and has room. */
  lemma {:induction false} StopsAtOnce(tree: Tree, start: nat, usage: DeviceUsage, left: map<Id, int>, off: nat, before: seq<Pick>, p: Pick, k: nat)
    requires OneHome(tree) && Backed(tree, usage, left) && Chain(tree, usage, left, off, before)
    requires Stops(tree, start, before, ProbeAfter(tree, usage, left, off, before), p)
    requires k == Cursor(|tree|, start, before) && k < |Ranked(tree.Keys)|
    requires HasRoom(tree, usage, Ranked(tree.Keys)[k]) && Ranked(tree.Keys)[k] !in EntitiesOf(before)
    ensures p.rank == k && p.entity == Ranked(tree.Keys)[k]
  {
    hide HasRoom, Chain, Unserviceable, EntitiesOf;
    RoomIsServiceable(tree, usage, left, off, before, Ranked(tree.Keys)[k]);
    StartIsPassed(tree, Ranked(tree.Keys), k, p.rank, EntitiesOf(before), ProbeAfter(tree, usage, left, off, before));
  }

  lemma StartIsPassed(tree: Tree, ents: seq<Id>, start: nat, rank: nat, used: set<Id>, q: Probe)
    requires StopsAt(tree, ents, start, rank, used, q)
    ensures rank == start || Passed(tree, ents[start], used, q)
  {
    hide Passed;
  }

  lemma FirstChunkOfThree(start: nat, off: nat, picks: seq<Pick>)
    requires start < 2 && AcrossRun(ThreeEntities(), 2, start, map[], FourChunks(), off, Placed, picks)
    ensures EntitiesOf(picks) == if start == 0 then {Id("a"), Id("b")} else {Id("b"), Id("c")}
  {
    hide ThreeEntities, FourChunks, OneHome, Backed, HasRoom, Chain, WalkChain, Stops, ProbeAfter, Picks;
    var tree, ents := ThreeEntities(), Ranked(ThreeEntities().Keys);
    ThreeAreBacked();
    ThreeRanked();
    AllThreeRoomy();
    forall k: nat | k < 3 ensures HasRoom(tree, map[], ents[k]) { assert ents[k] in RoomyEntities(tree, map[]) by { assert ents[k] in ents; } }
    ChainAt(tree, start, map[], FourChunks(), off, picks, 0);
    ChainAt(tree, start, map[], FourChunks(), off, picks, 1);
    NothingPlaced(tree, start, NO_ID, map[], FourChunks(), off);
    assert picks[..0] == [];
    StopsAtOnce(tree, start, map[], FourChunks(), off, [], picks[0], start);
    NoEntities();
    OneMoreEntity([], picks[0]);
    assert picks[..1] == [] + [picks[0]];
    ChainPrefix(tree, map[], FourChunks(), off, picks);
    CursorAfter(tree, start, picks[..1]);
    StopsAtOnce(tree, start, map[], FourChunks(), off, picks[..1], picks[1], start + 1);
    OneMoreEntity(picks[..1], picks[1]);
    assert picks == picks[..1] + [picks[1]];
  }

  lemma {:induction false} ChainPrefix(tree: Tree, usage: DeviceUsage, left: map<Id, int>, off: nat, picks: seq<Pick>)
    requires Chain(tree, usage, left, off, picks) && picks != []
    ensures Chain(tree, usage, left, off, picks[..|picks|-1])
  {
  }

  lemma CursorAfter(tree: Tree, start: nat, before: seq<Pick>)
    requires start < |tree| && before != [] && before[|before|-1].rank < |tree|
    ensures Cursor(|tree|, start, before) == Succ(before[|before|-1].rank, |tree|)
  {
  }

  /** After the first chunk, c and the unused entity have room. */
  lemma {:induction false} RoomAfterFirst(start: nat, off: nat, picks: seq<Pick>, e: Id)
    requires start < 2 && AcrossRun(ThreeEntities(), 2, start, map[], FourChunks(), off, Placed, picks) && e in ThreeEntities()
    ensures HasRoom(ThreeEntities(), UsageAfter(ThreeEntities(), map[], picks), e) <==> e == Id("c") || e !in EntitiesOf(picks)
  {
    hide ThreeEntities, FourChunks, OneHome, Backed, HasRoom, Chain, WalkChain, EntityLeft;
    ThreeAreBacked();
    ChunkTakesOne(ThreeEntities(), start, map[], FourChunks(), off, picks, e);
    LeftInThree(map[], e);
    LeftInThree(UsageAfter(ThreeEntities(), map[], picks), e);
  }

  lemma {:induction false} RoomyAfterFirst(start: nat, off: nat, picks: seq<Pick>)
    requires start < 2 && AcrossRun(ThreeEntities(), 2, start, map[], FourChunks(), off, Placed, picks)
    ensures RoomyEntities(ThreeEntities(), UsageAfter(ThreeEntities(), map[], picks))
         == if start == 0 then {Id("c")} else {Id("a"), Id("c")}
  {
    hide FourChunks, HasRoom, UsageAfter, AcrossRun, EntitiesOf;
    FirstChunkOfThree(start, off, picks);
    forall e | e in ThreeEntities()
      ensures HasRoom(ThreeEntities(), UsageAfter(ThreeEntities(), map[], picks), e) <==> e == Id("c") || e !in EntitiesOf(picks)
    {
      RoomAfterFirst(start, off, picks, e);
    }
  }

  lemma {:induction false} SecondChunkOfThree(start: nat, off: nat, picks: seq<Pick>, start2: nat, off2: nat, out: Outcome, rest: seq<Pick>)
    requires start < 2 && AcrossRun(ThreeEntities(), 2, start, map[], FourChunks(), off, Placed, picks)
    requires AcrossRun(ThreeEntities(), 2, start2, UsageAfter(ThreeEntities(), map[], picks), LeftAfter(FourChunks(), picks), off2, out, rest)
    ensures out == if start == 0 then Failed else Placed
  {
    hide ThreeEntities, FourChunks, OneHome, Backed, HasRoom, UsageAfter, LeftAfter, Chain, WalkChain, NoEntity, RoomyEntities;
    var tree, u := ThreeEntities(), UsageAfter(ThreeEntities(), map[], picks);
    ThreeAreBacked();
    ThreeRanked();
    RoomyAfterFirst(start, off, picks);
    BackedChain(tree, map[], FourChunks(), off, picks);
    ChunkComplete(tree, 2, start2, u, LeftAfter(FourChunks(), picks), off2, out, rest);
  }

  /** Two replicas for two chunks on these three: the hash of the first chunk decides whether the attempt
      succeeds, so no condition on the index alone is exact for more than one chunk. */
  lemma HashDecides(req: VdevReq, hash: nat -> nat, offset: nat, out: Outcome, plan: seq<seq<Pick>>, rest: seq<Pick>)
    requires req.filter.id == NO_ID && req.vdev.chunkCnt == 2 && req.vdev.TotalRedundancyBlocksPerChunk() == 2
    requires AttemptRun(ThreeEntities(), req, hash, offset, FourChunks(), out, plan, rest)
    ensures hash(0) % 3 == 0 ==> out == Failed
    ensures hash(0) % 3 == 1 ==> out == Placed
  {
    hide AcrossRun, UsageAfter, LeftAfter, ThreeEntities, FourChunks, OneHome, Backed;
    var tree, start := ThreeEntities(), hash(0) % 3;
    ThreeRanked();
    ThreeAreBacked();
    AllThreeRoomy();
    EmptyAfter(tree, FourChunks());
    if plan == [] {
      ChunkComplete(tree, 2, start, map[], FourChunks(), offset, out, rest);
    } else if start < 2 {
      FirstOfPlan(req, hash, offset, plan);
      if |plan| == 1 {
        OneChunkFlat(plan);
        SecondChunkOfThree(start, offset, plan[0], hash(1) % 3, 1 + offset, out, rest);
      } else {
        OneChunkFlat(plan[..1]);
        SecondChunkOfThree(start, offset, plan[0], hash(1) % 3, 1 + offset, Placed, plan[1]);
      }
    }
  }

  lemma {:induction false} FirstOfPlan(req: VdevReq, hash: nat -> nat, offset: nat, plan: seq<seq<Pick>>)
    requires req.filter.id == NO_ID && req.vdev.TotalRedundancyBlocksPerChunk() == 2 && 0 < |plan| <= 2
    requires VdevRun(ThreeEntities(), req, hash, offset, FourChunks(), plan)
    ensures |ThreeEntities()| == 3
    ensures AcrossRun(ThreeEntities(), 2, hash(0) % 3, map[], FourChunks(), offset, Placed, plan[0])
    ensures |plan| == 2 ==> NextChunk(ThreeEntities(), req, hash, offset, FourChunks(), plan[..1], Placed, plan[1])
  {
    hide AcrossRun, UsageAfter, LeftAfter, ThreeEntities, FourChunks;
    ThreeRanked();
    EmptyAfter(ThreeEntities(), FourChunks());
    var first := plan[..1];
    assert first[..0] == [] && (|plan| == 1 ==> plan == first);
  }

  lemma {:induction false} OneChunkFlat(plan: seq<seq<Pick>>)
    requires |plan| == 1
    ensures Flat(plan) == plan[0]
  {
    assert plan[..0] == [] && Flat(plan) == Flat(plan[..0]) + plan[0];
  }

  /** For one chunk there is one: enough entities with room. */
  lemma OneChunkPlacesIff(tree: Tree, req: VdevReq, hash: nat -> nat, offset: nat, left: map<Id, int>,
                          out: Outcome, plan: seq<seq<Pick>>, rest: seq<Pick>)
    requires OneHome(tree) && Backed(tree, map[], left) && req.filter.id == NO_ID && req.vdev.chunkCnt == 1 && |tree| > 0
    requires AttemptRun(tree, req, hash, offset, left, out, plan, rest)
    ensures out == Placed <==> req.vdev.TotalRedundancyBlocksPerChunk() <= |RoomyEntities(tree, map[])|
  {
    hide AcrossRun, UsageAfter, LeftAfter, OneHome, Backed, RoomyEntities;
    EmptyAfter(tree, left);
    if plan == [] {
      ChunkComplete(tree, req.vdev.TotalRedundancyBlocksPerChunk(), hash(0) % |tree|, map[], left, offset, out, rest);
    } else {
      assert plan[..0] == [];
      ChunkComplete(tree, req.vdev.TotalRedundancyBlocksPerChunk(), hash(0) % |tree|, map[], left, offset, Placed, plan[0]);
    }
  }
}
