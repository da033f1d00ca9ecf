/** Small concrete histories of the control plane that show where an expected property fails. */
module Scenarios {
  import opened Changes
  import opened Finite
  import opened Lib
  import opened Index
  import opened Modulo
  import opened Pickers
  import opened Allocator
  import opened Placement
  import opened Completeness
  import opened VdevAllocator
  import opened Store
  import opened Ledger
  import opened Runs
  import opened ControlPlane
  import opened Replicas
  import opened DrawEffect
  import Turns = Rotation

  // ----- three disks of one hypervisor: x and z on device d1, y on device d2 -----

  const X := Id("x")
  const Y := Id("y")
  const Z := Id("z")
  const P := Id("p")
  const D1 := Id("d1")
  const D2 := Id("d2")

  function Tuple(n: Id): seq<Id> {
    [P, Id("r"), Id("h"), if n == Y then D2 else D1, if n == X then Id("qx") else if n == Y then Id("qy") else Id("qz")]
  }

  function Disk(n: Id, size: int): Nisd { Nisd(n, Tuple(n), size, size) }

  ghost predicate AllDisks(objs: map<Id, Nisd>) {
    forall n :: n in objs ==> n in {X, Y, Z} && objs[n].id == n && objs[n].fdom == Tuple(n)
  }

  lemma TuplesFit(objs: map<Id, Nisd>)
    requires AllDisks(objs)
    ensures WellTyped(objs) && Nested(objs) && PartitionIdsFresh(objs)
  {
    hide Tuple;
    TuplesNest();
    forall n | n in objs ensures n in {X, Y, Z} && objs[n].fdom == Tuple(n) {}
  }

  lemma TuplesNest()
    ensures forall n: Id :: |Tuple(n)| == FD_MAX
    ensures forall n, m: Id, i | n in {X, Y, Z} && m in {X, Y, Z} && 0 < i < FD_MAX :: Tuple(n)[i] == Tuple(m)[i] ==> Tuple(n)[i-1] == Tuple(m)[i-1]
    ensures forall n, m: Id, j | 0 <= j < PARTITION_IDX :: Tuple(n)[j] != Tuple(m)[PARTITION_IDX]
  {
    forall n, m: Id, j | 0 <= j < PARTITION_IDX ensures Tuple(n)[j] != Tuple(m)[PARTITION_IDX] {
      assert Tuple(m)[PARTITION_IDX].text[0] == 'q' && Tuple(n)[j].text[0] != 'q';
    }
  }

  lemma EmptyIsExact(levels: seq<Tree>, i: nat, e: Id, d: Id)
    requires Agrees(levels, map[]) && i < FD_MAX
    ensures |levels| == FD_MAX && Skew(levels, map[], i, e, d) == 0
  {
    assert TreeAgrees(levels[i], i, map[]);
    if Dev(levels[i], e, d).Some? {
      FirstIsMember(Dev(levels[i], e, d).value.nisds);
      assert Listed(levels[i], e, d, Dev(levels[i], e, d).value.nisds[0]);
    }
  }

  lemma AllEqualIsOne(s: seq<Id>, n: Id)
    requires Distinct(s) && s != [] && forall k :: 0 <= k < |s| ==> s[k] == n
    ensures s == [n]
  {
    hide Distinct;
    if |s| > 1 { NotRepeated(s, 0, 1); }
  }

  lemma NotRepeated(s: seq<Id>, i: nat, j: nat)
    requires Distinct(s) && i < j < |s|
    ensures s[i] != s[j]
  {
  }

  /** The total of a device without skew, when its NISDs are known. */
  lemma TotalOfOne(levels: seq<Tree>, objs: map<Id, Nisd>, i: nat, e: Id, d: Id, n: Id)
    requires Agrees(levels, objs) && i < FD_MAX && n in objs && Under(objs[n], i, e, d)
    requires forall m :: m in objs && Under(objs[m], i, e, d) ==> m == n
    ensures |levels| == FD_MAX && Dev(levels[i], e, d).Some? && levels[i][e][d].nisds == [n]
    ensures levels[i][e][d].avail == objs[n].avail + Skew(levels, objs, i, e, d)
  {
    var t := levels[i];
    assert TreeAgrees(t, i, objs);
    assert Listed(t, e, d, n);
    var s := t[e][d].nisds;
    assert Distinct(s);
    forall k | 0 <= k < |s| ensures s[k] == n { assert Listed(t, e, d, s[k]); }
    AllEqualIsOne(s, n);
    SumOfOne(n, Avail(objs));
  }

  // ----- an eviction leaves a surplus -----

  /** x and z share device d1, with a chunk each; a commit takes x to zero. The total of d1 then counts
      two chunks, while its one NISD has one. */
  method EvictionLeavesSurplus() returns (total: int, free: int)
    ensures total == 2 * CHUNK_SIZE && free == CHUNK_SIZE
  {
    hide Agrees, Nested, PartitionIdsFresh, WellTyped, SkewGrows, EvictedTake, CommittedObjs, Skew;
    var hr := new Hierarchy();
    forall e, d ensures Skew(hr.levels, hr.objs, 0, e, d) == 0 { EmptyIsExact(hr.levels, 0, e, d); }
    var ok := hr.AddNisd(Disk(X, CHUNK_SIZE));
    ok := hr.AddNisd(Disk(Z, CHUNK_SIZE));
    TuplesFit(hr.objs);
    ghost var levels, objs := hr.levels, hr.objs;
    var alloc: map<Id, int> := map[X := 0];
    assert alloc.Keys == {X};
    hr.ApplyNISDAlloc(alloc);
    SurplusAfter(levels, objs, hr.levels, hr.objs);
    total, free := hr.levels[0][P][D1].avail, hr.objs[Z].avail;
  }

  lemma SurplusAfter(levels0: seq<Tree>, objs0: map<Id, Nisd>, levels: seq<Tree>, objs: map<Id, Nisd>)
    requires Agrees(levels0, objs0) && objs0 == map[X := Disk(X, CHUNK_SIZE), Z := Disk(Z, CHUNK_SIZE)]
    requires |levels0| == FD_MAX && Skew(levels0, objs0, 0, P, D1) == 0
    requires Agrees(levels, objs) && objs == CommittedObjs(objs0, map[X := 0], {X})
    requires SkewGrows(levels0, objs0, levels, objs, EvictedTake(Ranked({X}), objs0, map[X := 0]))
    ensures |levels| == FD_MAX && Dev(levels[0], P, D1).Some? && Z in objs
    ensures levels[0][P][D1].avail == 2 * CHUNK_SIZE && objs[Z].avail == CHUNK_SIZE
  {
    hide Agrees, Skew;
    assert objs == map[Z := Disk(Z, CHUNK_SIZE)];
    assert Under(objs[Z], 0, P, D1) && Under(objs0[X], 0, P, D1);
    TotalOfOne(levels, objs, 0, P, D1, Z);
    RankedOfOne(X);
    var alloc: map<Id, int> := map[X := 0];
    SumOfOne(X, TakenAt(objs0, alloc, 0, P, D1));
    assert Taken(objs0, X, 0)(0, P, D1) == CHUNK_SIZE;
    assert TakenAt(objs0, alloc, 0, P, D1)(X) == CHUNK_SIZE;
    assert EvictedTake([X], objs0, alloc)(0, P, D1) == CHUNK_SIZE;
  }

  lemma RankedOfOne(x: Id)
    ensures Ranked({x}) == [x]
  {
    assert IsRanking({x}, [x]);
    RankingIsUnique({x}, Ranked({x}), [x]);
  }

  // ----- a vdev of one block -----

  /** An unscoped create of one chunk with one replica, without a name and without a PFS. */
  function OneBlock(): Prep {
    Prep(VdevReq(VdevConfig(Id("v"), "", CHUNK_SIZE, RMReplica, 1, 1, 0, NO_ID, ""), Filter(NO_ID, FD_ANY)), Id("u"))
  }

  /** It is created wherever some NISD has room, and its one block is the first choice in its PDU. */
  lemma OneBlockIsCreated(s: KV, levels: seq<Tree>, objs: map<Id, Nisd>, hash: nat -> nat, rand: nat, c: CreateResult, n: Id)
    requires Settled(levels, objs) && n in objs && objs[n].avail >= CHUNK_SIZE
    requires CreateOutcome(s, levels, objs, OneBlock(), hash, rand, c)
    ensures c.reply == Created && |c.plan| == 1 && |c.plan[0]| == 1 && c.pfs == NO_ID && c.level == 0
    ensures CreateStep(s, objs, c.store, c.objs, OneBlock(), NO_ID, c.off, c.plan, c.alloc)
    ensures var b := c.plan[0][0];
            Picks(levels[0], Probe({}, {}, map[], Left(objs, map[]), rand), b)
            && b.nisd in objs && Under(objs[b.nisd], 0, b.entity, b.device)
            && IsAt(c.store, ChunkKey(Id("v"), 0, D, 0), Ref(b.nisd))
  {
    hide Settled, NeverHigh, EntityLeft, AllocOutcome, PlacedAt, Picks, Agrees, TreeAgrees, ApplyAll, CreateChanges, CommittedObjs, DrawsFrom, Left, EnoughRoom;
    var p := OneBlock();
    var e := PduOf(levels, objs, n);
    SettledIsNeverHigh(levels, objs);
    CreateFindsRoom(s, levels, objs, p, hash, rand, c, 0, {e});
    CreatedAt(s, levels, objs, p, hash, rand, c);
    SettledAgrees(levels, objs, c.level);
    SizesOfPlan(levels[0], objs, p.req, hash, c.off, c.plan, c.alloc);
    PlacedPlanSize(levels[0], objs, p.req, hash, c.off, c.plan, c.alloc);
    FirstPick(levels[0], 0, objs, p.req, hash, c.off, c.plan, c.alloc);
    BlockKeyHolds(s, p, c.pfs, c.off, c.plan, c.alloc, 0, 0);
    assert BlockKey(p.req.vdev, 0, 0) == ChunkKey(Id("v"), 0, D, 0);
  }

  lemma PlacedPlanSize(tree: Tree, objs: map<Id, Nisd>, req: VdevReq, hash: nat -> nat, offset: nat, plan: seq<seq<Pick>>, alloc: map<Id, int>)
    requires PlacedAt(tree, objs, req, hash, offset, plan, alloc) && plan != []
    ensures |plan| == req.vdev.chunkCnt && |plan[0]| == req.vdev.TotalRedundancyBlocksPerChunk()
  {
    hide VdevRun, VdevLooked, LeftAfter, Left;
    Turns.ChunkSize(tree, req, hash, offset, Left(objs, map[]), plan, 0);
  }

  lemma PduOf(levels: seq<Tree>, objs: map<Id, Nisd>, n: Id) returns (e: Id)
    requires Settled(levels, objs) && n in objs && objs[n].avail >= CHUNK_SIZE
    ensures |levels| == FD_MAX && EnoughRoom(levels[0], 1, 1, {e})
  {
    hide EntityLeft, Agrees, Skew, Nested, Whole;
    NisdIsRoom(levels, objs, n, 0);
    e := objs[n].fdom[0];
    assert e in levels[0].Keys;
  }

  // ----- registering the disks -----

  ghost function WithDisk(w: World, n: Id, size: int): World {
    w.(store := WithRecord(w.store, Disk(n, size)), objs := w.objs[n := Disk(n, size)], reg := w.reg[n := size])
  }

  lemma RegisterDisk(w: World, n: Id, size: int)
    requires Inv(w) && AllDisks(Registered(w.store)) && n in {X, Y, Z} && size >= 0
    requires NisdConf(n) !in w.store && NisdAvail(n) !in w.store
    ensures Registers(w, WithDisk(w, n, size), Disk(n, size))
    ensures Inv(WithDisk(w, n, size)) && AllDisks(Registered(WithDisk(w, n, size).store))
  {
    hide Inv, Nested, PartitionIdsFresh, Registered, Tuple;
    RegisteredAfter(w.store, Disk(n, size));
    TuplesNest();
    TuplesFit(Registered(w.store)[n := Disk(n, size)]);
    RegisterKeepsInv(w, WithDisk(w, n, size), Disk(n, size));
  }

  lemma StartHasNoDisks()
    ensures Inv(START) && AllDisks(Registered(START.store)) && Balanced(START)
  {
    StartIsEmpty();
    assert NisdIds(map[]) == {};
  }

  // ----- two replicas, two draws -----

  lemma SecondOfTwo(a: Id, b: Id, s: set<Id>)
    requires s == {a, b} && Before(a, b)
    ensures |Ranked(s)| == 2 && Ranked(s)[0] == a && Ranked(s)[1] == b
  {
    FirstOfTwo(a, b, s);
    RankedIsDistinct(s);
    assert Ranked(s)[1] in Ranked(s);
  }

  ghost function TwoDisks(): map<Id, Nisd> { map[X := Disk(X, CHUNK_SIZE), Y := Disk(Y, CHUNK_SIZE)] }

  lemma DevicesOfTwo(levels: seq<Tree>)
    requires Settled(levels, TwoDisks())
    ensures |levels| == FD_MAX && P in levels[0] && levels[0][P].Keys == {D1, D2}
    ensures levels[0][P][D1].avail >= CHUNK_SIZE && levels[0][P][D2].avail >= CHUNK_SIZE
  {
    hide EntityLeft, Skew, Nested;
    NisdIsRoom(levels, TwoDisks(), X, 0);
    NisdIsRoom(levels, TwoDisks(), Y, 0);
    assert TreeAgrees(levels[0], 0, TwoDisks());
    forall d | d in levels[0][P] ensures d in {D1, D2} {
      assert Dev(levels[0], P, d).Some?;
      FirstIsMember(levels[0][P][d].nisds);
      assert Listed(levels[0], P, d, levels[0][P][d].nisds[0]);
    }
  }

  lemma DrawChoosesDisk(levels: seq<Tree>, rand: nat, b: Pick)
    requires Settled(levels, TwoDisks()) && |levels| == FD_MAX
    requires Picks(levels[0], Probe({}, {}, map[], Left(TwoDisks(), map[]), rand), b)
    requires b.nisd in TwoDisks() && Under(TwoDisks()[b.nisd], 0, b.entity, b.device)
    ensures b.nisd == if rand % 2 == 0 then X else Y
  {
    hide Settled, DeviceChoice, NisdChoice, IsRanking;
    DevicesOfTwo(levels);
    var devs := levels[0][P];
    assert TextBefore("d1", "d2") by { assert "d1"[1..] == "1" && "d2"[1..] == "2"; }
    SecondOfTwo(D1, D2, devs.Keys);
    assert Turns.Turn(devs, rand) == Ranked(devs.Keys)[rand % 2];
    Turns.OpenTurnWins(devs, {}, map[], rand, b.device);
  }

  /** Two devices with room in one PDU, and a create of one block without a PFS: the draw alone decides
      which NISD holds the block, so replicas that draw apart store different placements. */
  method DrawsPart(hash: nat -> nat, rand: nat) returns (placed: Val)
    ensures placed == Ref(if rand % 2 == 0 then X else Y)
  {
    hide Agrees, Nested, PartitionIdsFresh, WellTyped, SkewGrows, Skew, CreateOutcome, PrepChanges, Inv, Settled, Records, Trails, PfsUsable;
    var cp := new ControlPlane();
    forall i: nat, e, d | i < FD_MAX ensures Skew(cp.hr.levels, cp.hr.objs, i, e, d) == 0 { EmptyIsExact(cp.hr.levels, i, e, d); }
    var ok := cp.ApplyNisd(Disk(X, CHUNK_SIZE));
    ok := cp.ApplyNisd(Disk(Y, CHUNK_SIZE));
    TwoDisksAreSound();
    assert cp.hr.objs == TwoDisks();
    TwoDisksSettle(cp.hr.levels);
    var txn := new FuncIntrm(PrepChanges(OneBlock()));
    ghost var s, levels := cp.store, cp.hr.levels;
    var r, level;
    ghost var pfs, off, plan, alloc;
    r, level, pfs, off, plan, alloc := cp.APCreateVdev(OneBlock(), txn, hash, rand);
    OneBlockIsCreated(s, levels, TwoDisks(), hash, rand, CreateResult(r, level, pfs, off, plan, alloc, cp.store, cp.hr.objs), X);
    DrawChoosesDisk(levels, rand, plan[0][0]);
    placed := cp.store[ChunkKey(Id("v"), 0, D, 0)];
  }

  lemma TwoDisksAreSound()
    ensures var s := WithRecord(WithRecord(map[], Disk(X, CHUNK_SIZE)), Disk(Y, CHUNK_SIZE));
            Records(s) && Trails(s, TwoDisks()) && PfsUsable(s)
  {
    hide Inv, Registered, Records, Trails, PfsUsable, Registers;
    StartHasNoDisks();
    RegisterDisk(START, X, CHUNK_SIZE);
    var w := WithDisk(START, X, CHUNK_SIZE);
    RegisterDisk(w, Y, CHUNK_SIZE);
    InvRecords(WithDisk(w, Y, CHUNK_SIZE));
  }

  lemma TwoDisksSettle(levels: seq<Tree>)
    requires Agrees(levels, TwoDisks()) && forall i, e, d :: 0 <= i < FD_MAX && i < |levels| ==> Skew(levels, TwoDisks(), i, e, d) == 0
    ensures Settled(levels, TwoDisks())
  {
    hide Nested, Skew;
    TuplesFit(TwoDisks());
    LevelCount(levels, TwoDisks());
  }

  // ----- a delete leaves the totals behind -----

  ghost function OneDiskIndex(): map<Id, Nisd> { map[X := Disk(X, 2 * CHUNK_SIZE)] }

  ghost function WithPending(w: World, p: Prep): World {
    w.(pending := w.pending[p.req.vdev.id := p], used := w.used + {p.req.vdev.id})
  }

  lemma OneDiskIsSound()
    ensures var w := WithDisk(START, X, 2 * CHUNK_SIZE);
            Inv(WithPending(w, OneBlock())) && Records(w.store) && Trails(w.store, w.objs) && PfsUsable(w.store)
  {
    hide Inv, Registered, Records, Trails, PfsUsable, Registers;
    StartHasNoDisks();
    RegisterDisk(START, X, 2 * CHUNK_SIZE);
    var w := WithDisk(START, X, 2 * CHUNK_SIZE);
    InvRecords(w);
    assert Prepares(w, WithPending(w, OneBlock()), OneBlock());
    PrepareKeepsInv(w, WithPending(w, OneBlock()), OneBlock());
  }

  lemma OneDiskSettles(levels: seq<Tree>)
    requires Agrees(levels, OneDiskIndex()) && forall i, e, d :: 0 <= i < FD_MAX && i < |levels| ==> Skew(levels, OneDiskIndex(), i, e, d) == 0
    ensures Settled(levels, OneDiskIndex())
  {
    hide Nested, Skew;
    TuplesFit(OneDiskIndex());
    LevelCount(levels, OneDiskIndex());
  }

  lemma {:induction false} OneDraw(plan: seq<seq<Pick>>, n: Id)
    requires |plan| == 1 && |plan[0]| == 1
    ensures Draws(Flat(plan), n) == if plan[0][0].nisd == n then 1 else 0
  {
    assert plan[..0] == [] && Flat(plan) == Flat(plan[..0]) + plan[0];
    assert Flat(plan) == plan[0] && plan[0][..0] == [];
  }

  /** The half-used disk after the create: its device counts what the NISD has. */
  lemma HalfUsed(s: KV, levels0: seq<Tree>, levels: seq<Tree>, c: CreateResult)
    requires Settled(levels0, OneDiskIndex()) && Agrees(levels, c.objs)
    requires s == WithDisk(START, X, 2 * CHUNK_SIZE).store
    requires CreateStep(s, OneDiskIndex(), c.store, c.objs, OneBlock(), NO_ID, c.off, c.plan, c.alloc)
    requires |c.plan| == 1 && |c.plan[0]| == 1 && c.plan[0][0].nisd == X
    requires SkewGrows(levels0, OneDiskIndex(), levels, c.objs, EvictedTake(Ranked(c.alloc.Keys), OneDiskIndex(), c.alloc))
    ensures c.alloc == map[X := CHUNK_SIZE] && c.objs == map[X := Disk(X, 2 * CHUNK_SIZE).(avail := CHUNK_SIZE)]
    ensures |levels| == FD_MAX && Dev(levels[0], P, D1).Some? && levels[0][P][D1].avail == CHUNK_SIZE
  {
    hide Agrees, Skew, ApplyAll, CreateChanges, Nested, Draws, Flat, WithRecord, Whole;
    var objs := OneDiskIndex();
    OneDraw(c.plan, X);
    assert c.plan[0][0] in Flat(c.plan) by { FlatOfOne(c.plan); }
    assert c.alloc.Keys == {X};
    assert c.objs.Keys == {X};
    assert Under(c.objs[X], 0, P, D1);
    TotalOfOne(levels, c.objs, 0, P, D1, X);
    NothingEvicted(objs, c.alloc);
  }

  lemma NothingEvicted(objs: map<Id, Nisd>, alloc: map<Id, int>)
    requires alloc == map[X := CHUNK_SIZE]
    ensures EvictedTake(Ranked(alloc.Keys), objs, alloc)(0, P, D1) == 0
  {
    assert alloc.Keys == {X};
    RankedOfOne(X);
    SumOfOne(X, TakenAt(objs, alloc, 0, P, D1));
    assert Taken(objs, X, CHUNK_SIZE)(0, P, D1) == 0;
    assert TakenAt(objs, alloc, 0, P, D1)(X) == 0;
  }

  lemma {:induction false} FlatOfOne(plan: seq<seq<Pick>>)
    requires |plan| == 1 && |plan[0]| == 1
    ensures Flat(plan) == plan[0] && plan[0][0] in Flat(plan)
  {
    assert plan[..0] == [] && Flat(plan) == Flat(plan[..0]) + plan[0];
  }

  ghost function AfterCreate(w: World, c: CreateResult): World {
    w.(store := c.store, objs := c.objs, pending := w.pending - {Id("v")})
  }

  lemma HalfUsedIsSound(w: World, c: CreateResult)
    requires w == WithPending(WithDisk(START, X, 2 * CHUNK_SIZE), OneBlock()) && Inv(w)
    requires CreateStep(w.store, w.objs, c.store, c.objs, OneBlock(), NO_ID, c.off, c.plan, c.alloc)
    requires |c.plan| == 1 && |c.plan[0]| == 1 && c.plan[0][0].nisd == X && c.alloc == map[X := CHUNK_SIZE]
    ensures Records(c.store) && Trails(c.store, c.objs)
    ensures Stored(c.store, X) == CHUNK_SIZE && Owed(c.store, Id("v"), X) == 1 && Refunded(c.store, Id("v")) == {X} && NisdConf(X) in c.store
  {
    hide Inv, CreateStep, Records, Trails, PlacesChunks, Draws, Flat, Refunded, Owed;
    var w' := AfterCreate(w, c);
    assert Creates(w, w', Id("v"), NO_ID, c.off, c.plan, c.alloc);
    CreateKeepsInv(w, w', Id("v"), NO_ID, c.off, c.plan, c.alloc);
    InvRecords(w');
    CreatesEffect(w, w', Id("v"), NO_ID, c.off, c.plan, c.alloc);
    assert SameAt(w.store, c.store, NisdConf(X));
    forall n ensures n in Refunded(c.store, Id("v")) <==> n == X {
      OneDraw(c.plan, n);
      OwedIsDrawn(w.store, c.store, Id("v"), Flat(c.plan), n);
      RefundedIffOwed(c.store, Id("v"), n);
    }
    OneDraw(c.plan, X);
    OwedIsDrawn(w.store, c.store, Id("v"), Flat(c.plan), X);
  }

  /** A NISD of two chunks, one block placed on it and deleted again: the NISD has its two chunks back,
      the total of its device counts one. */
  method DeleteLeavesLag(hash: nat -> nat, rand: nat) returns (total: int, free: int)
    ensures total == CHUNK_SIZE && free == 2 * CHUNK_SIZE
  {
    hide Agrees, Nested, PartitionIdsFresh, WellTyped, SkewGrows, Skew, CreateOutcome, CreateStep, PrepChanges, Inv, Settled, Records, Trails, PfsUsable, WithRecord,
         DeleteEffect, Refunded, Owed, Stored;
    var cp := new ControlPlane();
    forall i: nat, e, d | i < FD_MAX ensures Skew(cp.hr.levels, cp.hr.objs, i, e, d) == 0 { EmptyIsExact(cp.hr.levels, i, e, d); }
    var ok := cp.ApplyNisd(Disk(X, 2 * CHUNK_SIZE));
    OneDiskIsSound();
    assert cp.hr.objs == OneDiskIndex();
    OneDiskSettles(cp.hr.levels);
    var txn := new FuncIntrm(PrepChanges(OneBlock()));
    ghost var w := WithPending(WithDisk(START, X, 2 * CHUNK_SIZE), OneBlock());
    ghost var s, levels := cp.store, cp.hr.levels;
    var r, level;
    ghost var pfs, off, plan, alloc;
    r, level, pfs, off, plan, alloc := cp.APCreateVdev(OneBlock(), txn, hash, rand);
    ghost var c := CreateResult(r, level, pfs, off, plan, alloc, cp.store, cp.hr.objs);
    OneBlockIsCreated(s, levels, OneDiskIndex(), hash, rand, c, X);
    HalfUsed(s, levels, cp.hr.levels, c);
    HalfUsedIsSound(w, c);
    ghost var reached;
    ok, reached := cp.APDeleteVdev(Id("v"), Id("u"));
    DeleteStored(c.store, cp.store, Id("v"), Id("u"), X);
    total, free := cp.hr.levels[0][P][D1].avail, cp.hr.objs[X].avail;
  }

  // ----- a run that ends with wrong books -----

  /** One chunk, two replicas. */
  function TwoBlocks(): Prep {
    Prep(VdevReq(VdevConfig(Id("v"), "", CHUNK_SIZE, RMReplica, 1, 2, 0, NO_ID, ""), Filter(NO_ID, FD_ANY)), Id("u"))
  }

  lemma {:induction false} ExtendCalm(ws: seq<World>, w: World)
    requires CalmRun(ws) && CalmStep(ws[|ws|-1], w)
    ensures CalmRun(ws + [w])
  {
    assert (ws + [w])[..|ws|] == ws;
  }

  lemma {:induction false} ExtendRun(ws: seq<World>, w: World)
    requires Run(ws) && Step(ws[|ws|-1], w)
    ensures Run(ws + [w])
  {
    assert (ws + [w])[..|ws|] == ws;
  }

  ghost function UnevenDisks(): map<Id, Nisd> { map[X := Disk(X, CHUNK_SIZE), Y := Disk(Y, 2 * CHUNK_SIZE)] }

  lemma {:induction false} DrawsOfTwo(plan: seq<seq<Pick>>, n: Id)
    requires |plan| == 1 && |plan[0]| == 2 && plan[0][0].nisd != plan[0][1].nisd
    ensures Flat(plan) == plan[0] && plan[0][0] in Flat(plan) && plan[0][1] in Flat(plan)
    ensures Draws(Flat(plan), n) == if n == plan[0][0].nisd || n == plan[0][1].nisd then 1 else 0
  {
    var a, b := plan[0][0], plan[0][1];
    assert plan[..0] == [] && Flat(plan) == Flat(plan[..0]) + plan[0];
    assert plan[0] == [a, b] && [a, b][..1] == [a] && [a][..0] == [];
    assert Draws([a, b], n) == Draws([a], n) + if n == b.nisd then 1 else 0;
    assert Draws([a], n) == Draws([], n) + if n == a.nisd then 1 else 0;
  }

  lemma DevicesHaveRoom(levels: seq<Tree>)
    requires Settled(levels, UnevenDisks())
    ensures |levels| == FD_MAX && EnoughRoom(levels[DEVICE_IDX], 2, 1, {D1, D2})
  {
    hide EntityLeft, Agrees, Skew, Nested, Whole;
    NisdIsRoom(levels, UnevenDisks(), X, DEVICE_IDX);
    NisdIsRoom(levels, UnevenDisks(), Y, DEVICE_IDX);
    assert D1 in levels[DEVICE_IDX].Keys && D2 in levels[DEVICE_IDX].Keys;
  }

  /** On x (one chunk left) and y (two chunks left) the create puts one block on each. */
  lemma TwoBlocksAreCreated(s: KV, levels: seq<Tree>, hash: nat -> nat, rand: nat, c: CreateResult)
    requires Settled(levels, UnevenDisks()) && CreateOutcome(s, levels, UnevenDisks(), TwoBlocks(), hash, rand, c)
    ensures c.reply == Created && CreateStep(s, UnevenDisks(), c.store, c.objs, TwoBlocks(), NO_ID, c.off, c.plan, c.alloc)
    ensures Draws(Flat(c.plan), X) == 1 && Draws(Flat(c.plan), Y) == 1
    ensures c.objs == map[Y := Disk(Y, 2 * CHUNK_SIZE).(avail := CHUNK_SIZE)]
  {
    hide Settled, NeverHigh, AllocOutcome, PlacedAt, Agrees, TreeAgrees, ApplyAll, CreateChanges, CommittedObjs, DrawsFrom, Left, EnoughRoom,
         Nested, Draws, Flat, UnevenDisks;
    var p, objs := TwoBlocks(), UnevenDisks();
    DevicesHaveRoom(levels);
    SettledIsNeverHigh(levels, objs);
    CreateFindsRoom(s, levels, objs, p, hash, rand, c, DEVICE_IDX, {D1, D2});
    CreatedAt(s, levels, objs, p, hash, rand, c);
    BlocksApart(levels, objs, c.level, hash, c.off, c.plan, c.alloc);
    DrawsOfTwo(c.plan, X);
    DrawsOfTwo(c.plan, Y);
    TwoCommitted(c.objs, c.alloc, c.plan);
  }

  lemma BlocksApart(levels: seq<Tree>, objs: map<Id, Nisd>, l: nat, hash: nat -> nat, offset: nat, plan: seq<seq<Pick>>, alloc: map<Id, int>)
    requires Settled(levels, objs) && objs == UnevenDisks() && l < FD_MAX
    requires |levels| == FD_MAX && PlacedAt(levels[l], objs, TwoBlocks().req, hash, offset, plan, alloc)
    ensures |plan| == 1 && |plan[0]| == 2 && plan[0][0].nisd != plan[0][1].nisd
    ensures plan[0][0].nisd in {X, Y} && plan[0][1].nisd in {X, Y}
  {
    hide VdevRun, VdevLooked, LeftAfter, Left, Agrees, Nested, Skew, Whole;
    PlacedPlanSize(levels[l], objs, TwoBlocks().req, hash, offset, plan, alloc);
    VdevIsolation(levels, objs, l, TwoBlocks().req, hash, offset, Left(objs, map[]), plan, 0, 0, 1, l);
  }

  lemma {:induction false} TwoCommitted(objs': map<Id, Nisd>, alloc: map<Id, int>, plan: seq<seq<Pick>>)
    requires DrawsFrom(UnevenDisks(), alloc, Flat(plan)) && objs' == CommittedObjs(UnevenDisks(), alloc, alloc.Keys)
    requires Draws(Flat(plan), X) == 1 && Draws(Flat(plan), Y) == 1
    requires |plan| == 1 && |plan[0]| == 2 && {plan[0][0].nisd, plan[0][1].nisd} == {X, Y}
    requires plan[0][0] in Flat(plan) && plan[0][1] in Flat(plan)
    ensures objs' == map[Y := Disk(Y, 2 * CHUNK_SIZE).(avail := CHUNK_SIZE)]
  {
    hide Flat, Draws, Tuple;
    assert X in alloc && Y in alloc && alloc[X] == 0 && alloc[Y] == CHUNK_SIZE;
  }

  lemma UnevenDisksAreSound()
    ensures var w := WithDisk(WithDisk(START, X, CHUNK_SIZE), Y, 2 * CHUNK_SIZE);
            Inv(WithPending(w, TwoBlocks())) && Records(w.store) && Trails(w.store, w.objs) && PfsUsable(w.store) && w.objs == UnevenDisks()
    ensures var w := WithDisk(WithDisk(START, X, CHUNK_SIZE), Y, 2 * CHUNK_SIZE);
            CalmRun([START] + [WithDisk(START, X, CHUNK_SIZE)] + [w] + [WithPending(w, TwoBlocks())])
  {
    hide Inv, Registered, Records, Trails, PfsUsable, Registers, Tuple;
    StartHasNoDisks();
    var w1 := WithDisk(START, X, CHUNK_SIZE);
    RegisterDisk(START, X, CHUNK_SIZE);
    var w2 := WithDisk(w1, Y, 2 * CHUNK_SIZE);
    RegisterDisk(w1, Y, 2 * CHUNK_SIZE);
    InvRecords(w2);
    var w3 := WithPending(w2, TwoBlocks());
    assert Prepares(w2, w3, TwoBlocks());
    PrepareKeepsInv(w2, w3, TwoBlocks());
    ExtendCalm([START], w1);
    ExtendCalm([START] + [w1], w2);
    ExtendCalm([START] + [w1] + [w2], w3);
  }

  lemma UnevenDisksSettle(levels: seq<Tree>)
    requires Agrees(levels, UnevenDisks()) && forall i, e, d :: 0 <= i < FD_MAX && i < |levels| ==> Skew(levels, UnevenDisks(), i, e, d) == 0
    ensures Settled(levels, UnevenDisks())
  {
    hide Nested, Skew;
    TuplesFit(UnevenDisks());
    LevelCount(levels, UnevenDisks());
  }

  /** The run so far, with the create as it was applied, and the delete that stops at x. */
  lemma DeleteStopsAtX(w3: World, c: CreateResult, calm: seq<World>) returns (ws: seq<World>)
    requires CalmRun(calm) && |calm| == 4 && calm[3] == w3 && Inv(w3) && w3.objs == UnevenDisks()
    requires Id("v") in w3.pending && w3.pending[Id("v")] == TwoBlocks() && NisdConf(X) in w3.store && NisdConf(Y) in w3.store
    requires CreateStep(w3.store, w3.objs, c.store, c.objs, TwoBlocks(), NO_ID, c.off, c.plan, c.alloc)
    requires Draws(Flat(c.plan), X) == 1 && Draws(Flat(c.plan), Y) == 1 && c.objs.Keys == {Y}
    ensures |ws| == 6 && Run(ws) && CalmRun(ws[..5]) && Balanced(ws[4]) && !Balanced(ws[5])
    ensures ws[4] == AfterCreate(w3, c) && Deletes(ws[4], ws[5], Id("v"), Id("u"), {})
  {
    hide Inv, Balanced, Records, CreateStep, Refunded, Draws, Flat, PlacesChunks, DeleteEffect, UnevenDisks;
    var w4 := AfterCreate(w3, c);
    assert Creates(w3, w4, Id("v"), NO_ID, c.off, c.plan, c.alloc);
    ExtendCalm(calm, w4);
    var upTo := calm + [w4];
    CalmRunIsExact(upTo);
    CalmIsRun(upTo);
    RunKeepsInv(upTo);
    BothRefunded(w3, w4, c);
    InvRecords(w4);
    var w5 := DeleteMayReach(w4, Id("v"), Id("u"), {});
    DeleteBalanceIff(w4, w5, Id("v"), Id("u"), {});
    assert Y in Refunded(w4.store, Id("v")) * w4.objs.Keys;
    ExtendRun(upTo, w5);
    ws := upTo + [w5];
    assert ws[..5] == upTo;
  }

  lemma BothRefunded(w: World, w': World, c: CreateResult)
    requires Inv(w) && Creates(w, w', Id("v"), NO_ID, c.off, c.plan, c.alloc)
    requires Draws(Flat(c.plan), X) == 1 && Draws(Flat(c.plan), Y) == 1 && NisdConf(X) in w.store && NisdConf(Y) in w.store
    ensures X in Refunded(w'.store, Id("v")) && Y in Refunded(w'.store, Id("v"))
  {
    hide Inv, Creates, Draws, Flat, Refunded, Owed, PlacesChunks;
    CreatesEffect(w, w', Id("v"), NO_ID, c.off, c.plan, c.alloc);
    OwedIsDrawn(w.store, w'.store, Id("v"), Flat(c.plan), X);
    OwedIsDrawn(w.store, w'.store, Id("v"), Flat(c.plan), Y);
    assert SameAt(w.store, w'.store, NisdConf(X)) && SameAt(w.store, w'.store, NisdConf(Y));
    RefundedIffOwed(w'.store, Id("v"), X);
    RefundedIffOwed(w'.store, Id("v"), Y);
  }

  /** Two NISDs, one of them evicted by a create: the books of the control plane are exact after the
      create, and the delete of that vdev can end with wrong ones. */
  method DeleteBreaksBooks(hash: nat -> nat, rand: nat) returns (cp: ControlPlane, ghost ws: seq<World>)
    ensures fresh(cp) && fresh(cp.hr) && |ws| == 6 && Run(ws) && CalmRun(ws[..5])
    ensures ws[4].store == cp.store && ws[4].objs == cp.hr.objs && Agrees(cp.hr.levels, cp.hr.objs)
    ensures Balanced(ws[4]) && Deletes(ws[4], ws[5], Id("v"), Id("u"), {}) && !Balanced(ws[5])
  {
    hide Agrees, Nested, PartitionIdsFresh, WellTyped, SkewGrows, Skew, CreateOutcome, CreateStep, PrepChanges, Inv, Settled, Records, Trails, PfsUsable,
         Balanced, Run, CalmRun, Deletes, Draws, Flat;
    cp := new ControlPlane();
    forall i: nat, e, d | i < FD_MAX ensures Skew(cp.hr.levels, cp.hr.objs, i, e, d) == 0 { EmptyIsExact(cp.hr.levels, i, e, d); }
    var ok := cp.ApplyNisd(Disk(X, CHUNK_SIZE));
    ok := cp.ApplyNisd(Disk(Y, 2 * CHUNK_SIZE));
    UnevenDisksAreSound();
    assert cp.hr.objs == UnevenDisks();
    UnevenDisksSettle(cp.hr.levels);
    var txn := new FuncIntrm(PrepChanges(TwoBlocks()));
    ghost var w1 := WithDisk(START, X, CHUNK_SIZE);
    ghost var w2 := WithDisk(w1, Y, 2 * CHUNK_SIZE);
    ghost var w3 := WithPending(w2, TwoBlocks());
    ghost var s, levels := cp.store, cp.hr.levels;
    var r, level;
    ghost var pfs, off, plan, alloc;
    r, level, pfs, off, plan, alloc := cp.APCreateVdev(TwoBlocks(), txn, hash, rand);
    ghost var c := CreateResult(r, level, pfs, off, plan, alloc, cp.store, cp.hr.objs);
    TwoBlocksAreCreated(s, levels, hash, rand, c);
    ws := DeleteStopsAtX(w3, c, [START] + [w1] + [w2] + [w3]);
  }

  // ----- inputs at which single steps fail -----

  lemma RecordKeys(s: KV, n: Nisd, k: Key)
    requires k.ChunkKey? && k in s
    ensures var s' := WithRecord(s, n);
            IsAt(s', NisdConf(n.id), Conf(n.fdom, n.total)) && IsAt(s', NisdAvail(n.id), Num(n.avail)) && IsAt(s', k, s[k])
  {
  }

  /** x has two chunks, one block is placed on it, and it is registered again as if it were empty: the store
      then has two chunks of free space and a placed block on a NISD of two chunks. */
  method RegisteringAgainOverbooks(hash: nat -> nat, rand: nat) returns (free: Val, size: Val, placed: Val)
    ensures free == Num(2 * CHUNK_SIZE) && size == Conf(Tuple(X), 2 * CHUNK_SIZE) && placed == Ref(X)
  {
    hide Agrees, Nested, PartitionIdsFresh, WellTyped, SkewGrows, Skew, CreateOutcome, CreateStep, PrepChanges, Inv, Settled, Records, Trails, PfsUsable, Tuple, WithRecord;
    var cp := new ControlPlane();
    forall i: nat, e, d | i < FD_MAX ensures Skew(cp.hr.levels, cp.hr.objs, i, e, d) == 0 { EmptyIsExact(cp.hr.levels, i, e, d); }
    TuplesNest();
    var ok := cp.ApplyNisd(Disk(X, 2 * CHUNK_SIZE));
    OneDiskIsSound();
    assert cp.hr.objs == OneDiskIndex();
    OneDiskSettles(cp.hr.levels);
    var txn := new FuncIntrm(PrepChanges(OneBlock()));
    ghost var s, levels := cp.store, cp.hr.levels;
    var r, level;
    ghost var pfs, off, plan, alloc;
    r, level, pfs, off, plan, alloc := cp.APCreateVdev(OneBlock(), txn, hash, rand);
    ghost var c := CreateResult(r, level, pfs, off, plan, alloc, cp.store, cp.hr.objs);
    OneBlockIsCreated(s, levels, OneDiskIndex(), hash, rand, c, X);
    HalfUsed(s, levels, cp.hr.levels, c);
    ok := cp.ApplyNisd(Disk(X, 2 * CHUNK_SIZE));
    RecordKeys(c.store, Disk(X, 2 * CHUNK_SIZE), ChunkKey(Id("v"), 0, D, 0));
    free, size, placed := cp.store[NisdAvail(X)], cp.store[NisdConf(X)], cp.store[ChunkKey(Id("v"), 0, D, 0)];
  }

  /** A second partition of x's device is called like the PDU: the search of a commit for x at partition
      level then stops there, and the change lands on that partition. */
  lemma PartitionNamedLikePdu(t: Tree, objs: map<Id, Nisd>)
    requires objs == map[X := Disk(X, 2 * CHUNK_SIZE), Z := Nisd(Z, [P, Id("r"), Id("h"), D1, P], CHUNK_SIZE, CHUNK_SIZE)]
    requires TreeAgrees(t, PARTITION_IDX, objs)
    ensures var t' := Searched(t, objs[X].fdom, D1, -CHUNK_SIZE);
            TreeSkew(t', objs, Id("qx"), D1) == TreeSkew(t, objs, Id("qx"), D1)
            && TreeSkew(t', objs, P, D1) == TreeSkew(t, objs, P, D1) - CHUNK_SIZE
  {
    hide TreeSkew, Bumped;
    assert Under(objs[Z], PARTITION_IDX, P, D1);
    assert Listed(t, P, D1, Z);
    assert FirstHit(t, objs[X].fdom, D1) == Some(P);
    BumpedAgrees(t, PARTITION_IDX, objs, P, D1, -CHUNK_SIZE);
  }
}
