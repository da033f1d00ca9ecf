/** How far the device totals of the index are from their NISDs, over whole runs
    (controlplane/ctlplanefuncs/server/srvctlplanefuncs.go, lines 963-995 and 2173-2180). */
module Drift {
  import opened Changes
  import opened Finite
  import opened Lib
  import opened Index
  import opened Allocator
  import opened VdevAllocator
  import opened Store
  import opened Ledger
  import opened Runs
  import opened ControlPlane
  import opened Completeness
  import opened Replicas

  /** What the last step did to the index. */
  datatype Event = Quiet | Committed(alloc: map<Id, int>) | PutBacks(reached: set<Id>) | Rebuilt

  /** A world, the five levels of its index, and the step that led there. */
  datatype Stage = Stage(w: World, levels: seq<Tree>, event: Event)

  // ----- the steps of runs, with the index -----

  ghost predicate SameSkews(a: Stage, b: Stage) {
    |a.levels| == FD_MAX == |b.levels|
    && forall i: nat, e, d | i < FD_MAX :: Skew(b.levels, b.w.objs, i, e, d) == Skew(a.levels, a.w.objs, i, e, d)
  }

  ghost predicate QuietStep(a: Stage, b: Stage) {
    || ((exists n :: Registers(a.w, b.w, n)) && Agrees(b.levels, b.w.objs) && SameSkews(a, b))
    || ((exists n :: Reregisters(a.w, b.w, n)) && Agrees(b.levels, b.w.objs) && SameSkews(a, b))
    || ((exists p :: Prepares(a.w, b.w, p)) && b.levels == a.levels)
    || ((exists id :: Drops(a.w, b.w, id)) && b.levels == a.levels)
    || ((exists pfs, name, off :: AddsPfs(a.w, b.w, pfs, name, off)) && b.levels == a.levels)
    || ((exists id, counter, time :: Mounts(a.w, b.w, id, counter, time)) && b.levels == a.levels)
  }

  ghost predicate CommitStep(a: Stage, b: Stage, alloc: map<Id, int>) {
    (exists id, pfs, off, plan :: Creates(a.w, b.w, id, pfs, off, plan, alloc))
    && Agrees(b.levels, b.w.objs)
    && SkewGrows(a.levels, a.w.objs, b.levels, b.w.objs, EvictedTake(Ranked(alloc.Keys), a.w.objs, alloc))
  }

  ghost predicate PutBackStep(a: Stage, b: Stage, reached: set<Id>) {
    (exists id, user :: Deletes(a.w, b.w, id, user, reached)) && b.levels == a.levels
  }

  ghost predicate RebuildStep(a: Stage, b: Stage) {
    Rebuilds(a.w, b.w) && Agrees(b.levels, b.w.objs)
    && forall i: nat, e, d | i < FD_MAX && i < |b.levels| :: Skew(b.levels, b.w.objs, i, e, d) == 0
  }

  ghost predicate StageStep(a: Stage, b: Stage) {
    match b.event
    case Quiet => QuietStep(a, b)
    case Committed(alloc) => CommitStep(a, b, alloc)
    case PutBacks(reached) => PutBackStep(a, b, reached)
    case Rebuilt => RebuildStep(a, b)
  }

  ghost predicate StageRun(hs: seq<Stage>) {
    hs != []
    && if |hs| == 1 then hs[0].w == START && Agrees(hs[0].levels, map[])
       else StageRun(hs[..|hs|-1]) && StageStep(hs[|hs|-2], hs[|hs|-1])
  }

  lemma StageStepIsStep(a: Stage, b: Stage)
    requires StageStep(a, b)
    ensures Step(a.w, b.w)
  {
    hide Registers, Reregisters, Prepares, Creates, Drops, Deletes, AddsPfs, Mounts, Rebuilds, Agrees, SameSkews, SkewGrows, EvictedTake;
  }

  ghost function Worlds(hs: seq<Stage>): (ws: seq<World>)
    ensures |ws| == |hs|
  {
    if hs == [] then [] else Worlds(hs[..|hs|-1]) + [hs[|hs|-1].w]
  }

  /** Forgetting the index leaves a run. */
  lemma {:induction false} StagesAreRun(hs: seq<Stage>)
    requires StageRun(hs)
    ensures Run(Worlds(hs)) && Worlds(hs)[|hs|-1] == hs[|hs|-1].w && Inv(hs[|hs|-1].w)
  {
    hide StageStep, Step, Inv, Agrees;
    var n := |hs| - 1;
    assert Worlds(hs)[..n] == Worlds(hs[..n]);
    if n > 0 {
      StagesAreRun(hs[..n]);
      StageStepIsStep(hs[n-1], hs[n]);
    }
    RunKeepsInv(Worlds(hs));
  }

  // ----- what accumulates -----

  /** Since the last rebuild, and since the device is there: the draws from evicted NISDs, minus what
      deletes put back. */
  ghost function DriftOf(hs: seq<Stage>, i: nat, e: Id, d: Id): int {
    if |hs| <= 1 then 0 else
      var a, b := hs[|hs|-2], hs[|hs|-1];
      if i >= |b.levels| || Dev(b.levels[i], e, d).None? then 0 else
        match b.event
        case Quiet => DriftOf(hs[..|hs|-1], i, e, d)
        case Committed(alloc) => DriftOf(hs[..|hs|-1], i, e, d) + EvictedTake(Ranked(alloc.Keys), a.w.objs, alloc)(i, e, d)
        case PutBacks(reached) => DriftOf(hs[..|hs|-1], i, e, d) - Sum(b.levels[i][e][d].nisds, PutBack(a.w.objs, b.w.store, reached))
        case Rebuilt => 0
  }

  ghost predicate Drifted(h: Stage, i: nat, e: Id, d: Id, x: int) {
    Agrees(h.levels, h.w.objs) && i < |h.levels| == FD_MAX && Skew(h.levels, h.w.objs, i, e, d) == x
  }

  lemma QuietKeeps(a: Stage, b: Stage, i: nat, e: Id, d: Id, x: int)
    requires QuietStep(a, b) && Drifted(a, i, e, d, x)
    ensures Drifted(b, i, e, d, x)
  {
    hide Agrees, Skew, Registers, Reregisters, Mounts, AddsPfs;
    if (exists n :: Registers(a.w, b.w, n)) && Agrees(b.levels, b.w.objs) && SameSkews(a, b) {
    } else if (exists n :: Reregisters(a.w, b.w, n)) && Agrees(b.levels, b.w.objs) && SameSkews(a, b) {
    } else {
      SameObjects(a.w, b.w);
    }
  }

  lemma SameObjects(w: World, w': World)
    requires (exists p :: Prepares(w, w', p)) || (exists id :: Drops(w, w', id)) || (exists pfs, name, off :: AddsPfs(w, w', pfs, name, off))
             || exists id, counter, time :: Mounts(w, w', id, counter, time)
    ensures w'.objs == w.objs
  {
  }

  lemma CommitGrows(a: Stage, b: Stage, alloc: map<Id, int>, i: nat, e: Id, d: Id, x: int)
    requires CommitStep(a, b, alloc) && Drifted(a, i, e, d, x)
    ensures Drifted(b, i, e, d, if Dev(b.levels[i], e, d).None? then 0 else x + EvictedTake(Ranked(alloc.Keys), a.w.objs, alloc)(i, e, d))
  {
    hide Agrees, EvictedTake, Creates;
    LevelCount(b.levels, b.w.objs);
  }

  lemma PutBackLags(a: Stage, b: Stage, reached: set<Id>, i: nat, e: Id, d: Id, x: int)
    requires PutBackStep(a, b, reached) && Drifted(a, i, e, d, x)
    ensures Drifted(b, i, e, d, if Dev(b.levels[i], e, d).None? then 0
                                else x - Sum(b.levels[i][e][d].nisds, PutBack(a.w.objs, b.w.store, reached)))
  {
    hide Agrees, Restored, DeleteEffect, Refunded, PutBack;
    RestoredAgrees(a.levels, a.w.objs, b.w.store, reached);
    if Dev(a.levels[i], e, d).Some? { DeleteLeavesTotals(a.levels, a.w.objs, b.w.store, reached, i, e, d); }
  }

  /** After every run, the cached total of a device is above the space of its NISDs by exactly the draws
      from evicted NISDs minus what deletes put back, counted since the last rebuild. */
  lemma {:induction false} SkewIsDrift(hs: seq<Stage>, i: nat, e: Id, d: Id)
    requires StageRun(hs) && i < FD_MAX
    ensures Drifted(hs[|hs|-1], i, e, d, DriftOf(hs, i, e, d))
  {
    hide QuietStep, CommitStep, PutBackStep, RebuildStep, Drifted;
    var n := |hs| - 1;
    if n == 0 {
      StartHasNoSkew(hs[0], i, e, d);
    } else {
      SkewIsDrift(hs[..n], i, e, d);
      var a, b := hs[n-1], hs[n];
      var x := DriftOf(hs[..n], i, e, d);
      assert hs[..n][n-1] == a;
      match b.event
      case Quiet => QuietKeeps(a, b, i, e, d, x); AbsentIsZero(b, i, e, d, x);
      case Committed(alloc) => CommitGrows(a, b, alloc, i, e, d, x); LevelsOf(b, i, e, d);
      case PutBacks(reached) => PutBackLags(a, b, reached, i, e, d, x); LevelsOf(b, i, e, d);
      case Rebuilt => RebuildSettles(a, b, i, e, d);
    }
  }

  lemma StartHasNoSkew(h: Stage, i: nat, e: Id, d: Id)
    requires h.w == START && Agrees(h.levels, map[]) && i < FD_MAX
    ensures Drifted(h, i, e, d, 0)
  {
    assert TreeAgrees(h.levels[i], i, map[]);
    if Dev(h.levels[i], e, d).Some? {
      FirstIsMember(h.levels[i][e][d].nisds);
      assert Listed(h.levels[i], e, d, h.levels[i][e][d].nisds[0]);
    }
  }

  lemma RebuildSettles(a: Stage, b: Stage, i: nat, e: Id, d: Id)
    requires RebuildStep(a, b) && i < FD_MAX
    ensures Drifted(b, i, e, d, 0)
  {
    hide Agrees;
    LevelCount(b.levels, b.w.objs);
  }

  lemma AbsentIsZero(h: Stage, i: nat, e: Id, d: Id, x: int)
    requires Drifted(h, i, e, d, x)
    ensures i < |h.levels| && (Dev(h.levels[i], e, d).None? ==> x == 0)
  {
  }

  lemma LevelsOf(h: Stage, i: nat, e: Id, d: Id)
    requires exists x :: Drifted(h, i, e, d, x)
    ensures i < |h.levels|
  {
  }

  // ----- which way the totals err -----

  ghost predicate EvictsNone(h: Stage) { h.event.Committed? ==> forall n :: n in h.event.alloc ==> h.event.alloc[n] >= CHUNK_SIZE }

  /** No delete since the last rebuild. */
  ghost predicate NoDeletes(hs: seq<Stage>) {
    |hs| <= 1 || hs[|hs|-1].event.Rebuilt? || (!hs[|hs|-1].event.PutBacks? && NoDeletes(hs[..|hs|-1]))
  }

  /** No eviction since the last rebuild. */
  ghost predicate NoEvictions(hs: seq<Stage>) {
    |hs| <= 1 || hs[|hs|-1].event.Rebuilt? || (EvictsNone(hs[|hs|-1]) && NoEvictions(hs[..|hs|-1]))
  }

  lemma TakeIsNonNeg(a: Stage, b: Stage, alloc: map<Id, int>, i: nat, e: Id, d: Id)
    requires CommitStep(a, b, alloc)
    ensures EvictedTake(Ranked(alloc.Keys), a.w.objs, alloc)(i, e, d) >= 0
    ensures (forall n :: n in alloc ==> alloc[n] >= CHUNK_SIZE) ==> EvictedTake(Ranked(alloc.Keys), a.w.objs, alloc)(i, e, d) == 0
  {
    hide Agrees, SkewGrows, Creates;
    var id, pfs, off, plan :| Creates(a.w, b.w, id, pfs, off, plan, alloc);
    DrawsOnly(a.w, b.w, id, pfs, off, plan, alloc);
    var f := TakenAt(a.w.objs, alloc, i, e, d);
    forall n | n in Ranked(alloc.Keys) ensures 0 <= f(n) && (alloc[n] >= CHUNK_SIZE ==> f(n) == 0) {
      assert n in alloc;
      assert f(n) == Taken(a.w.objs, n, alloc[n])(i, e, d);
    }
    SumNonNeg(Ranked(alloc.Keys), f);
    if forall n :: n in alloc ==> alloc[n] >= CHUNK_SIZE { SumZero(Ranked(alloc.Keys), f); }
  }

  lemma DrawsOnly(w: World, w': World, id: Id, pfs: Id, off: nat, plan: seq<seq<Pick>>, alloc: map<Id, int>)
    requires Creates(w, w', id, pfs, off, plan, alloc)
    ensures forall n :: n in alloc ==> n in w.objs && alloc[n] <= w.objs[n].avail
  {
    hide ApplyAll, CreateChanges, CommittedObjs, FindsPfs, NameFree, Flat, Draws;
  }

  lemma {:induction false} PutBackIsNonNeg(a: Stage, b: Stage, reached: set<Id>, ns: seq<Id>)
    requires PutBackStep(a, b, reached) && Inv(a.w)
    ensures Sum(ns, PutBack(a.w.objs, b.w.store, reached)) >= 0
  {
    hide Stored, Restored, DeleteEffect, HasRecord, Owed;
    var id, user :| Deletes(a.w, b.w, id, user, reached);
    InvRecords(a.w);
    forall n | n in ns ensures 0 <= PutBack(a.w.objs, b.w.store, reached)(n) {
      if n in a.w.objs && n in reached { OnlyMore(a.w.store, b.w.store, a.w.objs, id, user, n); }
    }
    SumNonNeg(ns, PutBack(a.w.objs, b.w.store, reached));
  }

  /** Without deletes since the last rebuild no total is too low, and without evictions none is too high. */
  lemma {:induction false} DriftHasOneSign(hs: seq<Stage>, i: nat, e: Id, d: Id)
    requires StageRun(hs) && i < FD_MAX
    ensures NoDeletes(hs) ==> 0 <= DriftOf(hs, i, e, d)
    ensures NoEvictions(hs) ==> DriftOf(hs, i, e, d) <= 0
  {
    hide QuietStep, CommitStep, PutBackStep, RebuildStep, EvictedTake, PutBack, Inv;
    var n := |hs| - 1;
    if n > 0 {
      DriftHasOneSign(hs[..n], i, e, d);
      StagesAreRun(hs[..n]);
      var a, b := hs[n-1], hs[n];
      assert hs[..n][n-1] == a;
      match b.event
      case Quiet =>
      case Committed(alloc) => TakeIsNonNeg(a, b, alloc, i, e, d); assert EvictsNone(b) <==> forall x :: x in alloc ==> alloc[x] >= CHUNK_SIZE;
      case PutBacks(reached) =>
        if i < |b.levels| && Dev(b.levels[i], e, d).Some? { PutBackIsNonNeg(a, b, reached, b.levels[i][e][d].nisds); }
      case Rebuilt =>
    }
  }

  // ----- runs over NISDs of whole chunks -----

  /** NISDs were only ever registered with whole chunks of space. */
  ghost predicate WholeRegistered(w: World) { forall n :: n in w.reg ==> Whole(w.reg[n]) }

  ghost predicate AllWhole(hs: seq<Stage>) { forall k :: 0 <= k < |hs| ==> WholeRegistered(hs[k].w) }

  /** All space that store and index know is in whole chunks. */
  ghost predicate WholeSpace(w: World) {
    (forall n :: HasRecord(w.store, n) ==> Whole(Stored(w.store, n))) && forall n :: n in w.objs ==> Whole(w.objs[n].avail)
  }

  lemma WholeMinus(x: int, k: nat)
    requires Whole(x) && CHUNK_SIZE * k <= x
    ensures Whole(x - CHUNK_SIZE * k)
  {
    assert x == CHUNK_SIZE * (x / CHUNK_SIZE);
    assert x - CHUNK_SIZE * k == CHUNK_SIZE * (x / CHUNK_SIZE - k);
  }

  lemma WholePlus(x: int, k: nat)
    requires Whole(x)
    ensures Whole(x + CHUNK_SIZE * k)
  {
    assert x == CHUNK_SIZE * (x / CHUNK_SIZE);
    assert x + CHUNK_SIZE * k == CHUNK_SIZE * (x / CHUNK_SIZE + k);
  }

  lemma RegisterStaysWhole(w: World, w': World, n: Nisd)
    requires WholeSpace(w) && (Registers(w, w', n) || Reregisters(w, w', n)) && WholeRegistered(w')
    ensures WholeSpace(w')
  {
    hide Nested, PartitionIdsFresh, Registered, BlocksOn, RecordOf, Whole, WithRecord, Stored, HasRecord;
    assert w'.store == WithRecord(w.store, n) && |n.fdom| == FD_MAX && n.avail >= 0;
    assert n.id in w'.reg && Whole(w'.reg[n.id]);
    if Reregisters(w, w', n) { WholeMinus(w'.reg[n.id], |BlocksOn(w.store, n.id)|); }
    assert Whole(n.avail);
    forall m | HasRecord(w'.store, m) ensures Whole(Stored(w'.store, m)) { RecordAfter(w.store, n, m); }
  }

  lemma CreateStaysWhole(w: World, w': World, id: Id, pfs: Id, off: nat, plan: seq<seq<Pick>>, alloc: map<Id, int>)
    requires Inv(w) && WholeSpace(w) && Creates(w, w', id, pfs, off, plan, alloc)
    ensures WholeSpace(w')
  {
    hide Nested, PartitionIdsFresh, Registered, BlocksOn, RecordOf, Whole, HasRecord, Stored, Draws, Flat, ApplyAll, CreateChanges,
         PlacesChunks, NamesVdev, ConfiguresVdev, JoinsPfs, TakesSpace, NoTrace, IdsFresh, NamesAgree, MembersAgree, PlacementsAgree, Bounded, CommittedObjs;
    CreatesEffect(w, w', id, pfs, off, plan, alloc);
    forall n | n in alloc ensures n in w.objs && Whole(alloc[n]) {
      WholeMinus(w.objs[n].avail, Draws(Flat(plan), n));
    }
    forall n | HasRecord(w'.store, n) ensures Whole(Stored(w'.store, n)) { SpaceRecord(w.store, w'.store, w.objs, alloc, n); }
    forall n | n in w'.objs ensures Whole(w'.objs[n].avail) { CommittedAvail(w.objs, alloc, n); }
  }

  lemma CommittedAvail(objs: map<Id, Nisd>, alloc: map<Id, int>, n: Id)
    requires n in CommittedObjs(objs, alloc, alloc.Keys)
    ensures n in objs && CommittedObjs(objs, alloc, alloc.Keys)[n].avail == if n in alloc then alloc[n] else objs[n].avail
  {
  }

  lemma DeleteStaysWhole(w: World, w': World, id: Id, user: Id, reached: set<Id>)
    requires Inv(w) && WholeSpace(w) && Deletes(w, w', id, user, reached)
    ensures WholeSpace(w')
  {
    hide Nested, PartitionIdsFresh, Registered, BlocksOn, RecordOf, Whole, HasRecord, Stored, IdsFresh, NamesAgree, MembersAgree, PlacementsAgree,
         Bounded, DeleteEffect, Owed, Refunded;
    forall n | HasRecord(w'.store, n) ensures Whole(Stored(w'.store, n)) {
      DeletedRecord(w.store, w'.store, id, user, n);
      WholePlus(Stored(w.store, n), Owed(w.store, id, n));
    }
    forall n | n in w'.objs ensures Whole(w'.objs[n].avail) {
      if n in reached { DeletedRecord(w.store, w'.store, id, user, n); }
    }
  }

  lemma RestStaysWhole(w: World, w': World)
    requires WholeSpace(w)
    requires (exists p :: Prepares(w, w', p)) || (exists id :: Drops(w, w', id)) || (exists pfs, name, off :: AddsPfs(w, w', pfs, name, off))
             || exists id, counter, time :: Mounts(w, w', id, counter, time)
    ensures WholeSpace(w')
  {
    hide BlocksOn, RecordOf, Whole, HasRecord, Stored, WithPfs, WithMount;
    if pfs, name, off :| AddsPfs(w, w', pfs, name, off) {
      forall n | HasRecord(w'.store, n) ensures Whole(Stored(w'.store, n)) { PfsKeepsRecord(w.store, pfs, name, off, n); }
    } else if id, counter, time :| Mounts(w, w', id, counter, time) {
      forall n | HasRecord(w'.store, n) ensures Whole(Stored(w'.store, n)) { MountKeepsRecord(w.store, id, counter, time, n); }
    }
  }

  lemma RebuildIsWhole(w: World, w': World)
    requires Inv(w) && WholeSpace(w) && Rebuilds(w, w')
    ensures WholeSpace(w')
  {
    hide Nested, PartitionIdsFresh, Registered, Whole, HasRecord, Stored, Inv;
    InvRecords(w);
    forall n | n in w'.objs ensures Whole(w'.objs[n].avail) { RebuiltAvail(w.store, n); }
  }

  lemma RebuiltAvail(s: KV, n: Id)
    requires Records(s) && n in Registered(s)
    ensures HasRecord(s, n) && Registered(s)[n].avail == Stored(s, n)
  {
    assert NisdConf(n) in s;
  }

  lemma {:induction false} SpaceStaysWhole(hs: seq<Stage>)
    requires StageRun(hs) && AllWhole(hs)
    ensures WholeSpace(hs[|hs|-1].w)
  {
    hide WholeSpace, WholeRegistered, Inv, Registers, Reregisters, Prepares, Creates, Drops, Deletes, AddsPfs, Mounts, Rebuilds,
         Agrees, SameSkews, SkewGrows, EvictedTake;
    var n := |hs| - 1;
    if n == 0 {
      StartIsWhole();
    } else {
      SpaceStaysWhole(hs[..n]);
      StagesAreRun(hs[..n]);
      var a, b := hs[n-1], hs[n];
      assert hs[..n][n-1] == a && WholeRegistered(b.w);
      match b.event
      case Quiet =>
        if x :| Registers(a.w, b.w, x) { RegisterStaysWhole(a.w, b.w, x); }
        else if x :| Reregisters(a.w, b.w, x) { RegisterStaysWhole(a.w, b.w, x); }
        else { RestStaysWhole(a.w, b.w); }
      case Committed(alloc) =>
        var id, pfs, off, plan :| Creates(a.w, b.w, id, pfs, off, plan, alloc);
        CreateStaysWhole(a.w, b.w, id, pfs, off, plan, alloc);
      case PutBacks(reached) =>
        var id, user :| Deletes(a.w, b.w, id, user, reached);
        DeleteStaysWhole(a.w, b.w, id, user, reached);
      case Rebuilt => RebuildIsWhole(a.w, b.w);
    }
  }

  lemma StartIsWhole()
    ensures WholeSpace(START)
  {
  }

  // ----- totals that are never too high -----

  lemma {:induction false} SumMultiple(s: seq<Id>, f: Id -> int)
    requires forall x :: x in s ==> f(x) % CHUNK_SIZE == 0
    ensures Sum(s, f) % CHUNK_SIZE == 0
  {
    if s != [] {
      SumMultiple(s[..|s|-1], f);
      var a, b := Sum(s[..|s|-1], f), f(s[|s|-1]);
      assert a == CHUNK_SIZE * (a / CHUNK_SIZE) && b == CHUNK_SIZE * (b / CHUNK_SIZE);
      assert a + b == CHUNK_SIZE * (a / CHUNK_SIZE + b / CHUNK_SIZE);
    }
  }

  lemma MultipleMinus(x: int, y: int)
    requires x % CHUNK_SIZE == 0 && y % CHUNK_SIZE == 0
    ensures (x - y) % CHUNK_SIZE == 0
  {
    assert x == CHUNK_SIZE * (x / CHUNK_SIZE) && y == CHUNK_SIZE * (y / CHUNK_SIZE);
    assert x - y == CHUNK_SIZE * (x / CHUNK_SIZE - y / CHUNK_SIZE);
  }

  lemma {:induction false} PutBackIsWhole(a: Stage, b: Stage, reached: set<Id>, ns: seq<Id>)
    requires PutBackStep(a, b, reached) && Inv(a.w) && WholeSpace(a.w) && WholeSpace(b.w)
    ensures Sum(ns, PutBack(a.w.objs, b.w.store, reached)) % CHUNK_SIZE == 0
  {
    hide Stored, Restored, DeleteEffect, HasRecord, Owed, Refunded;
    var id, user :| Deletes(a.w, b.w, id, user, reached);
    InvRecords(a.w);
    forall n | n in ns ensures PutBack(a.w.objs, b.w.store, reached)(n) % CHUNK_SIZE == 0 {
      if n in a.w.objs && n in reached {
        RecordsStay(a.w.store, b.w.store, a.w.objs, id, user, n);
        MultipleMinus(Stored(b.w.store, n), a.w.objs[n].avail);
      }
    }
    SumMultiple(ns, PutBack(a.w.objs, b.w.store, reached));
  }

  lemma RecordsStay(s: KV, s': KV, objs: map<Id, Nisd>, id: Id, user: Id, n: Id)
    requires Records(s) && Trails(s, objs) && DeleteEffect(s, s', id, user) && n in objs
    ensures HasRecord(s', n)
  {
    hide Nested, PartitionIdsFresh, Registered, Owed, DeleteEffect;
    DeletedRecord(s, s', id, user, n);
  }

  lemma LastPutBackIsWhole(hs: seq<Stage>, reached: set<Id>, ns: seq<Id>)
    requires StageRun(hs) && AllWhole(hs) && |hs| > 1 && hs[|hs|-1].event == PutBacks(reached)
    ensures Sum(ns, PutBack(hs[|hs|-2].w.objs, hs[|hs|-1].w.store, reached)) % CHUNK_SIZE == 0
  {
    hide PutBackStep, PutBack, Inv, WholeSpace, WholeRegistered, Agrees;
    var n := |hs| - 1;
    assert hs[..n][n-1] == hs[n-1];
    SpaceStaysWhole(hs);
    SpaceStaysWhole(hs[..n]);
    StagesAreRun(hs[..n]);
    PutBackIsWhole(hs[n-1], hs[n], reached, ns);
  }

  lemma {:induction false} DriftIsMultiple(hs: seq<Stage>, i: nat, e: Id, d: Id)
    requires StageRun(hs) && AllWhole(hs) && NoEvictions(hs)
    ensures DriftOf(hs, i, e, d) % CHUNK_SIZE == 0
  {
    hide QuietStep, CommitStep, PutBackStep, RebuildStep, EvictedTake, PutBack, Inv, WholeSpace, WholeRegistered, Agrees;
    var n := |hs| - 1;
    if n > 0 && !hs[n].event.Rebuilt? && i < |hs[n].levels| && Dev(hs[n].levels[i], e, d).Some? {
      var a, b := hs[n-1], hs[n];
      assert hs[..n][n-1] == a;
      DriftIsMultiple(hs[..n], i, e, d);
      match b.event
      case Committed(alloc) => TakeIsNonNeg(a, b, alloc, i, e, d);
      case PutBacks(reached) =>
        LastPutBackIsWhole(hs, reached, b.levels[i][e][d].nisds);
        MultipleMinus(DriftOf(hs[..n], i, e, d), Sum(b.levels[i][e][d].nisds, PutBack(a.w.objs, b.w.store, reached)));
      case _ =>
    }
  }

  /** After every run over NISDs of whole chunks without an eviction since the last rebuild, deletes or
      not, no total is too high: the state from which chunk allocation is complete. */
  lemma {:induction false} NeverHighAfter(hs: seq<Stage>)
    requires StageRun(hs) && AllWhole(hs) && NoEvictions(hs)
    ensures NeverHigh(hs[|hs|-1].levels, hs[|hs|-1].w.objs)
  {
    assert hs != [];
    hide StageRun, AllWhole, NoEvictions, Inv, Agrees, Nested, PartitionIdsFresh, Skew, Records, Trails;
    var h := hs[|hs|-1];
    SpaceStaysWhole(hs);
    StagesAreRun(hs);
    InvRecords(h.w);
    IndexNests(h.w.store, h.w.objs);
    SkewIsDrift(hs, 0, NO_ID, NO_ID);
    forall i: nat | i < FD_MAX ensures NotHigh(h.levels, h.w.objs, i) {
      forall e, d ensures Skew(h.levels, h.w.objs, i, e, d) <= 0 && Skew(h.levels, h.w.objs, i, e, d) % CHUNK_SIZE == 0 {
        SkewIsDrift(hs, i, e, d);
        DriftHasOneSign(hs, i, e, d);
        DriftIsMultiple(hs, i, e, d);
      }
    }
  }

  /** After such a run a create without a filter entity is not refused for room, and returns, if enough
      entities of an admissible level have room by their totals. */
  lemma RunFindsRoom(hs: seq<Stage>, p: Prep, hash: nat -> nat, rand: nat, c: CreateResult, l: nat, roomy: set<Id>)
    requires StageRun(hs) && AllWhole(hs) && NoEvictions(hs)
    requires CreateOutcome(hs[|hs|-1].w.store, hs[|hs|-1].levels, hs[|hs|-1].w.objs, p, hash, rand, c) && l <= DEVICE_IDX
    requires p.req.filter.id == NO_ID && (p.req.filter.fdType == FD_ANY || GetFDIdx(p.req.filter.fdType) == l)
    requires l < |hs[|hs|-1].levels|
    requires EnoughRoom(hs[|hs|-1].levels[l], p.req.vdev.TotalRedundancyBlocksPerChunk(), p.req.vdev.chunkCnt, roomy)
    ensures c.reply != NoRoom && c.reply != Hangs && (c.reply == Created ==> c.level <= l)
  {
    assert hs != [];
    hide StageRun, AllWhole, NoEvictions, CreateOutcome, EnoughRoom;
    NeverHighAfter(hs);
    CreateFindsRoom(hs[|hs|-1].w.store, hs[|hs|-1].levels, hs[|hs|-1].w.objs, p, hash, rand, c, l, roomy);
  }

  /** And one that names a level and no entity hangs exactly when it finds the level jammed. */
  lemma RunHangsIff(hs: seq<Stage>, p: Prep, hash: nat -> nat, rand: nat, c: CreateResult)
    requires StageRun(hs) && AllWhole(hs) && NoEvictions(hs)
    requires CreateOutcome(hs[|hs|-1].w.store, hs[|hs|-1].levels, hs[|hs|-1].w.objs, p, hash, rand, c)
    requires p.req.filter.id == NO_ID && 0 <= GetFDIdx(p.req.filter.fdType) <= DEVICE_IDX && p.req.vdev.chunkCnt > 0
    ensures |hs[|hs|-1].levels| == FD_MAX
    ensures var s, v := hs[|hs|-1].w.store, p.req.vdev;
            c.reply == Hangs <==>
              NameFree(s, v.name) && !PfsMissing(s, v) && !OffsetMissing(s, v)
              && Jams(hs[|hs|-1].levels[GetFDIdx(p.req.filter.fdType)], v.TotalRedundancyBlocksPerChunk())
  {
    assert hs != [];
    hide StageRun, AllWhole, NoEvictions, CreateOutcome, Jams, NameFree, PfsMissing, OffsetMissing;
    NeverHighAfter(hs);
    StagesAreRun(hs);
    InvRecords(hs[|hs|-1].w);
    CreateHangsIff(hs[|hs|-1].w.store, hs[|hs|-1].levels, hs[|hs|-1].w.objs, p, hash, rand, c);
  }
}
