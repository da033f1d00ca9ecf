/** When does the random rotation offset of a vdev without a PFS matter?
    (controlplane/ctlplanefuncs/server/srvctlplanefuncs.go, line 1062) */
module DrawEffect {
  import opened Changes
  import opened Finite
  import opened Lib
  import opened Index
  import opened Modulo
  import opened Pickers
  import opened Allocator
  import opened Placement
  import opened VdevAllocator
  import opened Store
  import opened Ledger
  import opened Runs
  import opened ControlPlane
  import opened Replicas
  import Turns = Rotation

  // ----- one pick -----

  ghost predicate OneEligible(devs: Devices, usage: DeviceUsage) {
    forall a, b :: Eligible(devs, usage, a) && Eligible(devs, usage, b) ==> a == b
  }

  lemma {:induction false} FirstPlace(rs: seq<Id>, d: Id) returns (k: nat)
    requires d in rs
    ensures k < |rs| && rs[k] == d && forall j | 0 <= j < k :: rs[j] != d
  {
    if rs[0] == d {
      k := 0;
    } else {
      k := FirstPlace(rs[1..], d);
      k := k + 1;
      forall j | 0 <= j < k ensures rs[j] != d { if j > 0 { assert rs[1..][j-1] == rs[j]; } }
    }
  }

  /** With at most one device that has room, the rotation has nothing to decide. */
  lemma ChoiceIgnoresOffset(devs: Devices, picked: set<Id>, usage: DeviceUsage, off1: nat, off2: nat, r: Option<Id>)
    requires OneEligible(devs, usage) && DeviceChoice(devs, picked, usage, off1, r)
    ensures DeviceChoice(devs, picked, usage, off2, r)
  {
    hide Rotation;
    if r.Some? {
      var rs := Rotation(Ranked(devs.Keys), off2);
      RotationCovers(Ranked(devs.Keys), off2, r.value);
      var k := FirstPlace(rs, r.value);
      if r.value !in picked {
        assert FirstOpen(devs, picked, usage, rs, r.value, k);
      } else {
        LastPlace(devs, off2, r.value, k);
        forall j | 0 <= j < |rs| && Eligible(devs, usage, rs[j]) ensures NoWorse(devs, usage, rs, r.value, k, j) {}
        assert Fallback(devs, usage, rs, r.value, k, |rs|);
      }
    }
  }

  lemma LastPlace(devs: Devices, off: nat, d: Id, k: nat)
    requires k < |Rotation(Ranked(devs.Keys), off)|
    ensures |Rotation(Ranked(devs.Keys), off)| == |devs|
  {
  }

  lemma PicksIgnoreOffset(tree: Tree, q: Probe, o: nat, p: Pick)
    requires p.entity in tree && OneEligible(tree[p.entity], q.usage) && Picks(tree, q, p)
    ensures Picks(tree, q.(off := o), p)
  {
    hide DeviceChoice, NisdChoice, OneEligible;
    ChoiceIgnoresOffset(tree[p.entity], q.devices, q.usage, q.off, o, Some(p.device));
  }

  lemma UnserviceableIgnoresOffset(devs: Devices, q: Probe, o: nat)
    requires OneEligible(devs, q.usage) && Unserviceable(devs, q)
    ensures Unserviceable(devs, q.(off := o))
  {
    hide DeviceChoice, NisdChoice, OneEligible;
    var r: Option<Id> :| DeviceChoice(devs, q.devices, q.usage, q.off, r)
      && (r.Some? ==> r.value in devs && NisdChoice(devs[r.value].nisds, q.nisds, q.left, None));
    ChoiceIgnoresOffset(devs, q.devices, q.usage, q.off, o, r);
  }

  lemma LookedIgnoresOffset(devs: Devices, q: Probe, o: nat)
    requires OneEligible(devs, q.usage)
    ensures LookedIn(devs, q.(off := o)) == LookedIn(devs, q)
  {
    hide DeviceChoice, OneEligible;
    forall d ensures DeviceChoice(devs, q.devices, q.usage, q.off, Some(d)) <==> DeviceChoice(devs, q.devices, q.usage, o, Some(d)) {
      if DeviceChoice(devs, q.devices, q.usage, q.off, Some(d)) { ChoiceIgnoresOffset(devs, q.devices, q.usage, q.off, o, Some(d)); }
      if DeviceChoice(devs, q.devices, q.usage, o, Some(d)) { ChoiceIgnoresOffset(devs, q.devices, q.usage, o, q.off, Some(d)); }
    }
  }

  // ----- a condition on the index that lasts through a placement -----

  /** Device d has room for a chunk in some entity of es. */
  ghost predicate RoomyIn(tree: Tree, es: set<Id>, d: Id) {
    exists e :: e in es && Dev(tree, e, d).Some? && tree[e][d].avail >= CHUNK_SIZE
  }

  /** No entity of es has two devices with room. */
  ghost predicate OneRoomy(tree: Tree, es: set<Id>) {
    forall e, a, b | e in es && Dev(tree, e, a).Some? && Dev(tree, e, b).Some? ::
      RoomyIn(tree, es, a) && RoomyIn(tree, es, b) ==> a == b
  }

  /** Only devices that had room at the start still have some. */
  ghost predicate Capped(tree: Tree, es: set<Id>, usage: DeviceUsage) {
    forall d :: d in usage && usage[d].avail >= CHUNK_SIZE ==> RoomyIn(tree, es, d)
  }

  lemma CappedIsThin(tree: Tree, es: set<Id>, usage: DeviceUsage, e: Id)
    requires OneRoomy(tree, es) && Capped(tree, es, usage) && e in es && e in tree
    ensures OneEligible(tree[e], usage)
  {
    forall d | Eligible(tree[e], usage, d) ensures Dev(tree, e, d).Some? && RoomyIn(tree, es, d) {}
  }

  lemma CappedStep(tree: Tree, es: set<Id>, q: Probe, p: Pick)
    requires Capped(tree, es, q.usage) && p.entity in es && Picks(tree, q, p)
    ensures Capped(tree, es, Charge(q.usage, tree[p.entity], p.device))
  {
    assert Eligible(tree[p.entity], q.usage, p.device);
    assert RoomyIn(tree, es, p.device);
  }

  ghost predicate InScope(es: set<Id>, picks: seq<Pick>) { forall p :: p in picks ==> p.entity in es }

  lemma ScopeOfNone(es: set<Id>)
    ensures InScope(es, [])
  {
  }

  lemma ScopeGrows(es: set<Id>, picks: seq<Pick>)
    requires picks != [] && InScope(es, picks[..|picks|-1]) && picks[|picks|-1].entity in es
    ensures InScope(es, picks)
  {
    forall p | p in picks ensures p.entity in es { assert p == picks[|picks|-1] || p in picks[..|picks|-1]; }
  }

  lemma {:induction false} ChainIgnoresOffset(tree: Tree, es: set<Id>, usage: DeviceUsage, left: map<Id, int>, off1: nat, off2: nat, picks: seq<Pick>)
    requires OneRoomy(tree, es) && Capped(tree, es, usage) && InScope(es, picks) && Chain(tree, usage, left, off1, picks)
    ensures Chain(tree, usage, left, off2, picks) && Capped(tree, es, UsageAfter(tree, usage, picks))
  {
    hide Picks, Capped, OneRoomy, OneEligible;
    if picks != [] {
      var n := |picks| - 1;
      var before, p := picks[..n], picks[n];
      assert p in picks && forall x :: x in before ==> x in picks;
      ChainIgnoresOffset(tree, es, usage, left, off1, off2, before);
      var q := ProbeAfter(tree, usage, left, off1, before);
      PickHasEntity(tree, q, p);
      CappedIsThin(tree, es, q.usage, p.entity);
      PicksIgnoreOffset(tree, q, off2 + n, p);
      CappedStep(tree, es, q, p);
    }
  }

  lemma PickHasEntity(tree: Tree, q: Probe, p: Pick)
    requires Picks(tree, q, p)
    ensures p.entity in tree && Dev(tree, p.entity, p.device).Some?
  {
  }

  // ----- filtered chunks -----

  lemma {:induction false} WithinLookedIgnoresOffset(tree: Tree, e: Id, usage: DeviceUsage, left: map<Id, int>,
                                                     off1: nat, off2: nat, picks: seq<Pick>)
    requires OneRoomy(tree, {e}) && Capped(tree, {e}, usage) && AllWithin(e, picks) && Chain(tree, usage, left, off1, picks)
    ensures WithinLooked(tree, e, usage, left, off1, picks) == WithinLooked(tree, e, usage, left, off2, picks)
  {
    hide Picks, Capped, OneRoomy, OneEligible, LookedIn;
    if picks != [] && e in tree {
      var n := |picks| - 1;
      var before := picks[..n];
      WithinLookedIgnoresOffset(tree, e, usage, left, off1, off2, before);
      ChainIgnoresOffset(tree, {e}, usage, left, off1, off2, before);
      var q := ProbeAfter(tree, usage, left, off1, before);
      CappedIsThin(tree, {e}, q.usage, e);
      LookedIgnoresOffset(tree[e], q, off2 + n);
      assert ProbeAfter(tree, usage, left, off2, before) == q.(off := off2 + n);
    }
  }

  lemma {:induction false} WithinIgnoresOffset(tree: Tree, e: Id, total: nat, usage: DeviceUsage, left: map<Id, int>, off1: nat, off2: nat,
                            out: Outcome, picks: seq<Pick>)
    requires OneRoomy(tree, {e}) && Capped(tree, {e}, usage) && WithinRun(tree, e, total, usage, left, off1, out, picks)
    ensures WithinRun(tree, e, total, usage, left, off2, out, picks)
    ensures Capped(tree, {e}, UsageAfter(tree, usage, picks))
    ensures WithinLooked(tree, e, usage, left, off1, picks) == WithinLooked(tree, e, usage, left, off2, picks)
  {
    hide Picks, Capped, OneRoomy, OneEligible, WithinLooked, Unserviceable, Chain, UsageAfter, LeftAfter;
    ChainIgnoresOffset(tree, {e}, usage, left, off1, off2, picks);
    WithinLookedIgnoresOffset(tree, e, usage, left, off1, off2, picks);
    if out == Failed {
      var q := ProbeAfter(tree, usage, left, off1, picks);
      CappedIsThin(tree, {e}, q.usage, e);
      UnserviceableIgnoresOffset(tree[e], q, off2 + |picks|);
    }
  }

  // ----- unfiltered chunks -----

  lemma PassedIgnoresOffset(tree: Tree, e: Id, used: set<Id>, q: Probe, o: nat)
    requires OneRoomy(tree, tree.Keys) && Capped(tree, tree.Keys, q.usage) && Passed(tree, e, used, q)
    ensures Passed(tree, e, used, q.(off := o))
  {
    hide OneRoomy, Capped, OneEligible, Unserviceable;
    if e !in used {
      CappedIsThin(tree, tree.Keys, q.usage, e);
      UnserviceableIgnoresOffset(tree[e], q, o);
    }
  }

  lemma StopsIgnoresOffset(tree: Tree, start: nat, before: seq<Pick>, q: Probe, o: nat, p: Pick)
    requires OneRoomy(tree, tree.Keys) && Capped(tree, tree.Keys, q.usage) && Stops(tree, start, before, q, p)
    ensures Stops(tree, start, before, q.(off := o), p)
  {
    hide OneRoomy, Capped, Passed, EntitiesOf;
    var ents, c, used := Ranked(tree.Keys), Cursor(|tree|, start, before), EntitiesOf(before);
    forall k: nat | k < |ents| && Dist(c, k, |ents|) < Dist(c, p.rank, |ents|) ensures Passed(tree, ents[k], used, q.(off := o)) {
      PassedIgnoresOffset(tree, ents[k], used, q, o);
    }
  }

  lemma {:induction false} LookedWalkIgnoresOffset(tree: Tree, ents: seq<Id>, start: nat, seen: nat, used: set<Id>, q: Probe, o: nat)
    requires OneRoomy(tree, tree.Keys) && Capped(tree, tree.Keys, q.usage) && start < |ents| && seen <= |ents|
    ensures LookedWalk(tree, ents, start, seen, used, q.(off := o)) == LookedWalk(tree, ents, start, seen, used, q)
  {
    hide OneRoomy, Capped, OneEligible, LookedIn;
    if seen > 0 {
      LookedWalkIgnoresOffset(tree, ents, start, seen - 1, used, q, o);
      var e := ents[AfterSteps(start, seen - 1, |ents|)];
      if e in tree {
        CappedIsThin(tree, tree.Keys, q.usage, e);
        LookedIgnoresOffset(tree[e], q, o);
      }
    }
  }

  lemma BlockLookedIgnoresOffset(tree: Tree, start: nat, before: seq<Pick>, q: Probe, o: nat, p: Pick)
    requires OneRoomy(tree, tree.Keys) && Capped(tree, tree.Keys, q.usage)
    ensures BlockLooked(tree, start, before, q.(off := o), p) == BlockLooked(tree, start, before, q, p)
  {
    hide OneRoomy, Capped, LookedWalk, EntitiesOf;
    var n := |tree|;
    if start < n && p.rank < n {
      RankHolds(tree.Keys, start);
      var c := Cursor(n, start, before);
      LookedWalkIgnoresOffset(tree, Ranked(tree.Keys), c, Dist(c, p.rank, n) + 1, EntitiesOf(before), q, o);
    }
  }

  lemma {:induction false} NextIgnoresOffset(tree: Tree, start: nat, usage: DeviceUsage, left: map<Id, int>, off1: nat,
                                             off2: nat, before: seq<Pick>, p: Pick)
    requires OneRoomy(tree, tree.Keys) && Capped(tree, tree.Keys, UsageAfter(tree, usage, before))
    requires Picks(tree, ProbeAfter(tree, usage, left, off1, before), p)
    requires Stops(tree, start, before, ProbeAfter(tree, usage, left, off1, before), p)
    ensures p.entity in tree.Keys && Stops(tree, start, before, ProbeAfter(tree, usage, left, off2, before), p)
    ensures BlockLooked(tree, start, before, ProbeAfter(tree, usage, left, off2, before), p)
         == BlockLooked(tree, start, before, ProbeAfter(tree, usage, left, off1, before), p)
  {
    hide Picks, Capped, OneRoomy, Stops, BlockLooked, UsageAfter, LeftAfter, DevicesOf, NisdsOf;
    var q, o := ProbeAfter(tree, usage, left, off1, before), off2 + |before|;
    assert ProbeAfter(tree, usage, left, off2, before) == q.(off := o);
    PickHasEntity(tree, q, p);
    StopsIgnoresOffset(tree, start, before, q, o, p);
    BlockLookedIgnoresOffset(tree, start, before, q, o, p);
  }

  lemma {:induction false} WalkIgnoresOffset(tree: Tree, start: nat, usage: DeviceUsage, left: map<Id, int>, off1: nat, off2: nat, picks: seq<Pick>)
    requires OneRoomy(tree, tree.Keys) && Capped(tree, tree.Keys, usage)
    requires Chain(tree, usage, left, off1, picks) && WalkChain(tree, start, usage, left, off1, picks)
    ensures InScope(tree.Keys, picks)
    ensures WalkChain(tree, start, usage, left, off2, picks)
    ensures AcrossLooked(tree, start, usage, left, off1, picks) == AcrossLooked(tree, start, usage, left, off2, picks)
  {
    hide Picks, Capped, OneRoomy, Stops, BlockLooked, ProbeAfter, UsageAfter, InScope;
    if picks == [] {
      ScopeOfNone(tree.Keys);
    } else {
      var before, p := picks[..|picks|-1], picks[|picks|-1];
      WalkIgnoresOffset(tree, start, usage, left, off1, off2, before);
      ChainIgnoresOffset(tree, tree.Keys, usage, left, off1, off2, before);
      NextIgnoresOffset(tree, start, usage, left, off1, off2, before, p);
      ScopeGrows(tree.Keys, picks);
    }
  }

  lemma {:induction false} AcrossIgnoresOffset(tree: Tree, total: nat, start: nat, usage: DeviceUsage, left: map<Id, int>, off1: nat, off2: nat,
                            out: Outcome, picks: seq<Pick>)
    requires OneRoomy(tree, tree.Keys) && Capped(tree, tree.Keys, usage) && AcrossRun(tree, total, start, usage, left, off1, out, picks)
    ensures AcrossRun(tree, total, start, usage, left, off2, out, picks)
    ensures Capped(tree, tree.Keys, UsageAfter(tree, usage, picks))
    ensures AcrossLooked(tree, start, usage, left, off1, picks) == AcrossLooked(tree, start, usage, left, off2, picks)
  {
    hide Picks, Capped, OneRoomy, OneEligible, Stops, AcrossLooked, Chain, WalkChain, Passed, EntitiesOf, UsageAfter, LeftAfter;
    WalkIgnoresOffset(tree, start, usage, left, off1, off2, picks);
    ChainIgnoresOffset(tree, tree.Keys, usage, left, off1, off2, picks);
    if out == Failed {
      var q := ProbeAfter(tree, usage, left, off1, picks);
      assert ProbeAfter(tree, usage, left, off2, picks) == q.(off := off2 + |picks|);
      forall e | e in tree ensures Passed(tree, e, EntitiesOf(picks), q.(off := off2 + |picks|)) {
        PassedIgnoresOffset(tree, e, EntitiesOf(picks), q, off2 + |picks|);
      }
    }
  }

  // ----- whole vdevs -----

  /** The entities a request can be placed in. */
  ghost function Scope(tree: Tree, req: VdevReq): set<Id> {
    if req.filter.id != NO_ID then {req.filter.id} else tree.Keys
  }

  lemma {:induction false} ChunkIgnoresOffset(tree: Tree, req: VdevReq, hash: nat, usage: DeviceUsage, left: map<Id, int>, off1: nat, off2: nat,
                           out: Outcome, picks: seq<Pick>)
    requires OneRoomy(tree, Scope(tree, req)) && Capped(tree, Scope(tree, req), usage)
    requires ChunkRun(tree, req, hash, usage, left, off1, out, picks)
    ensures ChunkRun(tree, req, hash, usage, left, off2, out, picks)
    ensures Capped(tree, Scope(tree, req), UsageAfter(tree, usage, picks))
    ensures ChunkLooked(tree, req, hash, usage, left, off1, picks) == ChunkLooked(tree, req, hash, usage, left, off2, picks)
  {
    hide WithinRun, AcrossRun, OneRoomy, Capped, LeftAfter;
    var total := req.vdev.TotalRedundancyBlocksPerChunk();
    if |tree| == 0 || (req.filter.id != NO_ID && req.filter.id !in tree) {
    } else if req.filter.id != NO_ID {
      WithinIgnoresOffset(tree, req.filter.id, total, usage, left, off1, off2, out, picks);
    } else {
      AcrossIgnoresOffset(tree, total, hash % |tree|, usage, left, off1, off2, out, picks);
    }
  }

  lemma {:induction false} VdevIgnoresOffset(tree: Tree, req: VdevReq, hash: nat -> nat, off1: nat, off2: nat,
                                             left: map<Id, int>, plan: seq<seq<Pick>>)
    requires OneRoomy(tree, Scope(tree, req)) && VdevRun(tree, req, hash, off1, left, plan)
    ensures VdevRun(tree, req, hash, off2, left, plan)
    ensures Capped(tree, Scope(tree, req), UsageAfter(tree, map[], Flat(plan)))
    ensures VdevLooked(tree, req, hash, off1, left, plan) == VdevLooked(tree, req, hash, off2, left, plan)
  {
    hide ChunkRun, ChunkLooked, OneRoomy, UsageAfter, LeftAfter, Scope;
    if plan == [] {
      EmptyAfter(tree, left);
    } else {
      var n := |plan| - 1;
      var before := plan[..n];
      VdevIgnoresOffset(tree, req, hash, off1, off2, left, before);
      ChunkIgnoresOffset(tree, req, hash(n), UsageAfter(tree, map[], Flat(before)), LeftAfter(left, Flat(before)),
                         n + off1, n + off2, Placed, plan[n]);
      UsageAppend(tree, map[], Flat(before), plan[n]);
    }
  }

  lemma AttemptIgnoresOffset(tree: Tree, req: VdevReq, hash: nat -> nat, off1: nat, off2: nat, left: map<Id, int>, out: Outcome)
    requires OneRoomy(tree, Scope(tree, req)) && AttemptEnds(tree, req, hash, off1, left, out)
    ensures AttemptEnds(tree, req, hash, off2, left, out)
  {
    hide ChunkRun, OneRoomy, Capped, UsageAfter, LeftAfter, Scope, VdevRun;
    var plan, rest :| AttemptRun(tree, req, hash, off1, left, out, plan, rest);
    VdevIgnoresOffset(tree, req, hash, off1, off2, left, plan);
    if out != Placed {
      ChunkIgnoresOffset(tree, req, hash(|plan|), UsageAfter(tree, map[], Flat(plan)), LeftAfter(left, Flat(plan)),
                         |plan| + off1, |plan| + off2, out, rest);
    }
    assert AttemptRun(tree, req, hash, off2, left, out, plan, rest);
  }

  lemma PlacedIgnoresOffset(tree: Tree, objs: map<Id, Nisd>, req: VdevReq, hash: nat -> nat, off1: nat, off2: nat,
                            plan: seq<seq<Pick>>, alloc: map<Id, int>)
    requires OneRoomy(tree, Scope(tree, req)) && PlacedAt(tree, objs, req, hash, off1, plan, alloc)
    ensures PlacedAt(tree, objs, req, hash, off2, plan, alloc)
  {
    hide OneRoomy, Scope, VdevRun, VdevLooked, LeftAfter, Flat, Left;
    VdevIgnoresOffset(tree, req, hash, off1, off2, Left(objs, map[]), plan);
  }

  /** The draw cannot matter: at the level asked for (at every level, for an unscoped request) no entity
      the request may use has two devices with room for a chunk. */
  ghost predicate DrawIdle(levels: seq<Tree>, req: VdevReq) {
    forall l: nat | l < |levels| && (req.filter.fdType == FD_ANY || l == GetFDIdx(req.filter.fdType)) ::
      OneRoomy(levels[l], Scope(levels[l], req))
  }

  lemma CoarsestIgnoresOffset(levels: seq<Tree>, req: VdevReq, hash: nat -> nat, off1: nat, off2: nat, left: map<Id, int>, level: nat)
    requires DrawIdle(levels, req) && req.filter.fdType == FD_ANY && CoarsestThatFits(levels, req, hash, off1, left, level)
    ensures CoarsestThatFits(levels, req, hash, off2, left, level)
  {
    hide AttemptEnds, OneRoomy, Scope;
    var total := req.vdev.TotalRedundancyBlocksPerChunk();
    var s: nat :| FirstWide(levels, total, s) && s <= level && FailsBetween(levels, req, hash, off1, left, s, level);
    forall l | s <= l < level ensures AttemptFails(levels[l], req, hash, off2, left) {
      assert AttemptFails(levels[l], req, hash, off1, left);
      AttemptIgnoresOffset(levels[l], req, hash, off1, off2, left, Failed);
    }
    assert FailsBetween(levels, req, hash, off2, left, s, level);
  }

  lemma AllocIgnoresOffset(levels: seq<Tree>, objs: map<Id, Nisd>, req: VdevReq, hash: nat -> nat, off1: nat, off2: nat,
                           out: Outcome, level: nat, plan: seq<seq<Pick>>, alloc: map<Id, int>)
    requires DrawIdle(levels, req) && AllocOutcome(levels, objs, req, hash, off1, out, level, plan, alloc)
    ensures AllocOutcome(levels, objs, req, hash, off2, out, level, plan, alloc)
  {
    hide PlacedAt, AttemptEnds, CoarsestThatFits, NoWideLevel, OneRoomy, Scope, Left;
    var left := Left(objs, map[]);
    assert OneRoomy(levels[if out == Placed || req.filter.fdType != FD_ANY then level else 0],
                    Scope(levels[if out == Placed || req.filter.fdType != FD_ANY then level else 0], req));
    if out == Placed {
      PlacedIgnoresOffset(levels[level], objs, req, hash, off1, off2, plan, alloc);
    } else if req.filter.fdType != FD_ANY {
      AttemptIgnoresOffset(levels[level], req, hash, off1, off2, left, out);
    }
    if req.filter.fdType == FD_ANY {
      var l := if out == Placed then level else FD_MAX;
      if CoarsestThatFits(levels, req, hash, off1, left, l) { CoarsestIgnoresOffset(levels, req, hash, off1, off2, left, l); }
    }
  }

  /** Without a PFS the offset is written nowhere. */
  lemma OffsetUnwritten(p: Prep, off1: nat, off2: nat, plan: seq<seq<Pick>>, alloc: map<Id, int>)
    ensures CreateChanges(p, NO_ID, off1, plan, alloc) == CreateChanges(p, NO_ID, off2, plan, alloc)
  {
  }

  lemma OutcomeIgnoresDraw(s: KV, levels: seq<Tree>, objs: map<Id, Nisd>, p: Prep, hash: nat -> nat, rand1: nat, rand2: nat, c: CreateResult)
    requires DrawIdle(levels, p.req) && !AsksForPfs(p.req.vdev)
    requires CreateOutcome(s, levels, objs, p, hash, rand1, c)
    ensures CreateOutcome(s, levels, objs, p, hash, rand2, c.(off := rand2))
  {
    hide DrawIdle, AllocOutcome, NameFree, ApplyAll, CreateChanges, CommittedObjs, DrawsFrom;
    if Allocates(c.reply) {
      AllocatesWith(s, levels, objs, p, hash, rand1, c);
      AllocIgnoresOffset(levels, objs, p.req, hash, c.off, rand2, OutcomeOf(c.reply), c.level, c.plan, c.alloc);
      OffsetUnwritten(p, c.off, rand2, c.plan, c.alloc);
    }
  }

  /** Replicas with draws of their own agree on a create without a PFS if no entity it may use has two
      devices with room. */
  lemma DrawIsIdle(s: KV, levels: seq<Tree>, objs: map<Id, Nisd>, p: Prep, hash: nat -> nat,
                   rand1: nat, c1: CreateResult, rand2: nat, c2: CreateResult)
    requires PfsUsable(s) && DrawIdle(levels, p.req) && !AsksForPfs(p.req.vdev)
    requires CreateOutcome(s, levels, objs, p, hash, rand1, c1) && CreateOutcome(s, levels, objs, p, hash, rand2, c2)
    ensures c1.reply == c2.reply && c1.store == c2.store && c1.objs == c2.objs
    ensures c1.reply == Created ==> c1.level == c2.level && c1.plan == c2.plan && c1.alloc == c2.alloc
  {
    hide DrawIdle, CreateOutcome, PfsUsable;
    OutcomeIgnoresDraw(s, levels, objs, p, hash, rand1, rand2, c1);
    CreateIsDeterministic(s, levels, objs, p, hash, rand2, c1.(off := rand2), rand2, c2);
  }

  // ----- draws that do matter -----

  lemma FirstPick(tree: Tree, i: nat, objs: map<Id, Nisd>, req: VdevReq, hash: nat -> nat, offset: nat, plan: seq<seq<Pick>>, alloc: map<Id, int>)
    requires TreeAgrees(tree, i, objs) && PlacedAt(tree, objs, req, hash, offset, plan, alloc) && plan != [] && plan[0] != []
    ensures var b := plan[0][0];
            Picks(tree, Probe({}, {}, map[], Left(objs, map[]), offset), b)
            && b.nisd in objs && Under(objs[b.nisd], i, b.entity, b.device)
  {
    hide VdevLooked, LeftAfter, UsageAfter, Left, ChunkRun, TreeAgrees, Picks;
    var left := Left(objs, map[]);
    ChunkAt(tree, req, hash, offset, left, plan, 0);
    EmptyAfter(tree, left);
    assert plan[..0] == [] && plan[0][..0] == [];
    PlacedIsChain(tree, req, hash(0), map[], left, offset, Placed, plan[0]);
    PickAt(tree, map[], left, offset, plan[0], 0);
    NothingPlaced(tree, 0, NO_ID, map[], left, offset);
    assert plan[0][0] in plan[0];
    TupleOf(tree, i, objs, map[], left, offset, plan[0], plan[0][0]);
  }

  /** The device of rank r has room, and it is not d. */
  ghost predicate Rival(devs: Devices, d: Id, r: nat) {
    var ds := Ranked(devs.Keys);
    r < |ds| && ds[r] in devs && devs[ds[r]].avail >= CHUNK_SIZE && ds[r] != d
  }

  /** A device with room is the first choice under the offset that is its rank. */
  lemma RankWins(devs: Devices, d: Id, r: nat)
    requires Rival(devs, d, r)
    ensures !DeviceChoice(devs, {}, map[], r, Some(d))
  {
    hide Rotation;
    var ds := Ranked(devs.Keys);
    ModWrap(r, |ds|);
    assert Turns.Turn(devs, r) == ds[r];
    if DeviceChoice(devs, {}, map[], r, Some(d)) { Turns.OpenTurnWins(devs, {}, map[], r, d); }
  }

  /** At every level the devices of an entity are entities of the device level. */
  lemma DevicesAreEntities(levels: seq<Tree>, objs: map<Id, Nisd>, l: nat, e: Id)
    requires Agrees(levels, objs) && l < FD_MAX && e in levels[l]
    ensures |levels[l][e].Keys| <= |levels[DEVICE_IDX].Keys|
  {
    var t := levels[l];
    assert TreeAgrees(t, l, objs) && TreeAgrees(levels[DEVICE_IDX], DEVICE_IDX, objs);
    forall d | d in t[e] ensures d in levels[DEVICE_IDX] {
      assert Dev(t, e, d).Some?;
      FirstIsMember(t[e][d].nisds);
      assert Listed(t, e, d, t[e][d].nisds[0]);
      assert Listed(levels[DEVICE_IDX], d, d, t[e][d].nisds[0]);
    }
    CardBelow(t[e].Keys, levels[DEVICE_IDX].Keys);
  }

  /** The draws that the source can make: up to the number of devices. */
  ghost predicate Drawable(levels: seq<Tree>, rand: nat) { DEVICE_IDX < |levels| && rand <= |levels[DEVICE_IDX]| }

  lemma SizesOfPlan(tree: Tree, objs: map<Id, Nisd>, req: VdevReq, hash: nat -> nat, offset: nat, plan: seq<seq<Pick>>, alloc: map<Id, int>)
    requires PlacedAt(tree, objs, req, hash, offset, plan, alloc)
    requires req.vdev.chunkCnt > 0 && req.vdev.TotalRedundancyBlocksPerChunk() > 0
    ensures plan != [] && plan[0] != []
  {
    hide VdevRun, VdevLooked, LeftAfter;
    Turns.ChunkSize(tree, req, hash, offset, Left(objs, map[]), plan, 0);
  }

  /** Where the first block is for two outcomes of one level that leave the same store. */
  lemma SameFirstNisd(s: KV, objs: map<Id, Nisd>, p: Prep, c1: CreateResult, c2: CreateResult)
    requires CreateStep(s, objs, c1.store, c1.objs, p, c1.pfs, c1.off, c1.plan, c1.alloc) && c1.plan != [] && c1.plan[0] != []
    requires CreateStep(s, objs, c2.store, c2.objs, p, c2.pfs, c2.off, c2.plan, c2.alloc) && c2.plan != [] && c2.plan[0] != []
    requires c1.store == c2.store
    ensures c1.plan[0][0].nisd == c2.plan[0][0].nisd
  {
    hide ApplyAll, CreateChanges, CommittedObjs, FindsPfs, NameFree, DrawsFrom;
    BlockKeyHolds(s, p, c1.pfs, c1.off, c1.plan, c1.alloc, 0, 0);
    BlockKeyHolds(s, p, c2.pfs, c2.off, c2.plan, c2.alloc, 0, 0);
  }

  /** c1 came from some draw, and another device of rank r has room in the entity of its first block.
      Under the draw r no outcome at this level leaves the same store: the replicas part. */
  lemma OtherDrawDiffers(s: KV, levels: seq<Tree>, objs: map<Id, Nisd>, p: Prep, hash: nat -> nat, rand1: nat, c1: CreateResult,
                         r: nat, c2: CreateResult)
    requires Agrees(levels, objs) && !AsksForPfs(p.req.vdev)
    requires p.req.vdev.chunkCnt > 0 && p.req.vdev.TotalRedundancyBlocksPerChunk() > 0
    requires CreateOutcome(s, levels, objs, p, hash, rand1, c1) && c1.reply == Created
    requires CreateOutcome(s, levels, objs, p, hash, r, c2) && c2.reply == Created && c2.level == c1.level
    requires c1.level < |levels| && c1.plan != [] && c1.plan[0] != [] && c1.plan[0][0].entity in levels[c1.level]
    requires Rival(levels[c1.level][c1.plan[0][0].entity], c1.plan[0][0].device, r)
    ensures c1.store != c2.store
  {
    hide PlacedAt, CoarsestThatFits, AttemptEnds, ApplyAll, CreateChanges, CommittedObjs, DrawsFrom, Left, NisdChoice, DeviceChoice, Agrees, TreeAgrees, IsRanking, Rival;
    var t := levels[c1.level];
    LevelCount(levels, objs);
    AgreesAt(levels, objs, c1.level);
    SizesOfPlan(t, objs, p.req, hash, c2.off, c2.plan, c2.alloc);
    if c1.store == c2.store {
      SameFirstNisd(s, objs, p, c1, c2);
      FirstPick(t, c1.level, objs, p.req, hash, c1.off, c1.plan, c1.alloc);
      FirstPick(t, c1.level, objs, p.req, hash, c2.off, c2.plan, c2.alloc);
      RankWins(t[c1.plan[0][0].entity], c2.plan[0][0].device, r);
    }
  }

  lemma FirstIsFiltered(tree: Tree, objs: map<Id, Nisd>, req: VdevReq, hash: nat -> nat, offset: nat, plan: seq<seq<Pick>>, alloc: map<Id, int>)
    requires PlacedAt(tree, objs, req, hash, offset, plan, alloc) && req.filter.id != NO_ID && plan != [] && plan[0] != []
    ensures req.filter.id in tree && plan[0][0].entity == req.filter.id
  {
    hide VdevLooked, LeftAfter, UsageAfter, Left, VdevRun, Chain;
    var left := Left(objs, map[]);
    ChunkAt(tree, req, hash, offset, left, plan, 0);
    assert plan[0][0] in plan[0];
  }

  /** Two devices with room: one of them is not d. */
  lemma RivalExists(tree: Tree, e: Id, d: Id) returns (r: nat)
    requires e in tree && !OneRoomy(tree, {e})
    ensures Rival(tree[e], d, r) && r < |tree[e].Keys|
  {
    var a, b :| Dev(tree, e, a).Some? && Dev(tree, e, b).Some? && RoomyIn(tree, {e}, a) && RoomyIn(tree, {e}, b) && a != b;
    r := PlaceOf(tree[e].Keys, Ranked(tree[e].Keys), if a != d then a else b);
  }

  /** A vdev without a PFS that was created inside one entity: every draw that a replica can make leads
      to this very outcome if and only if the entity has at most one device with room for a chunk. */
  lemma FilteredDrawMatters(s: KV, levels: seq<Tree>, objs: map<Id, Nisd>, p: Prep, hash: nat -> nat, rand: nat, c: CreateResult)
    requires Agrees(levels, objs) && !AsksForPfs(p.req.vdev) && p.req.filter.id != NO_ID && p.req.filter.fdType != FD_ANY
    requires p.req.vdev.chunkCnt > 0 && p.req.vdev.TotalRedundancyBlocksPerChunk() > 0
    requires CreateOutcome(s, levels, objs, p, hash, rand, c) && c.reply == Created
    ensures c.level < |levels|
    ensures (forall r: nat | Drawable(levels, r) :: CreateOutcome(s, levels, objs, p, hash, r, c.(off := r)))
            <==> OneRoomy(levels[c.level], {p.req.filter.id})
  {
    hide PlacedAt, Agrees, TreeAgrees, CreateOutcome, OneRoomy, Rival;
    CreatedAt(s, levels, objs, p, hash, rand, c);
    var t, e := levels[c.level], p.req.filter.id;
    SizesOfPlan(t, objs, p.req, hash, c.off, c.plan, c.alloc);
    FirstIsFiltered(t, objs, p.req, hash, c.off, c.plan, c.alloc);
    if OneRoomy(t, {e}) {
      forall r: nat | Drawable(levels, r) ensures CreateOutcome(s, levels, objs, p, hash, r, c.(off := r)) {
        OutcomeIgnoresDraw(s, levels, objs, p, hash, rand, r, c);
      }
    } else {
      var r := RivalExists(t, e, c.plan[0][0].device);
      AgreesAt(levels, objs, c.level);
      DevicesAreEntities(levels, objs, c.level, e);
      assert Drawable(levels, r);
      if CreateOutcome(s, levels, objs, p, hash, r, c.(off := r)) {
        OtherDrawDiffers(s, levels, objs, p, hash, rand, c, r, c.(off := r));
      }
    }
  }
}
