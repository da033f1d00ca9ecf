/** Placing the chunks of a vdev (controlplane/ctlplanefuncs/server/srvctlplanefuncs.go, lines 612-946). */
module Allocator {
  import opened Changes
  import opened Finite
  import opened Lib
  import opened Index
  import opened Pickers
  import opened Modulo

  /** One placed block: the rank of its entity in the level's tree, the entity, the device, the NISD. */
  datatype Pick = Pick(rank: nat, entity: Id, device: Id, nisd: Id)

  /** Spins is the one state from which the source's entity loop makes no further progress. */
  datatype Outcome = Placed | Failed | Spins

  ghost function NisdsOf(picks: seq<Pick>): set<Id> { set p | p in picks :: p.nisd }
  ghost function DevicesOf(picks: seq<Pick>): set<Id> { set p | p in picks :: p.device }
  ghost function EntitiesOf(picks: seq<Pick>): set<Id> { set p | p in picks :: p.entity }

  // ----- the effect of picks on the running totals -----

  function Charge(usage: DeviceUsage, devs: Devices, d: Id): DeviceUsage
    requires d in devs
  {
    usage[d := DeviceUsageInfo(UsageOf(usage, d) + 1, LeftOn(devs, usage, d) - CHUNK_SIZE)]
  }

  ghost function UsageAfter(tree: Tree, usage: DeviceUsage, picks: seq<Pick>): DeviceUsage {
    if picks == [] then usage else
      var p, u := picks[|picks|-1], UsageAfter(tree, usage, picks[..|picks|-1]);
      if Dev(tree, p.entity, p.device).Some? then Charge(u, tree[p.entity], p.device) else u
  }

  ghost function Draw(left: map<Id, int>, n: Id): map<Id, int> {
    if n in left then left[n := left[n] - CHUNK_SIZE] else left
  }

  ghost function LeftAfter(left: map<Id, int>, picks: seq<Pick>): map<Id, int> {
    if picks == [] then left else Draw(LeftAfter(left, picks[..|picks|-1]), picks[|picks|-1].nisd)
  }

  /** Drawing on the allocation map draws on the space left. */
  lemma DrawnLeft(objs: map<Id, Nisd>, nisdMap: map<Id, int>, n: Id)
    requires n in objs && n in nisdMap
    ensures Left(objs, nisdMap[n := nisdMap[n] - CHUNK_SIZE]) == Draw(Left(objs, nisdMap), n)
  {
  }

  // ----- why a block went where it did -----

  /** What the pickers look at when they place a block: the devices and NISDs already picked in the
      chunk, the running usage and space, and the rotation offset. */
  datatype Probe = Probe(devices: set<Id>, nisds: set<Id>, usage: DeviceUsage, left: map<Id, int>, off: nat)

  ghost function ProbeAfter(tree: Tree, usage: DeviceUsage, left: map<Id, int>, off: nat, before: seq<Pick>): Probe {
    Probe(DevicesOf(before), NisdsOf(before), UsageAfter(tree, usage, before), LeftAfter(left, before), off + |before|)
  }

  /** p is what the two pickers return in its entity. */
  ghost predicate Picks(tree: Tree, q: Probe, p: Pick) {
    Dev(tree, p.entity, p.device).Some?
    && DeviceChoice(tree[p.entity], q.devices, q.usage, q.off, Some(p.device))
    && NisdChoice(tree[p.entity][p.device].nisds, q.nisds, q.left, Some(p.nisd))
  }

  /** The allocation map m grew from m0 by NISDs of the index. */
  ghost predicate GrewWithin(m0: map<Id, int>, m: map<Id, int>, objs: map<Id, Nisd>) {
    forall n :: (n in m0 ==> n in m) && (n in m ==> n in m0 || n in objs)
  }

  /** Placing p takes one chunk from its device and from its NISD. */
  ghost predicate Advances(tree: Tree, q: Probe, p: Pick, usage: DeviceUsage, left: map<Id, int>) {
    Picks(tree, q, p) && usage == Charge(q.usage, tree[p.entity], p.device) && left == Draw(q.left, p.nisd)
  }

  /** The device the pickers choose in an entity has no NISD with room, or there is no device. */
  ghost predicate Unserviceable(devs: Devices, q: Probe) {
    exists r: Option<Id> ::
      DeviceChoice(devs, q.devices, q.usage, q.off, r)
      && (r.Some? ==> r.value in devs && NisdChoice(devs[r.value].nisds, q.nisds, q.left, None))
  }

  lemma ServiceableOnce(tree: Tree, q: Probe, p: Pick)
    requires Picks(tree, q, p)
    ensures !Unserviceable(tree[p.entity], q)
  {
    var devs := tree[p.entity];
    if Unserviceable(devs, q) {
      var r: Option<Id> :| DeviceChoice(devs, q.devices, q.usage, q.off, r)
        && (r.Some? ==> r.value in devs && NisdChoice(devs[r.value].nisds, q.nisds, q.left, None));
      DeviceChoiceUnique(devs, q.devices, q.usage, q.off, r, Some(p.device));
      NisdChoiceUnique(devs[p.device].nisds, q.nisds, q.left, p.nisd, None);
    }
  }

  /** The NISDs that the second phase looks up when a block is tried in an entity: all those of the
      device the first phase chooses. They enter the allocation map, drawn from or not. */
  ghost function LookedIn(devs: Devices, q: Probe): set<Id> {
    set d, n | d in devs && n in devs[d].nisds && DeviceChoice(devs, q.devices, q.usage, q.off, Some(d)) :: n
  }

  lemma LookedOn(devs: Devices, q: Probe, d: Id)
    requires d in devs && DeviceChoice(devs, q.devices, q.usage, q.off, Some(d))
    ensures LookedIn(devs, q) == Members(devs[d].nisds)
  {
    forall c | c in devs && DeviceChoice(devs, q.devices, q.usage, q.off, Some(c)) ensures c == d {
      DeviceChoiceUnique(devs, q.devices, q.usage, q.off, Some(c), Some(d));
    }
  }

  lemma LookedNowhere(devs: Devices, q: Probe)
    requires DeviceChoice(devs, q.devices, q.usage, q.off, None)
    ensures LookedIn(devs, q) == {}
  {
    forall c | c in devs && DeviceChoice(devs, q.devices, q.usage, q.off, Some(c)) ensures false {
      DeviceChoiceUnique(devs, q.devices, q.usage, q.off, Some(c), None);
    }
  }

  // ----- the cyclic walk over the entities of a level -----

  function Succ(k: nat, n: nat): nat { if k + 1 < n then k + 1 else 0 }

  lemma SuccIsMod(k: nat, n: nat)
    requires k < n
    ensures (k + 1) % n == Succ(k, n)
  {
    ModWrap(k + 1, n);
  }

  /** Steps of the walk from rank a to rank b. */
  function Dist(a: nat, b: nat, n: nat): nat
    requires a < n && b < n
  {
    if a <= b then b - a else b - a + n
  }

  /** The rank that the walk from a reaches after k steps. */
  function AfterSteps(a: nat, k: nat, n: nat): nat
    requires a < n && k < n
  {
    if a + k < n then a + k else a + k - n
  }

  lemma StepsToDist(a: nat, b: nat, n: nat)
    requires a < n && b < n
    ensures AfterSteps(a, Dist(a, b, n), n) == b
  {
  }

  lemma DistStep(a: nat, b: nat, n: nat)
    requires a < n && b < n && a != b
    ensures Dist(Succ(a, n), b, n) < Dist(a, b, n)
  {
  }

  /** Where the walk stands after the picks in before: just past the last one. */
  ghost function Cursor(n: nat, start: nat, before: seq<Pick>): nat
    requires start < n
    ensures Cursor(n, start, before) < n
  {
    if before == [] || before[|before|-1].rank >= n then start else Succ(before[|before|-1].rank, n)
  }

  /** Entity e cannot take a block: it is used in this chunk, or the pickers find nothing in it. */
  ghost predicate Passed(tree: Tree, e: Id, used: set<Id>, q: Probe) {
    e in used || (e in tree && Unserviceable(tree[e], q))
  }

  /** The walk has passed the first `seen` entities from rank start on and stands at rank cur. */
  ghost predicate Walked(tree: Tree, ents: seq<Id>, start: nat, cur: nat, seen: nat, used: set<Id>, q: Probe) {
    start < |ents| && cur < |ents| && seen <= |ents|
    && (seen < |ents| ==> Dist(start, cur, |ents|) == seen)
    && forall k: nat | k < |ents| && Dist(start, k, |ents|) < seen :: Passed(tree, ents[k], used, q)
  }

  lemma WalkedStep(tree: Tree, ents: seq<Id>, start: nat, cur: nat, seen: nat, used: set<Id>, q: Probe)
    requires Walked(tree, ents, start, cur, seen, used, q) && Passed(tree, ents[cur], used, q)
    ensures Walked(tree, ents, start, Succ(cur, |ents|), if seen < |ents| then seen + 1 else seen, used, q)
  {
  }

  /** The walk stops at the first entity that can take the block. */
  ghost predicate StopsAt(tree: Tree, ents: seq<Id>, start: nat, rank: nat, used: set<Id>, q: Probe) {
    start < |ents| && rank < |ents| && ents[rank] !in used
    && forall k: nat | k < |ents| && Dist(start, k, |ents|) < Dist(start, rank, |ents|) :: Passed(tree, ents[k], used, q)
  }

  lemma WalkedAll(tree: Tree, start: nat, cur: nat, used: set<Id>, q: Probe)
    requires Walked(tree, Ranked(tree.Keys), start, cur, |tree|, used, q)
    ensures forall e :: e in tree ==> Passed(tree, e, used, q)
  {
    var ents := Ranked(tree.Keys);
    forall e | e in tree ensures Passed(tree, e, used, q) {
      var k: nat :| k < |ents| && ents[k] == e;
      assert Dist(start, k, |ents|) < |ents|;
    }
  }

  lemma WalkedStops(tree: Tree, ents: seq<Id>, start: nat, cur: nat, seen: nat, used: set<Id>, q: Probe)
    requires Walked(tree, ents, start, cur, seen, used, q) && !Passed(tree, ents[cur], used, q)
    ensures StopsAt(tree, ents, start, cur, used, q)
    ensures seen < |ents| && Dist(start, cur, |ents|) == seen
  {
  }

  /** The NISDs looked up over the first `seen` entities of the walk. */
  ghost function LookedWalk(tree: Tree, ents: seq<Id>, start: nat, seen: nat, used: set<Id>, q: Probe): set<Id>
    requires start < |ents| && seen <= |ents|
  {
    if seen == 0 then {} else
      var e := ents[AfterSteps(start, seen - 1, |ents|)];
      LookedWalk(tree, ents, start, seen - 1, used, q) + if e in used || e !in tree then {} else LookedIn(tree[e], q)
  }

  lemma LookedWalkStep(tree: Tree, ents: seq<Id>, start: nat, cur: nat, seen: nat, used: set<Id>, q: Probe)
    requires Walked(tree, ents, start, cur, seen, used, q) && seen < |ents|
    ensures LookedWalk(tree, ents, start, seen + 1, used, q) ==
            LookedWalk(tree, ents, start, seen, used, q)
            + if ents[cur] in used || ents[cur] !in tree then {} else LookedIn(tree[ents[cur]], q)
  {
    StepsToDist(start, cur, |ents|);
  }

  lemma {:induction false} WalkBegins(tree: Tree, ents: seq<Id>, start: nat, used: set<Id>, q: Probe)
    requires start < |ents|
    ensures Walked(tree, ents, start, start, 0, used, q) && LookedWalk(tree, ents, start, 0, used, q) == {}
  {
  }

  /** Every rank of a ranking holds a member. */
  lemma RankHolds(s: set<Id>, k: nat)
    requires k < |s|
    ensures |Ranked(s)| == |s| && Ranked(s)[k] in s
  {
    assert Ranked(s)[k] in Ranked(s);
  }

  lemma ServesIsNotPassed(tree: Tree, e: Id, used: set<Id>, q: Probe, p: Pick)
    requires Picks(tree, q, p) && p.entity == e && e !in used
    ensures !Passed(tree, e, used, q)
  {
    ServiceableOnce(tree, q, p);
  }

  lemma FailedIsPassed(tree: Tree, e: Id, used: set<Id>, q: Probe)
    requires e in used || (e in tree && Unserviceable(tree[e], q))
    ensures Passed(tree, e, used, q)
  {
  }

  lemma UsedArePassed(tree: Tree, used: set<Id>, q: Probe)
    requires tree.Keys <= used
    ensures forall e :: e in tree ==> Passed(tree, e, used, q)
  {
  }

  // ----- the entity loop on its own -----

  datatype LoopState = LoopState(cur: nat, tried: nat)

  /** One iteration of the entity loop whose visit of an unused entity fails; a used entity is
      skipped without counting. */
  function LoopBody(ents: seq<Id>, used: set<Id>, s: LoopState): LoopState {
    if s.cur < |ents| && ents[s.cur] in used then LoopState(Succ(s.cur, |ents|), s.tried)
    else LoopState(Succ(s.cur, |ents|), s.tried + 1)
  }

  function Iterate(ents: seq<Id>, used: set<Id>, s: LoopState, k: nat): LoopState {
    if k == 0 then s else LoopBody(ents, used, Iterate(ents, used, s, k - 1))
  }

  lemma {:induction false} IterateSkips(ents: seq<Id>, used: set<Id>, s: LoopState, k: nat)
    requires s.cur < |ents|
    requires forall j: nat | j < |ents| && Dist(s.cur, j, |ents|) < k :: ents[j] in used
    ensures var t := Iterate(ents, used, s, k);
            t.tried == s.tried && t.cur < |ents| && (k < |ents| ==> Dist(s.cur, t.cur, |ents|) == k)
  {
    if k > 0 { IterateSkips(ents, used, s, k - 1); }
  }

  /** The loop's counter moves, and moves within one round, exactly when an entity is unused; with
      every entity used no number of iterations moves it, so the loop spins. */
  lemma EntityLoopProgress(ents: seq<Id>, used: set<Id>, s: LoopState)
    requires s.cur < |ents|
    ensures (exists k: nat :: Iterate(ents, used, s, k).tried != s.tried) <==> exists e :: e in ents && e !in used
    ensures (exists e :: e in ents && e !in used) ==>
              exists k: nat :: k <= |ents| && Iterate(ents, used, s, k).tried == s.tried + 1
  {
    if e :| e in ents && e !in used {
      var u: nat :| u < |ents| && ents[u] == e;
      var k := FirstUnused(ents, used, s.cur, u);
      IterateSkips(ents, used, s, k);
      assert Iterate(ents, used, s, k + 1).tried == s.tried + 1;
    } else {
      forall k: nat ensures Iterate(ents, used, s, k).tried == s.tried {
        forall j: nat | j < |ents| ensures ents[j] in used { assert ents[j] in ents; }
        IterateSkips(ents, used, s, k);
      }
    }
  }

  /** The distance from c to the first unused rank. */
  lemma {:induction false} FirstUnused(ents: seq<Id>, used: set<Id>, c: nat, u: nat) returns (k: nat)
    requires c < |ents| && u < |ents| && ents[u] !in used
    ensures k < |ents| && exists r: nat :: r < |ents| && Dist(c, r, |ents|) == k && ents[r] !in used
    ensures forall j: nat | j < |ents| && Dist(c, j, |ents|) < k :: ents[j] in used
    decreases Dist(c, u, |ents|)
  {
    k := Dist(c, u, |ents|);
    if r: nat :| r < |ents| && Dist(c, r, |ents|) < k && ents[r] !in used {
      k := FirstUnused(ents, used, c, r);
    }
  }

  /** The key-value changes of block i of a chunk (genAllocationKV). */
  function BlockChanges(v: VdevConfig, chunk: nat, i: nat, nisd: Id): seq<StoreChange> {
    var (t, seqNo) := v.BlockOf(i);
    [Put(ChunkKey(v.id, chunk, ChunkPrefix(t), seqNo), Ref(nisd)),
     Put(NisdVdev(nisd, v.id), Where(ChunkPrefix(t), seqNo, chunk))]
  }

  ghost function ChunkChanges(v: VdevConfig, chunk: nat, picks: seq<Pick>): seq<StoreChange> {
    if picks == [] then [] else
      var n := |picks| - 1;
      ChunkChanges(v, chunk, picks[..n]) + BlockChanges(v, chunk, n, picks[n].nisd)
  }

  // ----- runs of the block loop -----

  /** Every pick is what the pickers return after the picks before it. */
  ghost predicate Chain(tree: Tree, usage: DeviceUsage, left: map<Id, int>, off: nat, picks: seq<Pick>) {
    picks == [] ||
    (var before := picks[..|picks|-1];
     Chain(tree, usage, left, off, before) && Picks(tree, ProbeAfter(tree, usage, left, off, before), picks[|picks|-1]))
  }

  /** p is in the first entity on the walk that could take it. */
  ghost predicate Stops(tree: Tree, start: nat, before: seq<Pick>, q: Probe, p: Pick) {
    start < |tree| && p.rank < |tree| && p.entity == Ranked(tree.Keys)[p.rank]
    && StopsAt(tree, Ranked(tree.Keys), Cursor(|tree|, start, before), p.rank, EntitiesOf(before), q)
  }

  /** Every pick is in the first entity on the walk that could take it. */
  ghost predicate WalkChain(tree: Tree, start: nat, usage: DeviceUsage, left: map<Id, int>, off: nat, picks: seq<Pick>) {
    picks == [] ||
    (var before := picks[..|picks|-1];
     WalkChain(tree, start, usage, left, off, before)
     && Stops(tree, start, before, ProbeAfter(tree, usage, left, off, before), picks[|picks|-1]))
  }

  lemma AfterOneMore(tree: Tree, usage: DeviceUsage, left: map<Id, int>, off: nat, picks: seq<Pick>, p: Pick)
    requires Dev(tree, p.entity, p.device).Some?
    ensures var q := ProbeAfter(tree, usage, left, off, picks);
            ProbeAfter(tree, usage, left, off, picks + [p]) ==
            Probe(q.devices + {p.device}, q.nisds + {p.nisd}, Charge(q.usage, tree[p.entity], p.device),
                  Draw(q.left, p.nisd), q.off + 1)
    ensures EntitiesOf(picks + [p]) == EntitiesOf(picks) + {p.entity}
  {
    assert (picks + [p])[..|picks|] == picks;
  }

  /** A run of the block loop over all entities of a level. */
  ghost predicate AcrossRun(tree: Tree, total: nat, start: nat, usage: DeviceUsage, left: map<Id, int>, off: nat,
                            out: Outcome, picks: seq<Pick>)
  {
    Chain(tree, usage, left, off, picks) && WalkChain(tree, start, usage, left, off, picks)
    && match out
       case Placed => |picks| == total
       case Failed => |picks| < total && EntitiesOf(picks) != tree.Keys && NoEntity(tree, usage, left, off, picks)
       case Spins => |picks| < total && EntitiesOf(picks) == tree.Keys
  }

  /** A run of the block loop inside the one entity a filter names. */
  ghost predicate WithinRun(tree: Tree, e: Id, total: nat, usage: DeviceUsage, left: map<Id, int>, off: nat,
                            out: Outcome, picks: seq<Pick>)
  {
    Chain(tree, usage, left, off, picks) && (forall p :: p in picks ==> p.entity == e && p.rank == 0) && e in tree
    && match out
       case Placed => |picks| == total
       case Failed => |picks| < total && Unserviceable(tree[e], ProbeAfter(tree, usage, left, off, picks))
       case Spins => false
  }

  /** A run of the chunk allocator: what it did, block by block, and why it stopped. */
  ghost predicate ChunkRun(tree: Tree, req: VdevReq, hash: nat, usage: DeviceUsage, left: map<Id, int>, off: nat,
                           out: Outcome, picks: seq<Pick>)
  {
    var total := req.vdev.TotalRedundancyBlocksPerChunk();
    if |tree| == 0 || (req.filter.id != NO_ID && req.filter.id !in tree) then out == Failed && picks == []
    else if req.filter.id != NO_ID then WithinRun(tree, req.filter.id, total, usage, left, off, out, picks)
    else AcrossRun(tree, total, hash % |tree|, usage, left, off, out, picks)
  }

  /** The picks so far are a chain, and it leads to the state q. */
  ghost predicate BlocksDone(tree: Tree, usage: DeviceUsage, left: map<Id, int>, off: nat, picks: seq<Pick>, q: Probe) {
    q == ProbeAfter(tree, usage, left, off, picks) && Chain(tree, usage, left, off, picks)
  }

  lemma BlockDone(tree: Tree, usage: DeviceUsage, left: map<Id, int>, off: nat, picks: seq<Pick>, q: Probe, p: Pick,
                  usage': DeviceUsage, left': map<Id, int>)
    requires BlocksDone(tree, usage, left, off, picks, q) && Advances(tree, q, p, usage', left')
    ensures BlocksDone(tree, usage, left, off, picks + [p],
                       Probe(q.devices + {p.device}, q.nisds + {p.nisd}, usage', left', q.off + 1))
    ensures EntitiesOf(picks + [p]) == EntitiesOf(picks) + {p.entity}
  {
    AfterOneMore(tree, usage, left, off, picks, p);
    assert (picks + [p])[..|picks|] == picks;
  }

  lemma {:induction false} ChunkChangesStep(pre: seq<StoreChange>, v: VdevConfig, chunk: nat, picks: seq<Pick>, p: Pick)
    ensures pre + ChunkChanges(v, chunk, picks + [p]) ==
            pre + ChunkChanges(v, chunk, picks) + BlockChanges(v, chunk, |picks|, p.nisd)
  {
    assert (picks + [p])[..|picks|] == picks;
  }

  // ----- the NISDs a run looks up -----

  ghost function BlockLooked(tree: Tree, start: nat, before: seq<Pick>, q: Probe, p: Pick): set<Id> {
    var n := |tree|;
    if start >= n || p.rank >= n then {} else
      var c := Cursor(n, start, before);
      LookedWalk(tree, Ranked(tree.Keys), c, Dist(c, p.rank, n) + 1, EntitiesOf(before), q)
  }

  ghost function AcrossLooked(tree: Tree, start: nat, usage: DeviceUsage, left: map<Id, int>, off: nat, picks: seq<Pick>): set<Id> {
    if picks == [] then {} else
      var before := picks[..|picks|-1];
      AcrossLooked(tree, start, usage, left, off, before)
      + BlockLooked(tree, start, before, ProbeAfter(tree, usage, left, off, before), picks[|picks|-1])
  }

  ghost function WithinLooked(tree: Tree, e: Id, usage: DeviceUsage, left: map<Id, int>, off: nat, picks: seq<Pick>): set<Id> {
    if picks == [] || e !in tree then {} else
      var before := picks[..|picks|-1];
      WithinLooked(tree, e, usage, left, off, before) + LookedIn(tree[e], ProbeAfter(tree, usage, left, off, before))
  }

  ghost function ChunkLooked(tree: Tree, req: VdevReq, hash: nat, usage: DeviceUsage, left: map<Id, int>, off: nat, picks: seq<Pick>): set<Id> {
    if |tree| == 0 then {}
    else if req.filter.id != NO_ID then WithinLooked(tree, req.filter.id, usage, left, off, picks)
    else AcrossLooked(tree, hash % |tree|, usage, left, off, picks)
  }

  lemma {:induction false} LookedStep(tree: Tree, start: nat, e: Id, usage: DeviceUsage, left: map<Id, int>, off: nat, picks: seq<Pick>, p: Pick)
    ensures var q := ProbeAfter(tree, usage, left, off, picks);
            AcrossLooked(tree, start, usage, left, off, picks + [p]) ==
              AcrossLooked(tree, start, usage, left, off, picks) + BlockLooked(tree, start, picks, q, p)
            && (e in tree ==>
                  WithinLooked(tree, e, usage, left, off, picks + [p]) ==
                  WithinLooked(tree, e, usage, left, off, picks) + LookedIn(tree[e], q))
  {
    hide LookedIn, ProbeAfter, BlockLooked;
    var all := picks + [p];
    assert all[..|all|-1] == picks && all[|all|-1] == p;
  }

  lemma {:induction false} NothingPlaced(tree: Tree, start: nat, e: Id, usage: DeviceUsage, left: map<Id, int>, off: nat)
    ensures AcrossLooked(tree, start, usage, left, off, []) == {} && WithinLooked(tree, e, usage, left, off, []) == {}
    ensures BlocksDone(tree, usage, left, off, [], Probe({}, {}, usage, left, off))
    ensures start < |tree| ==> Cursor(|tree|, start, []) == start && WalkChain(tree, start, usage, left, off, [])
    ensures EntitiesOf([]) == {}
  {
  }

  lemma {:induction false} NoChanges(pre: seq<StoreChange>, v: VdevConfig, chunk: nat)
    ensures pre + ChunkChanges(v, chunk, []) == pre
  {
  }

  /** No entity of the level can take another block after these picks. */
  ghost predicate NoEntity(tree: Tree, usage: DeviceUsage, left: map<Id, int>, off: nat, picks: seq<Pick>) {
    forall e :: e in tree ==> Passed(tree, e, EntitiesOf(picks), ProbeAfter(tree, usage, left, off, picks))
  }

  lemma {:induction false} WalkStep(tree: Tree, start: nat, usage: DeviceUsage, left: map<Id, int>, off: nat, picks: seq<Pick>, q: Probe, p: Pick)
    requires WalkChain(tree, start, usage, left, off, picks) && q == ProbeAfter(tree, usage, left, off, picks)
    requires Stops(tree, start, picks, q, p)
    ensures WalkChain(tree, start, usage, left, off, picks + [p])
    ensures Cursor(|tree|, start, picks + [p]) == Succ(p.rank, |tree|)
  {
    assert (picks + [p])[..|picks|] == picks;
  }

  ghost predicate AllIn(picks: seq<Pick>, m: map<Id, int>) {
    forall p :: p in picks ==> p.nisd in m
  }

  /** The state of one placement attempt: the allocation map, the device usage and the changes. */
  class Attempt {
    var nisdMap: map<Id, int>
    var deviceUsage: DeviceUsage
    var changes: seq<StoreChange>

    constructor ()
      ensures nisdMap == map[] && deviceUsage == map[] && changes == []
    {
      nisdMap, deviceUsage, changes := map[], map[], [];
    }

    /** Looks a NISD up in the allocation map, entering it with its free space the first time. */
    method LookupNAddNisd(objs: map<Id, Nisd>, n: Id) returns (avail: int)
      requires n in objs
      modifies this`nisdMap
      ensures n in nisdMap && avail == nisdMap[n] && avail == Left(objs, old(nisdMap))[n]
      ensures Left(objs, nisdMap) == Left(objs, old(nisdMap))
      ensures old(nisdMap).Keys <= nisdMap.Keys <= old(nisdMap).Keys + {n}
    {
      if n !in nisdMap {
        nisdMap := nisdMap[n := objs[n].avail];
      }
      avail := nisdMap[n];
    }

    method PickNISDFromDevice(objs: map<Id, Nisd>, nisds: seq<Id>, picked: set<Id>) returns (r: Option<Id>)
      requires forall n :: n in nisds ==> n in objs
      modifies this`nisdMap
      ensures NisdChoice(nisds, picked, Left(objs, old(nisdMap)), r)
      ensures r.None? ==> Left(objs, nisdMap) == Left(objs, old(nisdMap))
      ensures r.Some? ==> Left(objs, nisdMap) == Draw(Left(objs, old(nisdMap)), r.value) && r.value in nisdMap
      ensures GrewWithin(old(nisdMap), nisdMap, objs) && nisdMap.Keys == old(nisdMap).Keys + Members(nisds)
    {
      hide Members, Fits, Left, BestNisd, NisdChoice, Draw;
      ghost var left := Left(objs, nisdMap);
      NoMembers<Id>();
      NoneFits(nisds, picked, left);
      assert nisds[..0] == [];
      var optimal: Option<Id> := None;
      ghost var at: nat := 0;
      for k := 0 to |nisds|
        invariant Left(objs, nisdMap) == left && BestNisd(nisds, picked, left, optimal, at, k)
        invariant GrewWithin(old(nisdMap), nisdMap, objs) && nisdMap.Keys == old(nisdMap).Keys + Members(nisds[..k])
        invariant optimal.Some? ==> optimal.value in nisdMap && optimal.value in objs
      {
        var n := nisds[k];
        MembersStep(nisds, k);
        var avail := LookupNAddNisd(objs, n);
        LeftAt(objs, nisdMap, n);
        if optimal.Some? { LeftAt(objs, nisdMap, optimal.value); }
        BestNisdStep(nisds, picked, left, optimal, at, k);
        FitsWhen(picked, left, n);
        if n in picked || avail < CHUNK_SIZE {
          continue;
        }
        if optimal.None? || avail > nisdMap[optimal.value] {
          optimal, at := Some(n), k;
        }
      }
      assert nisds[..|nisds|] == nisds;
      BestNisdIsChoice(nisds, picked, left, optimal, at);
      if optimal.None? {
        return None;
      }
      DrawnLeft(objs, nisdMap, optimal.value);
      nisdMap := nisdMap[optimal.value := nisdMap[optimal.value] - CHUNK_SIZE];
      return optimal;
    }

    ghost function Now(objs: map<Id, Nisd>, devices: set<Id>, nisds: set<Id>, off: nat): Probe
      reads this
    {
      Probe(devices, nisds, deviceUsage, Left(objs, nisdMap), off)
    }

    /** The two-phase pick of one block in entity e. */
    method PickBlock(tree: Tree, objs: map<Id, Nisd>, rank: nat, e: Id, devices: set<Id>, nisds: set<Id>, off: nat)
      returns (r: Option<Pick>)
      requires e in tree && forall d, n :: Listed(tree, e, d, n) ==> n in objs
      modifies this`nisdMap, this`deviceUsage
      ensures GrewWithin(old(nisdMap), nisdMap, objs)
      ensures nisdMap.Keys == old(nisdMap).Keys + LookedIn(tree[e], old(Now(objs, devices, nisds, off)))
      ensures r.None? ==> Now(objs, devices, nisds, off) == old(Now(objs, devices, nisds, off))
                          && Unserviceable(tree[e], Now(objs, devices, nisds, off))
      ensures r.Some? ==> r.value.rank == rank && r.value.entity == e && r.value.nisd in nisdMap
                          && Advances(tree, old(Now(objs, devices, nisds, off)), r.value, deviceUsage, Left(objs, nisdMap))
    {
      ghost var q := Now(objs, devices, nisds, off);
      var dev := PickDevice(tree[e], devices, deviceUsage, off);
      if dev.None? {
        LookedNowhere(tree[e], q);
        return None;
      }
      var d := dev.value;
      LookedOn(tree[e], q, d);
      assert forall n :: n in tree[e][d].nisds ==> Listed(tree, e, d, n);
      var nisd := PickNISDFromDevice(objs, tree[e][d].nisds, nisds);
      if nisd.None? {
        return None;
      }
      deviceUsage := Charge(deviceUsage, tree[e], d);
      return Some(Pick(rank, e, d, nisd.value));
    }

    /** The entity loop: from rank start on, around the tree, the first entity that is unused and in
        which both pickers succeed takes the block. The counter of tried entities does not count
        skipped ones, so with every entity used the loop spins, and otherwise it ends. */
    method PickEntity(tree: Tree, objs: map<Id, Nisd>, start: nat, used: set<Id>, devices: set<Id>, nisds: set<Id>, off: nat)
      returns (r: Option<Pick>, spins: bool, next: nat)
      requires forall e, d, n :: Listed(tree, e, d, n) ==> n in objs
      requires start < |tree|
      modifies this`nisdMap, this`deviceUsage
      ensures spins <==> tree.Keys <= used
      ensures spins ==> r.None? && nisdMap == old(nisdMap)
      ensures next < |tree|
      ensures GrewWithin(old(nisdMap), nisdMap, objs)
      ensures r.None? ==> Now(objs, devices, nisds, off) == old(Now(objs, devices, nisds, off))
                          && forall e :: e in tree ==> Passed(tree, e, used, Now(objs, devices, nisds, off))
      ensures r.Some? ==> r.value.rank < |tree| && next == Succ(r.value.rank, |tree|)
                          && r.value.entity == Ranked(tree.Keys)[r.value.rank]
                          && StopsAt(tree, Ranked(tree.Keys), start, r.value.rank, used, old(Now(objs, devices, nisds, off)))
                          && Advances(tree, old(Now(objs, devices, nisds, off)), r.value, deviceUsage, Left(objs, nisdMap))
                          && r.value.nisd in nisdMap
                          && nisdMap.Keys == old(nisdMap).Keys
                               + LookedWalk(tree, Ranked(tree.Keys), start, Dist(start, r.value.rank, |tree|) + 1, used,
                                            old(Now(objs, devices, nisds, off)))
    {
      hide Unserviceable, Picks, LookedIn, Walked, StopsAt, Passed, LookedWalk, IsRanking, Left, Listed, Advances, Dist;
      var treeLen := |tree|;
      if tree.Keys <= used {
        // no iteration ends the loop: see EntityLoopProgress
        UsedArePassed(tree, used, Now(objs, devices, nisds, off));
        return None, true, start;
      }
      spins := false;
      var ents := Scan(tree.Keys);
      ghost var q := Now(objs, devices, nisds, off);
      ghost var e0 :| e0 in tree && e0 !in used;
      ghost var u := PlaceOf(tree.Keys, ents, e0);
      ghost var seen: nat := 0;
      var tried: nat, entityIdx: nat := 0, start;
      RankHolds(tree.Keys, start);
      WalkBegins(tree, ents, start, used, q);
      while tried < treeLen
        invariant entityIdx < treeLen && tried <= treeLen && seen <= treeLen && (tried <= seen || seen == treeLen)
        invariant Walked(tree, ents, start, entityIdx, seen, used, q)
        invariant Now(objs, devices, nisds, off) == q
        invariant GrewWithin(old(nisdMap), nisdMap, objs)
        invariant seen < treeLen ==> nisdMap.Keys == old(nisdMap).Keys + LookedWalk(tree, ents, start, seen, used, q)
        decreases treeLen - tried, Dist(entityIdx, u, treeLen)
      {
        var cur := entityIdx;
        entityIdx := (entityIdx + 1) % treeLen;
        SuccIsMod(cur, treeLen);
        var e := ents[cur];
        RankHolds(tree.Keys, cur);
        if seen < treeLen { LookedWalkStep(tree, ents, start, cur, seen, used, q); }
        if e in used {
          DistStep(cur, u, treeLen);
          FailedIsPassed(tree, e, used, q);
          WalkedStep(tree, ents, start, cur, seen, used, q);
          seen := if seen < treeLen then seen + 1 else seen;
          continue;
        }
        tried := tried + 1;
        r := PickBlock(tree, objs, cur, e, devices, nisds, off);
        if r.Some? {
          ServesIsNotPassed(tree, e, used, q, r.value);
          WalkedStops(tree, ents, start, cur, seen, used, q);
          next := entityIdx;
          return;
        }
        FailedIsPassed(tree, e, used, q);
        WalkedStep(tree, ents, start, cur, seen, used, q);
        seen := if seen < treeLen then seen + 1 else seen;
      }
      WalkedAll(tree, start, entityIdx, used, q);
      r, next := None, entityIdx;
    }

    /** The running state is what the picks so far lead to. */
    ghost predicate Follows(objs: map<Id, Nisd>, q: Probe)
      reads this
    {
      deviceUsage == q.usage && Left(objs, nisdMap) == q.left
    }

    /** Writes the two keys of a placed block. */
    method GenAllocationKV(v: VdevConfig, chunk: nat, i: nat, nisd: Id)
      modifies this`changes
      ensures changes == old(changes) + BlockChanges(v, chunk, i, nisd)
    {
      var (t, seqNo) := v.BlockOf(i);
      changes := changes + [Put(ChunkKey(v.id, chunk, ChunkPrefix(t), seqNo), Ref(nisd))];
      changes := changes + [Put(NisdVdev(nisd, v.id), Where(ChunkPrefix(t), seqNo, chunk))];
    }

    /** Block i inside entity e: pick, then record. */
    method PlaceWithin(tree: Tree, objs: map<Id, Nisd>, e: Id, v: VdevConfig, chunk: nat, i: nat, offset: nat,
                       devices: set<Id>, nisds: set<Id>, ghost usage: DeviceUsage, ghost left: map<Id, int>, ghost picks: seq<Pick>)
      returns (r: Option<Pick>)
      requires e in tree && forall e, d, n :: Listed(tree, e, d, n) ==> n in objs
      requires |picks| == i
      requires BlocksDone(tree, usage, left, chunk + offset, picks, Now(objs, devices, nisds, chunk + offset + i))
      modifies this
      ensures GrewWithin(old(nisdMap), nisdMap, objs)
      ensures r.None? ==> BlocksDone(tree, usage, left, chunk + offset, picks, Now(objs, devices, nisds, chunk + offset + i))
                          && Unserviceable(tree[e], ProbeAfter(tree, usage, left, chunk + offset, picks))
                          && changes == old(changes)
      ensures r.Some? ==> r.value.nisd in nisdMap && r.value.entity == e && r.value.rank == 0
                          && BlocksDone(tree, usage, left, chunk + offset, picks + [r.value],
                                        Now(objs, devices + {r.value.device}, nisds + {r.value.nisd}, chunk + offset + i + 1))
                          && changes == old(changes) + BlockChanges(v, chunk, i, r.value.nisd)
                          && nisdMap.Keys == old(nisdMap).Keys + LookedIn(tree[e], ProbeAfter(tree, usage, left, chunk + offset, picks))
    {
      hide DeviceChoice, NisdChoice, Picks, Chain, UsageAfter, LeftAfter, Unserviceable, LookedIn;
      ghost var q := Now(objs, devices, nisds, chunk + offset + i);
      r := PickBlock(tree, objs, 0, e, devices, nisds, chunk + offset + i);
      if r.Some? {
        BlockDone(tree, usage, left, chunk + offset, picks, q, r.value, deviceUsage, Left(objs, nisdMap));
        GenAllocationKV(v, chunk, i, r.value.nisd);
      }
    }

    /** Block i over the whole level: walk, pick, then record. */
    method PlaceAcross(tree: Tree, objs: map<Id, Nisd>, entityIdx: nat, used: set<Id>, v: VdevConfig, chunk: nat, i: nat,
                       offset: nat, devices: set<Id>, nisds: set<Id>, ghost start: nat, ghost usage: DeviceUsage,
                       ghost left: map<Id, int>, ghost picks: seq<Pick>)
      returns (r: Option<Pick>, spins: bool, next: nat)
      requires forall e, d, n :: Listed(tree, e, d, n) ==> n in objs
      requires start < |tree|
      requires |picks| == i && used == EntitiesOf(picks) && entityIdx == Cursor(|tree|, start, picks)
      requires BlocksDone(tree, usage, left, chunk + offset, picks, Now(objs, devices, nisds, chunk + offset + i))
      requires WalkChain(tree, start, usage, left, chunk + offset, picks)
      modifies this
      ensures spins <==> tree.Keys <= used
      ensures spins ==> r.None?
      ensures GrewWithin(old(nisdMap), nisdMap, objs)
      ensures r.None? ==> BlocksDone(tree, usage, left, chunk + offset, picks, Now(objs, devices, nisds, chunk + offset + i))
                          && NoEntity(tree, usage, left, chunk + offset, picks)
                          && changes == old(changes)
      ensures r.Some? ==> r.value.nisd in nisdMap && r.value.entity in tree
                          && EntitiesOf(picks + [r.value]) == used + {r.value.entity}
                          && next == Cursor(|tree|, start, picks + [r.value])
                          && WalkChain(tree, start, usage, left, chunk + offset, picks + [r.value])
                          && BlocksDone(tree, usage, left, chunk + offset, picks + [r.value],
                                        Now(objs, devices + {r.value.device}, nisds + {r.value.nisd}, chunk + offset + i + 1))
                          && changes == old(changes) + BlockChanges(v, chunk, i, r.value.nisd)
                          && nisdMap.Keys == old(nisdMap).Keys
                               + BlockLooked(tree, start, picks, ProbeAfter(tree, usage, left, chunk + offset, picks), r.value)
    {
      hide DeviceChoice, NisdChoice, Picks, Chain, WalkChain, UsageAfter, LeftAfter, Unserviceable, Passed, StopsAt, LookedWalk;
      ghost var q := Now(objs, devices, nisds, chunk + offset + i);
      r, spins, next := PickEntity(tree, objs, entityIdx, used, devices, nisds, chunk + offset + i);
      if r.Some? {
        BlockDone(tree, usage, left, chunk + offset, picks, q, r.value, deviceUsage, Left(objs, nisdMap));
        WalkStep(tree, start, usage, left, chunk + offset, picks, q, r.value);
        GenAllocationKV(v, chunk, i, r.value.nisd);
      }
    }

    method AllocateWithin(tree: Tree, objs: map<Id, Nisd>, v: VdevConfig, chunkIdx: nat, e: Id, offset: nat)
      returns (out: Outcome, ghost picks: seq<Pick>)
      requires e in tree && forall e, d, n :: Listed(tree, e, d, n) ==> n in objs
      modifies this
      ensures GrewWithin(old(nisdMap), nisdMap, objs) && AllIn(picks, nisdMap)
      ensures Follows(objs, ProbeAfter(tree, old(deviceUsage), Left(objs, old(nisdMap)), chunkIdx + offset, picks))
      ensures WithinRun(tree, e, v.TotalRedundancyBlocksPerChunk(), old(deviceUsage), Left(objs, old(nisdMap)),
                        chunkIdx + offset, out, picks)
      ensures changes == old(changes) + ChunkChanges(v, chunkIdx, picks)
      ensures out == Placed ==>
                nisdMap.Keys == old(nisdMap).Keys + WithinLooked(tree, e, old(deviceUsage), Left(objs, old(nisdMap)), chunkIdx + offset, picks)
    {
      hide DeviceChoice, NisdChoice, Picks, Unserviceable, Left, ChunkPrefix, LookedIn, WithinLooked, ProbeAfter;
      ghost var usage, left, changes0 := deviceUsage, Left(objs, nisdMap), changes;
      NothingPlaced(tree, 0, e, usage, left, chunkIdx + offset);
      var devices: set<Id>, nisds: set<Id> := {}, {};
      picks := [];
      for i := 0 to v.TotalRedundancyBlocksPerChunk()
        invariant |picks| == i && GrewWithin(old(nisdMap), nisdMap, objs) && AllIn(picks, nisdMap)
        invariant BlocksDone(tree, usage, left, chunkIdx + offset, picks, Now(objs, devices, nisds, chunkIdx + offset + i))
        invariant forall p :: p in picks ==> p.entity == e && p.rank == 0
        invariant nisdMap.Keys == old(nisdMap).Keys + WithinLooked(tree, e, usage, left, chunkIdx + offset, picks)
        invariant changes == changes0 + ChunkChanges(v, chunkIdx, picks)
      {
        var r := PlaceWithin(tree, objs, e, v, chunkIdx, i, offset, devices, nisds, usage, left, picks);
        if r.None? {
          return Failed, picks;
        }
        ChunkChangesStep(changes0, v, chunkIdx, picks, r.value);
        LookedStep(tree, 0, e, usage, left, chunkIdx + offset, picks, r.value);
        devices, nisds, picks := devices + {r.value.device}, nisds + {r.value.nisd}, picks + [r.value];
      }
      return Placed, picks;
    }

    method AllocateAcross(tree: Tree, objs: map<Id, Nisd>, v: VdevConfig, chunkIdx: nat, hash: nat, offset: nat)
      returns (out: Outcome, ghost picks: seq<Pick>)
      requires |tree| > 0 && forall e, d, n :: Listed(tree, e, d, n) ==> n in objs
      modifies this
      ensures GrewWithin(old(nisdMap), nisdMap, objs) && AllIn(picks, nisdMap)
      ensures Follows(objs, ProbeAfter(tree, old(deviceUsage), Left(objs, old(nisdMap)), chunkIdx + offset, picks))
      ensures AcrossRun(tree, v.TotalRedundancyBlocksPerChunk(), hash % |tree|, old(deviceUsage),
                        Left(objs, old(nisdMap)), chunkIdx + offset, out, picks)
      ensures changes == old(changes) + ChunkChanges(v, chunkIdx, picks)
      ensures out == Placed ==>
                nisdMap.Keys == old(nisdMap).Keys
                  + AcrossLooked(tree, hash % |tree|, old(deviceUsage), Left(objs, old(nisdMap)), chunkIdx + offset, picks)
    {
      hide DeviceChoice, NisdChoice, Picks, Unserviceable, Passed, StopsAt, Left, BlockChanges, ChunkChanges, BlockLooked, AcrossLooked, ProbeAfter, Cursor, Chain, WalkChain, EntitiesOf, NoEntity, Listed;
      ghost var usage, left, changes0 := deviceUsage, Left(objs, nisdMap), changes;
      var treeLen := |tree|;
      var start: nat := hash % treeLen;
      var entityIdx := start;
      NothingPlaced(tree, start, NO_ID, usage, left, chunkIdx + offset);
      NoChanges(changes0, v, chunkIdx);
      var used: set<Id>, devices: set<Id>, nisds: set<Id> := {}, {}, {};
      picks := [];
      for i := 0 to v.TotalRedundancyBlocksPerChunk()
        invariant |picks| == i && GrewWithin(old(nisdMap), nisdMap, objs) && AllIn(picks, nisdMap)
        invariant used == EntitiesOf(picks) && used <= tree.Keys && entityIdx == Cursor(treeLen, start, picks)
        invariant BlocksDone(tree, usage, left, chunkIdx + offset, picks, Now(objs, devices, nisds, chunkIdx + offset + i))
        invariant WalkChain(tree, start, usage, left, chunkIdx + offset, picks)
        invariant nisdMap.Keys == old(nisdMap).Keys + AcrossLooked(tree, start, usage, left, chunkIdx + offset, picks)
        invariant changes == changes0 + ChunkChanges(v, chunkIdx, picks)
      {
        var r, spins, next := PlaceAcross(tree, objs, entityIdx, used, v, chunkIdx, i, offset, devices, nisds, start, usage, left, picks);
        if r.None? {
          return if spins then Spins else Failed, picks;
        }
        ChunkChangesStep(changes0, v, chunkIdx, picks, r.value);
        LookedStep(tree, start, r.value.entity, usage, left, chunkIdx + offset, picks, r.value);
        used, devices, nisds := used + {r.value.entity}, devices + {r.value.device}, nisds + {r.value.nisd};
        entityIdx, picks := next, picks + [r.value];
      }
      return Placed, picks;
    }

    /** allocateNisdPerChunk. The filter's failure domain is the level when the filter names an entity. */
    method AllocateNisdPerChunk(hr: Hierarchy, req: VdevReq, fd: int, chunkIdx: nat, hash: nat, offset: nat)
      returns (out: Outcome, ghost picks: seq<Pick>)
      requires Agrees(hr.levels, hr.objs)
      requires req.filter.id != NO_ID ==> fd == GetFDIdx(req.filter.fdType) != -1
      modifies this
      ensures GrewWithin(old(nisdMap), nisdMap, hr.objs) && AllIn(picks, nisdMap)
      ensures !(0 <= fd < FD_MAX) ==> out == Failed && picks == []
      ensures 0 <= fd < FD_MAX ==>
                Follows(hr.objs, ProbeAfter(hr.levels[fd], old(deviceUsage), Left(hr.objs, old(nisdMap)), chunkIdx + offset, picks))
                && ChunkRun(hr.levels[fd], req, hash, old(deviceUsage), Left(hr.objs, old(nisdMap)), chunkIdx + offset, out, picks)
      ensures changes == old(changes) + ChunkChanges(req.vdev, chunkIdx, picks)
      ensures out == Placed ==>
                0 <= fd < FD_MAX
                && nisdMap.Keys == old(nisdMap).Keys
                     + ChunkLooked(hr.levels[fd], req, hash, old(deviceUsage), Left(hr.objs, old(nisdMap)), chunkIdx + offset, picks)
    {
      hide WithinLooked, AcrossLooked;
      if fd < 0 || fd >= FD_MAX {
        return Failed, [];
      }
      var tree := hr.levels[fd];
      assert TreeAgrees(tree, fd, hr.objs);
      if |tree| == 0 {
        return Failed, [];
      }
      if req.filter.id != NO_ID {
        if req.filter.id !in hr.levels[GetFDIdx(req.filter.fdType)] {
          return Failed, [];
        }
        out, picks := AllocateWithin(tree, hr.objs, req.vdev, chunkIdx, req.filter.id, offset);
      } else {
        out, picks := AllocateAcross(tree, hr.objs, req.vdev, chunkIdx, hash, offset);
      }
    }
  }
}
