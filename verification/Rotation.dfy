/** Placement inside one filter entity: spread over its devices, and balance over chunks and over the
    vdevs of a PFS (controlplane/ctlplanefuncs/server/srvctlplanefuncs.go, lines 763-806 and 1062-1089). */
module Rotation {
  import opened Finite
  import opened Lib
  import opened Index
  import opened Modulo
  import opened Pickers
  import opened Allocator
  import opened Placement
  import opened Completeness
  import opened VdevAllocator

  /** Within a filtered chunk a device repeats only once every device that still has room is used,
      and NISDs never repeat. */
  lemma {:induction false} FilteredSpread(tree: Tree, e: Id, total: nat, usage: DeviceUsage, left: map<Id, int>,
                                          off: nat, out: Outcome, picks: seq<Pick>, i: nat)
    requires WithinRun(tree, e, total, usage, left, off, out, picks) && i < |picks|
    ensures picks[i].device in DevicesOf(picks[..i]) ==>
              forall d :: Eligible(tree[e], UsageAfter(tree, usage, picks[..i]), d) ==> d in DevicesOf(picks[..i])
    ensures picks[i].nisd !in NisdsOf(picks[..i])
  {
    PickAt(tree, usage, left, off, picks, i);
    ChoiceFits(tree, ProbeAfter(tree, usage, left, off, picks[..i]), picks[i]);
    assert picks[i] in picks;
    var u := UsageAfter(tree, usage, picks[..i]);
    if picks[i].device in DevicesOf(picks[..i]) {
      forall d | Eligible(tree[e], u, d) ensures d in DevicesOf(picks[..i]) {
        assert !Pickers.Open(tree[e], DevicesOf(picks[..i]), u, d);
      }
    }
  }

  // ----- the rotation law -----

  lemma ModApart(a: nat, b: nat, n: nat)
    requires a < b < a + n
    ensures a % n != b % n
  {
    ModAdd(a, b - a, n);
    ModWrap(a % n + (b - a), n);
  }

  /** The device at position x of the endless rotation of an entity's devices. */
  ghost function Turn(devs: Devices, x: nat): Id
    requires devs.Keys != {}
  {
    var ds := Ranked(devs.Keys);
    NonEmptyRanking(devs.Keys);
    ds[x % |ds|]
  }

  lemma NonEmptyRanking(s: set<Id>)
    requires s != {}
    ensures |Ranked(s)| > 0
  {
    var x :| x in s;
    assert x in Ranked(s);
  }

  lemma TurnIsDevice(devs: Devices, x: nat)
    requires devs.Keys != {}
    ensures Turn(devs, x) in devs && Rotation(Ranked(devs.Keys), x)[0] == Turn(devs, x)
  {
    var ds := Ranked(devs.Keys);
    NonEmptyRanking(devs.Keys);
    RotationAt(ds, x, 0);
    ModWrap(x % |ds|, |ds|);
    assert ds[x % |ds|] in ds;
  }

  lemma TurnsApart(devs: Devices, x: nat, y: nat)
    requires devs.Keys != {} && x < y < x + |devs|
    ensures Turn(devs, x) != Turn(devs, y)
  {
    NonEmptyRanking(devs.Keys);
    RankedIsDistinct(devs.Keys);
    ModApart(x, y, |Ranked(devs.Keys)|);
  }

  /** A device without picks keeps its space. */
  lemma {:induction false} UnpickedUntouched(tree: Tree, usage: DeviceUsage, left: map<Id, int>, off: nat, picks: seq<Pick>, e: Id, d: Id)
    requires Chain(tree, usage, left, off, picks) && Dev(tree, e, d).Some? && d !in DevicesOf(picks)
    ensures LeftOn(tree[e], UsageAfter(tree, usage, picks), d) == LeftOn(tree[e], usage, d)
  {
    hide Picks, ProbeAfter;
    if picks != [] {
      var n := |picks| - 1;
      assert picks[n] in picks && forall p :: p in picks[..n] ==> p in picks;
      UnpickedUntouched(tree, usage, left, off, picks[..n], e, d);
    }
  }

  /** With room on every device, an open turn is taken. */
  lemma OpenTurnWins(devs: Devices, devices: set<Id>, usage: DeviceUsage, off: nat, d: Id)
    requires devs.Keys != {} && Pickers.Open(devs, devices, usage, Turn(devs, off))
    requires DeviceChoice(devs, devices, usage, off, Some(d))
    ensures d == Turn(devs, off)
  {
    TurnIsDevice(devs, off);
  }

  lemma EarlierTurns(devs: Devices, off: nat, before: seq<Pick>, x: nat)
    requires devs.Keys != {} && off + |before| <= x < off + |devs|
    requires forall j :: 0 <= j < |before| ==> before[j].device == Turn(devs, off + j)
    ensures Turn(devs, x) !in DevicesOf(before)
  {
    hide Turn;
    forall p | p in before ensures p.device != Turn(devs, x) {
      var j: nat :| j < |before| && before[j] == p;
      TurnsApart(devs, off + j, x);
    }
  }

  /** The rotation law: with at most one block per device and room on all of them, block i of a chunk
      goes to the device i turns after the chunk's offset. */
  lemma {:induction false} RotationLaw(tree: Tree, e: Id, usage: DeviceUsage, left: map<Id, int>, off: nat, picks: seq<Pick>, i: nat)
    requires Chain(tree, usage, left, off, picks) && (forall p :: p in picks ==> p.entity == e)
    requires e in tree && tree[e].Keys != {} && |picks| <= |tree[e]| && i < |picks|
    requires forall d :: d in tree[e] ==> Eligible(tree[e], usage, d)
    ensures picks[i].device == Turn(tree[e], off + i)
  {
    hide DeviceChoice, NisdChoice, UsageAfter, LeftAfter, Chain, Turn;
    forall j | 0 <= j < i ensures picks[j].device == Turn(tree[e], off + j) {
      RotationLaw(tree, e, usage, left, off, picks, j);
    }
    PickAt(tree, usage, left, off, picks, i);
    var before, d := picks[..i], Turn(tree[e], off + i);
    TurnIsDevice(tree[e], off + i);
    assert picks[i] in picks;
    EarlierTurns(tree[e], off, before, off + i);
    UnpickedUntouched(tree, usage, left, off, before, e, d);
    assert Eligible(tree[e], usage, d);
    OpenTurnWins(tree[e], DevicesOf(before), UsageAfter(tree, usage, before), off + i, picks[i].device);
  }

  // ----- counting turns -----

  /** How many of the positions x, x+1, .., x+len-1 fall on residue r. */
  ghost function Hits(x: nat, len: nat, r: nat, n: nat): nat
    requires 0 < n
  {
    if len == 0 then 0 else Hits(x, len - 1, r, n) + if (x + len - 1) % n == r then 1 else 0
  }

  lemma {:induction false} HitsSplit(x: nat, a: nat, b: nat, r: nat, n: nat)
    requires 0 < n
    ensures Hits(x, a + b, r, n) == Hits(x, a, r, n) + Hits(x + a, b, r, n)
  {
    if b > 0 { HitsSplit(x, a, b - 1, r, n); }
  }

  /** A stretch shorter than a full turn that ends before y misses y's residue. */
  lemma {:induction false} HitsApart(x: nat, len: nat, y: nat, n: nat)
    requires x + len <= y < x + n
    ensures Hits(x, len, y % n, n) == 0
  {
    if len > 0 {
      HitsApart(x, len - 1, y, n);
      ModApart(x + len - 1, y, n);
    }
  }

  lemma {:induction false} AtMostOneHit(x: nat, len: nat, r: nat, n: nat)
    requires 0 < n && len <= n
    ensures Hits(x, len, r, n) <= 1
  {
    if len > 0 {
      AtMostOneHit(x, len - 1, r, n);
      HitsApart(x, len - 1, x + len - 1, n);
    }
  }

  lemma {:induction false} HitFound(x: nat, len: nat, r: nat, n: nat, k: nat)
    requires 0 < n && k < len && (x + k) % n == r
    ensures Hits(x, len, r, n) >= 1
  {
    if k < len - 1 { HitFound(x, len - 1, r, n, k); }
  }

  /** A full turn of n positions meets every residue once. */
  lemma {:induction false} FullTurn(x: nat, r: nat, n: nat)
    requires r < n
    ensures Hits(x, n, r, n) == 1
  {
    var o := x % n;
    var k := if o <= r then r - o else r + n - o;
    ModAdd(x, k, n);
    ModWrap(o + k, n);
    HitFound(x, n, r, n, k);
    AtMostOneHit(x, n, r, n);
  }

  /** Any stretch of positions is spread as evenly as possible. */
  lemma {:induction false} EvenSpread(x: nat, len: nat, r: nat, s: nat, n: nat)
    requires r < n && s < n
    ensures Hits(x, len, r, n) <= Hits(x, len, s, n) + 1
    decreases len
  {
    if len < n {
      AtMostOneHit(x, len, r, n);
    } else {
      HitsSplit(x, n, len - n, r, n);
      HitsSplit(x, n, len - n, s, n);
      FullTurn(x, r, n);
      FullTurn(x, s, n);
      EvenSpread(x + n, len - n, r, s, n);
    }
  }

  /** Blocks that fall on residue r over the chunks c0, .., c0+k-1 of a vdev. */
  ghost function ChunkHits(c0: nat, k: nat, offset: nat, total: nat, r: nat, n: nat): nat
    requires 0 < n
  {
    if k == 0 then 0 else ChunkHits(c0, k - 1, offset, total, r, n) + Hits(c0 + k - 1 + offset, total, r, n)
  }

  lemma {:induction false} ChunkHitsByBlock(c0: nat, k: nat, offset: nat, total: nat, r: nat, n: nat)
    requires 0 < n && 0 < total
    ensures ChunkHits(c0, k, offset, total, r, n) ==
            ChunkHits(c0, k, offset, total - 1, r, n) + Hits(c0 + offset + total - 1, k, r, n)
  {
    if k > 0 {
      ChunkHitsByBlock(c0, k - 1, offset, total, r, n);
      assert c0 + k - 1 + offset + total - 1 == c0 + offset + total - 1 + k - 1;
    }
  }

  lemma {:induction false} NoBlocksNoHits(c0: nat, k: nat, offset: nat, r: nat, n: nat)
    requires 0 < n
    ensures ChunkHits(c0, k, offset, 0, r, n) == 0
  {
    if k > 0 { NoBlocksNoHits(c0, k - 1, offset, r, n); }
  }

  /** Any n consecutive chunks use each of the n devices exactly totalBlocks times. */
  lemma {:induction false} BalancedOverChunks(c0: nat, offset: nat, total: nat, r: nat, n: nat)
    requires r < n
    ensures ChunkHits(c0, n, offset, total, r, n) == total
  {
    if total == 0 {
      NoBlocksNoHits(c0, n, offset, r, n);
    } else {
      ChunkHitsByBlock(c0, n, offset, total, r, n);
      FullTurn(c0 + offset + total - 1, r, n);
      BalancedOverChunks(c0, offset, total - 1, r, n);
    }
  }

  /** The stored offset of a PFS after vdevs with the given block counts. */
  ghost function OffsetAfter(offset: nat, totals: seq<nat>): nat {
    if totals == [] then offset else OffsetAfter(offset, totals[..|totals|-1]) + totals[|totals|-1]
  }

  /** Blocks of chunk index c that fall on residue r over consecutive vdevs of one PFS. */
  ghost function PfsHits(c: nat, offset: nat, totals: seq<nat>, r: nat, n: nat): nat
    requires 0 < n
  {
    if totals == [] then 0 else
      var v := |totals| - 1;
      PfsHits(c, offset, totals[..v], r, n) + Hits(c + OffsetAfter(offset, totals[..v]), totals[v], r, n)
  }

  lemma {:induction false} PfsHitsAreOneStretch(c: nat, offset: nat, totals: seq<nat>, r: nat, n: nat)
    requires 0 < n
    ensures OffsetAfter(offset, totals) >= offset
    ensures PfsHits(c, offset, totals, r, n) == Hits(c + offset, OffsetAfter(offset, totals) - offset, r, n)
  {
    if totals != [] {
      var v := |totals| - 1;
      PfsHitsAreOneStretch(c, offset, totals[..v], r, n);
      HitsSplit(c + offset, OffsetAfter(offset, totals[..v]) - offset, totals[v], r, n);
    }
  }

  /** Over consecutive vdevs of one PFS, for any mix of block counts, the numbers of blocks of a chunk
      index on any two devices differ by at most one. */
  lemma {:induction false} BalancedOverPfs(c: nat, offset: nat, totals: seq<nat>, r: nat, s: nat, n: nat)
    requires r < n && s < n
    ensures PfsHits(c, offset, totals, r, n) <= PfsHits(c, offset, totals, s, n) + 1
  {
    PfsHitsAreOneStretch(c, offset, totals, r, n);
    PfsHitsAreOneStretch(c, offset, totals, s, n);
    EvenSpread(c + offset, OffsetAfter(offset, totals) - offset, r, s, n);
  }

  // ----- a whole filtered vdev -----

  /** With backed totals and room on every device, a filtered chunk of at most one block per device
      is placed. */
  lemma FilteredChunkPlaces(tree: Tree, e: Id, total: nat, usage: DeviceUsage, left: map<Id, int>, off: nat, out: Outcome, picks: seq<Pick>)
    requires OneHome(tree) && Backed(tree, usage, left)
    requires WithinRun(tree, e, total, usage, left, off, out, picks)
    requires total <= |tree[e]| && forall d :: d in tree[e] ==> Eligible(tree[e], usage, d)
    ensures out == Placed
  {
    hide UsageAfter, LeftAfter, Picks, OneHome, Backed, Chain;
    if out != Placed {
      var q := ProbeAfter(tree, usage, left, off, picks);
      var r: Option<Id> :| DeviceChoice(tree[e], q.devices, q.usage, q.off, r)
        && (r.Some? ==> r.value in tree[e] && NisdChoice(tree[e][r.value].nisds, q.nisds, q.left, None));
      NextTurnIsOpen(tree, e, usage, left, off, picks);
      assert r.Some?;
      OpenTurnWins(tree[e], q.devices, q.usage, q.off, r.value);
      BackedChain(tree, usage, left, off, picks);
      FitsOnUnpicked(tree, usage, left, off, picks, e, r.value);
    }
  }

  lemma {:induction false} NextTurnIsOpen(tree: Tree, e: Id, usage: DeviceUsage, left: map<Id, int>, off: nat, picks: seq<Pick>)
    requires Chain(tree, usage, left, off, picks) && (forall p :: p in picks ==> p.entity == e)
    requires e in tree && |picks| < |tree[e]| && forall d :: d in tree[e] ==> Eligible(tree[e], usage, d)
    ensures tree[e].Keys != {}
    ensures Pickers.Open(tree[e], DevicesOf(picks), UsageAfter(tree, usage, picks), Turn(tree[e], off + |picks|))
  {
    hide DeviceChoice, NisdChoice, UsageAfter, LeftAfter, Picks, Chain;
    assert |tree[e].Keys| > 0;
    var d := Turn(tree[e], off + |picks|);
    TurnIsDevice(tree[e], off + |picks|);
    forall p | p in picks ensures p.device != d {
      var j: nat :| j < |picks| && picks[j] == p;
      RotationLaw(tree, e, usage, left, off, picks, j);
      TurnsApart(tree[e], off + j, off + |picks|);
    }
    UnpickedUntouched(tree, usage, left, off, picks, e, d);
    assert Eligible(tree[e], usage, d);
  }

  lemma {:induction false} FitsOnUnpicked(tree: Tree, usage: DeviceUsage, left: map<Id, int>, off: nat, picks: seq<Pick>, e: Id, d: Id)
    requires OneHome(tree) && Chain(tree, usage, left, off, picks) && d !in DevicesOf(picks)
    requires Backed(tree, UsageAfter(tree, usage, picks), LeftAfter(left, picks))
    requires e in tree && Eligible(tree[e], UsageAfter(tree, usage, picks), d)
    ensures !NisdChoice(tree[e][d].nisds, NisdsOf(picks), LeftAfter(left, picks), None)
  {
    hide Chain, UsageAfter, LeftAfter;
    var s, l := tree[e][d].nisds, LeftAfter(left, picks);
    assert Dev(tree, e, d).Some?;
    var n := SumPositive(s, At(l));
    assert n in l && Whole(l[n]);
    assert Listed(tree, e, d, n);
    ChainListed(tree, usage, left, off, picks);
    var k: nat :| k < |s| && s[k] == n;
    assert Fits(NisdsOf(picks), l, s[k]);
  }

  /** Picks on distinct devices take one chunk from each of them. */
  lemma {:induction false} OneChunkEach(tree: Tree, usage: DeviceUsage, left: map<Id, int>, off: nat, picks: seq<Pick>, e: Id, d: Id)
    requires Chain(tree, usage, left, off, picks) && (forall p :: p in picks ==> p.entity == e)
    requires Dev(tree, e, d).Some? && forall i, j :: 0 <= i < j < |picks| ==> picks[i].device != picks[j].device
    ensures LeftOn(tree[e], UsageAfter(tree, usage, picks), d) >= LeftOn(tree[e], usage, d) - CHUNK_SIZE
  {
    hide Picks, ProbeAfter;
    if picks != [] {
      var n := |picks| - 1;
      var before := picks[..n];
      assert picks[n] in picks && forall p :: p in before ==> p in picks;
      if picks[n].device == d {
        forall p | p in before ensures p.device != d { var j :| 0 <= j < n && before[j] == p; }
        UnpickedUntouched(tree, usage, left, off, before, e, d);
      } else {
        OneChunkEach(tree, usage, left, off, before, e, d);
      }
    }
  }

  ghost predicate RoomForAll(tree: Tree, usage: DeviceUsage, e: Id, chunks: int) {
    e in tree && forall d :: d in tree[e] ==> LeftOn(tree[e], usage, d) >= chunks * CHUNK_SIZE
  }

  ghost predicate RotatesChunk(devs: Devices, picks: seq<Pick>, off: nat)
    requires devs.Keys != {}
  {
    forall i :: 0 <= i < |picks| ==> picks[i].device == Turn(devs, off + i)
  }

  /** A chunk of at most one block per device, placed while every device has room, rotates, and takes at
      most one chunk from each device. */
  lemma {:induction false} RotatedChunk(tree: Tree, e: Id, usage: DeviceUsage, left: map<Id, int>, off: nat, picks: seq<Pick>, chunks: nat)
    requires Chain(tree, usage, left, off, picks) && forall p :: p in picks ==> p.entity == e
    requires chunks > 0 && RoomForAll(tree, usage, e, chunks) && tree[e].Keys != {} && |picks| <= |tree[e]|
    ensures RotatesChunk(tree[e], picks, off)
    ensures RoomForAll(tree, UsageAfter(tree, usage, picks), e, chunks - 1)
  {
    hide UsageAfter, LeftAfter, Picks, Chain, Turn;
    forall i | 0 <= i < |picks| ensures picks[i].device == Turn(tree[e], off + i) {
      RotationLaw(tree, e, usage, left, off, picks, i);
    }
    forall i, j | 0 <= i < j < |picks| ensures picks[i].device != picks[j].device {
      TurnsApart(tree[e], off + i, off + j);
    }
    forall d | d in tree[e] ensures LeftOn(tree[e], UsageAfter(tree, usage, picks), d) >= (chunks - 1) * CHUNK_SIZE {
      OneChunkEach(tree, usage, left, off, picks, e, d);
    }
  }

  lemma {:induction false} FilteredRun(tree: Tree, req: VdevReq, hash: nat, usage: DeviceUsage, left: map<Id, int>,
                                       off: nat, out: Outcome, picks: seq<Pick>)
    requires ChunkRun(tree, req, hash, usage, left, off, out, picks) && req.filter.id != NO_ID && req.filter.id in tree
    ensures WithinRun(tree, req.filter.id, req.vdev.TotalRedundancyBlocksPerChunk(), usage, left, off, out, picks)
    ensures Chain(tree, usage, left, off, picks) && forall p :: p in picks ==> p.entity == req.filter.id
    ensures |picks| <= req.vdev.TotalRedundancyBlocksPerChunk()
  {
  }

  /** Chunk by chunk, each block stands on the device its turn names. */
  ghost predicate RotatesPlan(devs: Devices, plan: seq<seq<Pick>>, offset: nat)
    requires devs.Keys != {}
  {
    forall c :: 0 <= c < |plan| ==> RotatesChunk(devs, plan[c], c + offset)
  }

  lemma RotatesPlanStep(devs: Devices, plan: seq<seq<Pick>>, offset: nat)
    requires devs.Keys != {} && plan != []
    requires RotatesPlan(devs, plan[..|plan|-1], offset) && RotatesChunk(devs, plan[|plan|-1], |plan| - 1 + offset)
    ensures RotatesPlan(devs, plan, offset)
  {
    hide RotatesChunk;
    forall c | 0 <= c < |plan| ensures RotatesChunk(devs, plan[c], c + offset) {
      if c < |plan| - 1 { assert plan[..|plan|-1][c] == plan[c]; }
    }
  }

  lemma EmptyPlanRotates(devs: Devices, offset: nat)
    requires devs.Keys != {}
    ensures RotatesPlan(devs, [], offset)
  {
  }

  /** The chunks placed inside an entity whose devices have room for `room` chunks each rotate, whatever
      its NISDs have. */
  lemma {:induction false} RotatedPlan(tree: Tree, req: VdevReq, hash: nat -> nat, offset: nat, left: map<Id, int>, plan: seq<seq<Pick>>, room: nat)
    requires VdevRun(tree, req, hash, offset, left, plan) && |plan| <= room
    requires req.filter.id != NO_ID && RoomForAll(tree, map[], req.filter.id, room) && tree[req.filter.id].Keys != {}
    requires req.vdev.TotalRedundancyBlocksPerChunk() <= |tree[req.filter.id]|
    ensures RoomForAll(tree, UsageAfter(tree, map[], Flat(plan)), req.filter.id, room - |plan|)
    ensures RotatesPlan(tree[req.filter.id], plan, offset)
  {
    hide Chain, RotatesPlan, RotatesChunk, ChunkRun, WithinRun, UsageAfter, LeftAfter;
    if plan == [] {
      EmptyAfter(tree, left);
      EmptyPlanRotates(tree[req.filter.id], offset);
    } else {
      var n := |plan| - 1;
      var before, picks := plan[..n], plan[n];
      RotatedPlan(tree, req, hash, offset, left, before, room);
      var u, l := UsageAfter(tree, map[], Flat(before)), LeftAfter(left, Flat(before));
      UsageAppend(tree, map[], Flat(before), picks);
      FilteredRun(tree, req, hash(n), u, l, n + offset, Placed, picks);
      RotatedChunk(tree, req.filter.id, u, l, n + offset, picks, room - n);
      RotatesPlanStep(tree[req.filter.id], plan, offset);
    }
  }

  /** A vdev scoped to an entity with n devices, at most n blocks a chunk and room for every chunk on
      every device, is placed if the totals are backed, and placed or not, block i of chunk c stands on
      the device c + offset + i turns on. */
  lemma FilteredVdevRotates(tree: Tree, req: VdevReq, hash: nat -> nat, offset: nat, left: map<Id, int>,
                            out: Outcome, plan: seq<seq<Pick>>, rest: seq<Pick>)
    requires AttemptRun(tree, req, hash, offset, left, out, plan, rest)
    requires req.filter.id != NO_ID && RoomForAll(tree, map[], req.filter.id, req.vdev.chunkCnt) && tree[req.filter.id].Keys != {}
    requires req.vdev.TotalRedundancyBlocksPerChunk() <= |tree[req.filter.id]|
    ensures OneHome(tree) && Backed(tree, map[], left) ==> out == Placed
    ensures RotatesPlan(tree[req.filter.id], plan, offset)
    ensures forall c, i :: 0 <= c < |plan| && 0 <= i < |plan[c]| ==> plan[c][i].device == Turn(tree[req.filter.id], c + offset + i)
  {
    hide Backed, OneHome, Chain, Turn, VdevRun, NextChunk, UsageAfter, LeftAfter, Flat;
    RotatedPlan(tree, req, hash, offset, left, plan, req.vdev.chunkCnt);
    if OneHome(tree) && Backed(tree, map[], left) && out != Placed {
      PlanStaysBacked(tree, req, hash, offset, left, plan);
      NextIsPlaced(tree, req, hash, offset, left, plan, out, rest);
    }
  }

  lemma {:induction false} NextIsPlaced(tree: Tree, req: VdevReq, hash: nat -> nat, offset: nat, left: map<Id, int>,
                                        plan: seq<seq<Pick>>, out: Outcome, rest: seq<Pick>)
    requires NextChunk(tree, req, hash, offset, left, plan, out, rest) && req.filter.id != NO_ID && req.filter.id in tree
    requires OneHome(tree) && Backed(tree, UsageAfter(tree, map[], Flat(plan)), LeftAfter(left, Flat(plan)))
    requires RoomForAll(tree, UsageAfter(tree, map[], Flat(plan)), req.filter.id, req.vdev.chunkCnt - |plan|) && |plan| < req.vdev.chunkCnt
    requires req.vdev.TotalRedundancyBlocksPerChunk() <= |tree[req.filter.id]|
    ensures out == Placed
  {
    hide Backed, OneHome, Chain, ChunkRun, UsageAfter, LeftAfter, Flat;
    var u, l := UsageAfter(tree, map[], Flat(plan)), LeftAfter(left, Flat(plan));
    FilteredRun(tree, req, hash(|plan|), u, l, |plan| + offset, out, rest);
    FilteredChunkPlaces(tree, req.filter.id, req.vdev.TotalRedundancyBlocksPerChunk(), u, l, |plan| + offset, out, rest);
  }

  /** How many picks stand on device d. */
  ghost function PicksOn(picks: seq<Pick>, d: Id): nat {
    if picks == [] then 0 else PicksOn(picks[..|picks|-1], d) + if picks[|picks|-1].device == d then 1 else 0
  }

  /** A rotated chunk puts as many blocks on the r-th device as its stretch of turns hits residue r. */
  lemma {:induction false} RotatedCount(devs: Devices, picks: seq<Pick>, off: nat, r: nat)
    requires devs.Keys != {} && r < |Ranked(devs.Keys)|
    requires forall i :: 0 <= i < |picks| ==> picks[i].device == Turn(devs, off + i)
    ensures PicksOn(picks, Ranked(devs.Keys)[r]) == Hits(off, |picks|, r, |Ranked(devs.Keys)|)
  {
    if picks != [] {
      var n := |picks| - 1;
      RotatedCount(devs, picks[..n], off, r);
      RankedIsDistinct(devs.Keys);
      assert picks[n].device == Turn(devs, off + n);
    }
  }

  // ----- balance, counted on the placements themselves -----

  /** The blocks of the chunks c0, .., c0+k-1 of a plan on device d. */
  ghost function PicksOver(plan: seq<seq<Pick>>, c0: nat, k: nat, d: Id): nat
    requires c0 + k <= |plan|
  {
    if k == 0 then 0 else PicksOver(plan, c0, k - 1, d) + PicksOn(plan[c0 + k - 1], d)
  }

  /** The plan rotates, and every chunk is complete. */
  ghost predicate Rotates(devs: Devices, plan: seq<seq<Pick>>, offset: nat, total: nat)
    requires devs.Keys != {}
  {
    RotatesPlan(devs, plan, offset) && forall c :: 0 <= c < |plan| ==> |plan[c]| == total
  }

  lemma {:induction false} PicksOverIsHits(devs: Devices, plan: seq<seq<Pick>>, offset: nat, total: nat, c0: nat, k: nat, r: nat)
    requires devs.Keys != {} && Rotates(devs, plan, offset, total) && c0 + k <= |plan| && r < |Ranked(devs.Keys)|
    ensures PicksOver(plan, c0, k, Ranked(devs.Keys)[r]) == ChunkHits(c0, k, offset, total, r, |Ranked(devs.Keys)|)
  {
    hide Turn;
    if k > 0 {
      PicksOverIsHits(devs, plan, offset, total, c0, k - 1, r);
      assert RotatesChunk(devs, plan[c0 + k - 1], c0 + k - 1 + offset);
      RotatedCount(devs, plan[c0 + k - 1], c0 + k - 1 + offset, r);
    }
  }

  /** In a rotating vdev, any n consecutive chunks put exactly totalBlocks blocks on each of the n
      devices. */
  lemma {:induction false} VdevIsBalanced(devs: Devices, plan: seq<seq<Pick>>, offset: nat, total: nat, c0: nat, d: Id)
    requires devs.Keys != {} && Rotates(devs, plan, offset, total) && c0 + |devs| <= |plan| && d in devs
    ensures PicksOver(plan, c0, |devs|, d) == total
  {
    hide Turn;
    var ds := Ranked(devs.Keys);
    assert d in ds;
    var r :| 0 <= r < |ds| && ds[r] == d;
    PicksOverIsHits(devs, plan, offset, total, c0, |devs|, r);
    BalancedOverChunks(c0, offset, total, r, |ds|);
  }

  /** The blocks of chunk index c on device d, over the vdevs of a PFS. */
  ghost function PicksOfPfs(chunks: seq<seq<Pick>>, d: Id): nat {
    if chunks == [] then 0 else PicksOfPfs(chunks[..|chunks|-1], d) + PicksOn(chunks[|chunks|-1], d)
  }

  /** chunks lists chunk c of each vdev; each rotates from the offset its predecessors left in the PFS. */
  ghost predicate RotatesPfs(devs: Devices, chunks: seq<seq<Pick>>, c: nat, offset: nat, totals: seq<nat>)
    requires devs.Keys != {}
  {
    |chunks| == |totals|
    && (chunks == [] ||
        (var v := |chunks| - 1;
         RotatesPfs(devs, chunks[..v], c, offset, totals[..v])
         && |chunks[v]| == totals[v] && RotatesChunk(devs, chunks[v], c + OffsetAfter(offset, totals[..v]))))
  }

  lemma {:induction false} PicksOfPfsIsHits(devs: Devices, chunks: seq<seq<Pick>>, c: nat, offset: nat, totals: seq<nat>, r: nat)
    requires devs.Keys != {} && RotatesPfs(devs, chunks, c, offset, totals) && r < |Ranked(devs.Keys)|
    ensures PicksOfPfs(chunks, Ranked(devs.Keys)[r]) == PfsHits(c, offset, totals, r, |Ranked(devs.Keys)|)
  {
    hide Turn;
    if chunks != [] {
      var v := |chunks| - 1;
      PicksOfPfsIsHits(devs, chunks[..v], c, offset, totals[..v], r);
      RotatedCount(devs, chunks[v], c + OffsetAfter(offset, totals[..v]), r);
    }
  }

  /** Over consecutive vdevs of one PFS, the numbers of blocks of a chunk index on any two devices
      differ by at most one. */
  lemma {:induction false} PfsIsBalanced(devs: Devices, chunks: seq<seq<Pick>>, c: nat, offset: nat, totals: seq<nat>, d1: Id, d2: Id)
    requires devs.Keys != {} && RotatesPfs(devs, chunks, c, offset, totals) && d1 in devs && d2 in devs
    ensures PicksOfPfs(chunks, d1) <= PicksOfPfs(chunks, d2) + 1
  {
    hide Turn, RotatesPfs;
    var ds := Ranked(devs.Keys);
    assert d1 in ds && d2 in ds;
    var r :| 0 <= r < |ds| && ds[r] == d1;
    var s :| 0 <= s < |ds| && ds[s] == d2;
    PicksOfPfsIsHits(devs, chunks, c, offset, totals, r);
    PicksOfPfsIsHits(devs, chunks, c, offset, totals, s);
    BalancedOverPfs(c, offset, totals, r, s, |ds|);
  }

  /** A vdev that is placed inside its filter entity rotates, with every chunk complete. */
  lemma {:induction false} FilteredVdevBalanced(tree: Tree, req: VdevReq, hash: nat -> nat, offset: nat, left: map<Id, int>, plan: seq<seq<Pick>>)
    requires VdevRun(tree, req, hash, offset, left, plan) && |plan| <= req.vdev.chunkCnt
    requires req.filter.id != NO_ID && RoomForAll(tree, map[], req.filter.id, req.vdev.chunkCnt) && tree[req.filter.id].Keys != {}
    requires req.vdev.TotalRedundancyBlocksPerChunk() <= |tree[req.filter.id]|
    ensures Rotates(tree[req.filter.id], plan, offset, req.vdev.TotalRedundancyBlocksPerChunk())
  {
    hide Turn, ChunkRun, UsageAfter, LeftAfter, RotatesPlan, VdevRun;
    RotatedPlan(tree, req, hash, offset, left, plan, req.vdev.chunkCnt);
    forall c | 0 <= c < |plan| ensures |plan[c]| == req.vdev.TotalRedundancyBlocksPerChunk() {
      ChunkSize(tree, req, hash, offset, left, plan, c);
    }
  }

  lemma {:induction false} ChunkSize(tree: Tree, req: VdevReq, hash: nat -> nat, offset: nat, left: map<Id, int>, plan: seq<seq<Pick>>, c: nat)
    requires VdevRun(tree, req, hash, offset, left, plan) && c < |plan|
    ensures |plan[c]| == req.vdev.TotalRedundancyBlocksPerChunk()
  {
    hide ChunkRun, UsageAfter, LeftAfter;
    var n := |plan| - 1;
    if c < n {
      ChunkSize(tree, req, hash, offset, left, plan[..n], c);
    } else {
      PlacedSize(tree, req, hash(n), UsageAfter(tree, map[], Flat(plan[..n])), LeftAfter(left, Flat(plan[..n])), n + offset, plan[n]);
    }
  }
}
