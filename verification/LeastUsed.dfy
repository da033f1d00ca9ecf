/** Which device of a filter entity a block goes to, by the number of blocks that the vdev has there
    (controlplane/ctlplanefuncs/server/hierarchy.go, lines 214-295,
    controlplane/ctlplanefuncs/server/srvctlplanefuncs.go, lines 784-806). */
module LeastUsed {
  import opened Finite
  import opened Lib
  import opened Index
  import opened Modulo
  import opened Pickers
  import opened Allocator
  import opened Placement
  import opened VdevAllocator
  import opened Replicas
  import Turns = Rotation

  /** The usage of a device is the number of blocks that stand on it, and its space shrinks by a chunk each. */
  lemma {:induction false} UsageCounts(tree: Tree, e: Id, picks: seq<Pick>, d: Id)
    requires e in tree && d in tree[e] && AllInside(tree, e, picks)
    ensures UsageOf(UsageAfter(tree, map[], picks), d) == Turns.PicksOn(picks, d)
    ensures LeftOn(tree[e], UsageAfter(tree, map[], picks), d) == Room(tree[e], picks, d)
  {
    if picks != [] {
      var n := |picks| - 1;
      assert picks[n] in picks && forall p :: p in picks[..n] ==> p in picks;
      UsageCounts(tree, e, picks[..n], d);
      UsageCounts(tree, e, picks[..n], picks[n].device);
    }
  }

  ghost predicate AllInside(tree: Tree, e: Id, picks: seq<Pick>) {
    e in tree && forall p :: p in picks ==> p.entity == e && p.device in tree[e]
  }

  /** What the total of a device has left after the picks. */
  ghost function Room(devs: Devices, picks: seq<Pick>, d: Id): int
    requires d in devs
  {
    devs[d].avail - 8589934592 * Turns.PicksOn(picks, d)
  }

  /** The blocks of the vdev before block j of chunk c. */
  ghost function Earlier(plan: seq<seq<Pick>>, c: nat, j: nat): seq<Pick>
    requires c < |plan| && j <= |plan[c]|
  {
    Flat(plan[..c]) + plan[c][..j]
  }

  lemma {:induction false} PlanInside(tree: Tree, req: VdevReq, hash: nat -> nat, offset: nat, left: map<Id, int>, plan: seq<seq<Pick>>, c: nat)
    requires VdevRun(tree, req, hash, offset, left, plan) && req.filter.id in tree && req.filter.id != NO_ID && c <= |plan|
    ensures AllInside(tree, req.filter.id, Flat(plan[..c]))
  {
    hide UsageAfter, LeftAfter, VdevRun, AllInside, Flat, Chain;
    if c == 0 {
      NothingInside(tree, req.filter.id);
    } else {
      PlanInside(tree, req, hash, offset, left, plan, c - 1);
      ChunkInside(tree, req, hash, offset, left, plan, c - 1);
      assert plan[..c] == plan[..c-1] + [plan[c-1]];
      FlatStep(plan[..c-1], plan[c-1]);
      MoreInside(tree, req.filter.id, Flat(plan[..c-1]), plan[c-1]);
    }
  }

  lemma {:induction false} NothingInside(tree: Tree, e: Id)
    requires e in tree
    ensures AllInside(tree, e, Flat([]))
  {
  }

  lemma {:induction false} MoreInside(tree: Tree, e: Id, a: seq<Pick>, b: seq<Pick>)
    requires AllInside(tree, e, a) && AllInside(tree, e, b)
    ensures AllInside(tree, e, a + b)
  {
  }

  lemma {:induction false} ChunkInside(tree: Tree, req: VdevReq, hash: nat -> nat, offset: nat, left: map<Id, int>, plan: seq<seq<Pick>>, c: nat)
    requires VdevRun(tree, req, hash, offset, left, plan) && req.filter.id in tree && req.filter.id != NO_ID && c < |plan|
    ensures AllInside(tree, req.filter.id, plan[c])
    ensures Chain(tree, UsageAfter(tree, map[], Flat(plan[..c])), LeftAfter(left, Flat(plan[..c])), c + offset, plan[c])
  {
    hide UsageAfter, LeftAfter, VdevRun, Chain;
    ChunkAt(tree, req, hash, offset, left, plan, c);
    ChainListed(tree, UsageAfter(tree, map[], Flat(plan[..c])), LeftAfter(left, Flat(plan[..c])), c + offset, plan[c]);
    forall p | p in plan[c] ensures p.device in tree[req.filter.id] { assert Listed(tree, p.entity, p.device, p.nisd); }
  }

  /** The probe that block j of chunk c was placed with. */
  lemma ProbeOf(tree: Tree, req: VdevReq, hash: nat -> nat, offset: nat, left: map<Id, int>, plan: seq<seq<Pick>>, c: nat, j: nat)
    returns (q: Probe)
    requires VdevRun(tree, req, hash, offset, left, plan) && req.filter.id in tree && req.filter.id != NO_ID && c < |plan| && j < |plan[c]|
    ensures Picks(tree, q, plan[c][j]) && plan[c][j].entity == req.filter.id && AllInside(tree, req.filter.id, Earlier(plan, c, j))
    ensures q.devices == DevicesOf(plan[c][..j]) && q.usage == UsageAfter(tree, map[], Earlier(plan, c, j)) && q.off == c + offset + j
  {
    hide UsageAfter, LeftAfter, VdevRun, Picks, Chain, DevicesOf, NisdsOf;
    var e, u := req.filter.id, UsageAfter(tree, map[], Flat(plan[..c]));
    PlanInside(tree, req, hash, offset, left, plan, c);
    ChunkInside(tree, req, hash, offset, left, plan, c);
    assert plan[c][j] in plan[c] && forall p :: p in plan[c][..j] ==> p in plan[c];
    PickAt(tree, u, LeftAfter(left, Flat(plan[..c])), c + offset, plan[c], j);
    UsageAppend(tree, map[], Flat(plan[..c]), plan[c][..j]);
    q := ProbeAfter(tree, u, LeftAfter(left, Flat(plan[..c])), c + offset, plan[c][..j]);
  }

  /** Device d has a block among picks. */
  ghost predicate Used(picks: seq<Pick>, d: Id) { exists i :: 0 <= i < |picks| && picks[i].device == d }

  lemma UsedIsPicked(picks: seq<Pick>, d: Id)
    ensures d in DevicesOf(picks) <==> Used(picks, d)
  {
    if p :| p in picks && p.device == d { var i :| 0 <= i < |picks| && picks[i] == p; }
    if i :| 0 <= i < |picks| && picks[i].device == d { assert picks[i] in picks; }
  }

  /** Fewer blocks of the vdev, or as many and more space. */
  ghost predicate Better(devs: Devices, picks: seq<Pick>, a: Id, b: Id)
    requires a in devs && b in devs
  {
    Turns.PicksOn(picks, a) < Turns.PicksOn(picks, b)
    || (Turns.PicksOn(picks, a) == Turns.PicksOn(picks, b) && Room(devs, picks, a) > Room(devs, picks, b))
  }

  /** Device d of turn k, counted from turn x, is ahead of device o of turn m. */
  ghost predicate Ahead(devs: Devices, chunk: seq<Pick>, all: seq<Pick>, d: Id, k: nat, o: Id, m: nat)
    requires d in devs && o in devs
  {
    if !Used(chunk, d) then Used(chunk, o) || k <= m
    else Used(chunk, o) && (Better(devs, all, d, o) || (k <= m && !Better(devs, all, o, d)))
  }

  /** The device of turn m, counted from turn x, has no room, or d of turn k is ahead of it. */
  ghost predicate NotBehind(devs: Devices, chunk: seq<Pick>, all: seq<Pick>, x: nat, d: Id, k: nat, m: nat)
    requires d in devs
  {
    var o := Turns.Turn(devs, x + m);
    o in devs && (Room(devs, all, o) >= 8589934592 ==> Ahead(devs, chunk, all, d, k, o, m))
  }

  ghost predicate AheadOfAll(devs: Devices, chunk: seq<Pick>, all: seq<Pick>, x: nat, d: Id, k: nat)
    requires d in devs
  {
    forall m: nat | m < |devs| :: NotBehind(devs, chunk, all, x, d, k, m)
  }

  /** A block goes to a device with room; among the devices with room to one that has no block of the chunk
      yet, the first from turn c + offset + j on; and if all have one, to the one with the fewest blocks of
      the vdev, among those to one with the most space left, and among those to the first. */
  lemma BlockGoesTo(tree: Tree, req: VdevReq, hash: nat -> nat, offset: nat, left: map<Id, int>, plan: seq<seq<Pick>>, c: nat, j: nat)
    returns (k: nat)
    requires VdevRun(tree, req, hash, offset, left, plan) && req.filter.id in tree && req.filter.id != NO_ID && c < |plan| && j < |plan[c]|
    ensures var devs, all, d := tree[req.filter.id], Earlier(plan, c, j), plan[c][j].device;
            && d in devs && Room(devs, all, d) >= 8589934592 && k < |devs| && d == Turns.Turn(devs, c + offset + j + k)
            && AheadOfAll(devs, plan[c][..j], all, c + offset + j, d, k)
  {
    hide UsageAfter, LeftAfter, VdevRun, AllInside, Rotation, Turns.Turn, Better, DevicesOf;
    var e, all, d := req.filter.id, Earlier(plan, c, j), plan[c][j].device;
    var devs, chunk := tree[e], plan[c][..j];
    var q := ProbeOf(tree, req, hash, offset, left, plan, c, j);
    var x := c + offset + j;
    var rs := Rotation(Ranked(devs.Keys), x);
    UsedIsPicked(chunk, d);
    UsageCounts(tree, e, all, d);
    assert Eligible(devs, q.usage, d);
    HasTurns(devs, x, d);
    if d !in q.devices {
      k :| FirstOpen(devs, q.devices, q.usage, rs, d, k);
    } else {
      k :| Fallback(devs, q.usage, rs, d, k, |rs|);
    }
    forall m: nat | m < |devs| ensures NotBehind(devs, chunk, all, x, d, k, m) {
      OtherTurn(tree, e, chunk, all, q, x, d, k, m);
    }
    TurnStands(devs, x, k);
  }

  lemma {:induction false} OtherTurn(tree: Tree, e: Id, chunk: seq<Pick>, all: seq<Pick>, q: Probe, x: nat, d: Id, k: nat, m: nat)
    requires e in tree && d in tree[e] && AllInside(tree, e, all) && k < |tree[e]| && m < |tree[e]|
    requires q.devices == DevicesOf(chunk) && q.usage == UsageAfter(tree, map[], all)
    requires var devs, rs := tree[e], Rotation(Ranked(tree[e].Keys), x);
             if d !in q.devices then FirstOpen(devs, q.devices, q.usage, rs, d, k)
             else (forall o :: !Pickers.Open(devs, q.devices, q.usage, o)) && Fallback(devs, q.usage, rs, d, k, |rs|)
    ensures NotBehind(tree[e], chunk, all, x, d, k, m)
  {
    hide UsageAfter, AllInside, Rotation, Turns.Turn, Better, DevicesOf, Beats;
    var devs, rs := tree[e], Rotation(Ranked(tree[e].Keys), x);
    HasTurns(devs, x, d);
    TurnStands(devs, x, m);
    var o := rs[m];
    UsedIsPicked(chunk, d);
    UsedIsPicked(chunk, o);
    UsageCounts(tree, e, all, o);
    BetterIsBeats(tree, e, all, d, o);
    if Room(devs, all, o) >= 8589934592 {
      assert Eligible(devs, q.usage, o);
      assert m < k && d !in q.devices ==> !Pickers.Open(devs, q.devices, q.usage, rs[m]);
      assert d in q.devices ==> !Pickers.Open(devs, q.devices, q.usage, o) && NoWorse(devs, q.usage, rs, d, k, m);
    }
  }

  lemma HasTurns(devs: Devices, x: nat, d: Id)
    requires d in devs
    ensures devs.Keys != {} && |Rotation(Ranked(devs.Keys), x)| == |devs|
  {
  }

  lemma TurnStands(devs: Devices, x: nat, m: nat)
    requires devs.Keys != {} && m < |Rotation(Ranked(devs.Keys), x)|
    ensures Rotation(Ranked(devs.Keys), x)[m] == Turns.Turn(devs, x + m) && Turns.Turn(devs, x + m) in devs
  {
    Turns.TurnIsDevice(devs, x + m);
  }

  lemma {:induction false} BetterIsBeats(tree: Tree, e: Id, all: seq<Pick>, a: Id, b: Id)
    requires e in tree && a in tree[e] && b in tree[e] && AllInside(tree, e, all)
    ensures Better(tree[e], all, a, b) <==> Beats(tree[e], UsageAfter(tree, map[], all), a, b)
    ensures Better(tree[e], all, b, a) <==> Beats(tree[e], UsageAfter(tree, map[], all), b, a)
  {
    hide UsageAfter;
    UsageCounts(tree, e, all, a);
    UsageCounts(tree, e, all, b);
  }

  /** A block that repeats a device of its chunk: every device with room has one too, and none of them has
      fewer blocks of the vdev so far. */
  lemma {:induction false} RepeatIsLeastUsed(tree: Tree, req: VdevReq, hash: nat -> nat, offset: nat, left: map<Id, int>, plan: seq<seq<Pick>>,
                          c: nat, j: nat, i: nat, o: Id)
    requires VdevRun(tree, req, hash, offset, left, plan) && req.filter.id in tree && req.filter.id != NO_ID && c < |plan| && j < |plan[c]|
    requires i < j && plan[c][i].device == plan[c][j].device && o in tree[req.filter.id]
    requires tree[req.filter.id][o].avail - 8589934592 * Turns.PicksOn(Earlier(plan, c, j), o) >= 8589934592
    ensures Used(plan[c][..j], o)
    ensures plan[c][j].device in tree[req.filter.id]
    ensures Turns.PicksOn(Earlier(plan, c, j), plan[c][j].device) <= Turns.PicksOn(Earlier(plan, c, j), o)
  {
    hide UsageAfter, LeftAfter, VdevRun, Turns.Turn, Turns.PicksOn, Earlier;
    var devs, x := tree[req.filter.id], c + offset + j;
    var k := BlockGoesTo(tree, req, hash, offset, left, plan, c, j);
    var m := TurnOf(devs, x, o);
    assert NotBehind(devs, plan[c][..j], Earlier(plan, c, j), x, plan[c][j].device, k, m);
    assert plan[c][..j][i].device == plan[c][j].device;
  }

  lemma TurnOf(devs: Devices, x: nat, o: Id) returns (m: nat)
    requires o in devs
    ensures m < |devs| && Turns.Turn(devs, x + m) == o
  {
    hide Rotation, Turns.Turn;
    HasTurns(devs, x, o);
    RotationCovers(Ranked(devs.Keys), x, o);
    m :| 0 <= m < |Rotation(Ranked(devs.Keys), x)| && Rotation(Ranked(devs.Keys), x)[m] == o;
    TurnStands(devs, x, m);
  }
}
