/** Replicas apply the same log, each with its own random draw. When do they agree on a create?
    (controlplane/ctlplanefuncs/server/srvctlplanefuncs.go, lines 740-946 and 998-1104) */
module Replicas {
  import opened Changes
  import opened Finite
  import opened Lib
  import opened Index
  import opened Modulo
  import opened Pickers
  import opened Allocator
  import opened Placement
  import opened Completeness
  import opened VdevAllocator
  import opened Store
  import opened Ledger
  import opened Runs
  import opened ControlPlane

  // ----- one level -----

  /** Two plans from one state agree on every chunk both of them place. */
  lemma {:induction false} SamePlan(tree: Tree, req: VdevReq, hash: nat -> nat, offset: nat, left: map<Id, int>,
                                    plan1: seq<seq<Pick>>, plan2: seq<seq<Pick>>, n: nat)
    requires VdevRun(tree, req, hash, offset, left, plan1) && VdevRun(tree, req, hash, offset, left, plan2)
    requires n <= |plan1| && n <= |plan2|
    ensures plan1[..n] == plan2[..n]
  {
    hide ChunkRun, UsageAfter, LeftAfter, Flat;
    if n > 0 {
      SamePlan(tree, req, hash, offset, left, plan1, plan2, n - 1);
      ChunkAt(tree, req, hash, offset, left, plan1, n - 1);
      ChunkAt(tree, req, hash, offset, left, plan2, n - 1);
      NextIsDeterministic(tree, req, hash, offset, left, plan1[..n-1], Placed, plan1[n-1], Placed, plan2[n-1]);
      assert plan1[..n] == plan1[..n-1] + [plan1[n-1]] && plan2[..n] == plan2[..n-1] + [plan2[n-1]];
    }
  }

  lemma {:induction false} ChunkAt(tree: Tree, req: VdevReq, hash: nat -> nat, offset: nat, left: map<Id, int>, plan: seq<seq<Pick>>, c: nat)
    requires VdevRun(tree, req, hash, offset, left, plan) && c < |plan|
    ensures NextChunk(tree, req, hash, offset, left, plan[..c], Placed, plan[c])
  {
    hide NextChunk;
    var n := |plan| - 1;
    if c < n {
      ChunkAt(tree, req, hash, offset, left, plan[..n], c);
      assert plan[..n][..c] == plan[..c];
    }
  }

  lemma NextIsDeterministic(tree: Tree, req: VdevReq, hash: nat -> nat, offset: nat, left: map<Id, int>, before: seq<seq<Pick>>,
                            o1: Outcome, p1: seq<Pick>, o2: Outcome, p2: seq<Pick>)
    requires NextChunk(tree, req, hash, offset, left, before, o1, p1) && NextChunk(tree, req, hash, offset, left, before, o2, p2)
    ensures o1 == o2 && p1 == p2
  {
    hide ChunkRun, UsageAfter, LeftAfter, Flat;
    ChunkIsDeterministic(tree, req, hash(|before|), UsageAfter(tree, map[], Flat(before)), LeftAfter(left, Flat(before)),
                         |before| + offset, o1, p1, o2, p2);
  }

  lemma AttemptEndsOnce(tree: Tree, req: VdevReq, hash: nat -> nat, offset: nat, left: map<Id, int>,
                        o1: Outcome, plan1: seq<seq<Pick>>, rest1: seq<Pick>, o2: Outcome, plan2: seq<seq<Pick>>, rest2: seq<Pick>)
    requires AttemptRun(tree, req, hash, offset, left, o1, plan1, rest1) && AttemptRun(tree, req, hash, offset, left, o2, plan2, rest2)
    ensures |plan2| <= |plan1|
  {
    hide VdevRun, NextChunk;
    var n := |plan1|;
    if n < |plan2| {
      SamePlan(tree, req, hash, offset, left, plan1, plan2, n);
      ChunkAt(tree, req, hash, offset, left, plan2, n);
      assert plan1[..n] == plan1;
      NextIsDeterministic(tree, req, hash, offset, left, plan1, o1, rest1, Placed, plan2[n]);
    }
  }

  /** An attempt at a level is a function of its inputs. In particular an attempt that places the
      vdev excludes one that fails. */
  lemma AttemptIsDeterministic(tree: Tree, req: VdevReq, hash: nat -> nat, offset: nat, left: map<Id, int>,
                               o1: Outcome, plan1: seq<seq<Pick>>, rest1: seq<Pick>, o2: Outcome, plan2: seq<seq<Pick>>, rest2: seq<Pick>)
    requires AttemptRun(tree, req, hash, offset, left, o1, plan1, rest1) && AttemptRun(tree, req, hash, offset, left, o2, plan2, rest2)
    ensures o1 == o2 && plan1 == plan2
  {
    hide VdevRun, NextChunk;
    AttemptEndsOnce(tree, req, hash, offset, left, o1, plan1, rest1, o2, plan2, rest2);
    AttemptEndsOnce(tree, req, hash, offset, left, o2, plan2, rest2, o1, plan1, rest1);
    SamePlan(tree, req, hash, offset, left, plan1, plan2, |plan1|);
    assert plan1[..|plan1|] == plan1 && plan2[..|plan2|] == plan2;
    if o1 != Placed {
      NextIsDeterministic(tree, req, hash, offset, left, plan1, o1, rest1, o2, rest2);
    }
  }

  lemma PlacedExcludes(tree: Tree, objs: map<Id, Nisd>, req: VdevReq, hash: nat -> nat, offset: nat, plan: seq<seq<Pick>>,
                       alloc: map<Id, int>, out: Outcome)
    requires PlacedAt(tree, objs, req, hash, offset, plan, alloc)
    ensures AttemptEnds(tree, req, hash, offset, Left(objs, map[]), out) ==> out == Placed
  {
    hide VdevRun, VdevLooked, NextChunk;
    var left := Left(objs, map[]);
    assert AttemptRun(tree, req, hash, offset, left, Placed, plan, []);
    if AttemptEnds(tree, req, hash, offset, left, out) {
      var plan2, rest2 :| AttemptRun(tree, req, hash, offset, left, out, plan2, rest2);
      AttemptIsDeterministic(tree, req, hash, offset, left, Placed, plan, [], out, plan2, rest2);
    }
  }

  lemma EndsAlike(tree: Tree, req: VdevReq, hash: nat -> nat, offset: nat, left: map<Id, int>, o1: Outcome, o2: Outcome)
    requires AttemptEnds(tree, req, hash, offset, left, o1) && AttemptEnds(tree, req, hash, offset, left, o2)
    ensures o1 == o2
  {
    hide AttemptRun;
    var plan1, rest1 :| AttemptRun(tree, req, hash, offset, left, o1, plan1, rest1);
    var plan2, rest2 :| AttemptRun(tree, req, hash, offset, left, o2, plan2, rest2);
    AttemptIsDeterministic(tree, req, hash, offset, left, o1, plan1, rest1, o2, plan2, rest2);
  }

  /** The NISDs looked up are a function of the plan, and what they have left of the picks. */
  lemma PlacedOnce(tree: Tree, objs: map<Id, Nisd>, req: VdevReq, hash: nat -> nat, offset: nat,
                   plan1: seq<seq<Pick>>, alloc1: map<Id, int>, plan2: seq<seq<Pick>>, alloc2: map<Id, int>)
    requires PlacedAt(tree, objs, req, hash, offset, plan1, alloc1) && PlacedAt(tree, objs, req, hash, offset, plan2, alloc2)
    ensures plan1 == plan2 && alloc1 == alloc2
  {
    hide VdevRun, VdevLooked, NextChunk, LeftAfter, Flat, Left;
    var left := Left(objs, map[]);
    AttemptIsDeterministic(tree, req, hash, offset, left, Placed, plan1, [], Placed, plan2, []);
    forall n | n in alloc1 ensures alloc1[n] == alloc2[n] {
      LeftAt(objs, alloc1, n);
      LeftAt(objs, alloc2, n);
    }
  }

  // ----- the level and the whole create -----

  lemma FirstWideOnce(levels: seq<Tree>, total: nat, s1: nat, s2: nat)
    requires FirstWide(levels, total, s1) && FirstWide(levels, total, s2)
    ensures s1 == s2
  {
  }

  /** "The coarsest level that fits" is one level: a level that places the vdev ends the search. */
  lemma CoarsestIsFirst(levels: seq<Tree>, objs: map<Id, Nisd>, req: VdevReq, hash: nat -> nat, offset: nat,
                        l1: nat, plan: seq<seq<Pick>>, alloc: map<Id, int>, l2: nat)
    requires |levels| == FD_MAX && l1 < FD_MAX && PlacedAt(levels[l1], objs, req, hash, offset, plan, alloc)
    requires CoarsestThatFits(levels, req, hash, offset, Left(objs, map[]), l1)
    requires CoarsestThatFits(levels, req, hash, offset, Left(objs, map[]), l2)
    ensures l2 <= l1
  {
    hide PlacedAt, AttemptEnds;
    var left, total := Left(objs, map[]), req.vdev.TotalRedundancyBlocksPerChunk();
    var s1: nat :| FirstWide(levels, total, s1) && s1 <= l1 && FailsBetween(levels, req, hash, offset, left, s1, l1);
    var s2: nat :| FirstWide(levels, total, s2) && s2 <= l2 && FailsBetween(levels, req, hash, offset, left, s2, l2);
    FirstWideOnce(levels, total, s1, s2);
    if l1 < l2 {
      assert AttemptFails(levels[l1], req, hash, offset, left);
      PlacedExcludes(levels[l1], objs, req, hash, offset, plan, alloc, Failed);
    }
  }

  lemma NotNarrow(levels: seq<Tree>, req: VdevReq, hash: nat -> nat, offset: nat, left: map<Id, int>, l: nat)
    requires CoarsestThatFits(levels, req, hash, offset, left, l)
    ensures !NoWideLevel(levels, req.vdev.TotalRedundancyBlocksPerChunk())
  {
  }

  /** The outcome of an allocation is a function of the index, the request, the hashes and the offset. */
  lemma AllocIsDeterministic(levels: seq<Tree>, objs: map<Id, Nisd>, req: VdevReq, hash: nat -> nat, offset: nat,
                             o1: Outcome, l1: nat, plan1: seq<seq<Pick>>, alloc1: map<Id, int>,
                             o2: Outcome, l2: nat, plan2: seq<seq<Pick>>, alloc2: map<Id, int>)
    requires AllocOutcome(levels, objs, req, hash, offset, o1, l1, plan1, alloc1)
    requires AllocOutcome(levels, objs, req, hash, offset, o2, l2, plan2, alloc2)
    ensures o1 == o2
    ensures o1 == Placed ==> l1 == l2 && plan1 == plan2 && alloc1 == alloc2
  {
    AllocSameOutcome(levels, objs, req, hash, offset, o1, l1, plan1, alloc1, o2, l2, plan2, alloc2);
    AllocSameOutcome(levels, objs, req, hash, offset, o2, l2, plan2, alloc2, o1, l1, plan1, alloc1);
    hide PlacedAt, AttemptEnds, CoarsestThatFits, NoWideLevel;
    if o1 == Placed && o2 == Placed {
      if req.filter.fdType == FD_ANY {
        CoarsestIsFirst(levels, objs, req, hash, offset, l1, plan1, alloc1, l2);
        CoarsestIsFirst(levels, objs, req, hash, offset, l2, plan2, alloc2, l1);
      }
      PlacedOnce(levels[l1], objs, req, hash, offset, plan1, alloc1, plan2, alloc2);
    }
  }

  lemma AllocSameOutcome(levels: seq<Tree>, objs: map<Id, Nisd>, req: VdevReq, hash: nat -> nat, offset: nat,
                         o1: Outcome, l1: nat, plan1: seq<seq<Pick>>, alloc1: map<Id, int>,
                         o2: Outcome, l2: nat, plan2: seq<seq<Pick>>, alloc2: map<Id, int>)
    requires AllocOutcome(levels, objs, req, hash, offset, o1, l1, plan1, alloc1)
    requires AllocOutcome(levels, objs, req, hash, offset, o2, l2, plan2, alloc2)
    ensures o1 == Placed ==> o2 == Placed
    ensures o1 != Placed && o2 != Placed ==> o1 == o2
  {
    hide PlacedAt, AttemptEnds, CoarsestThatFits, NoWideLevel;
    var left := Left(objs, map[]);
    if req.filter.fdType != FD_ANY {
      if o1 == Placed {
        PlacedExcludes(levels[l1], objs, req, hash, offset, plan1, alloc1, o2);
      } else if o2 != Placed {
        EndsAlike(levels[l1], req, hash, offset, left, o1, o2);
      }
    } else if o1 == Placed && o2 != Placed {
      NotNarrow(levels, req, hash, offset, left, l1);
      CoarsestIsFirst(levels, objs, req, hash, offset, l1, plan1, alloc1, FD_MAX);
    }
  }

  /** The vdev names a PFS, by id or by name. */
  predicate AsksForPfs(v: VdevConfig) { v.pfsId != NO_ID || v.pfsName != "" }

  lemma StartsOnce(s: KV, v: VdevConfig, rand1: nat, rand2: nat, pfs1: Id, off1: nat, pfs2: Id, off2: nat)
    requires PfsUsable(s) && StartsAt(s, v, rand1, pfs1, off1) && StartsAt(s, v, rand2, pfs2, off2)
    requires AsksForPfs(v) || rand1 == rand2
    ensures pfs1 == pfs2 && off1 == off2
    ensures !PfsMissing(s, v) && !OffsetMissing(s, v)
  {
  }

  /** The apply of a create is a function of the store, the index, the request and the hashes, and of
      the draw only if no PFS is named: two replicas that apply it with draws of their own give the same
      reply and end in the same state, with the same level, plan and offset. */
  lemma CreateIsDeterministic(s: KV, levels: seq<Tree>, objs: map<Id, Nisd>, p: Prep, hash: nat -> nat,
                              rand1: nat, c1: CreateResult, rand2: nat, c2: CreateResult)
    requires PfsUsable(s)
    requires CreateOutcome(s, levels, objs, p, hash, rand1, c1) && CreateOutcome(s, levels, objs, p, hash, rand2, c2)
    requires AsksForPfs(p.req.vdev) || rand1 == rand2
    ensures c1.reply == c2.reply && c1.store == c2.store && c1.objs == c2.objs
    ensures c1.reply == Created ==> c1 == c2
  {
    hide AllocOutcome, PfsUsable, PfsMissing, OffsetMissing, StartsAt, NameFree, ApplyAll, CreateChanges, CommittedObjs, FindsPfs, DrawsFrom;
    SameReply(s, levels, objs, p, hash, rand1, c1, rand2, c2);
    if c1.reply == Created {
      StartsOnce(s, p.req.vdev, rand1, rand2, c1.pfs, c1.off, c2.pfs, c2.off);
      AllocIsDeterministic(levels, objs, p.req, hash, c1.off, Placed, c1.level, c1.plan, c1.alloc, Placed, c2.level, c2.plan, c2.alloc);
    }
  }

  /** The outcome of the allocator that goes with a reply. */
  ghost function OutcomeOf(r: CreateReply): Outcome { if r == Created then Placed else if r == NoRoom then Failed else Spins }

  predicate Allocates(r: CreateReply) { r == Created || r == NoRoom || r == Hangs }

  lemma AllocatesWith(s: KV, levels: seq<Tree>, objs: map<Id, Nisd>, p: Prep, hash: nat -> nat, rand: nat, c: CreateResult)
    requires CreateOutcome(s, levels, objs, p, hash, rand, c) && Allocates(c.reply)
    ensures NameFree(s, p.req.vdev.name) && StartsAt(s, p.req.vdev, rand, c.pfs, c.off)
    ensures AllocOutcome(levels, objs, p.req, hash, c.off, OutcomeOf(c.reply), c.level, c.plan, c.alloc)
  {
  }

  lemma SameReply(s: KV, levels: seq<Tree>, objs: map<Id, Nisd>, p: Prep, hash: nat -> nat,
                  rand1: nat, c1: CreateResult, rand2: nat, c2: CreateResult)
    requires PfsUsable(s)
    requires CreateOutcome(s, levels, objs, p, hash, rand1, c1) && CreateOutcome(s, levels, objs, p, hash, rand2, c2)
    requires AsksForPfs(p.req.vdev) || rand1 == rand2
    ensures c1.reply == c2.reply
  {
    hide AllocOutcome, PfsUsable, NameFree, ApplyAll, CreateChanges, CommittedObjs, DrawsFrom, CreateStep;
    if Allocates(c1.reply) && Allocates(c2.reply) {
      AllocatesWith(s, levels, objs, p, hash, rand1, c1);
      AllocatesWith(s, levels, objs, p, hash, rand2, c2);
      StartsOnce(s, p.req.vdev, rand1, rand2, c1.pfs, c1.off, c2.pfs, c2.off);
      AllocIsDeterministic(levels, objs, p.req, hash, c1.off, OutcomeOf(c1.reply), c1.level, c1.plan, c1.alloc,
                           OutcomeOf(c2.reply), c2.level, c2.plan, c2.alloc);
    } else if Allocates(c1.reply) {
      AllocatesWith(s, levels, objs, p, hash, rand1, c1);
      StartsOnce(s, p.req.vdev, rand1, rand1, c1.pfs, c1.off, c1.pfs, c1.off);
    } else if Allocates(c2.reply) {
      AllocatesWith(s, levels, objs, p, hash, rand2, c2);
      StartsOnce(s, p.req.vdev, rand2, rand2, c2.pfs, c2.off, c2.pfs, c2.off);
    }
  }

  /** The indexes that two replicas end with have the same entities, devices, members and totals. */
  lemma IndexesMatch(levels: seq<Tree>, objs: map<Id, Nisd>, objs': map<Id, Nisd>, levels1: seq<Tree>, levels2: seq<Tree>,
                     x: (int, Id, Id) -> int, i: nat, e: Id, d: Id, n: Id)
    requires Agrees(levels1, objs') && Agrees(levels2, objs') && i < FD_MAX
    requires SkewGrows(levels, objs, levels1, objs', x) && SkewGrows(levels, objs, levels2, objs', x)
    ensures |levels1| == FD_MAX == |levels2| && levels1[i].Keys == levels2[i].Keys
    ensures Listed(levels1[i], e, d, n) <==> Listed(levels2[i], e, d, n)
    ensures Dev(levels1[i], e, d).Some? <==> Dev(levels2[i], e, d).Some?
    ensures Dev(levels1[i], e, d).Some? ==> levels1[i][e][d].avail == levels2[i][e][d].avail
  {
    AgreementDeterminesIndex(levels1, levels2, objs', i);
  }

  /** A create without a filter entity is not refused for room, and does not hang, as long as no total
      is too high, NISDs have whole chunks, and enough entities of some admissible level have room. */
  lemma CreateFindsRoom(s: KV, levels: seq<Tree>, objs: map<Id, Nisd>, p: Prep, hash: nat -> nat, rand: nat, c: CreateResult,
                        l: nat, roomy: set<Id>)
    requires CreateOutcome(s, levels, objs, p, hash, rand, c) && NeverHigh(levels, objs) && l <= DEVICE_IDX
    requires p.req.filter.id == NO_ID && (p.req.filter.fdType == FD_ANY || GetFDIdx(p.req.filter.fdType) == l)
    requires EnoughRoom(levels[l], p.req.vdev.TotalRedundancyBlocksPerChunk(), p.req.vdev.chunkCnt, roomy)
    ensures c.reply != NoRoom && c.reply != Hangs && (c.reply == Created ==> c.level <= l)
  {
    hide AllocOutcome, NeverHigh, EnoughRoom, CreateOutcome;
    if Allocates(c.reply) {
      AllocatesWith(s, levels, objs, p, hash, rand, c);
      RoomIsFound(levels, objs, p.req, hash, c.off, OutcomeOf(c.reply), c.level, c.plan, c.alloc, l, roomy);
    }
  }

  /** The apply of a create that names a level and no entity never returns if and only if its name is
      free, its PFS is found, and it asks for more blocks than the level has entities while every entity
      has room; given whole chunks and totals that are never too high. */
  lemma CreateHangsIff(s: KV, levels: seq<Tree>, objs: map<Id, Nisd>, p: Prep, hash: nat -> nat, rand: nat, c: CreateResult)
    requires PfsUsable(s) && CreateOutcome(s, levels, objs, p, hash, rand, c) && NeverHigh(levels, objs)
    requires p.req.filter.id == NO_ID && 0 <= GetFDIdx(p.req.filter.fdType) <= DEVICE_IDX && p.req.vdev.chunkCnt > 0
    ensures c.reply == Hangs <==>
              NameFree(s, p.req.vdev.name) && !PfsMissing(s, p.req.vdev) && !OffsetMissing(s, p.req.vdev)
              && Jams(levels[GetFDIdx(p.req.filter.fdType)], p.req.vdev.TotalRedundancyBlocksPerChunk())
  {
    hide AllocOutcome, NeverHigh, Jams, PfsUsable, NameFree, ApplyAll, CreateChanges, CommittedObjs, DrawsFrom, CreateStep;
    if Allocates(c.reply) {
      AllocatesWith(s, levels, objs, p, hash, rand, c);
      StartsOnce(s, p.req.vdev, rand, rand, c.pfs, c.off, c.pfs, c.off);
      HangsIffJammed(levels, objs, p.req, hash, c.off, OutcomeOf(c.reply), c.level, c.plan, c.alloc);
    }
  }
}
