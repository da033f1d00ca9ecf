/** What a placed create leaves in the store, in the terms of the request and of the NISD records alone
    (controlplane/ctlplanefuncs/server/srvctlplanefuncs.go, lines 612-946 and 998-1104). */
module Requests {
  import opened Changes
  import opened Finite
  import opened Lib
  import opened Index
  import opened Pickers
  import opened Allocator
  import opened Placement
  import opened VdevAllocator
  import opened Store
  import opened Ledger
  import opened Runs
  import opened ControlPlane
  import opened Completeness
  import opened Replicas
  import Turns = Rotation

  // ----- which placement keys there are -----

  lemma {:induction false} ChunkMentions(v: VdevConfig, c: nat, picks: seq<Pick>, k: Key) returns (i: nat)
    requires Mentions(ChunkChanges(v, c, picks), k) && k.ChunkKey?
    ensures i < |picks| && k == BlockKey(v, c, i)
  {
    var n := |picks| - 1;
    var before, last := ChunkChanges(v, c, picks[..n]), BlockChanges(v, c, n, picks[n].nisd);
    MentionsAppend(before, last, k);
    if Mentions(last, k) { i := n; } else { i := ChunkMentions(v, c, picks[..n], k); }
  }

  lemma {:induction false} PlanMentions(v: VdevConfig, plan: seq<seq<Pick>>, k: Key) returns (c: nat, i: nat)
    requires Mentions(VdevChanges(v, plan), k) && k.ChunkKey?
    ensures c < |plan| && i < |plan[c]| && k == BlockKey(v, c, i)
  {
    hide ChunkChanges, BlockKey;
    var n := |plan| - 1;
    MentionsAppend(VdevChanges(v, plan[..n]), ChunkChanges(v, n, plan[n]), k);
    if Mentions(ChunkChanges(v, n, plan[n]), k) {
      i := ChunkMentions(v, n, plan[n], k);
      c := n;
    } else {
      c, i := PlanMentions(v, plan[..n], k);
    }
  }

  /** Every placement key of the new vdev is the key of a block of the plan. */
  lemma KeyIsBlock(s: KV, p: Prep, pfs: Id, off: nat, plan: seq<seq<Pick>>, alloc: map<Id, int>, k: Key) returns (c: nat, i: nat)
    requires NoTrace(s, p.req.vdev.id) && (p.req.vdev.pfsId != NO_ID ==> pfs == p.req.vdev.pfsId)
    requires k.ChunkKey? && k.vdev == p.req.vdev.id && k in ApplyAll(s, CreateChanges(p, pfs, off, plan, alloc))
    ensures c < |plan| && i < |plan[c]| && k == BlockKey(p.req.vdev, c, i)
  {
    hide ApplyAll, VdevChanges, AvailChanges, PrepChanges, PfsChanges, Mentions, Lawful, BlockKey;
    var v := p.req.vdev;
    var pre, mid, post := PreChanges(p, pfs), VdevChanges(v, plan), PostChanges(pfs, off + v.TotalRedundancyBlocksPerChunk(), alloc);
    assert CreateChanges(p, pfs, off, plan, alloc) == pre + mid + post;
    ApplyAllAppend(s, pre, mid);
    ApplyAllAppend(s, pre + mid, post);
    PostEffect(ApplyAll(s, pre + mid), pfs, off + v.TotalRedundancyBlocksPerChunk(), alloc);
    assert SameAt(ApplyAll(s, pre + mid), ApplyAll(ApplyAll(s, pre + mid), post), k);
    PreEffect(s, p, pfs);
    assert SameAt(s, ApplyAll(s, pre), k);
    if Mentions(mid, k) { c, i := PlanMentions(v, plan, k); } else { Untouched(ApplyAll(s, pre), mid, k); }
  }

  /** The blocks that the request asks for in every chunk: dataBlkCnt replicas, or dataBlkCnt data and
      parityBlkCnt parity blocks. */
  ghost predicate Wanted(v: VdevConfig, pre: Prefix, i: nat) {
    match v.redundancy
    case RMReplica => pre == D && i < v.dataBlkCnt
    case _ => if pre == D then i < v.dataBlkCnt else i < v.parityBlkCnt
  }

  /** The blocks it gets: where the sum of the counts does not fit into 8 bits, what is left of the sum,
      all of it data. */
  ghost predicate Gets(v: VdevConfig, pre: Prefix, i: nat) {
    if !v.redundancy.RMReplica? && v.dataBlkCnt + v.parityBlkCnt > 255 then pre == D && i < v.dataBlkCnt + v.parityBlkCnt - 256
    else Wanted(v, pre, i)
  }

  lemma GetsByBlock(v: VdevConfig, c: nat, pre: Prefix, i: nat) returns (j: nat)
    ensures Gets(v, pre, i) <==> j < v.TotalRedundancyBlocksPerChunk() && ChunkKey(v.id, c, pre, i) == BlockKey(v, c, j)
  {
    j := if pre == D then i else v.dataBlkCnt + i;
  }

  lemma BlockIsGotten(v: VdevConfig, c: nat, j: nat)
    requires j < v.TotalRedundancyBlocksPerChunk()
    ensures BlockKey(v, c, j).ChunkKey? && BlockKey(v, c, j).chunk == c && Gets(v, BlockKey(v, c, j).prefix, BlockKey(v, c, j).seqNo)
  {
  }

  lemma SizesOf(s: KV, levels: seq<Tree>, objs: map<Id, Nisd>, p: Prep, hash: nat -> nat, rand: nat, c: CreateResult, ch: nat)
    requires CreateOutcome(s, levels, objs, p, hash, rand, c) && c.reply == Created
    ensures |c.plan| == p.req.vdev.chunkCnt
    ensures ch < |c.plan| ==> |c.plan[ch]| == p.req.vdev.TotalRedundancyBlocksPerChunk()
  {
    hide CreateOutcome, VdevRun, VdevLooked, LeftAfter;
    CreatedAt(s, levels, objs, p, hash, rand, c);
    if ch < |c.plan| { Turns.ChunkSize(levels[c.level], p.req, hash, c.off, Left(objs, map[]), c.plan, ch); }
  }

  lemma {:induction false} StepOf(s: KV, levels: seq<Tree>, objs: map<Id, Nisd>, p: Prep, hash: nat -> nat, rand: nat, c: CreateResult)
    requires CreateOutcome(s, levels, objs, p, hash, rand, c) && c.reply == Created
    ensures c.store == ApplyAll(s, CreateChanges(p, c.pfs, c.off, c.plan, c.alloc))
    ensures p.req.vdev.pfsId != NO_ID ==> c.pfs == p.req.vdev.pfsId
  {
    hide AllocOutcome, ApplyAll, CreateChanges, CommittedObjs, DrawsFrom;
  }

  /** After a create the placement keys of its vdev are those of the blocks it gets, in each of its chunks. */
  lemma StoredBlocks(s: KV, levels: seq<Tree>, objs: map<Id, Nisd>, p: Prep, hash: nat -> nat, rand: nat, c: CreateResult,
                     ch: nat, pre: Prefix, i: nat)
    requires NoTrace(s, p.req.vdev.id) && CreateOutcome(s, levels, objs, p, hash, rand, c) && c.reply == Created
    ensures ChunkKey(p.req.vdev.id, ch, pre, i) in c.store <==> ch < p.req.vdev.chunkCnt && Gets(p.req.vdev, pre, i)
  {
    hide CreateOutcome, ApplyAll, CreateChanges, BlockKey, Gets;
    var v, k := p.req.vdev, ChunkKey(p.req.vdev.id, ch, pre, i);
    StepOf(s, levels, objs, p, hash, rand, c);
    SizesOf(s, levels, objs, p, hash, rand, c, ch);
    if ch < v.chunkCnt && Gets(v, pre, i) {
      var j := GetsByBlock(v, ch, pre, i);
      BlockKeyHolds(s, p, c.pfs, c.off, c.plan, c.alloc, ch, j);
    }
    if k in c.store {
      var c2, j := KeyIsBlock(s, p, c.pfs, c.off, c.plan, c.alloc, k);
      SizesOf(s, levels, objs, p, hash, rand, c, c2);
      BlockIsGotten(v, c2, j);
    }
  }

  /** The placement keys of the vdev are those the request asks for, in each of its chunks. */
  ghost predicate AsWanted(s: KV, v: VdevConfig) { forall ch: nat, pre, i: nat :: WantedAt(s, v, ch, pre, i) }

  ghost predicate WantedAt(s: KV, v: VdevConfig, ch: nat, pre: Prefix, i: nat) {
    ChunkKey(v.id, ch, pre, i) in s <==> ch < v.chunkCnt && Wanted(v, pre, i)
  }

  /** They are if and only if there is no chunk, or the vdev is replicated, or the two counts together fit
      into 8 bits. */
  lemma StoredAsWantedIff(s: KV, levels: seq<Tree>, objs: map<Id, Nisd>, p: Prep, hash: nat -> nat, rand: nat, c: CreateResult)
    requires NoTrace(s, p.req.vdev.id) && CreateOutcome(s, levels, objs, p, hash, rand, c) && c.reply == Created
    ensures AsWanted(c.store, p.req.vdev)
            <==> p.req.vdev.chunkCnt == 0 || p.req.vdev.redundancy.RMReplica? || p.req.vdev.dataBlkCnt + p.req.vdev.parityBlkCnt <= 255
  {
    hide CreateOutcome, NoTrace, Gets, Wanted;
    var v := p.req.vdev;
    if v.chunkCnt == 0 || v.redundancy.RMReplica? || v.dataBlkCnt + v.parityBlkCnt <= 255 {
      forall ch: nat, pre, i: nat ensures WantedAt(c.store, v, ch, pre, i) {
        StoredBlocks(s, levels, objs, p, hash, rand, c, ch, pre, i);
        if v.chunkCnt > 0 { GetsAsWanted(v, pre, i); }
      }
    } else {
      StoredBlocks(s, levels, objs, p, hash, rand, c, 0, P, 0);
      NoParity(v);
      assert !WantedAt(c.store, v, 0, P, 0);
    }
  }

  lemma GetsAsWanted(v: VdevConfig, pre: Prefix, i: nat)
    requires v.redundancy.RMReplica? || v.dataBlkCnt + v.parityBlkCnt <= 255
    ensures Gets(v, pre, i) <==> Wanted(v, pre, i)
  {
  }

  lemma NoParity(v: VdevConfig)
    requires !v.redundancy.RMReplica? && v.dataBlkCnt + v.parityBlkCnt > 255
    ensures Wanted(v, P, 0) && !Gets(v, P, 0)
  {
  }

  /** 200 data and 100 parity blocks: a chunk gets 44 data blocks and no parity. */
  lemma WideCodeLosesParity(s: KV, levels: seq<Tree>, objs: map<Id, Nisd>, p: Prep, hash: nat -> nat, rand: nat, c: CreateResult, i: nat)
    requires NoTrace(s, p.req.vdev.id) && CreateOutcome(s, levels, objs, p, hash, rand, c) && c.reply == Created
    requires p.req.vdev.redundancy == RMEC32K && p.req.vdev.dataBlkCnt == 200 && p.req.vdev.parityBlkCnt == 100 && p.req.vdev.chunkCnt > 0
    ensures ChunkKey(p.req.vdev.id, 0, D, i) in c.store <==> i < 44
    ensures ChunkKey(p.req.vdev.id, 0, P, i) !in c.store
  {
    hide CreateOutcome, NoTrace;
    StoredBlocks(s, levels, objs, p, hash, rand, c, 0, D, i);
    StoredBlocks(s, levels, objs, p, hash, rand, c, 0, P, i);
  }

  /** The offset of the PFS moves on by the number of blocks a chunk gets. */
  lemma OffsetMovesByBlocks(s: KV, levels: seq<Tree>, objs: map<Id, Nisd>, p: Prep, hash: nat -> nat, rand: nat, c: CreateResult)
    requires CreateOutcome(s, levels, objs, p, hash, rand, c) && c.reply == Created && c.pfs != NO_ID
    ensures IsAt(s, PfsOffset(c.pfs), Num(c.off))
    ensures IsAt(c.store, PfsOffset(c.pfs),
                 Num(c.off + match p.req.vdev.redundancy
                             case RMReplica => p.req.vdev.dataBlkCnt
                             case _ => (var sum := p.req.vdev.dataBlkCnt + p.req.vdev.parityBlkCnt; if sum <= 255 then sum else sum - 256)))
  {
    hide AllocOutcome, ApplyAll, CreateChanges, CommittedObjs, DrawsFrom;
    OffsetMovesOn(s, p, c.pfs, c.off, c.plan, c.alloc);
  }

  // ----- where the blocks stand -----

  /** Key k holds NISD n, whose record has the tuple t. */
  ghost predicate Stands(s: KV, k: Key, n: Id, t: seq<Id>) {
    IsAt(s, k, Ref(n)) && NisdConf(n) in s && s[NisdConf(n)].Conf? && s[NisdConf(n)].fdom == t && |t| == 5
  }

  /** Two tuples differ from the entry on that a failure domain type names; where none is named, in the last. */
  ghost predicate DifferFrom(fd: FD, x: seq<Id>, y: seq<Id>)
    requires |x| == 5 == |y|
  {
    match fd
    case FD_PDU => x[0] != y[0] && x[1] != y[1] && x[2] != y[2] && x[3] != y[3] && x[4] != y[4]
    case FD_RACK => x[1] != y[1] && x[2] != y[2] && x[3] != y[3] && x[4] != y[4]
    case FD_HV => x[2] != y[2] && x[3] != y[3] && x[4] != y[4]
    case FD_DEVICE => x[3] != y[3] && x[4] != y[4]
    case FD_PARTITION => x[4] != y[4]
    case FD_ANY => x[4] != y[4]
  }

  /** The entry of a tuple that a failure domain type names is e. */
  ghost predicate LiesIn(fd: FD, x: seq<Id>, e: Id)
    requires |x| == 5
  {
    match fd
    case FD_PDU => x[0] == e
    case FD_RACK => x[1] == e
    case FD_HV => x[2] == e
    case FD_DEVICE => x[3] == e
    case FD_PARTITION => x[4] == e
    case FD_ANY => true
  }

  /** The block behind a placement key, and the tuple of its NISD in the store. */
  lemma BlockBehind(s: KV, levels: seq<Tree>, objs: map<Id, Nisd>, p: Prep, hash: nat -> nat, rand: nat, c: CreateResult, k: Key)
    returns (ch: nat, j: nat, pick: Pick)
    requires Agrees(levels, objs) && Trails(s, objs) && NoTrace(s, p.req.vdev.id)
    requires CreateOutcome(s, levels, objs, p, hash, rand, c) && c.reply == Created
    requires k.ChunkKey? && k.vdev == p.req.vdev.id && k in c.store
    ensures ch < |c.plan| && j < |c.plan[ch]| && pick == c.plan[ch][j] && k == BlockKey(p.req.vdev, ch, j)
    ensures c.level < |levels| && pick.nisd in objs && Under(objs[pick.nisd], c.level, pick.entity, pick.device)
    ensures Stands(c.store, k, pick.nisd, objs[pick.nisd].fdom)
  {
    hide CreateOutcome, ApplyAll, CreateChanges, BlockKey, TreeAgrees, PlacedAt, Agrees, NoTrace;
    StepOf(s, levels, objs, p, hash, rand, c);
    CreatedAt(s, levels, objs, p, hash, rand, c);
    ch, j := KeyIsBlock(s, p, c.pfs, c.off, c.plan, c.alloc, k);
    pick := c.plan[ch][j];
    BlockKeyHolds(s, p, c.pfs, c.off, c.plan, c.alloc, ch, j);
    AgreesAt(levels, objs, c.level);
    PickInTable(levels[c.level], c.level, objs, p.req, hash, c.off, c.plan, c.alloc, ch, j);
    TuplesStay(s, objs, c.store, p, c.pfs, c.off, c.plan, c.alloc, pick.nisd);
  }

  lemma PickInTable(tree: Tree, i: nat, objs: map<Id, Nisd>, req: VdevReq, hash: nat -> nat, offset: nat, plan: seq<seq<Pick>>,
                    alloc: map<Id, int>, ch: nat, j: nat)
    requires TreeAgrees(tree, i, objs) && PlacedAt(tree, objs, req, hash, offset, plan, alloc) && ch < |plan| && j < |plan[ch]|
    ensures plan[ch][j].nisd in objs && Under(objs[plan[ch][j].nisd], i, plan[ch][j].entity, plan[ch][j].device)
  {
    hide VdevLooked, LeftAfter, UsageAfter, Left, ChunkRun, TreeAgrees, VdevRun;
    var left := Left(objs, map[]);
    ChunkAt(tree, req, hash, offset, left, plan, ch);
    var before := Flat(plan[..ch]);
    PlacedIsChain(tree, req, hash(ch), UsageAfter(tree, map[], before), LeftAfter(left, before), ch + offset, Placed, plan[ch]);
    TupleOf(tree, i, objs, UsageAfter(tree, map[], before), LeftAfter(left, before), ch + offset, plan[ch], plan[ch][j]);
  }

  /** A create leaves the tuples of all records as they were. */
  lemma {:induction false} TuplesStay(s: KV, objs: map<Id, Nisd>, s': KV, p: Prep, pfs: Id, off: nat,
                                      plan: seq<seq<Pick>>, alloc: map<Id, int>, n: Id)
    requires Trails(s, objs) && n in objs && NoTrace(s, p.req.vdev.id) && (p.req.vdev.pfsId != NO_ID ==> pfs == p.req.vdev.pfsId)
    requires s' == ApplyAll(s, CreateChanges(p, pfs, off, plan, alloc))
    ensures NisdConf(n) in s' && s'[NisdConf(n)].Conf? && s'[NisdConf(n)].fdom == objs[n].fdom && |objs[n].fdom| == 5
  {
    hide ApplyAll, CreateChanges, PlacesChunks, NamesVdev, ConfiguresVdev, JoinsPfs;
    CreateHasEffect(s, p, pfs, off, plan, alloc);
    assert SameAt(s, s', NisdConf(n));
  }

  /** Isolation, on the store: two blocks of one chunk of an unscoped create, or of one scoped to a failure
      domain type, stand on different NISDs, whose tuples differ from the named entry on. */
  lemma NamedLevelIsolates(s: KV, levels: seq<Tree>, objs: map<Id, Nisd>, p: Prep, hash: nat -> nat, rand: nat, c: CreateResult,
                           k1: Key, k2: Key)
    returns (n1: Id, t1: seq<Id>, n2: Id, t2: seq<Id>)
    requires Agrees(levels, objs) && Nested(objs) && Trails(s, objs) && NoTrace(s, p.req.vdev.id)
    requires CreateOutcome(s, levels, objs, p, hash, rand, c) && c.reply == Created && p.req.filter.id == NO_ID
    requires k1.ChunkKey? && k2.ChunkKey? && k1 in c.store && k2 in c.store && k1 != k2
    requires k1.vdev == p.req.vdev.id == k2.vdev && k1.chunk == k2.chunk
    ensures Stands(c.store, k1, n1, t1) && Stands(c.store, k2, n2, t2)
    ensures n1 != n2 && DifferFrom(p.req.filter.fdType, t1, t2)
  {
    hide CreateOutcome, NoTrace, Trails, Agrees, Nested, Stands, Under, PlacedAt;
    var ch, a, x := BlockBehind(s, levels, objs, p, hash, rand, c, k1);
    var ch2, b, y := BlockBehind(s, levels, objs, p, hash, rand, c, k2);
    n1, t1, n2, t2 := x.nisd, objs[x.nisd].fdom, y.nisd, objs[y.nisd].fdom;
    StandsHasTuple(c.store, k1, n1, t1);
    StandsHasTuple(c.store, k2, n2, t2);
    LevelUsed(s, levels, objs, p, hash, rand, c);
    forall i: nat | c.level <= i < 5 ensures t1[i] != t2[i] && n1 != n2 { ApartFrom(s, levels, objs, p, hash, rand, c, ch, a, b, i); }
    assert t1[4] != t2[4];
  }

  lemma StandsHasTuple(s: KV, k: Key, n: Id, t: seq<Id>)
    requires Stands(s, k, n, t)
    ensures |t| == 5
  {
  }

  lemma LevelUsed(s: KV, levels: seq<Tree>, objs: map<Id, Nisd>, p: Prep, hash: nat -> nat, rand: nat, c: CreateResult)
    requires CreateOutcome(s, levels, objs, p, hash, rand, c) && c.reply == Created
    ensures c.level < 5
    ensures match p.req.filter.fdType
            case FD_ANY => true
            case FD_PDU => c.level == 0
            case FD_RACK => c.level == 1
            case FD_HV => c.level == 2
            case FD_DEVICE => c.level == 3
            case FD_PARTITION => c.level == 4
  {
    hide CreateOutcome, PlacedAt;
    CreatedAt(s, levels, objs, p, hash, rand, c);
  }

  lemma ApartFrom(s: KV, levels: seq<Tree>, objs: map<Id, Nisd>, p: Prep, hash: nat -> nat, rand: nat, c: CreateResult,
                  ch: nat, a: nat, b: nat, i: nat)
    requires Agrees(levels, objs) && Nested(objs) && CreateOutcome(s, levels, objs, p, hash, rand, c) && c.reply == Created
    requires p.req.filter.id == NO_ID && ch < |c.plan| && a < |c.plan[ch]| && b < |c.plan[ch]| && a != b && c.level <= i < FD_MAX
    ensures c.plan[ch][a].nisd in objs && c.plan[ch][b].nisd in objs && c.plan[ch][a].nisd != c.plan[ch][b].nisd
    ensures |objs[c.plan[ch][a].nisd].fdom| == FD_MAX == |objs[c.plan[ch][b].nisd].fdom|
    ensures objs[c.plan[ch][a].nisd].fdom[i] != objs[c.plan[ch][b].nisd].fdom[i]
  {
    hide CreateOutcome, VdevRun, VdevLooked, LeftAfter, TreeAgrees, Nested;
    CreatedAt(s, levels, objs, p, hash, rand, c);
    var left := Left(objs, map[]);
    if a < b { VdevIsolation(levels, objs, c.level, p.req, hash, c.off, left, c.plan, ch, a, b, i); }
    else { VdevIsolation(levels, objs, c.level, p.req, hash, c.off, left, c.plan, ch, b, a, i); }
  }

  /** With an entity named, every NISD of the vdev has it at the named entry. */
  lemma NamedEntityHolds(s: KV, levels: seq<Tree>, objs: map<Id, Nisd>, p: Prep, hash: nat -> nat, rand: nat, c: CreateResult, k: Key)
    returns (n: Id, t: seq<Id>)
    requires Agrees(levels, objs) && Trails(s, objs) && NoTrace(s, p.req.vdev.id)
    requires CreateOutcome(s, levels, objs, p, hash, rand, c) && c.reply == Created && p.req.filter.id != NO_ID
    requires k.ChunkKey? && k.vdev == p.req.vdev.id && k in c.store
    ensures Stands(c.store, k, n, t) && LiesIn(p.req.filter.fdType, t, p.req.filter.id)
  {
    hide CreateOutcome, NoTrace, Trails, Agrees, PlacedAt;
    var ch, j, x := BlockBehind(s, levels, objs, p, hash, rand, c, k);
    n, t := x.nisd, objs[x.nisd].fdom;
    LevelUsed(s, levels, objs, p, hash, rand, c);
    CreatedAt(s, levels, objs, p, hash, rand, c);
    EntityIsNamed(levels[c.level], objs, p.req, hash, c.off, c.plan, c.alloc, ch, j);
  }

  lemma EntityIsNamed(tree: Tree, objs: map<Id, Nisd>, req: VdevReq, hash: nat -> nat, offset: nat, plan: seq<seq<Pick>>,
                      alloc: map<Id, int>, ch: nat, j: nat)
    requires PlacedAt(tree, objs, req, hash, offset, plan, alloc) && req.filter.id != NO_ID && ch < |plan| && j < |plan[ch]|
    ensures plan[ch][j].entity == req.filter.id
  {
    hide VdevLooked, LeftAfter, UsageAfter, Left, VdevRun, Chain;
    ChunkAt(tree, req, hash, offset, Left(objs, map[]), plan, ch);
    assert plan[ch][j] in plan[ch];
  }

  // ----- what the reverse keys say -----

  /** The reverse key of NISD n names a placement key on it, in the last chunk that has one there. */
  ghost predicate PointsBack(s: KV, id: Id, n: Id) {
    NisdVdev(n, id) in s ==>
      var w := s[NisdVdev(n, id)];
      w.Where? && IsAt(s, ChunkKey(id, w.chunk, w.prefix, w.seqNo), Ref(n))
      && forall ch, pre, i | ch > w.chunk :: !IsAt(s, ChunkKey(id, ch, pre, i), Ref(n))
  }

  /** No placement key of the vdev is in a chunk after c. */
  ghost predicate UpTo(s: KV, id: Id, c: nat) { forall ch, pre, i :: ch > c ==> ChunkKey(id, ch, pre, i) !in s }

  lemma {:induction false} BlockApplies(s: KV, v: VdevConfig, c: nat, i: nat, n: Id)
    ensures var k := BlockKey(v, c, i);
            ApplyAll(s, BlockChanges(v, c, i, n)) == s[k := Ref(n)][NisdVdev(n, v.id) := Where(k.prefix, k.seqNo, c)]
  {
    var cs := BlockChanges(v, c, i, n);
    ApplySingle(s, cs[0]);
    ApplyNext(s, cs, 1);
    assert cs[..1] == [cs[0]] && cs[..2] == cs;
  }

  lemma {:induction false} BlockPointsBack(s: KV, v: VdevConfig, c: nat, i: nat, x: Id)
    requires BlockKey(v, c, i) !in s && UpTo(s, v.id, c) && forall n :: PointsBack(s, v.id, n)
    ensures var s' := ApplyAll(s, BlockChanges(v, c, i, x)); UpTo(s', v.id, c) && forall n :: PointsBack(s', v.id, n)
  {
    hide ApplyAll, BlockChanges;
    BlockApplies(s, v, c, i, x);
    var k, s' := BlockKey(v, c, i), ApplyAll(s, BlockChanges(v, c, i, x));
    assert k == ChunkKey(v.id, c, k.prefix, k.seqNo);
    forall n ensures PointsBack(s', v.id, n) {
      assert PointsBack(s, v.id, n);
      if n != x && NisdVdev(n, v.id) in s { assert s'[NisdVdev(n, v.id)] == s[NisdVdev(n, v.id)]; }
    }
  }

  lemma {:induction false} ChunkPointsBack(s: KV, v: VdevConfig, c: nat, picks: seq<Pick>)
    requires FreeFrom(s, v, c, 0) && UpTo(s, v.id, c) && forall n :: PointsBack(s, v.id, n)
    ensures var s' := ApplyAll(s, ChunkChanges(v, c, picks)); UpTo(s', v.id, c) && forall n :: PointsBack(s', v.id, n)
  {
    hide PointsBack, BlockChanges, BlockKey, UpTo;
    if picks != [] {
      var n := |picks| - 1;
      var s1 := ApplyAll(s, ChunkChanges(v, c, picks[..n]));
      ChunkPointsBack(s, v, c, picks[..n]);
      ChunkWrites(s, v, c, picks[..n]);
      assert BlockKey(v, c, n) !in s1;
      BlockPointsBack(s1, v, c, n, picks[n].nisd);
      ApplyAllAppend(s, ChunkChanges(v, c, picks[..n]), BlockChanges(v, c, n, picks[n].nisd));
    }
  }

  lemma {:induction false} PlanPointsBack(s: KV, v: VdevConfig, plan: seq<seq<Pick>>)
    requires FreeFrom(s, v, 0, 0) && UpTo(s, v.id, 0) && forall n :: PointsBack(s, v.id, n)
    ensures var s' := ApplyAll(s, VdevChanges(v, plan)); UpTo(s', v.id, |plan|) && forall n :: PointsBack(s', v.id, n)
  {
    hide PointsBack, ChunkChanges, BlockKey, FreeFrom;
    if plan != [] {
      var n := |plan| - 1;
      var s1 := ApplyAll(s, VdevChanges(v, plan[..n]));
      PlanPointsBack(s, v, plan[..n]);
      VdevWrites(s, v, plan[..n]);
      ChunkPointsBack(s1, v, n, plan[n]);
      ApplyAllAppend(s, VdevChanges(v, plan[..n]), ChunkChanges(v, n, plan[n]));
    }
  }

  /** After a create every reverse key of its vdev leads to the last of its blocks on that NISD. */
  lemma ReverseKeysPointBack(s: KV, levels: seq<Tree>, objs: map<Id, Nisd>, p: Prep, hash: nat -> nat, rand: nat, c: CreateResult, n: Id)
    requires NoTrace(s, p.req.vdev.id) && CreateOutcome(s, levels, objs, p, hash, rand, c) && c.reply == Created
    ensures PointsBack(c.store, p.req.vdev.id, n)
  {
    hide CreateOutcome, ApplyAll, VdevChanges, AvailChanges, PrepChanges, PfsChanges, FreeFrom, BlockKey;
    StepOf(s, levels, objs, p, hash, rand, c);
    var v, pfs := p.req.vdev, c.pfs;
    var pre, mid, post := PreChanges(p, pfs), VdevChanges(v, c.plan), PostChanges(pfs, c.off + v.TotalRedundancyBlocksPerChunk(), c.alloc);
    var s1 := ApplyAll(s, pre);
    assert CreateChanges(p, pfs, c.off, c.plan, c.alloc) == pre + mid + post;
    ApplyAllAppend(s, pre, mid);
    ApplyAllAppend(s, pre + mid, post);
    PreEffect(s, p, pfs);
    FreeAfterPre(s, s1, v);
    NothingToPointAt(s, s1, v.id);
    PlanPointsBack(s1, v, c.plan);
    PostEffect(ApplyAll(s1, mid), pfs, c.off + v.TotalRedundancyBlocksPerChunk(), c.alloc);
    SameKeysPointBack(ApplyAll(s1, mid), c.store, v.id, n);
  }

  lemma NothingToPointAt(s: KV, s1: KV, id: Id)
    requires NoTrace(s, id) && forall k: Key | k.ChunkKey? || k.NisdVdev? :: SameAt(s, s1, k)
    ensures UpTo(s1, id, 0) && forall n :: PointsBack(s1, id, n)
  {
    forall n ensures PointsBack(s1, id, n) { assert SameAt(s, s1, NisdVdev(n, id)); }
    forall ch, pre, i ensures ChunkKey(id, ch, pre, i) !in s1 { assert SameAt(s, s1, ChunkKey(id, ch, pre, i)); }
  }

  lemma SameKeysPointBack(s: KV, s': KV, id: Id, n: Id)
    requires PointsBack(s, id, n) && forall k: Key | k.ChunkKey? || k.NisdVdev? :: SameAt(s, s', k)
    ensures PointsBack(s', id, n)
  {
    assert SameAt(s, s', NisdVdev(n, id));
    forall ch, pre, i ensures SameAt(s, s', ChunkKey(id, ch, pre, i)) {}
  }

  // ----- room at the level that is named -----

  /** The level of the index that a failure domain type names. */
  ghost predicate Names(fd: FD, l: nat) {
    match fd
    case FD_PDU => l == 0
    case FD_RACK => l == 1
    case FD_HV => l == 2
    case FD_DEVICE => l == 3
    case _ => false
  }

  /** Room at the named level is enough, however few entities the coarser ones have. */
  lemma RoomAtNamedLevel(s: KV, levels: seq<Tree>, objs: map<Id, Nisd>, p: Prep, hash: nat -> nat, rand: nat, c: CreateResult,
                         l: nat, roomy: set<Id>)
    requires NeverHigh(levels, objs) && CreateOutcome(s, levels, objs, p, hash, rand, c)
    requires p.req.filter.id == NO_ID && Names(p.req.filter.fdType, l)
    requires EnoughRoom(levels[l], p.req.vdev.TotalRedundancyBlocksPerChunk(), p.req.vdev.chunkCnt, roomy)
    ensures c.reply != NoRoom && c.reply != Hangs && (c.reply == Created ==> c.level == l)
  {
    hide CreateOutcome, NeverHigh, EnoughRoom;
    CreateFindsRoom(s, levels, objs, p, hash, rand, c, l, roomy);
    if c.reply == Created { LevelUsed(s, levels, objs, p, hash, rand, c); }
  }
}
