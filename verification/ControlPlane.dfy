/** The write-prep and apply handlers over the replicated store and the in-memory index
    (controlplane/ctlplanefuncs/server/srvctlplanefuncs.go, controlplane/pmdbServer/pmdbServer.go). */
module ControlPlane {
  import opened Changes
  import opened Finite
  import opened Lib
  import opened Index
  import opened Modulo
  import opened Pickers
  import opened Allocator
  import opened VdevAllocator
  import opened Store
  import opened Ledger
  import opened Runs
  import M = Mount

  // ----- write-prep of a create -----

  predicate NameChar(c: char) {
    'a' <= c <= 'z' || 'A' <= c <= 'Z' || '0' <= c <= '9' || c == '-' || c == '_'
  }

  /** Letters, digits, hyphen and underscore. */
  method IsAlphanumeric(s: string) returns (r: bool)
    ensures r <==> s != "" && forall i :: 0 <= i < |s| ==> NameChar(s[i])
    ensures r <==> s != "" && forall i :: 0 <= i < |s| ==>
              var n := s[i] as int; 48 <= n <= 57 || 65 <= n <= 90 || 97 <= n <= 122 || n == 45 || n == 95
  {
    if s == "" {
      return false;
    }
    for i := 0 to |s|
      invariant forall j :: 0 <= j < i ==> NameChar(s[j])
    {
      if !NameChar(s[i]) {
        return false;
      }
    }
    return true;
  }

  ghost predicate ValidName(name: string) { forall i :: 0 <= i < |name| ==> NameChar(name[i]) }

  /** Write-prep sets the vdev's id and chunk count and lists the changes that do not depend on the
      state. It reads no state, so it may run at any time before the apply. */
  method WPCreateVdev(req: VdevReq, user: Id, uuid: Id) returns (p: Option<Prep>, txn: FuncIntrm)
    ensures fresh(txn)
    ensures p.Some? <==> ValidName(req.vdev.name)
    ensures p.Some? ==> p.value == Prep(req.(vdev := req.vdev.(id := uuid, chunkCnt := ChunkCount(req.vdev.size))), user)
                        && txn.changes == PrepChanges(p.value)
    ensures p.Some? ==> Covers(req.vdev.size, p.value.req.vdev.chunkCnt)
  {
    hide VdevCfgChanges, FDName, ChunkCount, Covers;
    ChunkCountCovers(req.vdev.size);
    txn := new FuncIntrm([]);
    var ok := IsAlphanumeric(req.vdev.name);
    if |req.vdev.name| > 0 && !ok {
      return None, txn;
    }
    var v, f := req.vdev.(id := uuid, chunkCnt := ChunkCount(req.vdev.size)), req.filter;
    txn.changes := VdevCfgChanges(v);
    txn.changes := txn.changes + [Put(VName(v.name), Ref(v.id)), Put(VdevCfg(v.id, FdType), Text(FDName(f.fdType)))];
    ghost var c1 := txn.changes;
    if f.id != NO_ID {
      txn.changes := txn.changes + [Put(VdevCfg(v.id, FdId), Ref(f.id))];
    }
    assert txn.changes == c1 + When(f.id != NO_ID, VdevCfg(v.id, FdId), Ref(f.id));
    txn.changes := txn.changes + [Put(OwnsVdev(user, v.id), Text("1"))];
    ghost var c2 := txn.changes;
    if v.pfsId != NO_ID {
      txn.changes := txn.changes + [Put(VdevCfg(v.id, Pfs), Ref(v.pfsId)), Put(PfsMember(v.pfsId, v.id), Text(""))];
    }
    assert txn.changes == c2 + PfsChanges(v.id, v.pfsId);
    ghost var c3 := txn.changes;
    if v.name != "" {
      txn.changes := txn.changes + [Put(OwnsName(user, v.name), Text("1"))];
    }
    assert txn.changes == c3 + When(v.name != "", OwnsName(user, v.name), Text("1"));
    p := Some(Prep(req.(vdev := v), user));
  }

  /** The mount state that the rows of a vdev hold; a row that is no number counts as absent. */
  function MountRows(s: KV, id: Id): M.MountState {
    var c, t := VdevMount(id, MountCounter), VdevMount(id, LastUpdated);
    M.MountState(if c in s && s[c].Num? && s[c].n >= 0 then Some(s[c].n) else None, if t in s && s[t].Num? then Some(s[t].n) else None)
  }

  datatype CreateReply = Created | NameTaken | PfsNotFound | NoOffset | NoRoom | Hangs

  /** The NISDs of the allocation map, with what the placement left them. */
  lemma {:induction false} DrawsOfPlan(objs: map<Id, Nisd>, alloc: map<Id, int>, tree: Tree, req: VdevReq,
                                       hash: nat -> nat, offset: nat, plan: seq<seq<Pick>>)
    requires PlacedAt(tree, objs, req, hash, offset, plan, alloc)
    requires forall n :: n in objs ==> 0 <= objs[n].avail
    ensures DrawsFrom(objs, alloc, Flat(plan))
  {
    hide VdevRun, VdevLooked, LeftAfter, Flat, Draws;
    VdevStaysNonNeg(tree, req, hash, offset, Left(objs, map[]), plan);
    forall n | n in alloc ensures n in objs && alloc[n] == objs[n].avail - CHUNK_SIZE * Draws(Flat(plan), n) && 0 <= alloc[n] {
      LeftAfterDraws(Left(objs, map[]), Flat(plan), n);
      assert Left(objs, alloc)[n] == alloc[n];
    }
  }

  /** The index nests because the records do. */
  lemma IndexNests(s: KV, objs: map<Id, Nisd>)
    requires Records(s) && Trails(s, objs)
    ensures Nested(objs) && PartitionIdsFresh(objs)
  {
    hide Nested, PartitionIdsFresh;
    forall n | n in objs ensures n in Registered(s) && objs[n].fdom == Registered(s)[n].fdom {
      assert NisdConf(n) in s;
    }
    KeepsTuples(objs, Registered(s));
  }

  /** The vdev asks for this PFS, by id or else by name. */
  ghost predicate NamesPfs(s: KV, v: VdevConfig, pfs: Id) {
    if v.pfsId != NO_ID then pfs == v.pfsId else v.pfsName != "" && IsAt(s, PfsByName(v.pfsName), Ref(pfs))
  }

  /** What the apply of a create comes to: the reply, what was decided, and the state it leaves. */
  datatype CreateResult = CreateResult(reply: CreateReply, level: nat, pfs: Id, off: nat, plan: seq<seq<Pick>>,
                                       alloc: map<Id, int>, store: KV, objs: map<Id, Nisd>)

  /** The PFS the vdev names is not in the store, or has no offset there. */
  ghost predicate PfsMissing(s: KV, v: VdevConfig) {
    v.pfsId == NO_ID && v.pfsName != "" && PfsByName(v.pfsName) !in s
  }

  ghost predicate OffsetMissing(s: KV, v: VdevConfig) {
    exists q :: q != NO_ID && PfsOffset(q) !in s && NamesPfs(s, v, q)
  }

  /** PFS and offset of a create that gets past the lookup. */
  ghost predicate StartsAt(s: KV, v: VdevConfig, rand: nat, pfs: Id, off: nat) {
    FindsPfs(s, v, pfs, off) && (pfs == NO_ID ==> off == rand)
  }

  /** The apply of create p from store s and index (levels, objs), with the draw rand: every refusal
      with its cause, and a placed vdev with its plan and the state it leaves. */
  ghost predicate CreateOutcome(s: KV, levels: seq<Tree>, objs: map<Id, Nisd>, p: Prep, hash: nat -> nat, rand: nat, c: CreateResult) {
    var v := p.req.vdev;
    (c.reply != Created ==> c.store == s && c.objs == objs)
    && match c.reply
       case NameTaken => !NameFree(s, v.name)
       case PfsNotFound => NameFree(s, v.name) && PfsMissing(s, v)
       case NoOffset => NameFree(s, v.name) && OffsetMissing(s, v)
       case NoRoom => NameFree(s, v.name) && StartsAt(s, v, rand, c.pfs, c.off)
                      && AllocOutcome(levels, objs, p.req, hash, c.off, Failed, c.level, c.plan, c.alloc)
       case Hangs => NameFree(s, v.name) && StartsAt(s, v, rand, c.pfs, c.off)
                     && AllocOutcome(levels, objs, p.req, hash, c.off, Spins, c.level, c.plan, c.alloc)
       case Created => StartsAt(s, v, rand, c.pfs, c.off)
                       && AllocOutcome(levels, objs, p.req, hash, c.off, Placed, c.level, c.plan, c.alloc)
                       && CreateStep(s, objs, c.store, c.objs, p, c.pfs, c.off, c.plan, c.alloc)
  }

  class ControlPlane {
    var store: KV
    var hr: Hierarchy

    constructor ()
      ensures store == map[] && fresh(hr) && hr.objs == map[] && Agrees(hr.levels, hr.objs)
    {
      store := map[];
      hr := new Hierarchy();
    }

    method ApplyKV(cs: seq<StoreChange>)
      modifies this`store
      ensures store == ApplyAll(old(store), cs)
    {
      for i := 0 to |cs|
        invariant store == ApplyAll(old(store), cs[..i])
      {
        ApplyNext(old(store), cs, i);
        match cs[i]
        case Put(k, v) => store := store[k := v];
        case Del(k) => store := store - {k};
      }
      assert cs[..|cs|] == cs;
    }

    /** WPNisdCfg and ApplyNisd: a valid NISD, new or registered again with its tuple, enters the store
        and the index. */
    method ApplyNisd(n: Nisd) returns (ok: bool)
      requires Agrees(hr.levels, hr.objs) && (n.id in hr.objs ==> hr.objs[n.id].fdom == n.fdom)
      modifies this`store, hr
      ensures ok <==> |n.fdom| == FD_MAX && n.avail <= n.total
      ensures !ok ==> store == old(store) && hr.objs == old(hr.objs) && hr.levels == old(hr.levels)
      ensures ok ==> store == WithRecord(old(store), n) && hr.objs == old(hr.objs)[n.id := n] && Agrees(hr.levels, hr.objs)
      ensures ok ==> forall i, e, d :: 0 <= i < FD_MAX ==> Skew(hr.levels, hr.objs, i, e, d) == old(Skew(hr.levels, hr.objs, i, e, d))
    {
      if |n.fdom| != FD_MAX || n.avail > n.total {
        return false;
      }
      var cs := [Put(NisdConf(n.id), Conf(n.fdom, n.total)), Put(NisdAvail(n.id), Num(n.avail))];
      ApplyKV(cs);
      ApplySingle(old(store), cs[0]);
      ApplyNext(old(store), cs, 1);
      assert cs[..1] == [cs[0]] && cs[..2] == cs;
      ok := hr.AddNisd(n);
    }

    /** commitAllocChgs: one more change for every NISD of the allocation map, in key order. */
    method CommitAllocChgs(txn: FuncIntrm, alloc: map<Id, int>)
      modifies this`store, txn
      ensures store == ApplyAll(old(store), old(txn.changes) + AvailChanges(Ranked(alloc.Keys), alloc))
    {
      var ks := Scan(alloc.Keys);
      for i := 0 to |ks|
        invariant store == old(store) && txn.changes == old(txn.changes) + AvailChanges(ks[..i], alloc)
      {
        assert ks[i] in ks;
        txn.changes := txn.changes + [Put(NisdAvail(ks[i]), Num(alloc[ks[i]]))];
        assert ks[..i+1][..i] == ks[..i];
      }
      assert ks[..|ks|] == ks;
      assert txn.changes == old(txn.changes) + AvailChanges(Ranked(alloc.Keys), alloc);
      ApplyKV(txn.changes);
    }

    /** The lookup of the PFS and of its rotation offset; without a PFS the offset is random. */
    method FindPfs(p: Prep, txn: FuncIntrm, rand: nat) returns (r: CreateReply, pfs: Id, offset: nat)
      requires PfsUsable(store) && txn.changes == PrepChanges(p)
      modifies txn
      ensures r == PfsNotFound <==> PfsMissing(store, p.req.vdev)
      ensures r == NoOffset <==> OffsetMissing(store, p.req.vdev)
      ensures r == Created <==> r != PfsNotFound && r != NoOffset
      ensures r == Created ==> StartsAt(store, p.req.vdev, rand, pfs, offset)
      ensures r == Created ==> txn.changes == PreChanges(p, pfs)
    {
      hide PrepChanges, PfsChanges;
      var v := p.req.vdev;
      pfs, offset := v.pfsId, rand;
      if v.pfsName != "" && v.pfsId == NO_ID {
        if PfsByName(v.pfsName) !in store {
          return PfsNotFound, pfs, offset;
        }
        pfs := store[PfsByName(v.pfsName)].id;
        txn.changes := txn.changes + PfsChanges(v.id, pfs);
      } else {
        PreListed(p, pfs);
      }
      if pfs != NO_ID {
        if PfsOffset(pfs) !in store {
          assert NamesPfs(store, v, pfs);
          return NoOffset, pfs, offset;
        }
        offset := store[PfsOffset(pfs)].n;
      }
      return Created, pfs, offset;
    }

    /** The last steps of a create: the offset of the PFS moves on, then store and index take the allocation. */
    method CommitCreate(txn: FuncIntrm, p: Prep, pfs: Id, offset: nat, ghost plan: seq<seq<Pick>>, alloc: map<Id, int>)
      requires Agrees(hr.levels, hr.objs) && Nested(hr.objs) && PartitionIdsFresh(hr.objs) && alloc.Keys <= hr.objs.Keys
      requires txn.changes == PreChanges(p, pfs) + VdevChanges(p.req.vdev, plan)
      modifies this`store, hr, txn
      ensures Agrees(hr.levels, hr.objs)
      ensures store == ApplyAll(old(store), CreateChanges(p, pfs, offset, plan, alloc))
      ensures hr.objs == CommittedObjs(old(hr.objs), alloc, alloc.Keys)
      ensures SkewGrows(old(hr.levels), old(hr.objs), hr.levels, hr.objs, EvictedTake(Ranked(alloc.Keys), old(hr.objs), alloc))
    {
      hide Agrees, Nested, PartitionIdsFresh, ApplyAll, VdevChanges, PrepChanges, PfsChanges, AvailChanges, CommittedObjs, SkewGrows, EvictedTake;
      ghost var placed := txn.changes;
      var total := p.req.vdev.TotalRedundancyBlocksPerChunk();
      if pfs != NO_ID {
        txn.changes := txn.changes + [Put(PfsOffset(pfs), Num(offset + total))];
      }
      assert txn.changes == placed + When(pfs != NO_ID, PfsOffset(pfs), Num(offset + total));
      CommitAllocChgs(txn, alloc);
      hr.ApplyNISDAlloc(alloc);
    }

    /** The apply phase of a create: a placed vdev takes its space from store and index together, and
        everything else leaves both as they were. */
    method APCreateVdev(p: Prep, txn: FuncIntrm, hash: nat -> nat, rand: nat)
      returns (r: CreateReply, level: nat, ghost pfs: Id, ghost off: nat, ghost plan: seq<seq<Pick>>, ghost alloc: map<Id, int>)
      requires Agrees(hr.levels, hr.objs) && Records(store) && Trails(store, hr.objs) && PfsUsable(store)
      requires txn.changes == PrepChanges(p)
      requires p.req.filter.id != NO_ID ==> p.req.filter.fdType != FD_ANY
      modifies this`store, hr, txn
      ensures Agrees(hr.levels, hr.objs)
      ensures CreateOutcome(old(store), old(hr.levels), old(hr.objs), p, hash, rand,
                            CreateResult(r, level, pfs, off, plan, alloc, store, hr.objs))
      ensures r != Created ==> hr.levels == old(hr.levels)
      ensures r == Created ==>
                SkewGrows(old(hr.levels), old(hr.objs), hr.levels, hr.objs, EvictedTake(Ranked(alloc.Keys), old(hr.objs), alloc))
    {
      hide Records, Trails, AllocOutcome, PlacedAt, NameFree, FindsPfs, PfsUsable, Nested, PartitionIdsFresh,
           WellTyped, PreChanges, CreateChanges, DrawsFrom, ApplyAll, VdevChanges, PrepChanges, AvailChanges, PfsChanges, CommittedObjs, EvictedTake, SkewGrows, Agrees, LeftAfter, Flat, AllIn, Left;
      pfs, off, plan, alloc := NO_ID, 0, [], map[];
      var free := CheckName(p.req.vdev.name);
      if !free {
        return NameTaken, 0, pfs, off, plan, alloc;
      }
      var found, pfsId, offset := FindPfs(p, txn, rand);
      if found != Created {
        return found, 0, pfs, off, plan, alloc;
      }
      pfs, off := pfsId, offset;
      IndexNests(store, hr.objs);
      LevelCount(hr.levels, hr.objs);
      var a := new Attempt();
      var out;
      out, level, plan := AllocNISDs(a, hr, p.req, hash, txn, offset);
      alloc := a.nisdMap;
      if out != Placed {
        r := if out == Failed then NoRoom else Hangs;
        return;
      }
      TrailsNonNeg(store, hr.objs);
      OutcomePlaced(hr.levels, hr.objs, p.req, hash, off, level, plan, alloc);
      DrawsOfPlan(hr.objs, alloc, hr.levels[level], p.req, hash, off, plan);
      CommitCreate(txn, p, pfsId, offset, plan, a.nisdMap);
      r := Created;
    }

    /** WPPFSCfg and its apply: a PFS without an id gets a generated one; its title, its first offset and
        the entry of its name are written. */
    method AddPfs(id: Id, uuid: Id, name: string, rand: nat) returns (pfs: Id)
      modifies this`store
      ensures pfs == (if id == NO_ID then uuid else id) && store == WithPfs(old(store), pfs, name, rand)
      ensures IsAt(store, PfsTitle(pfs), Text(name)) && IsAt(store, PfsOffset(pfs), Num(rand)) && IsAt(store, PfsByName(name), Ref(pfs))
      ensures forall k :: k != PfsTitle(pfs) && k != PfsOffset(pfs) && k != PfsByName(name) ==> SameAt(old(store), store, k)
    {
      pfs := id;
      if pfs == NO_ID {
        pfs := uuid;
      }
      var cs := [Put(PfsTitle(pfs), Text(name)), Put(PfsOffset(pfs), Num(rand)), Put(PfsByName(name), Ref(pfs))];
      ApplyKV(cs);
      ApplySingle(old(store), cs[0]);
      ApplyNext(old(store), cs, 1);
      ApplyNext(old(store), cs, 2);
      assert cs[..1] == [cs[0]] && cs[..3] == cs;
    }

    /** APMountVdev on the rows of the store: a mount of a vdev without keys, or one within the window of the
        last one, writes nothing. */
    method APMountVdev(id: Id, now: int) returns (r: M.Reply)
      modifies this`store
      ensures r.NotFound? <==> VdevKeys(old(store), id) == {}
      ensures r.Ok? <==> !r.NotFound? && M.Accepts(MountRows(old(store), id), now)
      ensures !r.Ok? ==> store == old(store)
      ensures r.Ok? ==> MountRows(store, id) == M.Mounted(MountRows(old(store), id), now) && r.at == now
      ensures r.Ok? ==> store == WithMount(old(store), id, r.counter, M.Stored(now))
    {
      if VdevKeys(store, id) == {} {
        return M.NotFound;
      }
      var m := MountRows(store, id);
      if now - M.LastTime(m) < M.VDEV_MOUNT_LIMIT {
        return M.InWindow;
      }
      var counter := (m.counter.GetOr(0) + 1) % M.UINT64;
      var cs := [Put(VdevMount(id, MountCounter), Num(counter)), Put(VdevMount(id, LastUpdated), Num(M.Stored(now)))];
      ApplyKV(cs);
      ApplySingle(old(store), cs[0]);
      ApplyNext(old(store), cs, 1);
      assert cs[..1] == [cs[0]] && cs[..2] == cs;
      r := M.Ok(counter, now);
    }

    method DeleteKV(ks: seq<Key>)
      modifies this`store
      ensures forall k :: k in store <==> k in old(store) && k !in ks
      ensures forall k :: k in store ==> store[k] == old(store)[k]
    {
      for i := 0 to |ks|
        invariant forall k :: k in store <==> k in old(store) && k !in ks[..i]
        invariant forall k :: k in store ==> store[k] == old(store)[k]
      {
        store := store - {ks[i]};
      }
      assert ks[..|ks|] == ks;
    }

    /** The range read over a vdev: refunds, doomed keys, the name and the PFS, in any key order. */
    method ScanVdev(id: Id) returns (refund: map<Id, int>, dels: seq<Key>, name: string, pfs: Id)
      requires Records(store)
      ensures Gathered(store, id, VdevKeys(store, id), refund, dels, name, pfs)
    {
      hide Records, Gathered, VdevKeys, Stored;
      var keys := VdevKeys(store, id);
      var todo := keys;
      ghost var done: set<Key> := {};
      refund, dels, name, pfs := map[], [], "", NO_ID;
      NothingGathered(store, id);
      while todo != {}
        invariant todo <= keys && done == keys - todo
        invariant Gathered(store, id, done, refund, dels, name, pfs)
        decreases |todo|
      {
        var k :| k in todo;
        VdevKeyKinds(store, id, k);
        ghost var refund0, dels0, name0, pfs0 := refund, dels, name, pfs;
        if k == VdevCfg(id, Name) {
          name := StringIn(store[k]);
        }
        if k == VdevCfg(id, Pfs) {
          pfs := RefOf(store[k]);
        }
        dels := dels + [k];
        if k.ChunkKey? {
          var x := RefOf(store[k]);
          if x !in refund {
            if NisdConf(x) in store {
              refund := refund[x := Stored(store, x)];
            }
          }
          if x in refund {
            refund := refund[x := refund[x] + CHUNK_SIZE];
          }
          dels := dels + [NisdVdev(x, id)];
          RefundOnce(store, refund0, x);
          ChunkGathered(store, id, done, refund0, dels0, name, pfs, k);
        } else {
          CfgGathered(store, id, done, refund, dels0, name0, pfs0, k);
        }
        done, todo := done + {k}, todo - {k};
      }
      assert done == keys;
    }

    method RefundChanges(refund: map<Id, int>) returns (cs: seq<StoreChange>)
      ensures AllLevy(cs, refund) && forall n :: n in refund ==> Mentions(cs, NisdAvail(n))
    {
      var todo := refund.Keys;
      cs := [];
      while todo != {}
        invariant todo <= refund.Keys && AllLevy(cs, refund)
        invariant forall n :: n in refund && n !in todo ==> Mentions(cs, NisdAvail(n))
        decreases |todo|
      {
        var n :| n in todo;
        var c := Put(NisdAvail(n), Num(refund[n]));
        forall m | Mentions(cs, m) ensures Mentions(cs + [c], m) { MentionsAppend(cs, [c], m); }
        assert (cs + [c])[|cs|] == c;
        cs, todo := cs + [c], todo - {n};
      }
    }

    /** The objects of the refunded NISDs take their new size, in any order, until one is not in the
        index; device totals stay as they are. */
    method RestoreIndex(refund: map<Id, int>) returns (ok: bool, ghost reached: set<Id>)
      requires Agrees(hr.levels, hr.objs)
      requires Restorable(store, hr.objs, refund)
      modifies hr
      ensures hr.levels == old(hr.levels) && Agrees(hr.levels, hr.objs) && hr.objs == Restored(old(hr.objs), store, reached)
      ensures reached <= refund.Keys && (ok ==> reached == refund.Keys)
      ensures ok <==> refund.Keys <= old(hr.objs).Keys
    {
      hide Agrees, Stored, Restorable, Restored;
      var todo := refund.Keys;
      NothingRestored(hr.objs, store);
      reached := {};
      while todo != {}
        invariant hr.levels == old(hr.levels) && Agrees(hr.levels, hr.objs)
        invariant hr.objs == Restored(old(hr.objs), store, reached)
        invariant reached + todo == refund.Keys && reached !! todo && reached <= old(hr.objs).Keys
        decreases |todo|
      {
        var n :| n in todo;
        RestoreNext(old(hr.objs), store, reached, refund, n);
        var found := hr.GetNisdByPDUID(store[NisdConf(n)].fdom[PDU_IDX], n);
        if !found {
          return false, reached;
        }
        SetAvailAgrees(hr.levels, hr.objs, n, refund[n]);
        hr.objs := SetAvail(hr.objs, n, refund[n]);
        reached, todo := reached + {n}, todo - {n};
      }
      ok := true;
    }

    /** APDeleteVdev: the store is settled first, then the index as far as it goes. */
    method APDeleteVdev(id: Id, user: Id) returns (ok: bool, ghost reached: set<Id>)
      requires Agrees(hr.levels, hr.objs) && Records(store) && Trails(store, hr.objs)
      modifies this`store, hr
      ensures DeleteStep(old(store), old(hr.objs), store, hr.objs, id, user, reached)
      ensures hr.levels == old(hr.levels) && Agrees(hr.levels, hr.objs)
      ensures ok <==> Refunded(old(store), id) <= old(hr.objs).Keys
    {
      hide Agrees, Gathered, AllLevy, Mentions, Records, Trails, HasRecord, Stored, DeleteEffect, Refunded, VdevKeys, Restored, Restorable;
      var refund, dels, name, pfs := ScanVdev(id);
      ghost var scanned := dels;
      dels := dels + [OwnsVdev(user, id)];
      var commit := RefundChanges(refund);
      if name != "" {
        dels := dels + [VName(name)];
      }
      if pfs != NO_ID {
        dels := dels + [PfsMember(pfs, id)];
      }
      assert dels == AllDels(scanned, id, user, name, pfs);
      ApplyKV(commit);
      DeleteKV(dels);
      DeleteIsComplete(old(store), store, id, user, refund, scanned, name, pfs, commit);
      forall n | n in refund ensures refund[n] == Stored(old(store), n) + CHUNK_SIZE * Owed(old(store), id, n) {
        GatheredRefunds(old(store), id, refund, scanned, name, pfs, n);
      }
      ReadyToRestore(old(store), store, hr.objs, id, user, refund);
      ok, reached := RestoreIndex(refund);
    }

    /** A PFS definition; its rotation starts at a random device. */
    method PutPfs(pfs: Id, name: string, rand: nat)
      modifies this`store
      ensures store == WithPfs(old(store), pfs, name, rand)
    {
      store := store[PfsTitle(pfs) := Text(name)];
      store := store[PfsOffset(pfs) := Num(rand)];
      store := store[PfsByName(name) := Ref(pfs)];
    }

    /** PopulateHierarchy: the index is built anew from the stored records, whatever order they
        come in, and every device total is exact. */
    method PopulateHierarchy()
      requires Records(store)
      modifies this`hr
      ensures fresh(hr) && Agrees(hr.levels, hr.objs) && hr.objs == Registered(store)
      ensures forall i, e, d :: 0 <= i < FD_MAX ==> Skew(hr.levels, hr.objs, i, e, d) == 0
    {
      hide Agrees, Nested, PartitionIdsFresh;
      hr := new Hierarchy();
      LevelCount(hr.levels, hr.objs);
      var todo := NisdIds(store);
      while todo != {}
        invariant fresh(hr) && todo <= NisdIds(store)
        invariant Agrees(hr.levels, hr.objs) && |hr.levels| == FD_MAX
        invariant hr.objs == map n | n in NisdIds(store) - todo :: RecordOf(store, n)
        invariant forall i, e, d :: 0 <= i < FD_MAX ==> Skew(hr.levels, hr.objs, i, e, d) == 0
        modifies hr
        decreases |todo|
      {
        var n :| n in todo;
        assert HasRecord(store, n);
        var ok := hr.AddNisd(RecordOf(store, n));
        LevelCount(hr.levels, hr.objs);
        todo := todo - {n};
      }
    }

    method CheckName(name: string) returns (free: bool)
      ensures free <==> NameFree(store, name)
    {
      free := name == "" || VName(name) !in store || store[VName(name)] == Ref(NO_ID);
    }
  }

  lemma PreListed(p: Prep, pfs: Id)
    ensures p.req.vdev.pfsId != NO_ID || pfs == NO_ID ==> PreChanges(p, pfs) == PrepChanges(p)
  {
    if p.req.vdev.pfsId == NO_ID && pfs == NO_ID { NoPfs(p.req, pfs); }
  }

  lemma OutcomePlaced(levels: seq<Tree>, objs: map<Id, Nisd>, req: VdevReq, hash: nat -> nat, offset: nat,
                      level: nat, plan: seq<seq<Pick>>, alloc: map<Id, int>)
    requires AllocOutcome(levels, objs, req, hash, offset, Placed, level, plan, alloc)
    ensures |levels| == FD_MAX && level < FD_MAX && PlacedAt(levels[level], objs, req, hash, offset, plan, alloc)
  {
  }

  lemma CreatedAt(s: KV, levels: seq<Tree>, objs: map<Id, Nisd>, p: Prep, hash: nat -> nat, rand: nat, c: CreateResult)
    requires CreateOutcome(s, levels, objs, p, hash, rand, c) && c.reply == Created
    ensures |levels| == FD_MAX && c.level < FD_MAX && PlacedAt(levels[c.level], objs, p.req, hash, c.off, c.plan, c.alloc)
    ensures p.req.filter.fdType != FD_ANY ==> c.level == GetFDIdx(p.req.filter.fdType)
  {
    hide PlacedAt, CoarsestThatFits, AttemptEnds, ApplyAll, CreateChanges, CommittedObjs, DrawsFrom;
  }

  lemma TrailsNonNeg(s: KV, objs: map<Id, Nisd>)
    requires Trails(s, objs)
    ensures forall n :: n in objs ==> 0 <= objs[n].avail
  {
  }

  // ----- the scan of a delete -----

  function StringIn(v: Val): string { if v.Text? then v.s else "" }
  function RefOf(v: Val): Id { if v.Ref? then v.id else NO_ID }

  /** The keys under v/<id>. */
  function VdevKeys(s: KV, id: Id): set<Key> { set k | k in s && (k.VdevCfg? || k.VdevMount? || k.ChunkKey?) && k.vdev == id }

  ghost function ChunksIn(ks: set<Key>): set<Key> { set k | k in ks && k.ChunkKey? }

  ghost function CfgText(s: KV, id: Id, done: set<Key>): string {
    if VdevCfg(id, Name) in done && VdevCfg(id, Name) in s then StringIn(s[VdevCfg(id, Name)]) else ""
  }

  ghost function CfgPfs(s: KV, id: Id, done: set<Key>): Id {
    if VdevCfg(id, Pfs) in done && VdevCfg(id, Pfs) in s then RefOf(s[VdevCfg(id, Pfs)]) else NO_ID
  }

  /** refund holds, for every recorded NISD that the placement keys in done name, its new free space. */
  ghost predicate Tallied(s: KV, done: set<Key>, refund: map<Id, int>) {
    forall n :: TalliedAt(s, done, refund, n)
  }

  ghost predicate TalliedAt(s: KV, done: set<Key>, refund: map<Id, int>, n: Id) {
    (n in refund <==> NisdConf(n) in s && Naming(s, done, n) != {})
    && (n in refund ==> refund[n] == Stored(s, n) + CHUNK_SIZE * |Naming(s, done, n)|)
  }

  ghost predicate DoomsKeys(s: KV, id: Id, chunks: set<Key>, done: set<Key>, dels: seq<Key>) {
    forall k :: k in dels <==> k in done || (k.NisdVdev? && k.vdev == id && Naming(s, chunks, k.nisd) != {})
  }

  lemma NothingTallied(s: KV, id: Id)
    ensures Tallied(s, ChunksIn({}), map[]) && DoomsKeys(s, id, ChunksIn({}), {}, [])
  {
    forall n ensures Naming(s, ChunksIn({}), n) == {} {}
  }

  lemma ChunksInStep(done: set<Key>, k: Key)
    ensures ChunksIn(done + {k}) == ChunksIn(done) + if k.ChunkKey? then {k} else {}
  {
  }

  lemma NamingStep(s: KV, done: set<Key>, k: Key, n: Id)
    requires k in s && k.ChunkKey? && k !in done
    ensures Naming(s, done + {k}, n) == Naming(s, done, n) + if s[k] == Ref(n) then {k} else {}
    ensures |Naming(s, done + {k}, n)| == |Naming(s, done, n)| + if s[k] == Ref(n) then 1 else 0
  {
    assert Naming(s, done + {k}, n) == Naming(s, done, n) + if s[k] == Ref(n) then {k} else {};
    assert k !in Naming(s, done, n);
  }

  /** What one placement key on NISD x adds. */
  function Refund(s: KV, before: map<Id, int>, x: Id): map<Id, int> {
    if x in before then before[x := before[x] + CHUNK_SIZE]
    else if NisdConf(x) in s then before[x := Stored(s, x) + CHUNK_SIZE] else before
  }

  /** Entering the record's free space first and adding the chunk then comes to the same. */
  lemma RefundOnce(s: KV, before: map<Id, int>, x: Id)
    ensures var first := if x !in before && NisdConf(x) in s then before[x := Stored(s, x)] else before;
            Refund(s, before, x) == if x in first then first[x := first[x] + CHUNK_SIZE] else first
  {
    var a := Stored(s, x);
    assert before[x := a][x := a + CHUNK_SIZE] == before[x := a + CHUNK_SIZE];
  }

  lemma ChunkTallied(s: KV, done: set<Key>, before: map<Id, int>, k: Key)
    requires Tallied(s, done, before) && k in s && k.ChunkKey? && k !in done && s[k].Ref?
    ensures Tallied(s, done + {k}, Refund(s, before, RefOf(s[k])))
  {
    hide TalliedAt, Refund;
    forall n ensures TalliedAt(s, done + {k}, Refund(s, before, RefOf(s[k])), n) {
      assert TalliedAt(s, done, before, n);
      ChunkTalliedAt(s, done, before, k, n);
    }
  }

  lemma ChunkTalliedAt(s: KV, done: set<Key>, before: map<Id, int>, k: Key, n: Id)
    requires TalliedAt(s, done, before, n) && k in s && k.ChunkKey? && k !in done && s[k].Ref?
    ensures TalliedAt(s, done + {k}, Refund(s, before, RefOf(s[k])), n)
  {
    hide Naming, Stored;
    NamingStep(s, done, k, n);
    if n == RefOf(s[k]) {
      assert Naming(s, done + {k}, n) != {} by { assert k in Naming(s, done, n) + {k}; }
      assert n !in before && NisdConf(n) in s ==> Naming(s, done, n) == {};
    } else {
      assert s[k] != Ref(n);
    }
  }

  lemma ChunkDoomed(s: KV, id: Id, done: set<Key>, dels: seq<Key>, k: Key)
    requires DoomsKeys(s, id, ChunksIn(done), done, dels) && k in s && k.ChunkKey? && k !in done && s[k].Ref?
    ensures DoomsKeys(s, id, ChunksIn(done + {k}), done + {k}, dels + [k, NisdVdev(RefOf(s[k]), id)])
  {
    ChunksInStep(done, k);
    forall n ensures Naming(s, ChunksIn(done + {k}), n) == Naming(s, ChunksIn(done), n) + if s[k] == Ref(n) then {k} else {} {
      NamingStep(s, ChunksIn(done), k, n);
    }
    var rev := NisdVdev(RefOf(s[k]), id);
    assert [k, rev][0] == k && [k, rev][1] == rev;
  }

  lemma CfgDoomed(s: KV, id: Id, done: set<Key>, dels: seq<Key>, k: Key)
    requires DoomsKeys(s, id, ChunksIn(done), done, dels) && !k.ChunkKey?
    ensures DoomsKeys(s, id, ChunksIn(done + {k}), done + {k}, dels + [k])
  {
    ChunksInStep(done, k);
    assert ChunksIn(done + {k}) == ChunksIn(done);
    assert [k][0] == k;
  }

  ghost predicate Gathered(s: KV, id: Id, done: set<Key>, refund: map<Id, int>, dels: seq<Key>, name: string, pfs: Id) {
    && Tallied(s, ChunksIn(done), refund) && DoomsKeys(s, id, ChunksIn(done), done, dels)
    && name == CfgText(s, id, done) && pfs == CfgPfs(s, id, done)
  }

  lemma NothingGathered(s: KV, id: Id)
    ensures Gathered(s, id, {}, map[], [], "", NO_ID)
  {
    NothingTallied(s, id);
  }

  lemma VdevKeyKinds(s: KV, id: Id, k: Key)
    requires k in VdevKeys(s, id) && Records(s)
    ensures k in s && (k.ChunkKey? ==> s[k].Ref?) && (k.VdevCfg? || k.VdevMount? || k.ChunkKey?) && k.vdev == id
  {
  }

  lemma ChunkGathered(s: KV, id: Id, done: set<Key>, refund: map<Id, int>, dels: seq<Key>, name: string, pfs: Id, k: Key)
    requires Gathered(s, id, done, refund, dels, name, pfs) && k in s && k.ChunkKey? && k !in done && s[k].Ref?
    ensures Gathered(s, id, done + {k}, Refund(s, refund, RefOf(s[k])), dels + [k] + [NisdVdev(RefOf(s[k]), id)], name, pfs)
  {
    hide Tallied, DoomsKeys;
    ChunksInStep(done, k);
    ChunkTallied(s, ChunksIn(done), refund, k);
    ChunkDoomed(s, id, done, dels, k);
    assert dels + [k] + [NisdVdev(RefOf(s[k]), id)] == dels + [k, NisdVdev(RefOf(s[k]), id)];
  }

  lemma CfgGathered(s: KV, id: Id, done: set<Key>, refund: map<Id, int>, dels: seq<Key>, name: string, pfs: Id, k: Key)
    requires Gathered(s, id, done, refund, dels, name, pfs) && k in s && (k.VdevCfg? || k.VdevMount?) && k.vdev == id
    ensures Gathered(s, id, done + {k}, refund, dels + [k],
                    if k == VdevCfg(id, Name) then StringIn(s[k]) else name, if k == VdevCfg(id, Pfs) then RefOf(s[k]) else pfs)
  {
    hide Tallied, DoomsKeys;
    ChunksInStep(done, k);
    assert ChunksIn(done + {k}) == ChunksIn(done);
    CfgDoomed(s, id, done, dels, k);
  }

  function AllDels(scanned: seq<Key>, id: Id, user: Id, name: string, pfs: Id): seq<Key> {
    scanned + [OwnsVdev(user, id)] + (if name != "" then [VName(name)] else []) + (if pfs != NO_ID then [PfsMember(pfs, id)] else [])
  }

  lemma AllDelsHas(scanned: seq<Key>, id: Id, user: Id, name: string, pfs: Id, k: Key)
    ensures k in AllDels(scanned, id, user, name, pfs) <==>
            k in scanned || k == OwnsVdev(user, id) || (name != "" && k == VName(name)) || (pfs != NO_ID && k == PfsMember(pfs, id))
  {
  }

  lemma GatheredRefunds(s: KV, id: Id, refund: map<Id, int>, dels: seq<Key>, name: string, pfs: Id, n: Id)
    requires Gathered(s, id, VdevKeys(s, id), refund, dels, name, pfs)
    ensures n in refund <==> n in Refunded(s, id)
    ensures n in refund ==> refund[n] == Stored(s, n) + CHUNK_SIZE * Owed(s, id, n)
  {
    assert ChunksIn(VdevKeys(s, id)) == ChunksOf(s, id);
    assert TalliedAt(s, ChunksOf(s, id), refund, n);
    RefundedIffOwed(s, id, n);
  }

  lemma GatheredDooms(s: KV, id: Id, user: Id, refund: map<Id, int>, dels: seq<Key>, name: string, pfs: Id, k: Key)
    requires Gathered(s, id, VdevKeys(s, id), refund, dels, name, pfs)
    ensures k in s ==> (k in AllDels(dels, id, user, name, pfs) <==> Doomed(s, id, user, k))
  {
    assert ChunksIn(VdevKeys(s, id)) == ChunksOf(s, id);
    AllDelsHas(dels, id, user, name, pfs, k);
  }

  lemma {:induction false} DeleteIsComplete(s: KV, s': KV, id: Id, user: Id, refund: map<Id, int>, dels: seq<Key>,
                                            name: string, pfs: Id, commit: seq<StoreChange>)
    requires Gathered(s, id, VdevKeys(s, id), refund, dels, name, pfs)
    requires AllLevy(commit, refund) && forall n :: n in refund ==> Mentions(commit, NisdAvail(n))
    requires var s1, gone := ApplyAll(s, commit), AllDels(dels, id, user, name, pfs);
             (forall k :: k in s' <==> k in s1 && k !in gone) && forall k :: k in s' ==> s'[k] == s1[k]
    ensures DeleteEffect(s, s', id, user) && refund.Keys == Refunded(s, id)
  {
    hide Gathered, ApplyAll, AllDels, Stored, Owed, Refunded, VdevKeys, Doomed, AllLevy, Mentions;
    var s1 := ApplyAll(s, commit);
    forall n ensures n in refund <==> n in Refunded(s, id) { GatheredRefunds(s, id, refund, dels, name, pfs, n); }
    forall k: Key ensures DeletedAt(s, s', id, user, k) {
      if k.NisdAvail? { GatheredRefunds(s, id, refund, dels, name, pfs, k.nisd); }
      CommitWrites(s, refund, commit, k);
      GatheredDooms(s, id, user, refund, dels, name, pfs, k);
      AvailNotDoomed(s, id, user, refund, dels, name, pfs, k);
    }
  }

  lemma {:induction false} CommitWrites(s: KV, refund: map<Id, int>, commit: seq<StoreChange>, k: Key)
    requires AllLevy(commit, refund) && forall n :: n in refund ==> Mentions(commit, NisdAvail(n))
    ensures if k.NisdAvail? && k.nisd in refund then IsAt(ApplyAll(s, commit), k, Num(refund[k.nisd]))
            else SameAt(s, ApplyAll(s, commit), k)
  {
    if k.NisdAvail? && k.nisd in refund {
      forall i | 0 <= i < |commit| && commit[i].key == k ensures commit[i] == Put(k, Num(refund[k.nisd])) { assert Levies(commit[i], refund); }
      Written(s, commit, k, Num(refund[k.nisd]));
    } else {
      forall i | 0 <= i < |commit| ensures commit[i].key != k { assert Levies(commit[i], refund); }
      Untouched(s, commit, k);
    }
  }

  lemma AvailNotDoomed(s: KV, id: Id, user: Id, refund: map<Id, int>, dels: seq<Key>, name: string, pfs: Id, k: Key)
    requires Gathered(s, id, VdevKeys(s, id), refund, dels, name, pfs)
    ensures k.NisdAvail? ==> k !in AllDels(dels, id, user, name, pfs) && !Doomed(s, id, user, k)
  {
    AllDelsHas(dels, id, user, name, pfs, k);
  }

  /** refund is what the store now says, and the tuples of the index are the recorded ones. */
  ghost predicate Restorable(s: KV, objs: map<Id, Nisd>, refund: map<Id, int>) {
    forall n :: n in refund ==> HasRecord(s, n) && Stored(s, n) == refund[n] && (n in objs ==> objs[n].fdom == RecordOf(s, n).fdom)
  }

  lemma NothingRestored(objs: map<Id, Nisd>, s: KV)
    ensures Restored(objs, s, {}) == objs
  {
  }

  lemma RestoreNext(objs: map<Id, Nisd>, s: KV, reached: set<Id>, refund: map<Id, int>, n: Id)
    requires Restorable(s, objs, refund) && n in refund && n !in reached
    ensures NisdConf(n) in s && s[NisdConf(n)].Conf? && |s[NisdConf(n)].fdom| == FD_MAX
    ensures Restored(objs, s, reached).Keys == objs.Keys
    ensures n in objs ==> Restored(objs, s, reached)[n].fdom == s[NisdConf(n)].fdom
                          && SetAvail(Restored(objs, s, reached), n, refund[n]) == Restored(objs, s, reached + {n})
  {
  }

  lemma ReadyToRestore(s: KV, s': KV, objs: map<Id, Nisd>, id: Id, user: Id, refund: map<Id, int>)
    requires Records(s) && Trails(s, objs) && DeleteEffect(s, s', id, user) && refund.Keys == Refunded(s, id)
    requires forall n :: n in refund ==> refund[n] == Stored(s, n) + CHUNK_SIZE * Owed(s, id, n)
    ensures Restorable(s', objs, refund)
  {
    hide Nested, PartitionIdsFresh, Registered, DeleteEffect, Owed, RecordOf, Stored;
    forall n | n in refund
      ensures HasRecord(s', n) && Stored(s', n) == refund[n] && (n in objs ==> objs[n].fdom == RecordOf(s', n).fdom)
    {
      RefundedIffOwed(s, id, n);
      DeletedRecord(s, s', id, user, n);
    }
  }

  /** What a delete puts back into NISD n. */
  ghost function PutBack(objs: map<Id, Nisd>, s': KV, reached: set<Id>): Id -> int {
    n => if n in objs && n in reached then Stored(s', n) - objs[n].avail else 0
  }

  /** A delete leaves every device total behind its NISDs by exactly what it put back into them. */
  lemma DeleteLeavesTotals(levels: seq<Tree>, objs: map<Id, Nisd>, s': KV, reached: set<Id>, i: nat, e: Id, d: Id)
    requires Agrees(levels, objs) && i < FD_MAX && Dev(levels[i], e, d).Some?
    ensures Skew(levels, Restored(objs, s', reached), i, e, d) ==
            Skew(levels, objs, i, e, d) - Sum(Dev(levels[i], e, d).value.nisds, PutBack(objs, s', reached))
  {
    SumSplit(Dev(levels[i], e, d).value.nisds, Avail(objs), Avail(Restored(objs, s', reached)), PutBack(objs, s', reached));
  }

  /** A refunded NISD that is reached gains its blocks; every other one gains nothing. */
  lemma PutBackIs(s: KV, s': KV, objs: map<Id, Nisd>, id: Id, user: Id, reached: set<Id>, n: Id)
    requires Records(s) && Trails(s, objs) && DeleteEffect(s, s', id, user) && n in objs
    requires objs[n].avail == Stored(s, n)
    ensures PutBack(objs, s', reached)(n) == if n in reached then CHUNK_SIZE * Owed(s, id, n) else 0
    ensures n in Refunded(s, id) <==> Owed(s, id, n) > 0
  {
    hide Nested, PartitionIdsFresh, Registered, Owed, DeleteEffect;
    DeletedRecord(s, s', id, user, n);
    RefundedIffOwed(s, id, n);
  }

  lemma {:induction false} NothingPutBack(s: KV, s': KV, objs: map<Id, Nisd>, id: Id, user: Id, reached: set<Id>, ns: seq<Id>)
    requires Records(s) && Trails(s, objs) && DeleteEffect(s, s', id, user)
    requires forall n :: n in ns ==> n in objs && n !in Refunded(s, id) && objs[n].avail == Stored(s, n)
    ensures Sum(ns, PutBack(objs, s', reached)) == 0
  {
    hide Records, Trails, DeleteEffect, Stored, Refunded, Owed, PutBack;
    forall n | n in ns ensures PutBack(objs, s', reached)(n) == 0 { PutBackIs(s, s', objs, id, user, reached, n); }
    SumZero(ns, PutBack(objs, s', reached));
  }

  lemma {:induction false} SomethingPutBack(s: KV, s': KV, objs: map<Id, Nisd>, id: Id, user: Id, reached: set<Id>, ns: seq<Id>, x: Id)
    requires Records(s) && Trails(s, objs) && DeleteEffect(s, s', id, user)
    requires forall n :: n in ns ==> n in objs && objs[n].avail == Stored(s, n)
    requires x in ns && x in reached && x in Refunded(s, id)
    ensures Sum(ns, PutBack(objs, s', reached)) > 0
  {
    hide Records, Trails, DeleteEffect, Stored, Refunded, Owed, PutBack;
    forall n | n in ns ensures 0 <= PutBack(objs, s', reached)(n) {
      PutBackIs(s, s', objs, id, user, reached, n);
      MulNonNeg(Owed(s, id, n), CHUNK_SIZE);
    }
    PutBackIs(s, s', objs, id, user, reached, x);
    MulNonNeg(Owed(s, id, x) - 1, CHUNK_SIZE);
    MulSplit(Owed(s, id, x) - 1, 1, CHUNK_SIZE);
    SumNonNeg(ns, PutBack(objs, s', reached));
  }

  /** Index and store agree on the space of every NISD in the index. */
  ghost predicate InStep(s: KV, objs: map<Id, Nisd>) { forall n :: n in objs ==> objs[n].avail == Stored(s, n) }

  /** From exact books, every way a delete can go keeps the total of a device in line with its NISDs if
      and only if no NISD of that device is refunded. */
  lemma DeleteKeepsTotalIff(levels: seq<Tree>, s: KV, objs: map<Id, Nisd>, id: Id, user: Id, i: nat, e: Id, d: Id)
    requires Agrees(levels, objs) && Records(s) && Trails(s, objs) && InStep(s, objs)
    requires i < FD_MAX && Dev(levels[i], e, d).Some?
    ensures (forall s', objs', reached :: DeleteStep(s, objs, s', objs', id, user, reached) ==>
               Skew(levels, objs', i, e, d) == Skew(levels, objs, i, e, d))
            <==> forall n :: n in Refunded(s, id) ==> !Listed(levels[i], e, d, n)
  {
    hide Agrees, Records, Trails, DeleteEffect, Refunded, Restored, Stored, PutBack, Skew;
    ListedAreHeld(levels, objs, i, e, d);
    var ns := levels[i][e][d].nisds;
    if x :| x in Refunded(s, id) && Listed(levels[i], e, d, x) {
      var reached := Refunded(s, id) * objs.Keys;
      var s' := DeletedStore(s, id, user);
      DeletedStoreIsIt(s, id, user);
      assert Refunded(s, id) <= objs.Keys ==> reached == Refunded(s, id);
      assert DeleteStep(s, objs, s', Restored(objs, s', reached), id, user, reached);
      SomethingPutBack(s, s', objs, id, user, reached, ns, x);
      DeleteLeavesTotals(levels, objs, s', reached, i, e, d);
    } else {
      forall s', objs', reached | DeleteStep(s, objs, s', objs', id, user, reached)
        ensures Skew(levels, objs', i, e, d) == Skew(levels, objs, i, e, d)
      {
        forall n | n in ns ensures n !in Refunded(s, id) { assert Listed(levels[i], e, d, n); }
        NothingPutBack(s, s', objs, id, user, reached, ns);
        DeleteLeavesTotals(levels, objs, s', reached, i, e, d);
      }
    }
  }

  lemma ListedAreHeld(levels: seq<Tree>, objs: map<Id, Nisd>, i: nat, e: Id, d: Id)
    requires Agrees(levels, objs) && i < FD_MAX && Dev(levels[i], e, d).Some?
    ensures |levels| == FD_MAX && forall n :: n in levels[i][e][d].nisds ==> n in objs
  {
    assert TreeAgrees(levels[i], i, objs);
    forall n | n in levels[i][e][d].nisds ensures n in objs { assert Listed(levels[i], e, d, n); }
  }

  lemma RestoredAgrees(levels: seq<Tree>, objs: map<Id, Nisd>, s: KV, reached: set<Id>)
    requires Agrees(levels, objs)
    ensures Agrees(levels, Restored(objs, s, reached))
  {
    hide Stored;
    var objs' := Restored(objs, s, reached);
    forall i: nat | i < FD_MAX ensures TreeAgrees(levels[i], i, objs') { assert TreeAgrees(levels[i], i, objs); }
  }

  /** After a delete a NISD has at least the space that the index knew. */
  lemma OnlyMore(s: KV, s': KV, objs: map<Id, Nisd>, id: Id, user: Id, n: Id)
    requires Records(s) && Trails(s, objs) && DeleteEffect(s, s', id, user) && n in objs
    ensures objs[n].avail <= Stored(s', n)
  {
    hide Nested, PartitionIdsFresh, Registered, Owed, DeleteEffect;
    DeletedRecord(s, s', id, user, n);
  }
}
