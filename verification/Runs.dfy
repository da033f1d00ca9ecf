/** Runs of the control plane: registrations, prepares, creates, deletes, PFS definitions and index
    rebuilds in any order, with any number of prepared creates in flight.
    (controlplane/ctlplanefuncs/server/srvctlplanefuncs.go) */
module Runs {
  import opened Changes
  import opened Finite
  import opened Lib
  import opened Index
  import opened Allocator
  import opened VdevAllocator
  import opened Store
  import opened Ledger
  import opened Modulo

  /** The replicated store, the NISD objects of the in-memory index, the creates that are prepared and
      not applied yet, the vdev ids handed out so far, and (for the statements only) the free
      space each NISD was registered with. */
  datatype World = World(store: KV, objs: map<Id, Nisd>, pending: map<Id, Prep>, used: set<Id>, reg: map<Id, int>)

  const START := World(map[], map[], map[], {}, map[])

  function NisdIds(s: KV): set<Id> { set k | k in s && k.NisdConf? :: k.nisd }

  function RecordOf(s: KV, n: Id): Nisd {
    if NisdConf(n) in s && s[NisdConf(n)].Conf?
    then Nisd(n, s[NisdConf(n)].fdom, s[NisdConf(n)].total, Stored(s, n))
    else Nisd(n, [], 0, 0)
  }

  /** The NISD table that a rebuild reads back. */
  ghost function Registered(s: KV): map<Id, Nisd> { map n | n in NisdIds(s) :: RecordOf(s, n) }

  // ----- the steps -----

  function WithRecord(s: KV, n: Nisd): KV { s[NisdConf(n.id) := Conf(n.fdom, n.total)][NisdAvail(n.id) := Num(n.avail)] }

  /** A new NISD whose tuple fits the existing ones. */
  ghost predicate Registers(w: World, w': World, n: Nisd) {
    && NisdConf(n.id) !in w.store && NisdAvail(n.id) !in w.store
    && |n.fdom| == FD_MAX && 0 <= n.avail <= n.total
    && Nested(Registered(w.store)[n.id := n]) && PartitionIdsFresh(Registered(w.store)[n.id := n])
    && w' == w.(store := WithRecord(w.store, n), objs := w.objs[n.id := n], reg := w.reg[n.id := n.avail])
  }

  /** A NISD registered again, with its tuple and with sizes that leave room for the chunks on it. */
  ghost predicate Reregisters(w: World, w': World, n: Nisd) {
    && HasRecord(w.store, n.id) && RecordOf(w.store, n.id).fdom == n.fdom && |n.fdom| == FD_MAX
    && 0 <= n.avail && LeavesRoom(w.store, n)
    && w' == w.(store := WithRecord(w.store, n), objs := w.objs[n.id := n],
                reg := w.reg[n.id := n.avail + CHUNK_SIZE * |BlocksOn(w.store, n.id)|])
  }

  ghost predicate LeavesRoom(s: KV, n: Nisd) { n.avail + CHUNK_SIZE * |BlocksOn(s, n.id)| <= n.total }

  /** Write-prep of a create: it reads nothing of the state; its vdev id is a fresh UUID. */
  ghost predicate Prepares(w: World, w': World, p: Prep) {
    var id := p.req.vdev.id;
    id !in w.used && id != NO_ID && w' == w.(pending := w.pending[id := p], used := w.used + {id})
  }

  ghost predicate NameFree(s: KV, name: string) {
    name != "" ==> VName(name) !in s || s[VName(name)] == Ref(NO_ID)
  }

  ghost predicate FindsPfs(s: KV, v: VdevConfig, pfs: Id, off: int) {
    && (if v.pfsId != NO_ID then pfs == v.pfsId
        else if v.pfsName != "" then IsAt(s, PfsByName(v.pfsName), Ref(pfs))
        else pfs == NO_ID)
    && (pfs != NO_ID ==> IsAt(s, PfsOffset(pfs), Num(off)))
  }

  /** alloc holds what the NISDs it lists have left after the picks. */
  ghost predicate DrawsFrom(objs: map<Id, Nisd>, alloc: map<Id, int>, picks: seq<Pick>) {
    && (forall n :: n in alloc ==> n in objs && alloc[n] == objs[n].avail - CHUNK_SIZE * Draws(picks, n) && 0 <= alloc[n])
    && (forall p :: p in picks ==> p.nisd in alloc)
  }

  ghost predicate CreateStep(s: KV, objs: map<Id, Nisd>, s': KV, objs': map<Id, Nisd>, p: Prep, pfs: Id, off: nat,
                             plan: seq<seq<Pick>>, alloc: map<Id, int>)
  {
    && NameFree(s, p.req.vdev.name) && FindsPfs(s, p.req.vdev, pfs, off)
    && DrawsFrom(objs, alloc, Flat(plan))
    && s' == ApplyAll(s, CreateChanges(p, pfs, off, plan, alloc))
    && objs' == CommittedObjs(objs, alloc, alloc.Keys)
  }

  /** The apply of a prepared create that finds room. */
  ghost predicate Creates(w: World, w': World, id: Id, pfs: Id, off: nat, plan: seq<seq<Pick>>, alloc: map<Id, int>) {
    id in w.pending && CreateStep(w.store, w.objs, w'.store, w'.objs, w.pending[id], pfs, off, plan, alloc)
    && w' == w.(store := w'.store, objs := w'.objs, pending := w.pending - {id})
  }

  /** The apply of a prepared create that is turned down. */
  ghost predicate Drops(w: World, w': World, id: Id) {
    w' == w.(pending := w.pending - {id})
  }

  /** The objects of the NISDs reached before the loop met one that is not in the index. */
  ghost function Restored(objs: map<Id, Nisd>, s': KV, reached: set<Id>): map<Id, Nisd> {
    map n | n in objs :: if n in reached then objs[n].(avail := Stored(s', n)) else objs[n]
  }

  ghost predicate DeleteStep(s: KV, objs: map<Id, Nisd>, s': KV, objs': map<Id, Nisd>, id: Id, user: Id, reached: set<Id>) {
    && DeleteEffect(s, s', id, user)
    && reached <= Refunded(s, id) && (Refunded(s, id) <= objs.Keys ==> reached == Refunded(s, id))
    && objs' == Restored(objs, s', reached)
  }

  ghost predicate Deletes(w: World, w': World, id: Id, user: Id, reached: set<Id>) {
    DeleteStep(w.store, w.objs, w'.store, w'.objs, id, user, reached) && w' == w.(store := w'.store, objs := w'.objs)
  }

  function WithPfs(s: KV, pfs: Id, name: string, off: nat): KV {
    s[PfsTitle(pfs) := Text(name)][PfsOffset(pfs) := Num(off)][PfsByName(name) := Ref(pfs)]
  }

  ghost predicate AddsPfs(w: World, w': World, pfs: Id, name: string, off: nat) {
    pfs != NO_ID && w' == w.(store := WithPfs(w.store, pfs, name, off))
  }

  /** A mount of a vdev that has some key. */
  ghost predicate Mounts(w: World, w': World, id: Id, counter: nat, time: int) {
    (exists k :: k in w.store && (k.VdevCfg? || k.VdevMount? || k.ChunkKey?) && k.vdev == id)
    && w' == w.(store := WithMount(w.store, id, counter, time))
  }

  function WithMount(s: KV, id: Id, counter: nat, time: int): KV {
    s[VdevMount(id, MountCounter) := Num(counter)][VdevMount(id, LastUpdated) := Num(time)]
  }

  /** A restart: the index is rebuilt from the stored records. */
  ghost predicate Rebuilds(w: World, w': World) {
    w' == w.(objs := Registered(w.store))
  }

  /** Either every NISD that a delete refunds is in the index, or none is. */
  ghost predicate AllOrNone(s: KV, objs: map<Id, Nisd>, id: Id) {
    Refunded(s, id) <= objs.Keys || Refunded(s, id) * objs.Keys == {}
  }

  ghost predicate CalmDelete(w: World, w': World, id: Id, user: Id, reached: set<Id>) {
    Deletes(w, w', id, user, reached) && AllOrNone(w.store, w.objs, id)
  }

  ghost predicate CalmStep(w: World, w': World) {
    || (exists n :: Registers(w, w', n))
    || (exists n :: Reregisters(w, w', n))
    || (exists p :: Prepares(w, w', p))
    || (exists id, pfs, off, plan, alloc :: Creates(w, w', id, pfs, off, plan, alloc))
    || (exists id :: Drops(w, w', id))
    || (exists id, user, reached :: CalmDelete(w, w', id, user, reached))
    || (exists pfs, name, off :: AddsPfs(w, w', pfs, name, off))
    || (exists id, counter, time :: Mounts(w, w', id, counter, time))
    || Rebuilds(w, w')
  }

  ghost predicate Step(w: World, w': World) {
    CalmStep(w, w') || exists id, user, reached :: Deletes(w, w', id, user, reached)
  }

  ghost predicate Run(ws: seq<World>) {
    ws != [] && if |ws| == 1 then ws[0] == START else Run(ws[..|ws|-1]) && Step(ws[|ws|-2], ws[|ws|-1])
  }

  ghost predicate CalmRun(ws: seq<World>) {
    ws != [] && if |ws| == 1 then ws[0] == START else CalmRun(ws[..|ws|-1]) && CalmStep(ws[|ws|-2], ws[|ws|-1])
  }

  // ----- the invariant -----

  ghost predicate HasRecord(s: KV, n: Id) {
    NisdConf(n) in s && s[NisdConf(n)].Conf? && |s[NisdConf(n)].fdom| == FD_MAX && NisdAvail(n) in s && s[NisdAvail(n)].Num?
  }

  /** NISD records are complete and their tuples fit; placement keys name recorded NISDs. */
  ghost predicate Records(s: KV) {
    && (forall n :: NisdConf(n) in s || NisdAvail(n) in s ==> HasRecord(s, n))
    && (forall k :: k in s && k.ChunkKey? ==> s[k].Ref? && HasRecord(s, s[k].id))
    && Nested(Registered(s)) && PartitionIdsFresh(Registered(s))
  }

  /** No NISD is oversubscribed: free space and the chunks placed on it fit its size. */
  ghost predicate Bounded(s: KV) {
    forall n :: HasRecord(s, n) ==>
      0 <= Stored(s, n) && Stored(s, n) + CHUNK_SIZE * |BlocksOn(s, n)| <= s[NisdConf(n)].total
  }

  /** The index never believes in more space than the store. */
  ghost predicate Trails(s: KV, objs: map<Id, Nisd>) {
    forall n :: n in objs ==>
      HasRecord(s, n) && 0 <= objs[n].avail <= Stored(s, n)
      && objs[n] == RecordOf(s, n).(avail := objs[n].avail)
  }

  /** Vdev names: a reverse entry exists exactly for the name of a live vdev, so names are unique. */
  ghost predicate NamesAgree(s: KV) {
    && (forall name, v :: name != "" ==> (IsAt(s, VName(name), Ref(v)) <==> IsAt(s, VdevCfg(v, Name), Text(name))))
    && (forall name :: name != "" && VName(name) in s ==> s[VName(name)].Ref?)
    && (forall v :: VdevCfg(v, Name) in s ==> s[VdevCfg(v, Name)].Text? && s[VdevCfg(v, Name)].s != "")
  }

  /** PFS membership: an entry exists exactly for the PFS a live vdev names. */
  ghost predicate MembersAgree(s: KV) {
    && (forall pfs, v :: PfsMember(pfs, v) in s <==> IsAt(s, VdevCfg(v, Pfs), Ref(pfs)))
    && (forall v :: VdevCfg(v, Pfs) in s ==> s[VdevCfg(v, Pfs)].Ref? && s[VdevCfg(v, Pfs)].id != NO_ID)
  }

  /** NISD reverse entries: one exists exactly for the vdevs with a block on the NISD. */
  ghost predicate PlacementsAgree(s: KV) {
    forall x, v :: NisdVdev(x, v) in s <==> Naming(s, ChunksOf(s, v), x) != {}
  }

  /** Vdevs carry ids that were handed out and applied; prepared ones have no keys yet. */
  ghost predicate IdsFresh(w: World) {
    && NO_ID !in w.used
    && (forall id :: id in w.pending ==> id in w.used && w.pending[id].req.vdev.id == id)
    && (forall k :: k in w.store && (k.VdevCfg? || k.VdevMount? || k.ChunkKey?) ==> k.vdev in w.used && k.vdev !in w.pending)
  }

  ghost predicate PfsUsable(s: KV) {
    && (forall p :: PfsOffset(p) in s ==> s[PfsOffset(p)].Num? && 0 <= s[PfsOffset(p)].n)
    && (forall name :: PfsByName(name) in s ==> s[PfsByName(name)].Ref? && s[PfsByName(name)].id != NO_ID)
  }

  ghost predicate Inv(w: World) {
    && Records(w.store) && Bounded(w.store) && Trails(w.store, w.objs)
    && NamesAgree(w.store) && MembersAgree(w.store) && PlacementsAgree(w.store)
    && IdsFresh(w) && PfsUsable(w.store)
  }

  /** The books are exact: index and store agree, and free space plus placed chunks is what was registered. */
  ghost predicate Exact(s: KV, objs: map<Id, Nisd>, reg: map<Id, int>) {
    && (forall n :: n in objs ==> objs[n].avail == Stored(s, n))
    && (forall n :: HasRecord(s, n) ==> n in reg && Stored(s, n) + CHUNK_SIZE * |BlocksOn(s, n)| == reg[n])
  }

  ghost predicate Balanced(w: World) { Exact(w.store, w.objs, w.reg) }

  // ----- a create keeps the books -----

  lemma SpaceRecord(s: KV, s': KV, objs: map<Id, Nisd>, alloc: map<Id, int>, n: Id)
    requires TakesSpace(s, s', alloc) && Trails(s, objs) && alloc.Keys <= objs.Keys
    requires NisdConf(n) in s || NisdAvail(n) in s ==> HasRecord(s, n)
    ensures HasRecord(s', n) <==> HasRecord(s, n)
    ensures NisdConf(n) in s' || NisdAvail(n) in s' ==> HasRecord(s', n)
    ensures RecordOf(s', n) == RecordOf(s, n).(avail := if n in alloc then alloc[n] else RecordOf(s, n).avail)
    ensures Stored(s', n) == if n in alloc then alloc[n] else Stored(s, n)
  {
    assert SameAt(s, s', NisdConf(n));
    if n !in alloc { assert SameAt(s, s', NisdAvail(n)); }
  }

  lemma SameTuples(s: KV, s': KV)
    requires Nested(Registered(s)) && PartitionIdsFresh(Registered(s))
    requires forall n :: NisdConf(n) in s' ==> NisdConf(n) in s && RecordOf(s', n).fdom == RecordOf(s, n).fdom
    ensures Nested(Registered(s')) && PartitionIdsFresh(Registered(s'))
  {
    forall n | n in Registered(s') ensures n in Registered(s) && Registered(s')[n].fdom == Registered(s)[n].fdom {
      assert NisdConf(n) in s';
    }
    KeepsTuples(Registered(s'), Registered(s));
  }

  lemma CreateKeepsRecords(s: KV, s': KV, objs: map<Id, Nisd>, alloc: map<Id, int>, id: Id, picks: seq<Pick>)
    requires Records(s) && Trails(s, objs) && DrawsFrom(objs, alloc, picks)
    requires PlacesChunks(s, s', id, picks) && TakesSpace(s, s', alloc)
    ensures Records(s')
  {
    hide TakesSpace;
    forall n ensures NisdConf(n) in s' || NisdAvail(n) in s' ==> HasRecord(s', n) { SpaceRecord(s, s', objs, alloc, n); }
    forall k | k in s' && k.ChunkKey? ensures s'[k].Ref? && HasRecord(s', s'[k].id) {
      if k.vdev != id { assert SameAt(s, s', k); }
      SpaceRecord(s, s', objs, alloc, s'[k].id);
    }
    forall n | NisdConf(n) in s' ensures NisdConf(n) in s && RecordOf(s', n).fdom == RecordOf(s, n).fdom {
      SpaceRecord(s, s', objs, alloc, n);
    }
    SameTuples(s, s');
  }

  lemma {:induction false} DrawnOnlyFrom(objs: map<Id, Nisd>, alloc: map<Id, int>, picks: seq<Pick>, n: Id)
    requires DrawsFrom(objs, alloc, picks) && n !in alloc
    ensures Draws(picks, n) == 0
  {
    DrawnIsIn(picks, n);
  }

  /** A create moves free space into blocks one for one, except that space the store has over the
      index is lost on every NISD the attempt looked up. */
  lemma CreateBalance(s: KV, s': KV, objs: map<Id, Nisd>, alloc: map<Id, int>, id: Id, picks: seq<Pick>, n: Id)
    requires Records(s) && Trails(s, objs) && DrawsFrom(objs, alloc, picks)
    requires PlacesChunks(s, s', id, picks) && TakesSpace(s, s', alloc)
    ensures Stored(s', n) + CHUNK_SIZE * |BlocksOn(s', n)| ==
            Stored(s, n) + CHUNK_SIZE * |BlocksOn(s, n)| - if n in alloc then Stored(s, n) - objs[n].avail else 0
  {
    hide TakesSpace, BlocksOn, Draws, PlacesChunks, Nested, PartitionIdsFresh, Registered, RecordOf;
    SpaceRecord(s, s', objs, alloc, n);
    BlocksGrow(s, s', id, picks, n);
    if n !in alloc { DrawnOnlyFrom(objs, alloc, picks, n); }
  }

  lemma {:induction false} BlocksGrow(s: KV, s': KV, id: Id, picks: seq<Pick>, n: Id)
    requires PlacesChunks(s, s', id, picks)
    ensures CHUNK_SIZE * |BlocksOn(s', n)| == CHUNK_SIZE * |BlocksOn(s, n)| + CHUNK_SIZE * Draws(picks, n)
  {
    MulSplit(|BlocksOn(s, n)|, Draws(picks, n), CHUNK_SIZE);
  }

  lemma CreateKeepsBounded(s: KV, s': KV, objs: map<Id, Nisd>, alloc: map<Id, int>, id: Id, picks: seq<Pick>)
    requires Records(s) && Trails(s, objs) && Bounded(s) && DrawsFrom(objs, alloc, picks)
    requires PlacesChunks(s, s', id, picks) && TakesSpace(s, s', alloc)
    ensures Bounded(s')
  {
    hide TakesSpace, BlocksOn, Draws, PlacesChunks, Nested, PartitionIdsFresh, Registered;
    forall n | HasRecord(s', n)
      ensures 0 <= Stored(s', n) && Stored(s', n) + CHUNK_SIZE * |BlocksOn(s', n)| <= s'[NisdConf(n)].total
    {
      SpaceRecord(s, s', objs, alloc, n);
      CreateBalance(s, s', objs, alloc, id, picks, n);
    }
  }

  lemma CreateKeepsTrails(s: KV, s': KV, objs: map<Id, Nisd>, alloc: map<Id, int>)
    requires Records(s) && Trails(s, objs) && alloc.Keys <= objs.Keys && forall n :: n in alloc ==> 0 <= alloc[n]
    requires TakesSpace(s, s', alloc)
    ensures Trails(s', CommittedObjs(objs, alloc, alloc.Keys))
  {
    hide TakesSpace, Nested, PartitionIdsFresh, Registered, RecordOf, HasRecord, Stored;
    var objs' := CommittedObjs(objs, alloc, alloc.Keys);
    forall n | n in objs'
      ensures HasRecord(s', n) && 0 <= objs'[n].avail <= Stored(s', n) && objs'[n] == RecordOf(s', n).(avail := objs'[n].avail)
    {
      SpaceRecord(s, s', objs, alloc, n);
    }
  }

  lemma CreateKeepsNames(s: KV, s': KV, id: Id, name: string)
    requires NamesAgree(s) && NamesVdev(s, s', id, name) && NameFree(s, name) && NoTrace(s, id)
    requires forall v, f :: VdevCfg(v, f) in s ==> v != NO_ID
    ensures NamesAgree(s')
  {
    forall m, v | m != "" ensures IsAt(s', VName(m), Ref(v)) <==> IsAt(s', VdevCfg(v, Name), Text(m)) {
      assert IsAt(s, VName(m), Ref(v)) <==> IsAt(s, VdevCfg(v, Name), Text(m));
      if m != name { assert SameAt(s, s', VName(m)); }
      if v != id { assert SameAt(s, s', VdevCfg(v, Name)); }
    }
    forall m | m != "" && VName(m) in s' ensures s'[VName(m)].Ref? {
      if m != name { assert SameAt(s, s', VName(m)); }
    }
    forall v | VdevCfg(v, Name) in s' ensures s'[VdevCfg(v, Name)].Text? && s'[VdevCfg(v, Name)].s != "" {
      if v != id { assert SameAt(s, s', VdevCfg(v, Name)); }
    }
  }

  lemma CreateKeepsMembers(s: KV, s': KV, id: Id, pfs: Id, off: int, name: string)
    requires MembersAgree(s) && JoinsPfs(s, s', id, pfs, off) && NamesVdev(s, s', id, name) && NoTrace(s, id)
    ensures MembersAgree(s')
  {
    forall q, v ensures PfsMember(q, v) in s' <==> IsAt(s', VdevCfg(v, Pfs), Ref(q)) {
      if v == id {
        if q == pfs != NO_ID { } else { assert SameAt(s, s', PfsMember(q, v)); }
      } else {
        assert SameAt(s, s', PfsMember(q, v)) && SameAt(s, s', VdevCfg(v, Pfs));
      }
    }
    forall v | VdevCfg(v, Pfs) in s' ensures s'[VdevCfg(v, Pfs)].Ref? && s'[VdevCfg(v, Pfs)].id != NO_ID {
      if v != id { assert SameAt(s, s', VdevCfg(v, Pfs)); }
    }
  }

  lemma CreateKeepsPlacements(s: KV, s': KV, id: Id, picks: seq<Pick>)
    requires PlacementsAgree(s) && PlacesChunks(s, s', id, picks) && NoTrace(s, id)
    ensures PlacementsAgree(s')
  {
    forall x, v ensures NisdVdev(x, v) in s' <==> Naming(s', ChunksOf(s', v), x) != {} {
      if v != id {
        assert SameAt(s, s', NisdVdev(x, v));
        forall k ensures k in Naming(s', ChunksOf(s', v), x) <==> k in Naming(s, ChunksOf(s, v), x) {
          if k.ChunkKey? && k.vdev == v { assert SameAt(s, s', k); }
        }
      } else {
        PicksHaveBlocks(s, s', id, picks, x);
      }
    }
  }

  /** A NISD has a block of the new vdev exactly when some pick stands on it. */
  lemma PicksHaveBlocks(s: KV, s': KV, id: Id, picks: seq<Pick>, x: Id)
    requires PlacesChunks(s, s', id, picks) && NoTrace(s, id)
    ensures Naming(s', ChunksOf(s', id), x) != {} <==> exists p :: p in picks && p.nisd == x
  {
    DrawnIsIn(picks, x);
    var now, was, added := BlocksOn(s', x), BlocksOn(s, x), Naming(s', ChunksOf(s', id), x);
    assert |now| == |was| + Draws(picks, x);
    forall k ensures k in now <==> k in was || k in added {
      if k.ChunkKey? && k.vdev != id { assert SameAt(s, s', k); }
    }
    assert now == was + added;
    if added == {} { assert now == was; } else {
      var k :| k in added;
      assert k in s' && k.ChunkKey? && k.vdev == id;
    }
  }

  lemma CreateKeepsFresh(w: World, w': World, id: Id, name: string, picks: seq<Pick>)
    requires IdsFresh(w) && id in w.pending && w'.pending == w.pending - {id} && w'.used == w.used
    requires PlacesChunks(w.store, w'.store, id, picks) && NamesVdev(w.store, w'.store, id, name)
    ensures IdsFresh(w')
  {
    forall k | k in w'.store && (k.VdevCfg? || k.VdevMount? || k.ChunkKey?) ensures k.vdev in w'.used && k.vdev !in w'.pending {
      if k.vdev != id || k.VdevMount? { assert SameAt(w.store, w'.store, k); }
    }
  }

  lemma CreateKeepsPfsUsable(s: KV, s': KV, id: Id, pfs: Id, off: int)
    requires PfsUsable(s) && JoinsPfs(s, s', id, pfs, off) && 0 <= off
    ensures PfsUsable(s')
  {
    forall p | PfsOffset(p) in s' ensures s'[PfsOffset(p)].Num? && 0 <= s'[PfsOffset(p)].n {
      if !(p == pfs != NO_ID) { assert SameAt(s, s', PfsOffset(p)); }
    }
    forall name | PfsByName(name) in s' ensures s'[PfsByName(name)].Ref? && s'[PfsByName(name)].id != NO_ID {
      assert SameAt(s, s', PfsByName(name));
    }
  }

  /** A prepared vdev has left no key behind, whatever was applied since. */
  lemma PendingLeavesNoTrace(w: World, id: Id)
    requires IdsFresh(w) && MembersAgree(w.store) && PlacementsAgree(w.store) && id in w.pending
    ensures NoTrace(w.store, id)
  {
    assert ChunksOf(w.store, id) == {};
    assert VdevCfg(id, Pfs) !in w.store;
    forall x ensures NisdVdev(x, id) !in w.store { assert Naming(w.store, ChunksOf(w.store, id), x) == {}; }
    forall q ensures PfsMember(q, id) !in w.store { assert !IsAt(w.store, VdevCfg(id, Pfs), Ref(q)); }
  }

  lemma CreatesEffect(w: World, w': World, id: Id, pfs: Id, off: nat, plan: seq<seq<Pick>>, alloc: map<Id, int>)
    requires Inv(w) && Creates(w, w', id, pfs, off, plan, alloc)
    ensures w.pending[id].req.vdev.id == id && NoTrace(w.store, id)
    ensures CreateEffect(w.store, w'.store, w.pending[id], pfs, off, plan, alloc)
  {
    PendingLeavesNoTrace(w, id);
    CreateHasEffect(w.store, w.pending[id], pfs, off, plan, alloc);
  }

  lemma CreateKeepsInv(w: World, w': World, id: Id, pfs: Id, off: nat, plan: seq<seq<Pick>>, alloc: map<Id, int>)
    requires Inv(w) && Creates(w, w', id, pfs, off, plan, alloc)
    ensures Inv(w')
  {
    hide Records, Bounded, Trails, NamesAgree, MembersAgree, PlacementsAgree, PfsUsable, NameFree, ApplyAll, CreateChanges,
         PlacesChunks, NamesVdev, ConfiguresVdev, JoinsPfs, TakesSpace, CommittedObjs, Flat, NoTrace;
    CreatesEffect(w, w', id, pfs, off, plan, alloc);
    var s, s', v := w.store, w'.store, w.pending[id].req.vdev;
    CreateKeepsRecords(s, s', w.objs, alloc, id, Flat(plan));
    CreateKeepsBounded(s, s', w.objs, alloc, id, Flat(plan));
    CreateKeepsTrails(s, s', w.objs, alloc);
    CreateKeepsNames(s, s', id, v.name);
    CreateKeepsMembers(s, s', id, pfs, off + v.TotalRedundancyBlocksPerChunk(), v.name);
    CreateKeepsPlacements(s, s', id, Flat(plan));
    CreateKeepsFresh(w, w', id, v.name, Flat(plan));
    CreateKeepsPfsUsable(s, s', id, pfs, off + v.TotalRedundancyBlocksPerChunk());
  }

  // ----- a delete keeps the books -----

  lemma DeletedRecord(s: KV, s': KV, id: Id, user: Id, n: Id)
    requires DeleteEffect(s, s', id, user)
    requires NisdConf(n) in s || NisdAvail(n) in s ==> HasRecord(s, n)
    ensures HasRecord(s', n) <==> HasRecord(s, n)
    ensures NisdConf(n) in s' || NisdAvail(n) in s' ==> HasRecord(s', n)
    ensures RecordOf(s', n).(avail := 0) == RecordOf(s, n).(avail := 0)
    ensures HasRecord(s, n) ==> Stored(s', n) == Stored(s, n) + CHUNK_SIZE * Owed(s, id, n)
  {
    hide Owed, Refunded;
    assert DeletedAt(s, s', id, user, NisdConf(n));
    assert DeletedAt(s, s', id, user, NisdAvail(n));
    RefundedIffOwed(s, id, n);
    if NisdConf(n) in s { DeleteStored(s, s', id, user, n); }
  }

  lemma DeleteKeepsRecords(s: KV, s': KV, id: Id, user: Id)
    requires Records(s) && DeleteEffect(s, s', id, user)
    ensures Records(s')
  {
    hide Nested, PartitionIdsFresh, Registered, Owed, Refunded;
    forall n ensures NisdConf(n) in s' || NisdAvail(n) in s' ==> HasRecord(s', n) { DeletedRecord(s, s', id, user, n); }
    forall k | k in s' && k.ChunkKey? ensures s'[k].Ref? && HasRecord(s', s'[k].id) {
      assert DeletedAt(s, s', id, user, k);
      DeletedRecord(s, s', id, user, s'[k].id);
    }
    forall n | NisdConf(n) in s' ensures NisdConf(n) in s && RecordOf(s', n).fdom == RecordOf(s, n).fdom {
      DeletedRecord(s, s', id, user, n);
    }
    SameTuples(s, s');
  }

  /** A delete moves blocks back into free space one for one. */
  lemma DeleteBalance(s: KV, s': KV, id: Id, user: Id, n: Id)
    requires DeleteEffect(s, s', id, user) && HasRecord(s, n)
    ensures Stored(s', n) + CHUNK_SIZE * |BlocksOn(s', n)| == Stored(s, n) + CHUNK_SIZE * |BlocksOn(s, n)|
  {
    hide Owed, BlocksOn, DeleteEffect;
    DeletedRecord(s, s', id, user, n);
    DeleteFreesBlocks(s, s', id, user, n);
    MulSplit(|BlocksOn(s', n)|, Owed(s, id, n), CHUNK_SIZE);
  }

  lemma DeleteKeepsBounded(s: KV, s': KV, id: Id, user: Id)
    requires Records(s) && Bounded(s) && DeleteEffect(s, s', id, user)
    ensures Bounded(s')
  {
    hide Nested, PartitionIdsFresh, Registered, Owed, BlocksOn, DeleteEffect;
    forall n | HasRecord(s', n)
      ensures 0 <= Stored(s', n) && Stored(s', n) + CHUNK_SIZE * |BlocksOn(s', n)| <= s'[NisdConf(n)].total
    {
      DeletedRecord(s, s', id, user, n);
      DeleteBalance(s, s', id, user, n);
      MulNonNeg(Owed(s, id, n), CHUNK_SIZE);
    }
  }

  lemma DeleteKeepsTrails(s: KV, s': KV, objs: map<Id, Nisd>, id: Id, user: Id, reached: set<Id>)
    requires Records(s) && Trails(s, objs) && DeleteEffect(s, s', id, user)
    ensures Trails(s', Restored(objs, s', reached))
  {
    hide Nested, PartitionIdsFresh, Registered, Owed, DeleteEffect;
    var objs' := Restored(objs, s', reached);
    forall n | n in objs'
      ensures HasRecord(s', n) && 0 <= objs'[n].avail <= Stored(s', n) && objs'[n] == RecordOf(s', n).(avail := objs'[n].avail)
    {
      DeletedRecord(s, s', id, user, n);
      MulNonNeg(Owed(s, id, n), CHUNK_SIZE);
    }
  }

  lemma DeleteKeepsNames(s: KV, s': KV, id: Id, user: Id)
    requires NamesAgree(s) && DeleteEffect(s, s', id, user)
    ensures NamesAgree(s')
  {
    forall m, v | m != "" ensures IsAt(s', VName(m), Ref(v)) <==> IsAt(s', VdevCfg(v, Name), Text(m)) {
      assert IsAt(s, VName(m), Ref(v)) <==> IsAt(s, VdevCfg(v, Name), Text(m));
      assert IsAt(s, VName(m), Ref(id)) <==> IsAt(s, VdevCfg(id, Name), Text(m));
      assert DeletedAt(s, s', id, user, VName(m)) && DeletedAt(s, s', id, user, VdevCfg(v, Name));
    }
    forall m | m != "" && VName(m) in s' ensures s'[VName(m)].Ref? { assert DeletedAt(s, s', id, user, VName(m)); }
    forall v | VdevCfg(v, Name) in s' ensures s'[VdevCfg(v, Name)].Text? && s'[VdevCfg(v, Name)].s != "" {
      assert DeletedAt(s, s', id, user, VdevCfg(v, Name));
    }
  }

  lemma DeleteKeepsMembers(s: KV, s': KV, id: Id, user: Id)
    requires MembersAgree(s) && DeleteEffect(s, s', id, user)
    ensures MembersAgree(s')
  {
    forall q, v ensures PfsMember(q, v) in s' <==> IsAt(s', VdevCfg(v, Pfs), Ref(q)) {
      assert PfsMember(q, v) in s <==> IsAt(s, VdevCfg(v, Pfs), Ref(q));
      assert DeletedAt(s, s', id, user, PfsMember(q, v)) && DeletedAt(s, s', id, user, VdevCfg(v, Pfs));
    }
    forall v | VdevCfg(v, Pfs) in s' ensures s'[VdevCfg(v, Pfs)].Ref? && s'[VdevCfg(v, Pfs)].id != NO_ID {
      assert DeletedAt(s, s', id, user, VdevCfg(v, Pfs));
    }
  }

  lemma DeleteKeepsPlacements(s: KV, s': KV, id: Id, user: Id)
    requires PlacementsAgree(s) && DeleteEffect(s, s', id, user)
    ensures PlacementsAgree(s')
  {
    forall x, v ensures NisdVdev(x, v) in s' <==> Naming(s', ChunksOf(s', v), x) != {} {
      assert NisdVdev(x, v) in s <==> Naming(s, ChunksOf(s, v), x) != {};
      assert DeletedAt(s, s', id, user, NisdVdev(x, v));
      forall k ensures k in Naming(s', ChunksOf(s', v), x) <==> v != id && k in Naming(s, ChunksOf(s, v), x) {
        if k.ChunkKey? { assert DeletedAt(s, s', id, user, k); }
      }
    }
  }

  lemma DeleteKeepsInv(w: World, w': World, id: Id, user: Id, reached: set<Id>)
    requires Inv(w) && Deletes(w, w', id, user, reached)
    ensures Inv(w')
  {
    hide Records, Bounded, Trails, NamesAgree, MembersAgree, PlacementsAgree, Refunded, Restored;
    var s, s' := w.store, w'.store;
    DeleteKeepsRecords(s, s', id, user);
    DeleteKeepsBounded(s, s', id, user);
    DeleteKeepsTrails(s, s', w.objs, id, user, reached);
    DeleteKeepsNames(s, s', id, user);
    DeleteKeepsMembers(s, s', id, user);
    DeleteKeepsPlacements(s, s', id, user);
    DeleteKeepsRest(w, w', id, user);
  }

  lemma DeleteKeepsRest(w: World, w': World, id: Id, user: Id)
    requires IdsFresh(w) && PfsUsable(w.store) && DeleteEffect(w.store, w'.store, id, user)
    requires w' == w.(store := w'.store, objs := w'.objs)
    ensures IdsFresh(w') && PfsUsable(w'.store)
  {
    var s, s' := w.store, w'.store;
    forall k | k in s' && (k.VdevCfg? || k.VdevMount? || k.ChunkKey?) ensures k.vdev in w'.used && k.vdev !in w'.pending {
      assert DeletedAt(s, s', id, user, k);
    }
    forall p | PfsOffset(p) in s' ensures s'[PfsOffset(p)].Num? && 0 <= s'[PfsOffset(p)].n {
      assert DeletedAt(s, s', id, user, PfsOffset(p));
    }
    forall name | PfsByName(name) in s' ensures s'[PfsByName(name)].Ref? && s'[PfsByName(name)].id != NO_ID {
      assert DeletedAt(s, s', id, user, PfsByName(name));
    }
  }

  // ----- the other steps -----

  lemma RegisteredAfter(s: KV, n: Nisd)
    requires NisdConf(n.id) !in s
    ensures Registered(WithRecord(s, n)) == Registered(s)[n.id := n]
  {
    var s' := WithRecord(s, n);
    forall m ensures m in NisdIds(s') <==> m in NisdIds(s) || m == n.id {
      if m in NisdIds(s) || m == n.id { assert NisdConf(m) in s'; }
      if m in NisdIds(s') { assert NisdConf(m) in s || m == n.id; }
    }
    forall m | m in NisdIds(s') ensures RecordOf(s', m) == if m == n.id then n else RecordOf(s, m) {}
  }

  lemma RecordAfter(s: KV, n: Nisd, m: Id)
    requires |n.fdom| == FD_MAX
    ensures var s' := WithRecord(s, n);
            if m == n.id then HasRecord(s', m) && RecordOf(s', m) == n && Stored(s', m) == n.avail
            else (HasRecord(s', m) <==> HasRecord(s, m)) && RecordOf(s', m) == RecordOf(s, m) && Stored(s', m) == Stored(s, m)
    ensures BlocksOn(WithRecord(s, n), m) == BlocksOn(s, m)
  {
    forall k: Key | k.ChunkKey? ensures SameAt(s, WithRecord(s, n), k) {}
    SameBlocksOn(s, WithRecord(s, n), m);
  }

  lemma RegisterKeepsRecords(s: KV, n: Nisd)
    requires Records(s) && |n.fdom| == FD_MAX && NisdConf(n.id) !in s
    requires Nested(Registered(s)[n.id := n]) && PartitionIdsFresh(Registered(s)[n.id := n])
    ensures Records(WithRecord(s, n)) && BlocksOn(s, n.id) == {}
  {
    hide Nested, PartitionIdsFresh, Registered, RecordOf;
    var s' := WithRecord(s, n);
    RegisteredAfter(s, n);
    forall m ensures NisdConf(m) in s' || NisdAvail(m) in s' ==> HasRecord(s', m) { RecordAfter(s, n, m); }
    forall k | k in s' && k.ChunkKey? ensures s'[k].Ref? && HasRecord(s', s'[k].id) { RecordAfter(s, n, s[k].id); }
    forall k | k in s && k.ChunkKey? ensures s[k] != Ref(n.id) { assert HasRecord(s, s[k].id); }
  }

  lemma RegisterKeepsBooks(s: KV, objs: map<Id, Nisd>, n: Nisd)
    requires Bounded(s) && Trails(s, objs) && |n.fdom| == FD_MAX && 0 <= n.avail <= n.total && BlocksOn(s, n.id) == {}
    ensures Bounded(WithRecord(s, n)) && Trails(WithRecord(s, n), objs[n.id := n])
  {
    hide BlocksOn, Stored, RecordOf;
    var s', objs' := WithRecord(s, n), objs[n.id := n];
    forall m | HasRecord(s', m)
      ensures 0 <= Stored(s', m) && Stored(s', m) + CHUNK_SIZE * |BlocksOn(s', m)| <= s'[NisdConf(m)].total
    {
      RecordAfter(s, n, m);
    }
    forall m | m in objs'
      ensures HasRecord(s', m) && 0 <= objs'[m].avail <= Stored(s', m) && objs'[m] == RecordOf(s', m).(avail := objs'[m].avail)
    {
      RecordAfter(s, n, m);
    }
  }

  lemma ReregisterKeepsRecords(s: KV, n: Nisd)
    requires Records(s) && HasRecord(s, n.id) && RecordOf(s, n.id).fdom == n.fdom && |n.fdom| == FD_MAX
    ensures Records(WithRecord(s, n))
  {
    hide Nested, PartitionIdsFresh, Registered, RecordOf;
    var s' := WithRecord(s, n);
    forall m ensures NisdConf(m) in s' || NisdAvail(m) in s' ==> HasRecord(s', m) { RecordAfter(s, n, m); }
    forall k | k in s' && k.ChunkKey? ensures s'[k].Ref? && HasRecord(s', s'[k].id) { RecordAfter(s, n, s[k].id); }
    forall m | NisdConf(m) in s' ensures NisdConf(m) in s && RecordOf(s', m).fdom == RecordOf(s, m).fdom { RecordAfter(s, n, m); }
    SameTuples(s, s');
  }

  /** A second registration keeps every NISD within its size if and only if the free space it reports
      leaves room for the chunks already placed on it. */
  lemma ReregisterKeepsBoundedIff(s: KV, n: Nisd)
    requires Bounded(s) && HasRecord(s, n.id) && |n.fdom| == FD_MAX && 0 <= n.avail
    ensures Bounded(WithRecord(s, n)) <==> LeavesRoom(s, n)
  {
    hide BlocksOn, Stored, RecordOf;
    var s' := WithRecord(s, n);
    forall m ensures HasRecord(s', m) <==> HasRecord(s, m) { RecordAfter(s, n, m); }
    forall m | HasRecord(s', m)
      ensures 0 <= Stored(s', m) && (Stored(s', m) + CHUNK_SIZE * |BlocksOn(s', m)| <= s'[NisdConf(m)].total <==> m != n.id || LeavesRoom(s, n))
    {
      RecordAfter(s, n, m);
    }
  }

  lemma ReregisterKeepsTrails(s: KV, objs: map<Id, Nisd>, n: Nisd)
    requires Trails(s, objs) && |n.fdom| == FD_MAX && 0 <= n.avail
    ensures Trails(WithRecord(s, n), objs[n.id := n])
  {
    hide BlocksOn, Stored, RecordOf;
    var s', objs' := WithRecord(s, n), objs[n.id := n];
    forall m | m in objs'
      ensures HasRecord(s', m) && 0 <= objs'[m].avail <= Stored(s', m) && objs'[m] == RecordOf(s', m).(avail := objs'[m].avail)
    {
      RecordAfter(s, n, m);
    }
  }

  /** Steps that touch no key of a vdev or of a PFS keep the reverse indexes. */
  lemma SameReverse(s: KV, s': KV)
    requires NamesAgree(s) && MembersAgree(s) && PlacementsAgree(s)
    requires forall k: Key | k.VName? || k.VdevCfg? || k.PfsMember? || k.NisdVdev? || k.ChunkKey? :: SameAt(s, s', k)
    ensures NamesAgree(s') && MembersAgree(s') && PlacementsAgree(s')
  {
    forall m, v ensures IsAt(s', VName(m), Ref(v)) == IsAt(s, VName(m), Ref(v)) && IsAt(s', VdevCfg(v, Name), Text(m)) == IsAt(s, VdevCfg(v, Name), Text(m)) {
      assert SameAt(s, s', VName(m)) && SameAt(s, s', VdevCfg(v, Name));
    }
    forall m ensures SameAt(s, s', VName(m)) {}
    forall v, f ensures SameAt(s, s', VdevCfg(v, f)) {}
    forall q, v ensures PfsMember(q, v) in s' <==> IsAt(s', VdevCfg(v, Pfs), Ref(q)) {
      assert SameAt(s, s', PfsMember(q, v)) && SameAt(s, s', VdevCfg(v, Pfs));
    }
    forall x, v ensures NisdVdev(x, v) in s' <==> Naming(s', ChunksOf(s', v), x) != {} {
      assert SameAt(s, s', NisdVdev(x, v));
      forall k ensures k in Naming(s', ChunksOf(s', v), x) <==> k in Naming(s, ChunksOf(s, v), x) {
        if k.ChunkKey? { assert SameAt(s, s', k); }
      }
    }
  }

  lemma RegisterKeepsInv(w: World, w': World, n: Nisd)
    requires Inv(w) && Registers(w, w', n)
    ensures Inv(w')
  {
    hide Records, Bounded, Trails, NamesAgree, MembersAgree, PlacementsAgree, Nested, PartitionIdsFresh, Registered, BlocksOn;
    RegisterKeepsRecords(w.store, n);
    RegisterKeepsBooks(w.store, w.objs, n);
    SameReverse(w.store, w'.store);
  }

  lemma ReregisterKeepsInv(w: World, w': World, n: Nisd)
    requires Inv(w) && Reregisters(w, w', n)
    ensures Inv(w')
  {
    hide Records, Bounded, Trails, NamesAgree, MembersAgree, PlacementsAgree, BlocksOn, RecordOf, HasRecord;
    ReregisterKeepsRecords(w.store, n);
    ReregisterKeepsBoundedIff(w.store, n);
    ReregisterKeepsTrails(w.store, w.objs, n);
    SameReverse(w.store, w'.store);
  }

  lemma PfsKeepsRecord(s: KV, pfs: Id, name: string, off: nat, n: Id)
    ensures var s' := WithPfs(s, pfs, name, off);
            HasRecord(s', n) == HasRecord(s, n) && RecordOf(s', n) == RecordOf(s, n) && Stored(s', n) == Stored(s, n)
            && BlocksOn(s', n) == BlocksOn(s, n)
  {
    var s' := WithPfs(s, pfs, name, off);
    forall k: Key | k.ChunkKey? ensures SameAt(s, s', k) {}
    SameBlocksOn(s, s', n);
  }

  lemma PfsKeepsBooks(s: KV, objs: map<Id, Nisd>, pfs: Id, name: string, off: nat)
    requires Records(s) && Bounded(s) && Trails(s, objs)
    ensures var s' := WithPfs(s, pfs, name, off); Records(s') && Bounded(s') && Trails(s', objs)
  {
    hide Nested, PartitionIdsFresh, Registered, BlocksOn, HasRecord, Stored, RecordOf;
    var s' := WithPfs(s, pfs, name, off);
    forall n ensures HasRecord(s', n) == HasRecord(s, n) && RecordOf(s', n) == RecordOf(s, n) && Stored(s', n) == Stored(s, n)
      && BlocksOn(s', n) == BlocksOn(s, n) { PfsKeepsRecord(s, pfs, name, off, n); }
    forall k | k in s' && k.ChunkKey? ensures s'[k].Ref? && HasRecord(s', s'[k].id) {
      assert SameAt(s, s', k);
    }
    SameTuples(s, s');
  }

  lemma PfsKeepsInv(w: World, w': World, pfs: Id, name: string, off: nat)
    requires Inv(w) && AddsPfs(w, w', pfs, name, off)
    ensures Inv(w')
  {
    hide Records, Bounded, Trails, NamesAgree, MembersAgree, PlacementsAgree;
    PfsKeepsBooks(w.store, w.objs, pfs, name, off);
    SameReverse(w.store, w'.store);
  }

  lemma MountKeepsRecord(s: KV, id: Id, counter: nat, time: int, n: Id)
    ensures var s' := WithMount(s, id, counter, time);
            HasRecord(s', n) == HasRecord(s, n) && RecordOf(s', n) == RecordOf(s, n) && Stored(s', n) == Stored(s, n)
            && BlocksOn(s', n) == BlocksOn(s, n)
  {
    var s' := WithMount(s, id, counter, time);
    forall k: Key | k.ChunkKey? ensures SameAt(s, s', k) {}
    SameBlocksOn(s, s', n);
  }

  lemma MountKeepsBooks(s: KV, objs: map<Id, Nisd>, id: Id, counter: nat, time: int)
    requires Records(s) && Bounded(s) && Trails(s, objs)
    ensures var s' := WithMount(s, id, counter, time); Records(s') && Bounded(s') && Trails(s', objs)
  {
    hide Nested, PartitionIdsFresh, Registered, BlocksOn, HasRecord, Stored, RecordOf;
    var s' := WithMount(s, id, counter, time);
    forall n ensures HasRecord(s', n) == HasRecord(s, n) && RecordOf(s', n) == RecordOf(s, n) && Stored(s', n) == Stored(s, n)
      && BlocksOn(s', n) == BlocksOn(s, n) { MountKeepsRecord(s, id, counter, time, n); }
    forall k | k in s' && k.ChunkKey? ensures s'[k].Ref? && HasRecord(s', s'[k].id) { assert SameAt(s, s', k); }
    SameTuples(s, s');
  }

  lemma MountKeepsInv(w: World, w': World, id: Id, counter: nat, time: int)
    requires Inv(w) && Mounts(w, w', id, counter, time)
    ensures Inv(w')
  {
    hide Records, Bounded, Trails, NamesAgree, MembersAgree, PlacementsAgree;
    MountKeepsBooks(w.store, w.objs, id, counter, time);
    SameReverse(w.store, w'.store);
  }

  lemma RebuildKeepsInv(w: World, w': World)
    requires Inv(w) && Rebuilds(w, w')
    ensures Inv(w') && forall n :: n in w'.objs ==> w'.objs[n].avail == Stored(w.store, n)
  {
    forall n | n in w'.objs ensures HasRecord(w.store, n) && w'.objs[n] == RecordOf(w.store, n) {
      assert NisdConf(n) in w.store;
    }
  }

  // ----- every run -----

  lemma StepKeepsInv(w: World, w': World)
    requires Inv(w) && Step(w, w')
    ensures Inv(w')
  {
    hide Inv, Registers, Reregisters, Prepares, Creates, Drops, Deletes, AddsPfs, Mounts, Rebuilds;
    if CalmStep(w, w') {
      if n :| Registers(w, w', n) { RegisterKeepsInv(w, w', n); }
      else if n :| Reregisters(w, w', n) { ReregisterKeepsInv(w, w', n); }
      else if p :| Prepares(w, w', p) { PrepareKeepsInv(w, w', p); }
      else if id, pfs, off, plan, alloc :| Creates(w, w', id, pfs, off, plan, alloc) { CreateKeepsInv(w, w', id, pfs, off, plan, alloc); }
      else if id :| Drops(w, w', id) { DropKeepsInv(w, w', id); }
      else if id, user, reached :| CalmDelete(w, w', id, user, reached) { DeleteKeepsInv(w, w', id, user, reached); }
      else if pfs, name, off :| AddsPfs(w, w', pfs, name, off) { PfsKeepsInv(w, w', pfs, name, off); }
      else if id, counter, time :| Mounts(w, w', id, counter, time) { MountKeepsInv(w, w', id, counter, time); }
      else { RebuildKeepsInv(w, w'); }
    } else {
      var id, user, reached :| Deletes(w, w', id, user, reached);
      DeleteKeepsInv(w, w', id, user, reached);
    }
  }

  lemma PrepareKeepsInv(w: World, w': World, p: Prep)
    requires Inv(w) && Prepares(w, w', p)
    ensures Inv(w')
  {
  }

  lemma DropKeepsInv(w: World, w': World, id: Id)
    requires Inv(w) && Drops(w, w', id)
    ensures Inv(w')
  {
  }

  /** No oversubscription and exact reverse indexes after every run. */
  lemma {:induction false} RunKeepsInv(ws: seq<World>)
    requires Run(ws)
    ensures Inv(ws[|ws|-1])
  {
    if |ws| == 1 {
      StartIsEmpty();
    } else {
      RunKeepsInv(ws[..|ws|-1]);
      StepKeepsInv(ws[|ws|-2], ws[|ws|-1]);
    }
  }

  /** No oversubscription: after every run, the index never believes in more space on a NISD than the
      store, the store in none below zero, and free space and placed chunks fit the size of the NISD. */
  lemma {:induction false} NoOversubscription(ws: seq<World>, n: Id)
    requires Run(ws) && HasRecord(ws[|ws|-1].store, n)
    ensures var w := ws[|ws|-1];
            (n in w.objs ==> 0 <= w.objs[n].avail <= Stored(w.store, n))
            && 0 <= Stored(w.store, n)
            && Stored(w.store, n) + CHUNK_SIZE * |BlocksOn(w.store, n)| <= w.store[NisdConf(n)].total
  {
    RunKeepsInv(ws);
  }

  /** The reverse indexes after every run, whatever prepares are in flight: a name entry exactly for the
      vdev of that name, a PFS entry exactly for the vdevs that name the PFS, a NISD entry exactly for
      the vdevs with a block on the NISD. */
  lemma {:induction false} ReverseIndexesAgree(ws: seq<World>, v: Id, name: string, pfs: Id, x: Id)
    requires Run(ws) && name != ""
    ensures var s := ws[|ws|-1].store;
            (IsAt(s, VName(name), Ref(v)) <==> IsAt(s, VdevCfg(v, Name), Text(name)))
            && (PfsMember(pfs, v) in s <==> IsAt(s, VdevCfg(v, Pfs), Ref(pfs)))
            && (NisdVdev(x, v) in s <==> exists k :: k in s && k.ChunkKey? && k.vdev == v && s[k] == Ref(x))
  {
    RunKeepsInv(ws);
    var s := ws[|ws|-1].store;
    assert NisdVdev(x, v) in s <==> Naming(s, ChunksOf(s, v), x) != {};
    if k :| k in s && k.ChunkKey? && k.vdev == v && s[k] == Ref(x) { assert k in Naming(s, ChunksOf(s, v), x); }
    if Naming(s, ChunksOf(s, v), x) != {} {
      var k :| k in Naming(s, ChunksOf(s, v), x);
      assert k in ChunksOf(s, v);
    }
  }

  lemma StartIsEmpty()
    ensures Inv(START) && Balanced(START)
  {
    assert NisdIds(map[]) == {} && Registered(map[]) == map[];
  }

  // ----- exact books -----

  lemma RegisterKeepsBalance(w: World, w': World, n: Nisd)
    requires Inv(w) && Registers(w, w', n) && Balanced(w)
    ensures Balanced(w')
  {
    hide Nested, PartitionIdsFresh, Registered, BlocksOn, RecordOf, NamesAgree, MembersAgree, PlacementsAgree, Bounded;
    RegisterKeepsRecords(w.store, n);
    forall m ensures m in w'.objs ==> w'.objs[m].avail == Stored(w'.store, m) { RecordAfter(w.store, n, m); }
    forall m | HasRecord(w'.store, m)
      ensures m in w'.reg && Stored(w'.store, m) + CHUNK_SIZE * |BlocksOn(w'.store, m)| == w'.reg[m]
    {
      RecordAfter(w.store, n, m);
    }
  }

  lemma ReregisterKeepsBalance(w: World, w': World, n: Nisd)
    requires Reregisters(w, w', n) && Balanced(w)
    ensures Balanced(w')
  {
    hide BlocksOn, RecordOf, HasRecord, Stored;
    forall m ensures m in w'.objs ==> w'.objs[m].avail == Stored(w'.store, m) { RecordAfter(w.store, n, m); }
    forall m | HasRecord(w'.store, m)
      ensures m in w'.reg && Stored(w'.store, m) + CHUNK_SIZE * |BlocksOn(w'.store, m)| == w'.reg[m]
    {
      RecordAfter(w.store, n, m);
    }
  }

  lemma CreateKeepsBalance(w: World, w': World, id: Id, pfs: Id, off: nat, plan: seq<seq<Pick>>, alloc: map<Id, int>)
    requires Inv(w) && Creates(w, w', id, pfs, off, plan, alloc) && Balanced(w)
    ensures Balanced(w')
  {
    hide Nested, PartitionIdsFresh, Registered, BlocksOn, RecordOf, NamesAgree, MembersAgree, PlacementsAgree, Bounded,
         ApplyAll, CreateChanges, PlacesChunks, NamesVdev, ConfiguresVdev, JoinsPfs, TakesSpace, Flat, HasRecord, Stored, NoTrace, IdsFresh;
    CreatesEffect(w, w', id, pfs, off, plan, alloc);
    forall m ensures m in w'.objs ==> w'.objs[m].avail == Stored(w'.store, m) {
      SpaceRecord(w.store, w'.store, w.objs, alloc, m);
    }
    forall m | HasRecord(w'.store, m)
      ensures m in w'.reg && Stored(w'.store, m) + CHUNK_SIZE * |BlocksOn(w'.store, m)| == w'.reg[m]
    {
      SpaceRecord(w.store, w'.store, w.objs, alloc, m);
      CreateBalance(w.store, w'.store, w.objs, alloc, id, Flat(plan), m);
    }
  }

  /** A delete from exact books keeps them exact if and only if the update of the index reached every
      refunded NISD it still holds; meeting an evicted one first stops it short. */
  lemma DeleteBalanceIff(w: World, w': World, id: Id, user: Id, reached: set<Id>)
    requires Inv(w) && Deletes(w, w', id, user, reached) && Balanced(w)
    ensures Balanced(w') <==> Refunded(w.store, id) * w.objs.Keys <= reached
  {
    hide Nested, PartitionIdsFresh, Registered, BlocksOn, RecordOf, NamesAgree, MembersAgree, PlacementsAgree, Bounded,
         DeleteEffect, HasRecord, Stored, IdsFresh, Refunded, Owed;
    var s, s' := w.store, w'.store;
    forall m | m in w.objs
      ensures w'.objs[m].avail == Stored(s', m) <==> (m in Refunded(s, id) ==> m in reached)
    {
      DeletedRecord(s, s', id, user, m);
      RefundedIffOwed(s, id, m);
      assert NisdConf(m) in s by { RecordHasConf(s, m); }
      if Owed(s, id, m) > 0 { MulSplit(Owed(s, id, m) - 1, 1, CHUNK_SIZE); MulNonNeg(Owed(s, id, m) - 1, CHUNK_SIZE); }
    }
    forall m | HasRecord(s', m) ensures m in w'.reg && Stored(s', m) + CHUNK_SIZE * |BlocksOn(s', m)| == w'.reg[m] {
      DeletedRecord(s, s', id, user, m);
      DeleteBalance(s, s', id, user, m);
    }
  }

  /** The store after a delete. */
  ghost function DeletedStore(s: KV, id: Id, user: Id): KV {
    map k | k in s && ((k.NisdAvail? && k.nisd in Refunded(s, id)) || !Doomed(s, id, user, k)) ::
      if k.NisdAvail? && k.nisd in Refunded(s, id) then Num(Stored(s, k.nisd) + CHUNK_SIZE * Owed(s, id, k.nisd)) else s[k]
  }

  lemma DeletedStoreIsIt(s: KV, id: Id, user: Id)
    requires Records(s)
    ensures DeleteEffect(s, DeletedStore(s, id, user), id, user)
  {
    hide Owed, Stored, Nested, PartitionIdsFresh, Registered;
    var s' := DeletedStore(s, id, user);
    forall k: Key ensures DeletedAt(s, s', id, user, k) {
      if k.NisdAvail? && k.nisd in Refunded(s, id) {
        RefundedIffOwed(s, id, k.nisd);
        assert HasRecord(s, k.nisd);
      }
    }
  }

  /** A delete may reach any of the refunded NISDs of the index, and no others, if one is missing. */
  lemma DeleteMayReach(w: World, id: Id, user: Id, reached: set<Id>) returns (w': World)
    requires Records(w.store) && reached <= Refunded(w.store, id) && !(Refunded(w.store, id) <= w.objs.Keys)
    ensures Deletes(w, w', id, user, reached)
  {
    hide DeleteEffect, Refunded;
    var s' := DeletedStore(w.store, id, user);
    DeletedStoreIsIt(w.store, id, user);
    w' := w.(store := s', objs := Restored(w.objs, s', reached));
  }

  /** From exact books, every way a delete can go keeps them exact if and only if the NISDs it refunds
      are all in the index or all evicted. */
  lemma DeleteKeepsBalanceIff(w: World, id: Id, user: Id)
    requires Inv(w) && Balanced(w)
    ensures (forall w', reached :: Deletes(w, w', id, user, reached) ==> Balanced(w')) <==> AllOrNone(w.store, w.objs, id)
  {
    hide Inv, Balanced, Deletes, Refunded;
    if AllOrNone(w.store, w.objs, id) {
      forall w', reached | Deletes(w, w', id, user, reached) ensures Balanced(w') {
        CalmReachesAll(w, w', id, user, reached);
        DeleteBalanceIff(w, w', id, user, reached);
      }
    } else {
      InvRecords(w);
      var w' := DeleteMayReach(w, id, user, {});
      DeleteBalanceIff(w, w', id, user, {});
      assert Refunded(w.store, id) * w.objs.Keys != {};
    }
  }

  lemma InvRecords(w: World)
    requires Inv(w)
    ensures Records(w.store) && Trails(w.store, w.objs) && PfsUsable(w.store)
  {
  }

  lemma RecordHasConf(s: KV, n: Id)
    requires HasRecord(s, n)
    ensures NisdConf(n) in s
  {
  }

  lemma PfsKeepsBalance(w: World, w': World, pfs: Id, name: string, off: nat)
    requires AddsPfs(w, w', pfs, name, off) && Balanced(w)
    ensures Balanced(w')
  {
    hide BlocksOn, HasRecord, Stored, RecordOf;
    forall n ensures HasRecord(w'.store, n) == HasRecord(w.store, n) && Stored(w'.store, n) == Stored(w.store, n)
      && BlocksOn(w'.store, n) == BlocksOn(w.store, n) { PfsKeepsRecord(w.store, pfs, name, off, n); }
  }

  lemma MountKeepsBalance(w: World, w': World, id: Id, counter: nat, time: int)
    requires Mounts(w, w', id, counter, time) && Balanced(w)
    ensures Balanced(w')
  {
    hide BlocksOn, HasRecord, Stored, RecordOf;
    forall n ensures HasRecord(w'.store, n) == HasRecord(w.store, n) && Stored(w'.store, n) == Stored(w.store, n)
      && BlocksOn(w'.store, n) == BlocksOn(w.store, n) { MountKeepsRecord(w.store, id, counter, time, n); }
  }

  lemma CalmStepKeepsBalance(w: World, w': World)
    requires Inv(w) && Balanced(w) && CalmStep(w, w')
    ensures Balanced(w')
  {
    hide Inv, Registers, Reregisters, Creates, Deletes, AddsPfs, Mounts, Rebuilds, Refunded;
    if n :| Registers(w, w', n) { RegisterKeepsBalance(w, w', n); }
    else if n :| Reregisters(w, w', n) { ReregisterKeepsBalance(w, w', n); }
    else if p :| Prepares(w, w', p) { }
    else if id, pfs, off, plan, alloc :| Creates(w, w', id, pfs, off, plan, alloc) { CreateKeepsBalance(w, w', id, pfs, off, plan, alloc); }
    else if id :| Drops(w, w', id) { }
    else if id, user, reached :| CalmDelete(w, w', id, user, reached) { CalmReachesAll(w, w', id, user, reached); DeleteBalanceIff(w, w', id, user, reached); }
    else if pfs, name, off :| AddsPfs(w, w', pfs, name, off) { PfsKeepsBalance(w, w', pfs, name, off); }
    else if id, counter, time :| Mounts(w, w', id, counter, time) { MountKeepsBalance(w, w', id, counter, time); }
    else { RebuildKeepsBalance(w, w'); }
  }

  lemma CalmReachesAll(w: World, w': World, id: Id, user: Id, reached: set<Id>)
    requires CalmDelete(w, w', id, user, reached)
    ensures Refunded(w.store, id) * w.objs.Keys <= reached
  {
  }

  lemma RebuildKeepsBalance(w: World, w': World)
    requires Inv(w) && Balanced(w) && Rebuilds(w, w')
    ensures Balanced(w')
  {
    hide Inv, HasRecord, BlocksOn;
    RebuildKeepsInv(w, w');
  }

  lemma {:induction false} CalmIsRun(ws: seq<World>)
    requires CalmRun(ws)
    ensures Run(ws)
  {
    if |ws| > 1 { CalmIsRun(ws[..|ws|-1]); }
  }

  /** As long as every delete meets only NISDs of the index, or only evicted ones, index and store agree on every NISD, and free space
      plus placed chunks is exactly the space registered. */
  lemma {:induction false} CalmRunIsExact(ws: seq<World>)
    requires CalmRun(ws)
    ensures Balanced(ws[|ws|-1])
  {
    if |ws| == 1 {
      StartIsEmpty();
    } else {
      CalmRunIsExact(ws[..|ws|-1]);
      CalmIsRun(ws[..|ws|-1]);
      RunKeepsInv(ws[..|ws|-1]);
      CalmStepKeepsBalance(ws[|ws|-2], ws[|ws|-1]);
    }
  }

  // ----- create, then delete -----

  lemma {:induction false} OwedIsDrawn(s: KV, s': KV, id: Id, picks: seq<Pick>, n: Id)
    requires PlacesChunks(s, s', id, picks) && NoTrace(s, id)
    ensures Owed(s', id, n) == Draws(picks, n)
  {
    var now, was, added := BlocksOn(s', n), BlocksOn(s, n), Naming(s', ChunksOf(s', id), n);
    forall k ensures k in now <==> k in was || k in added {
      if k.ChunkKey? && k.vdev != id { assert SameAt(s, s', k); }
    }
    assert now == was + added;
    forall k | k in was ensures k !in added { assert k in s; }
    assert was !! added;
  }

  /** Deleting a vdev right after its create gives every NISD back the space the index knew before
      the create, removes every key of the vdev and its reverse entries, and leaves every other key as
      it was, save the rotation offset of its PFS, the entry of the empty name and ownership keys. */
  lemma CreateThenDelete(w0: World, w1: World, w2: World, id: Id, pfs: Id, off: nat, plan: seq<seq<Pick>>, alloc: map<Id, int>,
                         user: Id, reached: set<Id>)
    requires Inv(w0) && Creates(w0, w1, id, pfs, off, plan, alloc) && Deletes(w1, w2, id, user, reached)
    ensures forall n :: HasRecord(w0.store, n) ==>
              Stored(w2.store, n) == if n in alloc then w0.objs[n].avail else Stored(w0.store, n)
    ensures Balanced(w0) ==> forall n :: HasRecord(w0.store, n) ==> Stored(w2.store, n) == Stored(w0.store, n)
    ensures NoTrace(w2.store, id)
    ensures forall k: Key :: !k.NisdAvail? && !k.OwnsVdev? && !k.OwnsName? && k != VName("") && k != PfsOffset(pfs) ==>
              SameAt(w0.store, w2.store, k)
  {
    hide Nested, PartitionIdsFresh, Registered, BlocksOn, Bounded, ApplyAll, CreateChanges, Flat, CommittedObjs,
         Records, NamesAgree, MembersAgree, PlacementsAgree, NoTrace, CreateEffect, DeleteEffect, HasRecord, Stored, RecordOf, Owed, Refunded;
    var p := w0.pending[id];
    CreatesEffect(w0, w1, id, pfs, off, plan, alloc);
    CreateKeepsInv(w0, w1, id, pfs, off, plan, alloc);
    forall n | HasRecord(w0.store, n)
      ensures Stored(w2.store, n) == if n in alloc then w0.objs[n].avail else Stored(w0.store, n)
    {
      RefundOf(w0, w1, w2, id, pfs, off, plan, alloc, user, n);
    }
    TraceGone(w1, w2, id, user, reached);
    forall k: Key | !k.NisdAvail? && !k.OwnsVdev? && !k.OwnsName? && k != VName("") && k != PfsOffset(pfs)
      ensures SameAt(w0.store, w2.store, k)
    {
      KeyRestored(w0, w1, w2, id, pfs, off, plan, alloc, user, reached, k);
    }
  }

  lemma RefundOf(w0: World, w1: World, w2: World, id: Id, pfs: Id, off: nat, plan: seq<seq<Pick>>, alloc: map<Id, int>, user: Id, n: Id)
    requires Inv(w0) && Creates(w0, w1, id, pfs, off, plan, alloc) && DeleteEffect(w1.store, w2.store, id, user) && Inv(w1)
    requires HasRecord(w0.store, n)
    ensures Stored(w2.store, n) == if n in alloc then w0.objs[n].avail else Stored(w0.store, n)
  {
    hide Nested, PartitionIdsFresh, Registered, BlocksOn, Bounded, ApplyAll, CreateChanges, Flat, CommittedObjs,
         NamesAgree, MembersAgree, PlacementsAgree, NoTrace, PlacesChunks, TakesSpace, NamesVdev, ConfiguresVdev, JoinsPfs, DeleteEffect, HasRecord, Stored, RecordOf, Owed, Draws, IdsFresh;
    CreatesEffect(w0, w1, id, pfs, off, plan, alloc);
    SpaceRecord(w0.store, w1.store, w0.objs, alloc, n);
    DeletedRecord(w1.store, w2.store, id, user, n);
    OwedIsDrawn(w0.store, w1.store, id, Flat(plan), n);
    if n !in alloc { DrawnOnlyFrom(w0.objs, alloc, Flat(plan), n); }
  }

  lemma TraceGone(w: World, w': World, id: Id, user: Id, reached: set<Id>)
    requires Inv(w) && Deletes(w, w', id, user, reached)
    ensures NoTrace(w'.store, id)
  {
    var s, s' := w.store, w'.store;
    forall k | k in s' && (k.VdevCfg? || k.VdevMount? || k.ChunkKey? || k.NisdVdev? || k.PfsMember?) ensures k.vdev != id {
      assert DeletedAt(s, s', id, user, k);
      if k.NisdVdev? { assert NisdVdev(k.nisd, k.vdev) in s; }
      if k.PfsMember? { assert PfsMember(k.pfs, k.vdev) in s; }
    }
  }

  lemma KeyRestored(w0: World, w1: World, w2: World, id: Id, pfs: Id, off: nat, plan: seq<seq<Pick>>, alloc: map<Id, int>,
                    user: Id, reached: set<Id>, k: Key)
    requires Inv(w0) && Creates(w0, w1, id, pfs, off, plan, alloc) && Deletes(w1, w2, id, user, reached) && Inv(w1)
    requires CreateEffect(w0.store, w1.store, w0.pending[id], pfs, off, plan, alloc) && NoTrace(w0.store, id) && NoTrace(w2.store, id)
    requires w0.pending[id].req.vdev.id == id
    requires !k.NisdAvail? && !k.OwnsVdev? && !k.OwnsName? && k != VName("") && k != PfsOffset(pfs)
    ensures SameAt(w0.store, w2.store, k)
  {
    hide Records, Bounded, Trails, PlacementsAgree, MembersAgree, ApplyAll, CreateChanges, Flat, CommittedObjs, DrawsFrom, Restored, Refunded,
         Draws, BlocksOn, Naming, FindsPfs, IdsFresh, PfsUsable, Stored, Owed;
    var s0, s1, s2, name := w0.store, w1.store, w2.store, w0.pending[id].req.vdev.name;
    assert DeletedAt(s1, s2, id, user, k);
    match k
    case VName(m) =>
      assert IsAt(s1, VName(m), Ref(id)) <==> IsAt(s1, VdevCfg(id, Name), Text(m));
      if m != name { assert SameAt(s0, s1, k); } else { NameWasFree(w0, m); }
    case VdevCfg(v, f) => if v != id { assert SameAt(s0, s1, k); }
    case VdevMount(v, f) => assert SameAt(s0, s1, k);
    case ChunkKey(v, _, _, _) => if v != id { assert SameAt(s0, s1, k); }
    case NisdVdev(x, v) => if v != id { assert SameAt(s0, s1, k); }
    case PfsMember(q, v) => if v != id { assert SameAt(s0, s1, k); }
    case NisdConf(n) => assert SameAt(s0, s1, k);
    case PfsOffset(q) => assert SameAt(s0, s1, k);
    case PfsByName(m) => assert SameAt(s0, s1, k);
    case PfsTitle(q) => assert SameAt(s0, s1, k);
    case _ =>
  }

  lemma NameWasFree(w: World, name: string)
    requires Inv(w) && NameFree(w.store, name) && name != ""
    ensures VName(name) !in w.store
  {
    assert !IsAt(w.store, VdevCfg(NO_ID, Name), Text(name));
    assert !IsAt(w.store, VName(name), Ref(NO_ID));
  }

  /** Live vdevs have different names, however prepares and applies were interleaved. */
  lemma {:induction false} NamesAreUnique(ws: seq<World>, v1: Id, v2: Id, name: string)
    requires Run(ws) && name != ""
    requires IsAt(ws[|ws|-1].store, VdevCfg(v1, Name), Text(name)) && IsAt(ws[|ws|-1].store, VdevCfg(v2, Name), Text(name))
    ensures v1 == v2
  {
    RunKeepsInv(ws);
    var s := ws[|ws|-1].store;
    assert IsAt(s, VName(name), Ref(v1)) && IsAt(s, VName(name), Ref(v2));
  }
}
