/** The accounting of the control plane: what every create and delete writes to the store, and what
    holds after every run of registrations, prepares, creates, deletes and rebuilds
    (controlplane/ctlplanefuncs/server/srvctlplanefuncs.go). */
module Ledger {
  import opened Changes
  import opened Finite
  import opened Lib
  import opened Index
  import opened Allocator
  import opened VdevAllocator
  import opened Store

  // ----- what a create writes -----

  /** The request as write-prep leaves it (id and chunk count set), and the user who sent it. */
  datatype Prep = Prep(req: VdevReq, user: Id)

  /** The source keeps the chunk count in 32 bits. */
  function ChunkCount(size: int): nat { Count8GBChunks(size) % 0x1_0000_0000 }

  /** cnt is the number of 8 GiB chunks of a vdev of that size, modulo the 32 bits that are kept. */
  ghost predicate Covers(size: int, cnt: nat) {
    cnt < 4294967296 && exists q: int :: CoversAt(size, cnt + 4294967296 * q)
  }

  /** The least number that holds the size, or one more for a negative size that is not whole chunks. */
  ghost predicate CoversAt(size: int, n: int) {
    size <= n * 8589934592 && (n - (if size < 0 && size % 8589934592 != 0 then 2 else 1)) * 8589934592 < size
  }

  lemma ChunkCountCovers(size: int)
    ensures Covers(size, ChunkCount(size))
  {
    var n := Count8GBChunks(size);
    assert CoversAt(size, n);
    assert n == ChunkCount(size) + 4294967296 * (n / 4294967296);
  }

  /** vdevPopulator: empty values are not written. */
  function VdevCfgChanges(v: VdevConfig): seq<StoreChange> {
    [Put(VdevCfg(v.id, Size), Num(v.size)),
     Put(VdevCfg(v.id, NumChunks), Num(v.chunkCnt)),
     Put(VdevCfg(v.id, DataBlks), Num(v.dataBlkCnt)),
     Put(VdevCfg(v.id, ParityBlks), Num(v.parityBlkCnt)),
     Put(VdevCfg(v.id, Mode), Num(ModeNumber(v.redundancy)))]
    + When(v.name != "", VdevCfg(v.id, Name), Text(v.name))
  }

  function PfsChanges(id: Id, pfs: Id): seq<StoreChange> {
    When(pfs != NO_ID, VdevCfg(id, Pfs), Ref(pfs)) + When(pfs != NO_ID, PfsMember(pfs, id), Text(""))
  }

  /** The changes write-prep hands to the apply phase. */
  function PrepChanges(p: Prep): seq<StoreChange> {
    var v, f := p.req.vdev, p.req.filter;
    VdevCfgChanges(v)
    + [Put(VName(v.name), Ref(v.id)), Put(VdevCfg(v.id, FdType), Text(FDName(f.fdType)))]
    + When(f.id != NO_ID, VdevCfg(v.id, FdId), Ref(f.id))
    + [Put(OwnsVdev(p.user, v.id), Text("1"))]
    + PfsChanges(v.id, v.pfsId)
    + When(v.name != "", OwnsName(p.user, v.name), Text("1"))
  }

  ghost function AvailChanges(ks: seq<Id>, alloc: map<Id, int>): seq<StoreChange> {
    if ks == [] then [] else
      var n := |ks| - 1;
      AvailChanges(ks[..n], alloc) + When(ks[n] in alloc, NisdAvail(ks[n]), Num(if ks[n] in alloc then alloc[ks[n]] else 0))
  }

  /** All that APCreateVdev writes for a placed vdev: pfs is the resolved PFS of the vdev, off the
      rotation offset used, plan the placements and alloc the committed sizes. */
  ghost function CreateChanges(p: Prep, pfs: Id, off: nat, plan: seq<seq<Pick>>, alloc: map<Id, int>): seq<StoreChange> {
    var v := p.req.vdev;
    PrepChanges(p)
    + (if v.pfsId == NO_ID then PfsChanges(v.id, pfs) else [])
    + VdevChanges(v, plan)
    + When(pfs != NO_ID, PfsOffset(pfs), Num(off + v.TotalRedundancyBlocksPerChunk()))
    + AvailChanges(Ranked(alloc.Keys), alloc)
  }

  /** The same, key by key. */
  ghost predicate CreateEffect(s: KV, s': KV, p: Prep, pfs: Id, off: nat, plan: seq<seq<Pick>>, alloc: map<Id, int>) {
    var v := p.req.vdev;
    && PlacesChunks(s, s', v.id, Flat(plan))
    && NamesVdev(s, s', v.id, v.name)
    && ConfiguresVdev(s', p.req, pfs)
    && JoinsPfs(s, s', v.id, pfs, off + v.TotalRedundancyBlocksPerChunk())
    && TakesSpace(s, s', alloc)
  }

  ghost predicate PlacesChunks(s: KV, s': KV, id: Id, picks: seq<Pick>) {
    && (forall k: Key :: k.ChunkKey? && k.vdev != id ==> SameAt(s, s', k))
    && (forall k :: k in s' && k.ChunkKey? && k.vdev == id ==> s'[k].Ref? && exists p :: p in picks && s'[k] == Ref(p.nisd))
    && (forall x, v :: v != id ==> SameAt(s, s', NisdVdev(x, v)))
    && (forall x :: NisdVdev(x, id) in s' <==> exists p :: p in picks && p.nisd == x)
    && (forall n :: |BlocksOn(s', n)| == |BlocksOn(s, n)| + Draws(picks, n))
  }

  ghost predicate NamesVdev(s: KV, s': KV, id: Id, name: string) {
    && (forall v, f :: v != id ==> SameAt(s, s', VdevCfg(v, f)))
    && (if name != "" then IsAt(s', VdevCfg(id, Name), Text(name)) else VdevCfg(id, Name) !in s')
    && (forall v, f :: SameAt(s, s', VdevMount(v, f)))
    && (forall m :: m != name ==> SameAt(s, s', VName(m)))
    && IsAt(s', VName(name), Ref(id))
  }

  /** The configuration row of a request, if it has one. */
  ghost function CfgOf(r: VdevReq, pfs: Id, f: CfgField): Option<Val> {
    match f
    case Size => Some(Num(r.vdev.size))
    case NumChunks => Some(Num(r.vdev.chunkCnt))
    case DataBlks => Some(Num(r.vdev.dataBlkCnt))
    case ParityBlks => Some(Num(r.vdev.parityBlkCnt))
    case Mode =>
      (match r.vdev.redundancy
       case RMReplica => Some(Num(0))
       case RMEC32K => Some(Num(1))
       case RMEC64K => Some(Num(2))
       case RMEC128K => Some(Num(3)))
    case Name => if r.vdev.name != "" then Some(Text(r.vdev.name)) else None
    case FdType =>
      (match r.filter.fdType
       case FD_ANY => Some(Text("any"))
       case FD_PDU => Some(Text("pdu"))
       case FD_RACK => Some(Text("rack"))
       case FD_HV => Some(Text("hv"))
       case FD_DEVICE => Some(Text("device"))
       case FD_PARTITION => Some(Text("partition")))
    case FdId => if r.filter.id != NO_ID then Some(Ref(r.filter.id)) else None
    case Pfs => if pfs != NO_ID then Some(Ref(pfs)) else None
  }

  /** The configuration rows of the vdev hold what the request says, and there are no others. */
  ghost predicate ConfiguresVdev(s': KV, r: VdevReq, pfs: Id) {
    forall f: CfgField :: Configured(s', r, pfs, f)
  }

  ghost predicate Configured(s': KV, r: VdevReq, pfs: Id, f: CfgField) {
    match CfgOf(r, pfs, f)
    case None => VdevCfg(r.vdev.id, f) !in s'
    case Some(x) => IsAt(s', VdevCfg(r.vdev.id, f), x)
  }

  ghost predicate JoinsPfs(s: KV, s': KV, id: Id, pfs: Id, off: int) {
    && (if pfs != NO_ID then IsAt(s', VdevCfg(id, Pfs), Ref(pfs)) else VdevCfg(id, Pfs) !in s')
    && (forall q, v :: !(v == id && q == pfs != NO_ID) ==> SameAt(s, s', PfsMember(q, v)))
    && (pfs != NO_ID ==> PfsMember(pfs, id) in s' && IsAt(s', PfsOffset(pfs), Num(off)))
    && (forall q :: !(q == pfs != NO_ID) ==> SameAt(s, s', PfsOffset(q)))
    && (forall n :: SameAt(s, s', PfsByName(n)))
    && (forall q :: SameAt(s, s', PfsTitle(q)))
  }

  ghost predicate TakesSpace(s: KV, s': KV, alloc: map<Id, int>) {
    && (forall n :: SameAt(s, s', NisdConf(n)))
    && (forall n :: if n in alloc then IsAt(s', NisdAvail(n), Num(alloc[n])) else SameAt(s, s', NisdAvail(n)))
  }

  /** No key of vdev id is in the store. */
  ghost predicate NoTrace(s: KV, id: Id) {
    forall k :: k in s ==> !((k.VdevCfg? || k.VdevMount? || k.ChunkKey? || k.NisdVdev? || k.PfsMember?) && k.vdev == id)
  }

  // ----- from the change list to its effect -----

  /** What write-prep and the PFS lookup may put into the list. */
  ghost predicate Lawful(c: StoreChange, r: VdevReq, pfs: Id) {
    c.Put? &&
    match c.key
    case VdevCfg(w, f) => w == r.vdev.id && CfgOf(r, pfs, f) == Some(c.val)
    case VName(n) => n == r.vdev.name && c.val == Ref(r.vdev.id)
    case PfsMember(q, w) => w == r.vdev.id && q == pfs != NO_ID
    case OwnsVdev(_, _) => true
    case OwnsName(_, _) => true
    case _ => false
  }

  ghost predicate AllLawful(cs: seq<StoreChange>, r: VdevReq, pfs: Id) {
    forall i :: 0 <= i < |cs| ==> Lawful(cs[i], r, pfs)
  }

  lemma LawfulAppend(a: seq<StoreChange>, b: seq<StoreChange>, r: VdevReq, pfs: Id)
    requires AllLawful(a, r, pfs) && AllLawful(b, r, pfs)
    ensures AllLawful(a + b, r, pfs)
  {
  }

  ghost function PreChanges(p: Prep, pfs: Id): seq<StoreChange> {
    PrepChanges(p) + (if p.req.vdev.pfsId == NO_ID then PfsChanges(p.req.vdev.id, pfs) else [])
  }

  lemma PfsIsLawful(r: VdevReq, pfs: Id)
    ensures AllLawful(PfsChanges(r.vdev.id, pfs), r, pfs)
  {
  }

  lemma VdevCfgIsLawful(r: VdevReq, pfs: Id)
    ensures AllLawful(VdevCfgChanges(r.vdev), r, pfs)
  {
  }

  lemma PreIsLawful(p: Prep, pfs: Id)
    requires p.req.vdev.pfsId != NO_ID ==> pfs == p.req.vdev.pfsId
    ensures AllLawful(PreChanges(p, pfs), p.req, pfs)
  {
    hide VdevCfgChanges, PfsChanges, AllLawful;
    var v, f := p.req.vdev, p.req.filter;
    var c1 := [Put(VName(v.name), Ref(v.id)), Put(VdevCfg(v.id, FdType), Text(FDName(f.fdType)))];
    var c2, c3 := When(f.id != NO_ID, VdevCfg(v.id, FdId), Ref(f.id)), [Put(OwnsVdev(p.user, v.id), Text("1"))];
    var c4 := When(v.name != "", OwnsName(p.user, v.name), Text("1"));
    SmallIsLawful(p, pfs);
    VdevCfgIsLawful(p.req, pfs);
    PfsIsLawful(p.req, pfs);
    PfsIsLawful(p.req, NO_ID);
    NoPfs(p.req, pfs);
    LawfulAppend(VdevCfgChanges(v), c1, p.req, pfs);
    LawfulAppend(VdevCfgChanges(v) + c1, c2, p.req, pfs);
    LawfulAppend(VdevCfgChanges(v) + c1 + c2, c3, p.req, pfs);
    LawfulAppend(VdevCfgChanges(v) + c1 + c2 + c3, PfsChanges(v.id, v.pfsId), p.req, pfs);
    LawfulAppend(VdevCfgChanges(v) + c1 + c2 + c3 + PfsChanges(v.id, v.pfsId), c4, p.req, pfs);
    LawfulAppend(PrepChanges(p), if v.pfsId == NO_ID then PfsChanges(v.id, pfs) else [], p.req, pfs);
  }

  lemma NoPfs(r: VdevReq, pfs: Id)
    ensures PfsChanges(r.vdev.id, NO_ID) == [] && AllLawful([], r, pfs)
  {
  }

  lemma SmallIsLawful(p: Prep, pfs: Id)
    ensures var v, f := p.req.vdev, p.req.filter;
            AllLawful([Put(VName(v.name), Ref(v.id)), Put(VdevCfg(v.id, FdType), Text(FDName(f.fdType)))], p.req, pfs)
            && AllLawful(When(f.id != NO_ID, VdevCfg(v.id, FdId), Ref(f.id)), p.req, pfs)
            && AllLawful([Put(OwnsVdev(p.user, v.id), Text("1"))], p.req, pfs)
            && AllLawful(When(v.name != "", OwnsName(p.user, v.name), Text("1")), p.req, pfs)
  {
  }

  /** What one part of the list mentions, the list mentions. */
  lemma PartMentions(p: Prep, pfs: Id, k: Key)
    requires var v, f := p.req.vdev, p.req.filter;
             || Mentions(VdevCfgChanges(v), k)
             || Mentions([Put(VName(v.name), Ref(v.id)), Put(VdevCfg(v.id, FdType), Text(FDName(f.fdType)))], k)
             || Mentions(When(f.id != NO_ID, VdevCfg(v.id, FdId), Ref(f.id)), k)
             || Mentions(PfsChanges(v.id, v.pfsId), k)
             || (v.pfsId == NO_ID && Mentions(PfsChanges(v.id, pfs), k))
    ensures Mentions(PreChanges(p, pfs), k)
  {
    hide Mentions, VdevCfgChanges, PfsChanges, When;
    var v, f := p.req.vdev, p.req.filter;
    var a, b := VdevCfgChanges(v), [Put(VName(v.name), Ref(v.id)), Put(VdevCfg(v.id, FdType), Text(FDName(f.fdType)))];
    var c, d := When(f.id != NO_ID, VdevCfg(v.id, FdId), Ref(f.id)), [Put(OwnsVdev(p.user, v.id), Text("1"))];
    var e, g := PfsChanges(v.id, v.pfsId), When(v.name != "", OwnsName(p.user, v.name), Text("1"));
    MentionsAppend(a, b, k);
    MentionsAppend(a + b, c, k);
    MentionsAppend(a + b + c, d, k);
    MentionsAppend(a + b + c + d, e, k);
    MentionsAppend(a + b + c + d + e, g, k);
    MentionsAppend(PrepChanges(p), if v.pfsId == NO_ID then PfsChanges(v.id, pfs) else [], k);
  }

  lemma PfsMentions(id: Id, pfs: Id)
    requires pfs != NO_ID
    ensures Mentions(PfsChanges(id, pfs), VdevCfg(id, Pfs)) && Mentions(PfsChanges(id, pfs), PfsMember(pfs, id))
  {
    assert PfsChanges(id, pfs)[0].key == VdevCfg(id, Pfs) && PfsChanges(id, pfs)[1].key == PfsMember(pfs, id);
  }

  lemma CfgMentions(v: VdevConfig, f: CfgField)
    requires f != FdType && f != FdId && f != Pfs && (f == Name ==> v.name != "")
    ensures Mentions(VdevCfgChanges(v), VdevCfg(v.id, f))
  {
    var i := match f case Size => 0 case NumChunks => 1 case DataBlks => 2 case ParityBlks => 3 case Mode => 4 case _ => 5;
    assert VdevCfgChanges(v)[i].key == VdevCfg(v.id, f);
  }

  lemma FilterMentions(v: VdevConfig, f: Filter)
    ensures var b := [Put(VName(v.name), Ref(v.id)), Put(VdevCfg(v.id, FdType), Text(FDName(f.fdType)))];
            Mentions(b, VName(v.name)) && Mentions(b, VdevCfg(v.id, FdType))
    ensures f.id != NO_ID ==> Mentions(When(f.id != NO_ID, VdevCfg(v.id, FdId), Ref(f.id)), VdevCfg(v.id, FdId))
  {
    var b: seq<StoreChange> := [Put(VName(v.name), Ref(v.id)), Put(VdevCfg(v.id, FdType), Text(FDName(f.fdType)))];
    assert b[0].key == VName(v.name) && b[1].key == VdevCfg(v.id, FdType);
    if f.id != NO_ID { assert When(f.id != NO_ID, VdevCfg(v.id, FdId), Ref(f.id))[0].key == VdevCfg(v.id, FdId); }
  }

  /** Every row that the request has is in the list, and the entries the reverse indexes rely on. */
  lemma PreMentions(p: Prep, pfs: Id)
    requires p.req.vdev.pfsId != NO_ID ==> pfs == p.req.vdev.pfsId
    ensures var v, cs := p.req.vdev, PreChanges(p, pfs);
            Mentions(cs, VName(v.name)) && (pfs != NO_ID ==> Mentions(cs, PfsMember(pfs, v.id)))
            && forall f: CfgField :: CfgOf(p.req, pfs, f).Some? ==> Mentions(cs, VdevCfg(v.id, f))
  {
    hide Mentions, VdevCfgChanges, PfsChanges, When, PreChanges;
    var v := p.req.vdev;
    FilterMentions(v, p.req.filter);
    if pfs != NO_ID { PfsMentions(v.id, pfs); }
    PartMentions(p, pfs, VName(v.name));
    if pfs != NO_ID { PartMentions(p, pfs, PfsMember(pfs, v.id)); }
    forall f: CfgField | CfgOf(p.req, pfs, f).Some? ensures Mentions(PreChanges(p, pfs), VdevCfg(v.id, f)) {
      if f != FdType && f != FdId && f != Pfs { CfgMentions(v, f); }
      PartMentions(p, pfs, VdevCfg(v.id, f));
    }
  }

  lemma {:induction false} ChunkKeysOnly(v: VdevConfig, c: nat, picks: seq<Pick>)
    ensures forall k :: Mentions(ChunkChanges(v, c, picks), k) ==> k.ChunkKey? || k.NisdVdev?
  {
    if picks != [] {
      var n := |picks| - 1;
      ChunkKeysOnly(v, c, picks[..n]);
      forall k | Mentions(ChunkChanges(v, c, picks), k) ensures k.ChunkKey? || k.NisdVdev? {
        MentionsAppend(ChunkChanges(v, c, picks[..n]), BlockChanges(v, c, n, picks[n].nisd), k);
      }
    }
  }

  lemma {:induction false} PlanKeysOnly(v: VdevConfig, plan: seq<seq<Pick>>)
    ensures forall k :: Mentions(VdevChanges(v, plan), k) ==> k.ChunkKey? || k.NisdVdev?
  {
    if plan != [] {
      var n := |plan| - 1;
      PlanKeysOnly(v, plan[..n]);
      ChunkKeysOnly(v, n, plan[n]);
      forall k | Mentions(VdevChanges(v, plan), k) ensures k.ChunkKey? || k.NisdVdev? {
        MentionsAppend(VdevChanges(v, plan[..n]), ChunkChanges(v, n, plan[n]), k);
      }
    }
  }

  ghost predicate Levies(c: StoreChange, alloc: map<Id, int>) {
    c.Put? && c.key.NisdAvail? && c.key.nisd in alloc && c.val == Num(alloc[c.key.nisd])
  }

  ghost predicate AllLevy(cs: seq<StoreChange>, alloc: map<Id, int>) {
    forall i :: 0 <= i < |cs| ==> Levies(cs[i], alloc)
  }

  lemma LevyAppend(a: seq<StoreChange>, b: seq<StoreChange>, alloc: map<Id, int>)
    requires AllLevy(a, alloc) && AllLevy(b, alloc)
    ensures AllLevy(a + b, alloc)
  {
  }

  lemma {:induction false} AvailPuts(ks: seq<Id>, alloc: map<Id, int>)
    ensures AllLevy(AvailChanges(ks, alloc), alloc)
    ensures forall n | n in ks && n in alloc :: Mentions(AvailChanges(ks, alloc), NisdAvail(n))
  {
    if ks != [] {
      var m := |ks| - 1;
      var before, last := AvailChanges(ks[..m], alloc), When(ks[m] in alloc, NisdAvail(ks[m]), Num(if ks[m] in alloc then alloc[ks[m]] else 0));
      AvailPuts(ks[..m], alloc);
      LevyAppend(before, last, alloc);
      forall n | n in ks && n in alloc ensures Mentions(before + last, NisdAvail(n)) {
        MentionsAppend(before, last, NisdAvail(n));
        if n == ks[m] { assert last[0].key == NisdAvail(n); } else { assert n in ks[..m]; }
      }
    }
  }

  ghost predicate Quiet(k: Key) {
    k.ChunkKey? || k.NisdVdev? || k.NisdConf? || k.NisdAvail? || k.PfsOffset? || k.PfsByName? || k.PfsTitle?
  }

  ghost predicate ListsMember(s: KV, s': KV, id: Id, pfs: Id) {
    && (if pfs != NO_ID then IsAt(s', VdevCfg(id, Pfs), Ref(pfs)) else VdevCfg(id, Pfs) !in s')
    && (forall q, v :: !(v == id && q == pfs != NO_ID) ==> SameAt(s, s', PfsMember(q, v)))
    && (pfs != NO_ID ==> PfsMember(pfs, id) in s')
  }

  ghost predicate Allowed(k: Key, r: VdevReq, pfs: Id) {
    match k
    case VdevCfg(w, f) => w == r.vdev.id && CfgOf(r, pfs, f).Some?
    case VName(n) => n == r.vdev.name
    case PfsMember(q, w) => w == r.vdev.id && q == pfs != NO_ID
    case OwnsVdev(_, _) => true
    case OwnsName(_, _) => true
    case _ => false
  }

  lemma LawfulMention(cs: seq<StoreChange>, r: VdevReq, pfs: Id, k: Key)
    requires AllLawful(cs, r, pfs) && Mentions(cs, k)
    ensures Allowed(k, r, pfs)
  {
    var i :| 0 <= i < |cs| && cs[i].key == k;
    assert Lawful(cs[i], r, pfs);
  }

  /** Where the lawful writes of a key agree, that is its value. */
  lemma {:induction false} LawfulWrite(s: KV, cs: seq<StoreChange>, r: VdevReq, pfs: Id, k: Key, x: Val)
    requires AllLawful(cs, r, pfs) && Mentions(cs, k)
    requires forall c: StoreChange | c.key == k && Lawful(c, r, pfs) :: c == Put(k, x)
    ensures IsAt(ApplyAll(s, cs), k, x)
  {
    forall i | 0 <= i < |cs| && cs[i].key == k ensures cs[i] == Put(k, x) { assert Lawful(cs[i], r, pfs); }
    Written(s, cs, k, x);
  }

  lemma {:induction false} PreEffect(s: KV, p: Prep, pfs: Id)
    requires NoTrace(s, p.req.vdev.id)
    requires p.req.vdev.pfsId != NO_ID ==> pfs == p.req.vdev.pfsId
    ensures var v, s' := p.req.vdev, ApplyAll(s, PreChanges(p, pfs));
            NamesVdev(s, s', v.id, v.name) && ConfiguresVdev(s', p.req, pfs) && ListsMember(s, s', v.id, pfs)
            && forall k | Quiet(k) :: SameAt(s, s', k)
  {
    hide PreChanges, ApplyAll, AllLawful, Mentions, CfgOf;
    var r, v, cs := p.req, p.req.vdev, PreChanges(p, pfs);
    var s' := ApplyAll(s, cs);
    PreIsLawful(p, pfs);
    PreMentions(p, pfs);
    NameAndPfsRows(r, pfs);
    forall k | !Allowed(k, r, pfs) ensures SameAt(s, s', k) {
      if Mentions(cs, k) {
        LawfulMention(cs, r, pfs, k);
      } else {
        Untouched(s, cs, k);
      }
    }
    forall w, f | w != v.id ensures SameAt(s, s', VdevCfg(w, f)) { assert !Allowed(VdevCfg(w, f), r, pfs); }
    forall w, f ensures SameAt(s, s', VdevMount(w, f)) { assert !Allowed(VdevMount(w, f), r, pfs); }
    forall m | m != v.name ensures SameAt(s, s', VName(m)) { assert !Allowed(VName(m), r, pfs); }
    forall q, w | !(w == v.id && q == pfs != NO_ID) ensures SameAt(s, s', PfsMember(q, w)) { assert !Allowed(PfsMember(q, w), r, pfs); }
    forall f: CfgField ensures Configured(s', r, pfs, f) {
      if CfgOf(r, pfs, f).None? {
        assert !Allowed(VdevCfg(v.id, f), r, pfs);
      } else {
        LawfulWrite(s, cs, r, pfs, VdevCfg(v.id, f), CfgOf(r, pfs, f).value);
      }
    }
    assert Configured(s', r, pfs, Name) && Configured(s', r, pfs, Pfs);
    LawfulWrite(s, cs, r, pfs, VName(v.name), Ref(v.id));
    if pfs != NO_ID {
      LawfulPuts(cs, r, pfs);
      MemberListed(s, cs, PfsMember(pfs, v.id));
    }
  }

  lemma NameAndPfsRows(r: VdevReq, pfs: Id)
    ensures CfgOf(r, pfs, Name) == if r.vdev.name != "" then Some(Text(r.vdev.name)) else None
    ensures CfgOf(r, pfs, Pfs) == if pfs != NO_ID then Some(Ref(pfs)) else None
  {
  }

  lemma LawfulPuts(cs: seq<StoreChange>, r: VdevReq, pfs: Id)
    requires AllLawful(cs, r, pfs)
    ensures forall i :: 0 <= i < |cs| ==> cs[i].Put?
  {
    forall i | 0 <= i < |cs| ensures cs[i].Put? { assert Lawful(cs[i], r, pfs); }
  }

  lemma {:induction false} MemberListed(s: KV, cs: seq<StoreChange>, k: Key)
    requires Mentions(cs, k) && forall i :: 0 <= i < |cs| ==> cs[i].Put?
    ensures k in ApplyAll(s, cs)
  {
    var n := |cs| - 1;
    if cs[n].key != k {
      var i :| 0 <= i < |cs| && cs[i].key == k;
      assert cs[..n][i].key == k;
      MemberListed(s, cs[..n], k);
    }
  }

  lemma {:induction false} PlanEffect(s: KV, v: VdevConfig, plan: seq<seq<Pick>>)
    requires FreeFrom(s, v, 0, 0)
    ensures var s' := ApplyAll(s, VdevChanges(v, plan));
            WritesPlan(s, s', v, Flat(plan)) && forall k: Key | !(k.ChunkKey? || k.NisdVdev?) :: SameAt(s, s', k)
  {
    hide ApplyAll, VdevChanges, WritesPlan, FreeFrom;
    VdevWrites(s, v, plan);
    PlanKeysOnly(v, plan);
    forall k: Key | !(k.ChunkKey? || k.NisdVdev?) ensures SameAt(s, ApplyAll(s, VdevChanges(v, plan)), k) {
      Untouched(s, VdevChanges(v, plan), k);
    }
  }

  ghost function PostChanges(pfs: Id, off: int, alloc: map<Id, int>): seq<StoreChange> {
    When(pfs != NO_ID, PfsOffset(pfs), Num(off)) + AvailChanges(Ranked(alloc.Keys), alloc)
  }

  lemma {:induction false} PostEffect(s: KV, pfs: Id, off: int, alloc: map<Id, int>)
    ensures var s' := ApplyAll(s, PostChanges(pfs, off, alloc));
            TakesSpace(s, s', alloc) && (pfs != NO_ID ==> IsAt(s', PfsOffset(pfs), Num(off)))
            && forall k: Key | !k.NisdAvail? && !(k == PfsOffset(pfs) && pfs != NO_ID) :: SameAt(s, s', k)
  {
    hide ApplyAll, AvailChanges;
    var a, b := When(pfs != NO_ID, PfsOffset(pfs), Num(off)), AvailChanges(Ranked(alloc.Keys), alloc);
    var s' := ApplyAll(s, a + b);
    AvailPuts(Ranked(alloc.Keys), alloc);
    forall k ensures Mentions(a + b, k) ==> (k == PfsOffset(pfs) && pfs != NO_ID) || (k.NisdAvail? && k.nisd in alloc) {
      MentionsAppend(a, b, k);
    }
    forall k | !Mentions(a + b, k) ensures SameAt(s, s', k) { Untouched(s, a + b, k); }
    forall n | n in alloc ensures IsAt(s', NisdAvail(n), Num(alloc[n])) {
      MentionsAppend(a, b, NisdAvail(n));
      assert n in Ranked(alloc.Keys);
      Written(s, a + b, NisdAvail(n), Num(alloc[n]));
    }
    if pfs != NO_ID {
      assert a[0].key == PfsOffset(pfs);
      MentionsAppend(a, b, PfsOffset(pfs));
      Written(s, a + b, PfsOffset(pfs), Num(off));
    }
  }

  lemma SameBlocksOn(s: KV, s': KV, n: Id)
    requires forall k: Key | k.ChunkKey? :: SameAt(s, s', k)
    ensures BlocksOn(s, n) == BlocksOn(s', n)
  {
    forall k ensures k in BlocksOn(s, n) <==> k in BlocksOn(s', n) {
      if k.ChunkKey? { assert SameAt(s, s', k); }
    }
  }

  lemma PlacementEffect(s: KV, s1: KV, s2: KV, s3: KV, v: VdevConfig, picks: seq<Pick>)
    requires NoTrace(s, v.id) && WritesPlan(s1, s2, v, picks)
    requires forall k: Key | k.ChunkKey? || k.NisdVdev? :: SameAt(s, s1, k) && SameAt(s2, s3, k)
    ensures PlacesChunks(s, s3, v.id, picks)
  {
    forall n ensures |BlocksOn(s3, n)| == |BlocksOn(s, n)| + Draws(picks, n) {
      SameBlocksOn(s, s1, n);
      SameBlocksOn(s2, s3, n);
    }
    forall k: Key | k.ChunkKey? && k.vdev != v.id ensures SameAt(s, s3, k) {
      assert SameAt(s, s1, k) && SameAt(s2, s3, k);
    }
    forall k | k in s3 && k.ChunkKey? && k.vdev == v.id
      ensures s3[k].Ref? && exists p :: p in picks && s3[k] == Ref(p.nisd)
    {
      assert SameAt(s, s1, k) && SameAt(s2, s3, k);
    }
    forall x, w ensures if w != v.id then SameAt(s, s3, NisdVdev(x, w)) else (NisdVdev(x, w) in s3 <==> exists p :: p in picks && p.nisd == x) {
      assert SameAt(s, s1, NisdVdev(x, w)) && SameAt(s2, s3, NisdVdev(x, w));
    }
  }

  /** The changes of a create, written in order to a store that knows nothing of the vdev, have
      exactly the effect stated key by key. */
  lemma {:induction false} CreateHasEffect(s: KV, p: Prep, pfs: Id, off: nat, plan: seq<seq<Pick>>, alloc: map<Id, int>)
    requires NoTrace(s, p.req.vdev.id)
    requires p.req.vdev.pfsId != NO_ID ==> pfs == p.req.vdev.pfsId
    ensures CreateEffect(s, ApplyAll(s, CreateChanges(p, pfs, off, plan, alloc)), p, pfs, off, plan, alloc)
  {
    hide ApplyAll, WritesPlan, NamesVdev, ConfiguresVdev, TakesSpace, PlacesChunks, VdevChanges, AvailChanges, ListsMember, JoinsPfs, SameAt, PrepChanges, PfsChanges, FreeFrom, NoTrace, IsAt;
    var v := p.req.vdev;
    var pre, mid, post := PreChanges(p, pfs), VdevChanges(v, plan), PostChanges(pfs, off + v.TotalRedundancyBlocksPerChunk(), alloc);
    var s1 := ApplyAll(s, pre);
    var s2 := ApplyAll(s1, mid);
    var s3 := ApplyAll(s2, post);
    assert CreateChanges(p, pfs, off, plan, alloc) == pre + mid + post;
    ApplyAllAppend(s, pre, mid);
    ApplyAllAppend(s, pre + mid, post);
    PreEffect(s, p, pfs);
    assert FreeFrom(s1, v, 0, 0) by { FreeAfterPre(s, s1, v); }
    PlanEffect(s1, v, plan);
    PostEffect(s2, pfs, off + v.TotalRedundancyBlocksPerChunk(), alloc);
    PlacementEffect(s, s1, s2, s3, v, Flat(plan));
    NamingEffect(s, s1, s2, s3, v);
    ConfigEffect(s1, s2, s3, p.req, pfs);
    JoinEffect(s, s1, s2, s3, v.id, pfs, off + v.TotalRedundancyBlocksPerChunk());
    SpaceEffect(s, s1, s2, s3, alloc);
  }

  lemma FreeAfterPre(s: KV, s1: KV, v: VdevConfig)
    requires NoTrace(s, v.id) && forall k: Key | k.ChunkKey? :: SameAt(s, s1, k)
    ensures FreeFrom(s1, v, 0, 0)
  {
    forall c: nat, j: nat ensures BlockKey(v, c, j) !in s1 { assert SameAt(s, s1, BlockKey(v, c, j)); }
  }

  lemma NamingEffect(s: KV, s1: KV, s2: KV, s3: KV, v: VdevConfig)
    requires NamesVdev(s, s1, v.id, v.name)
    requires forall k: Key | k.VdevCfg? || k.VdevMount? || k.VName? :: SameAt(s1, s2, k) && SameAt(s2, s3, k)
    ensures NamesVdev(s, s3, v.id, v.name)
  {
    forall k: Key | k.VdevCfg? || k.VdevMount? || k.VName? ensures SameAt(s1, s3, k) { assert SameAt(s1, s2, k) && SameAt(s2, s3, k); }
    forall w, f | w != v.id ensures SameAt(s, s3, VdevCfg(w, f)) { assert SameAt(s1, s3, VdevCfg(w, f)); }
    assert SameAt(s1, s3, VdevCfg(v.id, Name));
    forall w, f ensures SameAt(s, s3, VdevMount(w, f)) { assert SameAt(s1, s3, VdevMount(w, f)); }
    forall m ensures SameAt(s1, s3, VName(m)) { }
  }

  lemma ConfigEffect(s1: KV, s2: KV, s3: KV, r: VdevReq, pfs: Id)
    requires ConfiguresVdev(s1, r, pfs) && forall k: Key | k.VdevCfg? :: SameAt(s1, s2, k) && SameAt(s2, s3, k)
    ensures ConfiguresVdev(s3, r, pfs)
  {
    hide CfgOf;
    forall f: CfgField ensures Configured(s3, r, pfs, f) {
      assert Configured(s1, r, pfs, f);
      assert SameAt(s1, s2, VdevCfg(r.vdev.id, f)) && SameAt(s2, s3, VdevCfg(r.vdev.id, f));
    }
  }

  lemma JoinEffect(s: KV, s1: KV, s2: KV, s3: KV, id: Id, pfs: Id, off: int)
    requires ListsMember(s, s1, id, pfs) && (pfs != NO_ID ==> IsAt(s3, PfsOffset(pfs), Num(off)))
    requires forall k | Quiet(k) :: SameAt(s, s1, k)
    requires forall k: Key | !(k.ChunkKey? || k.NisdVdev?) :: SameAt(s1, s2, k)
    requires forall k: Key | !k.NisdAvail? && !(k == PfsOffset(pfs) && pfs != NO_ID) :: SameAt(s2, s3, k)
    ensures JoinsPfs(s, s3, id, pfs, off)
  {
    forall q, v ensures SameAt(s1, s3, PfsMember(q, v)) { assert SameAt(s1, s2, PfsMember(q, v)) && SameAt(s2, s3, PfsMember(q, v)); }
    forall v, f ensures SameAt(s1, s3, VdevCfg(v, f)) { assert SameAt(s1, s2, VdevCfg(v, f)) && SameAt(s2, s3, VdevCfg(v, f)); }
    forall k: Key | k.PfsOffset? || k.PfsByName? || k.PfsTitle?
      ensures !(k == PfsOffset(pfs) && pfs != NO_ID) ==> SameAt(s, s3, k)
    {
      if !(k == PfsOffset(pfs) && pfs != NO_ID) { assert SameAt(s, s1, k) && SameAt(s1, s2, k) && SameAt(s2, s3, k); }
    }
  }

  lemma SpaceEffect(s: KV, s1: KV, s2: KV, s3: KV, alloc: map<Id, int>)
    requires TakesSpace(s2, s3, alloc)
    requires forall k: Key | k.NisdConf? || k.NisdAvail? :: SameAt(s, s1, k) && SameAt(s1, s2, k)
    ensures TakesSpace(s, s3, alloc)
  {
    forall n ensures SameAt(s, s3, NisdConf(n)) {
      assert SameAt(s, s1, NisdConf(n)) && SameAt(s1, s2, NisdConf(n)) && SameAt(s2, s3, NisdConf(n));
    }
    forall n | n !in alloc ensures SameAt(s, s3, NisdAvail(n)) {
      assert SameAt(s, s1, NisdAvail(n)) && SameAt(s1, s2, NisdAvail(n)) && SameAt(s2, s3, NisdAvail(n));
    }
  }

  /** After a create, the key of block i of chunk c holds the NISD picked for it. */
  lemma {:induction false} BlockKeyHolds(s: KV, p: Prep, pfs: Id, off: nat, plan: seq<seq<Pick>>, alloc: map<Id, int>, c: nat, i: nat)
    requires c < |plan| && i < |plan[c]|
    ensures IsAt(ApplyAll(s, CreateChanges(p, pfs, off, plan, alloc)), BlockKey(p.req.vdev, c, i), Ref(plan[c][i].nisd))
  {
    hide ApplyAll, VdevChanges, AvailChanges, PrepChanges, PfsChanges, Mentions, Puts;
    var v := p.req.vdev;
    var pre, mid, post := PreChanges(p, pfs), VdevChanges(v, plan), PostChanges(pfs, off + v.TotalRedundancyBlocksPerChunk(), alloc);
    assert CreateChanges(p, pfs, off, plan, alloc) == pre + mid + post;
    ApplyAllAppend(s, pre, mid);
    ApplyAllAppend(s, pre + mid, post);
    BlockStands(v, plan, c, i);
    Written(ApplyAll(s, pre), mid, BlockKey(v, c, i), Ref(plan[c][i].nisd));
    var s2 := ApplyAll(s, pre + mid);
    PostEffect(s2, pfs, off + v.TotalRedundancyBlocksPerChunk(), alloc);
    assert SameAt(s2, ApplyAll(s2, post), BlockKey(v, c, i));
  }

  /** A create in a PFS moves the stored offset on by the blocks of one chunk. */
  lemma {:induction false} OffsetMovesOn(s: KV, p: Prep, pfs: Id, off: nat, plan: seq<seq<Pick>>, alloc: map<Id, int>)
    requires pfs != NO_ID
    ensures IsAt(ApplyAll(s, CreateChanges(p, pfs, off, plan, alloc)), PfsOffset(pfs), Num(off + p.req.vdev.TotalRedundancyBlocksPerChunk()))
  {
    hide ApplyAll, VdevChanges, AvailChanges, PrepChanges, PfsChanges;
    var v := p.req.vdev;
    var pre, mid, post := PreChanges(p, pfs), VdevChanges(v, plan), PostChanges(pfs, off + v.TotalRedundancyBlocksPerChunk(), alloc);
    assert CreateChanges(p, pfs, off, plan, alloc) == pre + mid + post;
    ApplyAllAppend(s, pre + mid, post);
    PostEffect(ApplyAll(s, pre + mid), pfs, off + v.TotalRedundancyBlocksPerChunk(), alloc);
  }

  // ----- what a delete writes -----

  function Stored(s: KV, n: Id): int {
    if NisdAvail(n) in s && s[NisdAvail(n)].Num? then s[NisdAvail(n)].n else 0
  }

  /** The blocks of vdev id on NISD n. */
  ghost function Owed(s: KV, id: Id, n: Id): nat { |Naming(s, ChunksOf(s, id), n)| }

  /** The NISDs that get space back: they hold a block and have a record. */
  ghost function Refunded(s: KV, id: Id): set<Id> {
    set k | k in ChunksOf(s, id) && s[k].Ref? && NisdConf(s[k].id) in s :: s[k].id
  }

  ghost predicate Doomed(s: KV, id: Id, user: Id, k: Key) {
    match k
    case VdevCfg(w, _) => w == id
    case VdevMount(w, _) => w == id
    case ChunkKey(w, _, _, _) => w == id
    case NisdVdev(x, w) => w == id && Naming(s, ChunksOf(s, id), x) != {}
    case OwnsVdev(u, w) => u == user && w == id
    case VName(m) => m != "" && IsAt(s, VdevCfg(id, Name), Text(m))
    case PfsMember(q, w) => w == id && q != NO_ID && IsAt(s, VdevCfg(id, Pfs), Ref(q))
    case _ => false
  }

  /** A delete refunds a chunk for every placement key, and then removes the keys of the vdev with
      the reverse entries they point to. */
  ghost predicate DeleteEffect(s: KV, s': KV, id: Id, user: Id) {
    forall k: Key :: DeletedAt(s, s', id, user, k)
  }

  ghost predicate DeletedAt(s: KV, s': KV, id: Id, user: Id, k: Key) {
    if k.NisdAvail? && k.nisd in Refunded(s, id) then IsAt(s', k, Num(Stored(s, k.nisd) + CHUNK_SIZE * Owed(s, id, k.nisd)))
    else if Doomed(s, id, user, k) then k !in s'
    else SameAt(s, s', k)
  }

  lemma RefundedIffOwed(s: KV, id: Id, n: Id)
    ensures n in Refunded(s, id) <==> Owed(s, id, n) > 0 && NisdConf(n) in s
  {
    if n in Refunded(s, id) {
      var k :| k in ChunksOf(s, id) && s[k].Ref? && s[k].id == n;
      assert k in Naming(s, ChunksOf(s, id), n);
    }
    if Owed(s, id, n) > 0 && NisdConf(n) in s {
      var k :| k in Naming(s, ChunksOf(s, id), n);
      assert k in ChunksOf(s, id);
    }
  }

  /** The blocks of the vdev, and no others, leave the NISDs. */
  lemma DeleteFreesBlocks(s: KV, s': KV, id: Id, user: Id, n: Id)
    requires DeleteEffect(s, s', id, user)
    ensures |BlocksOn(s', n)| == |BlocksOn(s, n)| - Owed(s, id, n)
  {
    var gone := Naming(s, ChunksOf(s, id), n);
    forall k ensures k in BlocksOn(s', n) <==> k in BlocksOn(s, n) && k !in gone {
      if k.ChunkKey? { assert DeletedAt(s, s', id, user, k); }
    }
    assert BlocksOn(s', n) == BlocksOn(s, n) - gone;
    assert gone <= BlocksOn(s, n);
  }

  lemma DeleteStored(s: KV, s': KV, id: Id, user: Id, n: Id)
    requires DeleteEffect(s, s', id, user) && NisdConf(n) in s
    ensures Stored(s', n) == Stored(s, n) + CHUNK_SIZE * Owed(s, id, n)
  {
    RefundedIffOwed(s, id, n);
    assert DeletedAt(s, s', id, user, NisdAvail(n));
  }
}
