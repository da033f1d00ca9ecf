/** Placement keys: written block by block, read back in any order
    (controlplane/ctlplanefuncs/server/srvctlplanefuncs.go, lines 614-632 and 1909-1936,
    controlplane/ctlplanefuncs/server/parser.go, lines 451-569). */
module ChunkCodec {
  import opened Finite
  import opened Lib
  import opened Text
  import opened Parsing

  function PrefixText(p: Prefix): string { if p == D then "D" else "P" }

  function Slot(p: Prefix, seqNo: nat): string { PrefixText(p) + "." + Itoa(seqNo) }

  function ChunkKeyParts(id: string, chunk: nat, p: Prefix, seqNo: nat): seq<string> {
    ["v", id, "c", Itoa(chunk), Slot(p, seqNo)]
  }

  lemma {:induction false} SlotSplits(p: Prefix, seqNo: nat)
    ensures Split(Slot(p, seqNo), '.') == [PrefixText(p), Itoa(seqNo)] && Free(Slot(p, seqNo), '/')
  {
    ItoaFree(seqNo, '.');
    ItoaFree(seqNo, '/');
    SplitAtSeparator(PrefixText(p), Itoa(seqNo), '.');
    SplitFree(Itoa(seqNo), '.');
  }

  lemma ChunkKeySplits(id: string, chunk: nat, p: Prefix, seqNo: nat)
    requires PlainId(id)
    ensures Parts(KeyOf(ChunkKeyParts(id, chunk, p, seqNo))) == ChunkKeyParts(id, chunk, p, seqNo)
  {
    SlotSplits(p, seqNo);
    ItoaFree(chunk, '/');
    PartsOfKey(ChunkKeyParts(id, chunk, p, seqNo));
  }

  /** The textual key determines the vdev, the chunk, the prefix and the sequence number. */
  lemma ChunkKeyInjective(id1: string, c1: nat, p1: Prefix, s1: nat, id2: string, c2: nat, p2: Prefix, s2: nat)
    requires PlainId(id1) && PlainId(id2)
    requires KeyOf(ChunkKeyParts(id1, c1, p1, s1)) == KeyOf(ChunkKeyParts(id2, c2, p2, s2))
    ensures id1 == id2 && c1 == c2 && p1 == p2 && s1 == s2
  {
    ChunkKeySplits(id1, c1, p1, s1);
    ChunkKeySplits(id2, c2, p2, s2);
    var a, b := ChunkKeyParts(id1, c1, p1, s1), ChunkKeyParts(id2, c2, p2, s2);
    assert a[1] == b[1] && a[3] == b[3] && a[4] == b[4];
    ItoaInjective(c1, c2);
    SlotSplits(p1, s1);
    SlotSplits(p2, s2);
    assert [PrefixText(p1), Itoa(s1)][0] == [PrefixText(p2), Itoa(s2)][0];
    assert [PrefixText(p1), Itoa(s1)][1] == [PrefixText(p2), Itoa(s2)][1];
    ItoaInjective(s1, s2);
  }

  /** The key as it is written. */
  lemma {:induction false} ChunkKeyText(id: string, chunk: nat, p: Prefix, seqNo: nat)
    ensures KeyOf(ChunkKeyParts(id, chunk, p, seqNo))
         == "v/" + id + "/c/" + Itoa(chunk) + (if p == D then "/D." else "/P.") + Itoa(seqNo)
  {
    hide Join, Itoa;
    var c, d := Itoa(chunk), Slot(p, seqNo);
    JoinNext("v", [id, "c", c, d]);
    JoinNext(id, ["c", c, d]);
    JoinNext("c", [c, d]);
    JoinNext(c, [d]);
    JoinLast(d);
    assert ["v"] + [id, "c", c, d] == ["v", id, "c", c, d] && [id] + ["c", c, d] == [id, "c", c, d];
    assert ["c"] + [c, d] == ["c", c, d] && [c] + [d] == [c, d];
    assert KeyOf(ChunkKeyParts(id, chunk, p, seqNo)) == "v" + "/" + (id + "/" + ("c" + "/" + (c + "/" + d)));
    assert "v" + "/" + (id + "/" + ("c" + "/" + (c + "/" + d))) == "v/" + id + "/c/" + c + ("/" + d);
    assert "/" + d == (if p == D then "/D." else "/P.") + Itoa(seqNo);
  }

  lemma {:induction false} JoinNext(a: string, rest: seq<string>)
    requires rest != []
    ensures Join([a] + rest, '/') == a + "/" + Join(rest, '/')
  {
    assert ([a] + rest)[1..] == rest;
  }

  lemma {:induction false} JoinLast(a: string)
    ensures Join([a], '/') == a
  {
  }

  // ----- the rows of a vdev's chunks -----

  /** The key of block b of chunk c. */
  function RowKey(v: VdevConfig, c: nat, b: nat): string {
    var (t, seqNo) := v.BlockOf(b);
    KeyOf(ChunkKeyParts(v.id.text, c, ChunkPrefix(t), seqNo))
  }

  lemma RowKeyInjective(v: VdevConfig, c1: nat, b1: nat, c2: nat, b2: nat)
    requires PlainId(v.id.text) && RowKey(v, c1, b1) == RowKey(v, c2, b2)
    ensures c1 == c2 && b1 == b2
  {
    hide KeyOf, ChunkKeyParts;
    var (t1, s1) := v.BlockOf(b1);
    var (t2, s2) := v.BlockOf(b2);
    ChunkKeyInjective(v.id.text, c1, ChunkPrefix(t1), s1, v.id.text, c2, ChunkPrefix(t2), s2);
  }

  /** The NISDs of the blocks of each chunk, in block order. */
  type ChunkPlan = map<nat, seq<string>>

  /** The rows are exactly the placement keys of these chunks. */
  ghost predicate HoldsChunks(rows: Rows, v: VdevConfig, plan: ChunkPlan) {
    && PlainId(v.id.text)
    && (forall c :: c in plan ==> |plan[c]| == v.TotalRedundancyBlocksPerChunk())
    && (forall k :: k in rows ==> exists c: nat, b: nat :: RowAt(v, plan, c, b) && k == RowKey(v, c, b))
    && (forall c: nat, b: nat :: RowAt(v, plan, c, b) ==> RowKey(v, c, b) in rows && rows[RowKey(v, c, b)] == plan[c][b])
  }

  ghost predicate RowAt(v: VdevConfig, plan: ChunkPlan, c: nat, b: nat) { c in plan && b < |plan[c]| }

  /** The placement keys that genAllocationKV writes for the blocks of a chunk. */
  method WriteChunk(rows: Rows, v: VdevConfig, ghost plan: ChunkPlan, c: nat, nisds: seq<string>) returns (rows': Rows)
    requires HoldsChunks(rows, v, plan) && c !in plan && |nisds| == v.TotalRedundancyBlocksPerChunk()
    ensures HoldsChunks(rows', v, plan[c := nisds])
  {
    hide RowKey;
    rows' := rows;
    for i := 0 to |nisds|
      invariant forall k :: k in rows' <==> k in rows || exists b :: 0 <= b < i && k == RowKey(v, c, b)
      invariant forall k :: k in rows' && k in rows ==> rows'[k] == rows[k]
      invariant forall b :: 0 <= b < i ==> RowKey(v, c, b) in rows' && rows'[RowKey(v, c, b)] == nisds[b]
    {
      if RowKey(v, c, i) in rows {
        ghost var c2: nat, b2: nat :| RowAt(v, plan, c2, b2) && RowKey(v, c, i) == RowKey(v, c2, b2);
        RowKeyInjective(v, c, i, c2, b2);
      }
      forall b | 0 <= b < i ensures RowKey(v, c, b) != RowKey(v, c, i) {
        if RowKey(v, c, b) == RowKey(v, c, i) { RowKeyInjective(v, c, b, c, i); }
      }
      rows' := rows'[RowKey(v, c, i) := nisds[i]];
    }
    var plan' := plan[c := nisds];
    forall k | k in rows' ensures exists c: nat, b: nat :: RowAt(v, plan', c, b) && k == RowKey(v, c, b) {
      if k in rows {
        var c2: nat, b2: nat :| RowAt(v, plan, c2, b2) && k == RowKey(v, c2, b2);
        assert RowAt(v, plan', c2, b2);
      } else {
        var b: nat :| b < |nisds| && k == RowKey(v, c, b);
        assert RowAt(v, plan', c, b);
      }
    }
    forall c2: nat, b: nat | RowAt(v, plan', c2, b)
      ensures RowKey(v, c2, b) in rows' && rows'[RowKey(v, c2, b)] == plan'[c2][b]
    {
      if c2 != c { assert RowAt(v, plan, c2, b); }
    }
  }

  /** What both parsers find in a row. */
  lemma {:induction false} RowSplits(v: VdevConfig, c: nat, b: nat)
    requires PlainId(v.id.text) && b < v.TotalRedundancyBlocksPerChunk()
    ensures var (t, seqNo) := v.BlockOf(b);
            var parts := Parts(RowKey(v, c, b));
            |parts| == 5 && parts[0] == "v" && parts[3] == Itoa(c)
            && Split(parts[4], '.') == [PrefixText(ChunkPrefix(t)), Itoa(seqNo)] && ParseUint(Itoa(seqNo), UINT8) == Some(seqNo)
            && seqNo < 255
  {
    var (t, seqNo) := v.BlockOf(b);
    ChunkKeySplits(v.id.text, c, ChunkPrefix(t), seqNo);
    SlotSplits(ChunkPrefix(t), seqNo);
    ParseUintItoa(seqNo, UINT8);
  }

  // ----- chunkNisdParser: the NISD list of a chunk -----

  datatype CnInternal = CnInternal(data: map<nat, string>, parity: map<nat, string>)

  function ParseCnField(e: CnInternal, parts: seq<string>, value: string): CnInternal {
    if |parts| < 5 then e else
      var pl := Split(parts[4], '.');
      if |pl| != 2 then e else
        match ParseUint(pl[1], UINT8)
        case None => e
        case Some(idx) =>
          if pl[0] == "D" then e.(data := e.data[idx := value])
          else if pl[0] == "P" then e.(parity := e.parity[idx := value])
          else e
  }

  /** How many of the n blocks of a chunk carry the prefix D. */
  function DataCount(v: VdevConfig, n: nat): nat {
    if v.redundancy.RMReplica? || n < v.dataBlkCnt then n else v.dataBlkCnt
  }

  lemma BlockIs(v: VdevConfig, n: nat, b: nat)
    requires b < n
    ensures var (t, seqNo) := v.BlockOf(b);
            if b < DataCount(v, n) then ChunkPrefix(t) == D && seqNo == b
            else ChunkPrefix(t) == P && seqNo == b - DataCount(v, n)
  {
  }

  ghost predicate IsSlot(m: map<nat, string>, v: VdevConfig, nisds: seq<string>, done: set<string>, c: nat, i: nat, from: nat, n: nat) {
    (i in m <==> from + i < n <= |nisds| && RowKey(v, c, from + i) in done) && (i in m && from + i < |nisds| ==> m[i] == nisds[from + i])
  }

  /** Both maps hold what the rows in done say about chunk c. */
  ghost predicate CnShows(v: VdevConfig, nisds: seq<string>, done: set<string>, c: nat, e: CnInternal) {
    var nd := DataCount(v, |nisds|);
    (forall i: nat :: IsSlot(e.data, v, nisds, done, c, i, 0, nd))
    && forall i: nat :: IsSlot(e.parity, v, nisds, done, c, i, nd, |nisds|)
  }

  ghost predicate CnShowsId(v: VdevConfig, plan: ChunkPlan, done: set<string>, id: string, e: CnInternal) {
    forall c :: c in plan && Itoa(c) == id ==> CnShows(v, plan[c], done, c, e)
  }

  lemma CnRowStep(v: VdevConfig, nisds: seq<string>, done: set<string>, c: nat, b: nat, e: CnInternal)
    requires PlainId(v.id.text) && b < |nisds| == v.TotalRedundancyBlocksPerChunk()
    requires CnShows(v, nisds, done, c, e)
    ensures CnShows(v, nisds, done + {RowKey(v, c, b)}, c, ParseCnField(e, Parts(RowKey(v, c, b)), nisds[b]))
  {
    hide RowKey, Parts, Split, ParseUint, Itoa;
    var k, n := RowKey(v, c, b), |nisds|;
    var nd := DataCount(v, n);
    RowSplits(v, c, b);
    BlockIs(v, n, b);
    var (t, seqNo) := v.BlockOf(b);
    var e' := ParseCnField(e, Parts(k), nisds[b]);
    assert e' == if b < nd then e.(data := e.data[b := nisds[b]]) else e.(parity := e.parity[b - nd := nisds[b]]) by {
      var pl := Split(Parts(k)[4], '.');
      assert pl[0] == PrefixText(ChunkPrefix(t)) && pl[1] == Itoa(seqNo);
    }
    forall b2: nat ensures RowKey(v, c, b2) == k <==> b2 == b { if RowKey(v, c, b2) == k { RowKeyInjective(v, c, b2, c, b); } }
    forall i: nat ensures IsSlot(e'.data, v, nisds, done + {k}, c, i, 0, nd) { assert IsSlot(e.data, v, nisds, done, c, i, 0, nd); }
    forall i: nat ensures IsSlot(e'.parity, v, nisds, done + {k}, c, i, nd, n) { assert IsSlot(e.parity, v, nisds, done, c, i, nd, n); }
  }

  lemma CnStep(rows: Rows, v: VdevConfig, plan: ChunkPlan, done: set<string>, id: string, e: CnInternal, k: string)
    requires HoldsChunks(rows, v, plan)
    ensures Shown(rows, "v", 3, ParseCnField, (d, x, y) => CnShowsId(v, plan, d, x, y), done, id, e, k)
  {
    hide RowKey, Parts, CnShows, ParseCnField;
    if k in rows && About("v", 3, id, k) && CnShowsId(v, plan, done, id, e) {
      var c: nat, b: nat :| RowAt(v, plan, c, b) && k == RowKey(v, c, b);
      RowSplits(v, c, b);
      CnRowStep(v, plan[c], done, c, b, e);
      forall c2 | c2 in plan && Itoa(c2) == id
        ensures CnShows(v, plan[c2], done + {k}, c2, ParseCnField(e, Parts(k), rows[k])) { ItoaInjective(c, c2); }
    }
  }

  /** The entries m[0], m[1], ... up to the first gap, with the source's 8-bit index: it ends because
      some index is missing. */
  method ReadOut(m: map<nat, string>) returns (ids: seq<string>)
    requires exists i: nat :: i < 256 && i !in m
    ensures |ids| < 256 && |ids| !in m
    ensures forall i :: 0 <= i < |ids| ==> i in m && ids[i] == m[i]
  {
    ids := [];
    var i := 0;
    while i in m
      invariant |ids| == i < 256
      invariant forall j :: 0 <= j < i ==> j in m && ids[j] == m[j]
      decreases 256 - i
    {
      ids := ids + [m[i]];
      i := (i + 1) % 256;
    }
  }

  /** The first n entries of m are these ids, and it has no others. */
  ghost predicate Lists(m: map<nat, string>, ids: seq<string>) {
    forall i: nat :: (i in m <==> i < |ids|) && (i in m ==> m[i] == ids[i])
  }

  lemma {:induction false} AboutChunk(rows: Rows, v: VdevConfig, plan: ChunkPlan, c: nat, b: nat)
    requires HoldsChunks(rows, v, plan) && RowAt(v, plan, c, b)
    ensures RowKey(v, c, b) in KeysAbout(rows.Keys, "v", 3, Itoa(c))
  {
    RowSplits(v, c, b);
  }

  lemma PlanSize(rows: Rows, v: VdevConfig, plan: ChunkPlan, c: nat)
    requires HoldsChunks(rows, v, plan) && c in plan
    ensures |plan[c]| == v.TotalRedundancyBlocksPerChunk() < 256
  {
  }

  /** All rows of the chunk are in: D.0, D.1, ... and P.0, P.1, ... are the blocks in order. */
  lemma {:induction false} CnComplete(rows: Rows, v: VdevConfig, plan: ChunkPlan, c: nat, e: CnInternal)
    requires HoldsChunks(rows, v, plan) && c in plan
    requires CnShowsId(v, plan, KeysAbout(rows.Keys, "v", 3, Itoa(c)), Itoa(c), e)
    ensures var nd := DataCount(v, |plan[c]|);
            nd <= |plan[c]| < 256 && Lists(e.data, plan[c][..nd]) && Lists(e.parity, plan[c][nd..])
  {
    hide RowKey, KeysAbout, HoldsChunks;
    PlanSize(rows, v, plan, c);
    var nisds, done := plan[c], KeysAbout(rows.Keys, "v", 3, Itoa(c));
    var nd := DataCount(v, |nisds|);
    assert CnShows(v, nisds, done, c, e);
    forall b: nat | b < |nisds| ensures RowKey(v, c, b) in done {
      assert RowAt(v, plan, c, b);
      AboutChunk(rows, v, plan, c, b);
    }
    forall i: nat ensures (i in e.data <==> i < nd) && (i in e.data ==> e.data[i] == nisds[..nd][i]) {
      assert IsSlot(e.data, v, nisds, done, c, i, 0, nd);
    }
    forall i: nat ensures (i in e.parity <==> i < |nisds| - nd) && (i in e.parity ==> e.parity[i] == nisds[nd..][i]) {
      assert IsSlot(e.parity, v, nisds, done, c, i, nd, |nisds|);
    }
  }

  method GetCnEntity(e: CnInternal, ghost data: seq<string>, ghost parity: seq<string>) returns (nisdIds: string)
    requires Lists(e.data, data) && Lists(e.parity, parity) && |data| < 256 && |parity| < 256
    ensures nisdIds == Join(data + parity, ',')
  {
    assert |data| !in e.data && |parity| !in e.parity;
    var d := ReadOut(e.data);
    var p := ReadOut(e.parity);
    assert d == data && p == parity;
    nisdIds := Join(d + p, ',');
  }

  lemma ChunkOfEntity(rows: Rows, v: VdevConfig, plan: ChunkPlan, id: string) returns (c: nat)
    requires HoldsChunks(rows, v, plan) && KeysAbout(rows.Keys, "v", 3, id) != {}
    ensures c in plan && plan[c] != [] && Itoa(c) == id
  {
    var k :| k in KeysAbout(rows.Keys, "v", 3, id);
    var c2: nat, b: nat :| RowAt(v, plan, c2, b) && k == RowKey(v, c2, b);
    RowSplits(v, c2, b);
    c := c2;
  }

  /** ReadChunkNisd: whatever order the rows come in, every chunk gets the list of its NISDs in block
      order, data blocks first. */
  method ReadChunkNisds(rows: Rows, ghost v: VdevConfig, ghost plan: ChunkPlan) returns (out: map<string, string>)
    requires HoldsChunks(rows, v, plan)
    ensures forall c :: c in plan && plan[c] != [] ==> Itoa(c) in out && out[Itoa(c)] == Join(plan[c], ',')
    ensures forall id :: id in out ==> exists c :: c in plan && plan[c] != [] && Itoa(c) == id
  {
    hide RowKey, Parts, CnShowsId, ParseCnField, HoldsChunks, KeysAbout, Itoa, Join, Lists, Shown, Grouped, DataCount, About;
    ghost var shows := (d: set<string>, x: string, y: CnInternal) => CnShowsId(v, plan, d, x, y);
    var newEntity := (id: string) => CnInternal(map[], map[]);
    forall id ensures shows({}, id, newEntity(id)) { NothingShown(v, plan, id); }
    forall done, id, e, k ensures Shown(rows, "v", 3, ParseCnField, shows, done, id, e, k) { CnStep(rows, v, plan, done, id, e, k); }
    var ents := ParseEntities(rows, "v", 3, newEntity, ParseCnField, shows);
    out := map[];
    var todo := ents.Keys;
    while todo != {}
      invariant todo <= ents.Keys && out.Keys == ents.Keys - todo
      invariant forall c :: c in plan && Itoa(c) in out ==> out[Itoa(c)] == Join(plan[c], ',')
      decreases |todo|
    {
      var id :| id in todo;
      GroupedOne("v", 3, shows, rows.Keys, ents, id);
      ghost var c := ChunkOfEntity(rows, v, plan, id);
      CnComplete(rows, v, plan, c, ents[id]);
      ghost var nd := DataCount(v, |plan[c]|);
      var ids := GetCnEntity(ents[id], plan[c][..nd], plan[c][nd..]);
      assert plan[c][..nd] + plan[c][nd..] == plan[c];
      forall c2 | c2 in plan && Itoa(c2) == id ensures c2 == c { ItoaInjective(c, c2); }
      out, todo := out[id := ids], todo - {id};
    }
    forall c | c in plan && plan[c] != [] ensures Itoa(c) in out {
      FirstRow(rows, v, plan, c);
      GroupedOne("v", 3, shows, rows.Keys, ents, Itoa(c));
    }
    forall id | id in out ensures exists c :: c in plan && plan[c] != [] && Itoa(c) == id {
      GroupedOne("v", 3, shows, rows.Keys, ents, id);
      var c := ChunkOfEntity(rows, v, plan, id);
    }
  }

  lemma {:induction false} FirstRow(rows: Rows, v: VdevConfig, plan: ChunkPlan, c: nat)
    requires HoldsChunks(rows, v, plan) && c in plan && plan[c] != []
    ensures KeysAbout(rows.Keys, "v", 3, Itoa(c)) != {}
  {
    assert RowAt(v, plan, c, 0);
    AboutChunk(rows, v, plan, c, 0);
  }

  lemma NothingShown(v: VdevConfig, plan: ChunkPlan, id: string)
    ensures CnShowsId(v, plan, {}, id, CnInternal(map[], map[]))
  {
  }

  // ----- chunkParser and the type fix-up of ReadChunk -----

  datatype ChunkPlacement = ChunkPlacement(seqNo: nat, ctype: ChunkType, nisdId: string)

  datatype Chunk = Chunk(index: nat, redundancy: RedundancyMode, placements: seq<ChunkPlacement>)

  function NewChunk(id: string): Chunk { Chunk(ParseUint(id, UINT32).GetOr(0), RMReplica, []) }

  /** Both prefixes mark the chunk as erasure coded here; replicas are told apart later. */
  function ParseChunkField(e: Chunk, parts: seq<string>, value: string): Chunk {
    if |parts| < 5 then e else
      var pl := Split(parts[4], '.');
      if |pl| != 2 then e else
        match ParseUint(pl[1], UINT8)
        case None => e
        case Some(idx) =>
          if pl[0] == "D" then e.(placements := e.placements + [ChunkPlacement(idx, Data, value)], redundancy := RMEC32K)
          else if pl[0] == "P" then e.(placements := e.placements + [ChunkPlacement(idx, Parity, value)], redundancy := RMEC32K)
          else e.(placements := e.placements + [ChunkPlacement(idx, Replica, value)])
  }

  /** Block b as the parser sees it, and as it was placed. */
  function RawBlock(v: VdevConfig, nisds: seq<string>, b: nat): ChunkPlacement
    requires b < |nisds|
  {
    var (t, seqNo) := v.BlockOf(b);
    ChunkPlacement(seqNo, if ChunkPrefix(t) == D then Data else Parity, nisds[b])
  }

  function PlacedBlock(v: VdevConfig, nisds: seq<string>, b: nat): ChunkPlacement
    requires b < |nisds|
  {
    var (t, seqNo) := v.BlockOf(b);
    ChunkPlacement(seqNo, t, nisds[b])
  }

  ghost predicate RawBlockIn(v: VdevConfig, nisds: seq<string>, done: set<string>, c: nat, p: ChunkPlacement) {
    exists b: nat :: b < |nisds| && RowKey(v, c, b) in done && p == RawBlock(v, nisds, b)
  }

  ghost predicate ChunkShows(v: VdevConfig, nisds: seq<string>, done: set<string>, c: nat, e: Chunk) {
    e.index == c && Distinct(e.placements) && e.redundancy == (if e.placements == [] then RMReplica else RMEC32K)
    && forall p :: p in e.placements <==> RawBlockIn(v, nisds, done, c, p)
  }

  ghost predicate ChunkShowsId(v: VdevConfig, plan: ChunkPlan, done: set<string>, id: string, e: Chunk) {
    forall c :: c in plan && c < UINT32 && Itoa(c) == id ==> ChunkShows(v, plan[c], done, c, e)
  }

  lemma ChunkRowStep(v: VdevConfig, nisds: seq<string>, done: set<string>, c: nat, b: nat, e: Chunk)
    requires PlainId(v.id.text) && b < |nisds| == v.TotalRedundancyBlocksPerChunk() && RowKey(v, c, b) !in done
    requires ChunkShows(v, nisds, done, c, e)
    ensures ChunkShows(v, nisds, done + {RowKey(v, c, b)}, c, ParseChunkField(e, Parts(RowKey(v, c, b)), nisds[b]))
  {
    hide RowKey, Parts, Split, ParseUint, Itoa;
    var k, block := RowKey(v, c, b), RawBlock(v, nisds, b);
    RowSplits(v, c, b);
    var (t, seqNo) := v.BlockOf(b);
    var e' := ParseChunkField(e, Parts(k), nisds[b]);
    assert e'.placements == e.placements + [block] && e' == Chunk(e.index, RMEC32K, e.placements + [block]) by {
      var pl := Split(Parts(k)[4], '.');
      assert pl[0] == PrefixText(ChunkPrefix(t)) && pl[1] == Itoa(seqNo);
    }
    if block in e.placements {
      var b2: nat :| b2 < |nisds| && RowKey(v, c, b2) in done && block == RawBlock(v, nisds, b2);
      SameRawBlock(v, nisds, b, b2);
    }
    forall p ensures p in e'.placements <==> RawBlockIn(v, nisds, done + {k}, c, p) {
      RawBlockStep(v, nisds, done, c, b, p);
    }
  }

  lemma SameRawBlock(v: VdevConfig, nisds: seq<string>, b: nat, b2: nat)
    requires b < |nisds| && b2 < |nisds| && RawBlock(v, nisds, b) == RawBlock(v, nisds, b2)
    ensures b == b2
  {
  }

  lemma RawBlockStep(v: VdevConfig, nisds: seq<string>, done: set<string>, c: nat, b: nat, p: ChunkPlacement)
    requires PlainId(v.id.text) && b < |nisds|
    ensures RawBlockIn(v, nisds, done + {RowKey(v, c, b)}, c, p) <==> RawBlockIn(v, nisds, done, c, p) || p == RawBlock(v, nisds, b)
  {
    hide RowKey;
    var k := RowKey(v, c, b);
    if RawBlockIn(v, nisds, done + {k}, c, p) {
      var b2: nat :| b2 < |nisds| && RowKey(v, c, b2) in done + {k} && p == RawBlock(v, nisds, b2);
      if RowKey(v, c, b2) == k { RowKeyInjective(v, c, b2, c, b); }
    }
    if RawBlockIn(v, nisds, done, c, p) {
      var b2: nat :| b2 < |nisds| && RowKey(v, c, b2) in done && p == RawBlock(v, nisds, b2);
      assert RowKey(v, c, b2) in done + {k};
    }
    if p == RawBlock(v, nisds, b) { assert k in done + {k}; }
  }

  lemma ChunkStep(rows: Rows, v: VdevConfig, plan: ChunkPlan, done: set<string>, id: string, e: Chunk, k: string)
    requires HoldsChunks(rows, v, plan)
    ensures Shown(rows, "v", 3, ParseChunkField, (d, x, y) => ChunkShowsId(v, plan, d, x, y), done, id, e, k)
  {
    hide RowKey, Parts, ChunkShows, ParseChunkField;
    if k in rows && k !in done && About("v", 3, id, k) && ChunkShowsId(v, plan, done, id, e) {
      var c: nat, b: nat :| RowAt(v, plan, c, b) && k == RowKey(v, c, b);
      RowSplits(v, c, b);
      forall c2 | c2 in plan && c2 < UINT32 && Itoa(c2) == id
        ensures ChunkShows(v, plan[c2], done + {k}, c2, ParseChunkField(e, Parts(k), rows[k]))
      {
        ItoaInjective(c, c2);
        ChunkRowStep(v, plan[c], done, c, b, e);
      }
    }
  }

  function ModeOf(n: int): RedundancyMode {
    if n == 1 then RMEC32K else if n == 2 then RMEC64K else if n == 3 then RMEC128K else RMReplica
  }

  /** The redundancy mode from the vdev's record settles what a chunk is. */
  method ResolveMode(ch: Chunk, ecType: RedundancyMode) returns (r: Chunk)
    ensures r.index == ch.index && |r.placements| == |ch.placements|
    ensures r.redundancy == if ch.redundancy.IsEC() then ecType else ch.redundancy
    ensures forall i :: 0 <= i < |ch.placements| ==>
              r.placements[i] == if ch.redundancy.IsEC() && ecType == RMReplica then ch.placements[i].(ctype := Replica) else ch.placements[i]
  {
    r := ch;
    if ch.redundancy.IsEC() {
      r := r.(redundancy := ecType);
      if ecType == RMReplica {
        for i := 0 to |ch.placements|
          invariant r.index == ch.index && r.redundancy == ecType && |r.placements| == |ch.placements|
          invariant forall j :: 0 <= j < |ch.placements| ==>
                      r.placements[j] == if j < i then ch.placements[j].(ctype := Replica) else ch.placements[j]
        {
          r := r.(placements := r.placements[i := r.placements[i].(ctype := Replica)]);
        }
      }
    }
  }

  ghost predicate IsPlaced(v: VdevConfig, nisds: seq<string>, p: ChunkPlacement) {
    exists b: nat :: b < |nisds| && p == PlacedBlock(v, nisds, b)
  }

  /** The chunk read back is the chunk placed: its number, its mode, and its (type, sequence, NISD) set. */
  ghost predicate IsChunk(v: VdevConfig, nisds: seq<string>, c: nat, e: Chunk) {
    e.index == c && e.redundancy == v.redundancy && Distinct(e.placements)
    && forall p :: p in e.placements <==> IsPlaced(v, nisds, p)
  }

  function Resolved(p: ChunkPlacement, m: RedundancyMode): ChunkPlacement { if m == RMReplica then p.(ctype := Replica) else p }

  lemma ResolvedIsChunk(v: VdevConfig, nisds: seq<string>, done: set<string>, c: nat, e: Chunk, r: Chunk)
    requires nisds != [] && ChunkShows(v, nisds, done, c, e) && forall b: nat :: b < |nisds| ==> RowKey(v, c, b) in done
    requires r.index == c && r.redundancy == v.redundancy && |r.placements| == |e.placements|
    requires forall i :: 0 <= i < |e.placements| ==> r.placements[i] == Resolved(e.placements[i], v.redundancy)
    ensures IsChunk(v, nisds, c, r)
  {
    hide RowKey;
    forall i, j | 0 <= i < j < |r.placements| ensures r.placements[i] != r.placements[j] {
      assert e.placements[i] in e.placements && e.placements[j] in e.placements;
      RawTypes(v, nisds, done, c, e.placements[i]);
      RawTypes(v, nisds, done, c, e.placements[j]);
    }
    forall p ensures p in r.placements <==> IsPlaced(v, nisds, p) {
      if i :| 0 <= i < |r.placements| && r.placements[i] == p {
        assert e.placements[i] in e.placements;
        var b: nat :| b < |nisds| && RowKey(v, c, b) in done && e.placements[i] == RawBlock(v, nisds, b);
        assert p == PlacedBlock(v, nisds, b);
      }
      if b: nat :| b < |nisds| && p == PlacedBlock(v, nisds, b) {
        assert RawBlockIn(v, nisds, done, c, RawBlock(v, nisds, b));
        var i :| 0 <= i < |e.placements| && e.placements[i] == RawBlock(v, nisds, b);
        assert r.placements[i] == p;
      }
    }
  }

  lemma RawTypes(v: VdevConfig, nisds: seq<string>, done: set<string>, c: nat, p: ChunkPlacement)
    requires RawBlockIn(v, nisds, done, c, p)
    ensures v.redundancy.RMReplica? ==> p.ctype == Data
  {
  }

  lemma ModeRoundTrip(m: RedundancyMode)
    ensures ParseInt(FormatInt(ModeNumber(m))) == Some(ModeNumber(m)) && ModeOf(ModeNumber(m)) == m
  {
    ParseFormatInt(ModeNumber(m));
  }

  /** ReadChunk: every chunk comes back as it was placed, whatever order the rows come in. */
  method ReadChunks(rows: Rows, rmVal: string, ghost v: VdevConfig, ghost plan: ChunkPlan) returns (out: map<string, Chunk>)
    requires HoldsChunks(rows, v, plan) && rmVal == FormatInt(ModeNumber(v.redundancy))
    ensures forall c :: c in plan && c < UINT32 && plan[c] != [] ==> Itoa(c) in out && IsChunk(v, plan[c], c, out[Itoa(c)])
    ensures forall id :: id in out ==> exists c :: c in plan && plan[c] != [] && Itoa(c) == id
  {
    hide RowKey, Parts, ChunkShowsId, ParseChunkField, HoldsChunks, KeysAbout, Itoa, Shown, Grouped, IsChunk, ParseInt, FormatInt, Decimal;
    ghost var shows := (d: set<string>, x: string, y: Chunk) => ChunkShowsId(v, plan, d, x, y);
    forall id ensures shows({}, id, NewChunk(id)) { NoBlockShown(v, plan, id); }
    forall done, id, e, k ensures Shown(rows, "v", 3, ParseChunkField, shows, done, id, e, k) { ChunkStep(rows, v, plan, done, id, e, k); }
    var ents := ParseEntities(rows, "v", 3, NewChunk, ParseChunkField, shows);
    ModeRoundTrip(v.redundancy);
    var rm := ParseInt(rmVal);
    out := map[];
    var todo := ents.Keys;
    while todo != {}
      invariant todo <= ents.Keys && out.Keys == ents.Keys - todo
      invariant forall c :: c in plan && c < UINT32 && Itoa(c) in out ==> IsChunk(v, plan[c], c, out[Itoa(c)])
      decreases |todo|
    {
      var id :| id in todo;
      var r := ResolveMode(ents[id], ModeOf(rm.value));
      GroupedOne("v", 3, shows, rows.Keys, ents, id);
      ghost var c := ChunkOfEntity(rows, v, plan, id);
      if c < UINT32 { ReadIsChunk(rows, v, plan, c, ents[id], r); }
      forall c2 | c2 in plan && Itoa(c2) == id ensures c2 == c { ItoaInjective(c, c2); }
      out, todo := out[id := r], todo - {id};
    }
    forall c | c in plan && plan[c] != [] ensures Itoa(c) in out {
      FirstRow(rows, v, plan, c);
      GroupedOne("v", 3, shows, rows.Keys, ents, Itoa(c));
    }
    forall id | id in out ensures exists c :: c in plan && plan[c] != [] && Itoa(c) == id {
      GroupedOne("v", 3, shows, rows.Keys, ents, id);
      var c := ChunkOfEntity(rows, v, plan, id);
    }
  }

  lemma NoBlockShown(v: VdevConfig, plan: ChunkPlan, id: string)
    ensures ChunkShowsId(v, plan, {}, id, NewChunk(id))
  {
    forall c | c in plan && c < UINT32 && Itoa(c) == id ensures ChunkShows(v, plan[c], {}, c, NewChunk(id)) {
      ParseUintItoa(c, UINT32);
    }
  }

  lemma {:induction false} ReadIsChunk(rows: Rows, v: VdevConfig, plan: ChunkPlan, c: nat, e: Chunk, r: Chunk)
    requires HoldsChunks(rows, v, plan) && c in plan && c < UINT32 && plan[c] != []
    requires ChunkShowsId(v, plan, KeysAbout(rows.Keys, "v", 3, Itoa(c)), Itoa(c), e)
    requires r.index == e.index && |r.placements| == |e.placements|
    requires r.redundancy == if e.redundancy.IsEC() then v.redundancy else e.redundancy
    requires forall i :: 0 <= i < |e.placements| ==>
               r.placements[i] == if e.redundancy.IsEC() && v.redundancy == RMReplica then e.placements[i].(ctype := Replica) else e.placements[i]
    ensures IsChunk(v, plan[c], c, r)
  {
    hide RowKey, KeysAbout, HoldsChunks, IsChunk;
    var nisds, done := plan[c], KeysAbout(rows.Keys, "v", 3, Itoa(c));
    forall b: nat | b < |nisds| ensures RowKey(v, c, b) in done {
      assert RowAt(v, plan, c, b);
      AboutChunk(rows, v, plan, c, b);
    }
    assert ChunkShows(v, nisds, done, c, e);
    assert RawBlockIn(v, nisds, done, c, RawBlock(v, nisds, 0));
    assert RawBlock(v, nisds, 0) in e.placements;
    ResolvedIsChunk(v, nisds, done, c, e, r);
  }
}
