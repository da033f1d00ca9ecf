/** The key-value store as the control plane writes and reads it: change lists, and the placement
    keys that name a NISD. */
module Store {
  import opened Changes
  import opened Finite
  import opened Lib
  import opened Allocator
  import opened VdevAllocator

  type KV = map<Key, Val>

  // ----- placement keys -----

  /** The placement keys among ks that name NISD n. */
  ghost function Naming(s: KV, ks: set<Key>, n: Id): set<Key> {
    set k | k in ks && k in s && k.ChunkKey? && s[k] == Ref(n)
  }

  ghost function BlocksOn(s: KV, n: Id): set<Key> { Naming(s, s.Keys, n) }

  /** The placement keys of vdev id. */
  ghost function ChunksOf(s: KV, id: Id): set<Key> { set k | k in s && k.ChunkKey? && k.vdev == id }

  lemma BlocksAfterPut(s: KV, k: Key, v: Val, n: Id)
    requires k.ChunkKey? ==> k !in s
    ensures BlocksOn(s[k := v], n) == BlocksOn(s, n) + if k.ChunkKey? && v == Ref(n) then {k} else {}
    ensures |BlocksOn(s[k := v], n)| == |BlocksOn(s, n)| + if k.ChunkKey? && v == Ref(n) then 1 else 0
  {
    assert k.ChunkKey? ==> k !in BlocksOn(s, n);
  }

  /** How many of the picks stand on NISD n. */
  ghost function Draws(picks: seq<Pick>, n: Id): nat {
    if picks == [] then 0 else Draws(picks[..|picks|-1], n) + if picks[|picks|-1].nisd == n then 1 else 0
  }

  lemma {:induction false} DrawsAppend(a: seq<Pick>, b: seq<Pick>, n: Id)
    ensures Draws(a + b, n) == Draws(a, n) + Draws(b, n)
  {
    if b == [] {
      assert a + b == a;
    } else {
      var m := |b| - 1;
      DrawsAppend(a, b[..m], n);
      assert (a + b)[..|a| + m] == a + b[..m];
    }
  }

  lemma {:induction false} DrawnIsIn(picks: seq<Pick>, n: Id)
    ensures Draws(picks, n) > 0 <==> exists p :: p in picks && p.nisd == n
  {
    if picks != [] {
      var m := |picks| - 1;
      DrawnIsIn(picks[..m], n);
      assert picks == picks[..m] + [picks[m]] && picks[m] in picks;
    }
  }

  /** The placement key of block i of a chunk. */
  function BlockKey(v: VdevConfig, chunk: nat, i: nat): Key {
    var (t, seqNo) := v.BlockOf(i);
    ChunkKey(v.id, chunk, ChunkPrefix(t), seqNo)
  }

  /** Different blocks get different keys. */
  lemma BlockKeysDiffer(v: VdevConfig, c1: nat, i: nat, c2: nat, j: nat)
    requires BlockKey(v, c1, i) == BlockKey(v, c2, j)
    ensures c1 == c2 && i == j
  {
  }

  /** What the changes of a vdev write: a placement key for each block, a reverse key for each NISD,
      and nothing else. */
  ghost predicate WritesPlan(s: KV, s': KV, v: VdevConfig, picks: seq<Pick>) {
    && (forall k :: k in s ==> k in s' && (k.ChunkKey? ==> s'[k] == s[k]))
    && (forall k :: k in s' && !(k.ChunkKey? && k.vdev == v.id) && !(k.NisdVdev? && k.vdev == v.id) ==> k in s && s[k] == s'[k])
    && (forall k :: k in s' && k.ChunkKey? && k.vdev == v.id && k !in s ==> s'[k].Ref? && exists p :: p in picks && s'[k] == Ref(p.nisd))
    && (forall x :: NisdVdev(x, v.id) in s' <==> NisdVdev(x, v.id) in s || exists p :: p in picks && p.nisd == x)
    && (forall n :: |BlocksOn(s', n)| == |BlocksOn(s, n)| + Draws(picks, n))
  }

  /** No key of block (c, i) or a later one is written yet. */
  ghost predicate FreeFrom(s: KV, v: VdevConfig, c: nat, i: nat) {
    forall c2: nat, j: nat :: c2 > c || (c2 == c && j >= i) ==> BlockKey(v, c2, j) !in s
  }

  lemma {:induction false} BlockWrites(s: KV, v: VdevConfig, c: nat, i: nat, p: Pick)
    requires FreeFrom(s, v, c, i)
    ensures WritesPlan(s, ApplyAll(s, BlockChanges(v, c, i, p.nisd)), v, [p])
    ensures FreeFrom(ApplyAll(s, BlockChanges(v, c, i, p.nisd)), v, c, i + 1)
  {
    var (t, seqNo) := v.BlockOf(i);
    var k1, k2 := BlockKey(v, c, i), NisdVdev(p.nisd, v.id);
    var w := Where(ChunkPrefix(t), seqNo, c);
    var s1: KV := s[k1 := Ref(p.nisd)];
    var s2: KV := s1[k2 := w];
    var cs := BlockChanges(v, c, i, p.nisd);
    ApplySingle(s, cs[0]);
    ApplyNext(s, cs, 1);
    assert cs[..1] == [cs[0]] && cs[..2] == cs;
    assert ApplyAll(s, cs) == s2;
    forall n ensures |BlocksOn(s2, n)| == |BlocksOn(s, n)| + Draws([p], n) {
      BlocksAfterPut(s, k1, Ref(p.nisd), n);
      BlocksAfterPut(s1, k2, w, n);
      assert Draws([p], n) == Draws([p][..0], n) + if p.nisd == n then 1 else 0;
      assert [p][..0] == [];
    }
    forall c2: nat, j: nat | c2 > c || (c2 == c && j >= i + 1) ensures BlockKey(v, c2, j) !in s2 {
      if BlockKey(v, c2, j) == k1 { BlockKeysDiffer(v, c2, j, c, i); }
    }
    assert p in [p];
  }

  lemma WritesPlanTwice(s: KV, s1: KV, s2: KV, v: VdevConfig, a: seq<Pick>, b: seq<Pick>)
    requires WritesPlan(s, s1, v, a) && WritesPlan(s1, s2, v, b)
    ensures WritesPlan(s, s2, v, a + b)
  {
    forall n ensures |BlocksOn(s2, n)| == |BlocksOn(s, n)| + Draws(a + b, n) { DrawsAppend(a, b, n); }
    forall k | k in s2 && k.ChunkKey? && k.vdev == v.id && k !in s
      ensures s2[k].Ref? && exists p :: p in a + b && s2[k] == Ref(p.nisd)
    {
      if k in s1 {
        var p :| p in a && s1[k] == Ref(p.nisd);
        assert p in a + b;
      } else {
        var p :| p in b && s2[k] == Ref(p.nisd);
        assert p in a + b;
      }
    }
    forall x ensures NisdVdev(x, v.id) in s2 <==> NisdVdev(x, v.id) in s || exists p :: p in a + b && p.nisd == x {
      if p :| p in a + b && p.nisd == x { assert p in a || p in b; }
      if p :| p in a && p.nisd == x { assert p in a + b; }
      if p :| p in b && p.nisd == x { assert p in a + b; }
    }
  }

  lemma WritesNothing(s: KV, v: VdevConfig)
    ensures WritesPlan(s, s, v, [])
  {
  }

  lemma {:induction false} ChunkWrites(s: KV, v: VdevConfig, c: nat, picks: seq<Pick>)
    requires FreeFrom(s, v, c, 0)
    ensures WritesPlan(s, ApplyAll(s, ChunkChanges(v, c, picks)), v, picks)
    ensures FreeFrom(ApplyAll(s, ChunkChanges(v, c, picks)), v, c, |picks|)
  {
    hide WritesPlan, BlockChanges, FreeFrom;
    if picks == [] {
      WritesNothing(s, v);
    } else {
      var n := |picks| - 1;
      var before := picks[..n];
      var s1 := ApplyAll(s, ChunkChanges(v, c, before));
      ChunkWrites(s, v, c, before);
      BlockWrites(s1, v, c, n, picks[n]);
      ApplyAllAppend(s, ChunkChanges(v, c, before), BlockChanges(v, c, n, picks[n].nisd));
      WritesPlanTwice(s, s1, ApplyAll(s, ChunkChanges(v, c, picks)), v, before, [picks[n]]);
      assert before + [picks[n]] == picks;
    }
  }

  lemma NextChunkFree(s: KV, v: VdevConfig, c: nat, i: nat)
    requires FreeFrom(s, v, c, i)
    ensures FreeFrom(s, v, c + 1, 0)
  {
  }

  /** The changes of a placed vdev, written to a store without placement keys of that vdev. */
  lemma {:induction false} VdevWrites(s: KV, v: VdevConfig, plan: seq<seq<Pick>>)
    requires FreeFrom(s, v, 0, 0)
    ensures WritesPlan(s, ApplyAll(s, VdevChanges(v, plan)), v, Flat(plan))
    ensures FreeFrom(ApplyAll(s, VdevChanges(v, plan)), v, |plan|, 0)
  {
    hide WritesPlan, ChunkChanges, FreeFrom;
    if plan == [] {
      WritesNothing(s, v);
    } else {
      var n := |plan| - 1;
      var before := plan[..n];
      var s1 := ApplyAll(s, VdevChanges(v, before));
      VdevWrites(s, v, before);
      ChunkWrites(s1, v, n, plan[n]);
      NextChunkFree(ApplyAll(s1, ChunkChanges(v, n, plan[n])), v, n, |plan[n]|);
      ApplyAllAppend(s, VdevChanges(v, before), ChunkChanges(v, n, plan[n]));
      WritesPlanTwice(s, s1, ApplyAll(s, VdevChanges(v, plan)), v, Flat(before), plan[n]);
    }
  }

  // ----- which key holds which NISD -----

  lemma {:induction false} BlockStandsInChunk(v: VdevConfig, c: nat, picks: seq<Pick>, i: nat)
    requires i < |picks|
    ensures Puts(ChunkChanges(v, c, picks), BlockKey(v, c, i), Ref(picks[i].nisd))
  {
    var n := |picks| - 1;
    var before, last, k := ChunkChanges(v, c, picks[..n]), BlockChanges(v, c, n, picks[n].nisd), BlockKey(v, c, i);
    MentionsAppend(before, last, k);
    if i < n {
      BlockStandsInChunk(v, c, picks[..n], i);
      if last[0].key == k { BlockKeysDiffer(v, c, n, c, i); }
    } else {
      assert last[0].key == k;
      ChunkAvoids(v, c, picks[..n], c, i);
    }
  }

  /** The changes of a chunk do not mention blocks of another chunk or later blocks of this one. */
  lemma {:induction false} ChunkAvoids(v: VdevConfig, c: nat, picks: seq<Pick>, c2: nat, i: nat)
    requires c2 != c || |picks| <= i
    ensures !Mentions(ChunkChanges(v, c, picks), BlockKey(v, c2, i))
  {
    if picks != [] {
      var n, k := |picks| - 1, BlockKey(v, c2, i);
      ChunkAvoids(v, c, picks[..n], c2, i);
      MentionsAppend(ChunkChanges(v, c, picks[..n]), BlockChanges(v, c, n, picks[n].nisd), k);
      if BlockKey(v, c, n) == k { BlockKeysDiffer(v, c, n, c2, i); }
    }
  }

  lemma {:induction false} PlanAvoids(v: VdevConfig, plan: seq<seq<Pick>>, c: nat, i: nat)
    requires |plan| <= c
    ensures !Mentions(VdevChanges(v, plan), BlockKey(v, c, i))
  {
    if plan != [] {
      var n := |plan| - 1;
      PlanAvoids(v, plan[..n], c, i);
      ChunkAvoids(v, n, plan[n], c, i);
      MentionsAppend(VdevChanges(v, plan[..n]), ChunkChanges(v, n, plan[n]), BlockKey(v, c, i));
    }
  }

  /** Block i of chunk c is written once, to its own key, with the NISD of its pick. */
  lemma {:induction false} BlockStands(v: VdevConfig, plan: seq<seq<Pick>>, c: nat, i: nat)
    requires c < |plan| && i < |plan[c]|
    ensures Puts(VdevChanges(v, plan), BlockKey(v, c, i), Ref(plan[c][i].nisd))
  {
    hide ChunkChanges, BlockKey;
    var n := |plan| - 1;
    var before, last, k := VdevChanges(v, plan[..n]), ChunkChanges(v, n, plan[n]), BlockKey(v, c, i);
    MentionsAppend(before, last, k);
    if c < n {
      BlockStands(v, plan[..n], c, i);
      ChunkAvoids(v, n, plan[n], c, i);
    } else {
      BlockStandsInChunk(v, c, plan[c], i);
      PlanAvoids(v, plan[..n], c, i);
    }
    PutsEither(before, last, k, Ref(plan[c][i].nisd));
  }

  lemma PutsEither(a: seq<StoreChange>, b: seq<StoreChange>, k: Key, v: Val)
    requires (Puts(a, k, v) && (Puts(b, k, v) || !Mentions(b, k))) || (Puts(b, k, v) && !Mentions(a, k))
    ensures Puts(a + b, k, v)
  {
    MentionsAppend(a, b, k);
  }

  // ----- draws and the allocation map -----

  lemma {:induction false} LeftAfterDraws(left: map<Id, int>, picks: seq<Pick>, n: Id)
    ensures LeftAfter(left, picks).Keys == left.Keys
    ensures n in left ==> LeftAfter(left, picks)[n] == left[n] - CHUNK_SIZE * Draws(picks, n)
  {
    if picks != [] { LeftAfterDraws(left, picks[..|picks|-1], n); }
  }
}
