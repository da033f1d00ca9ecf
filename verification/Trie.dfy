/** The key tree of the database viewer (scripts/deploy/dbtool/utils.py, lines 15-36). */
module Trie {
  import opened Finite
  import opened Text

  /** A nested dictionary. A value at an inner node sits under VALUE_KEY. */
  datatype Node = Leaf(v: string) | Dict(m: map<string, Node>)

  const VALUE_KEY := "__value__"

  datatype Pair = Pair(key: string, value: string)

  function PathOf(key: string): seq<string> { Split(key, '/') }

  /** The dictionary that a node becomes when a longer key passes through it. */
  function Opened(n: Node): map<string, Node> {
    match n
    case Dict(m) => m
    case Leaf(v) => map[VALUE_KEY := Leaf(v)]
  }

  /** One key: walk down, opening leaves on the way, and set the value at the end. */
  function Insert(n: Node, path: seq<string>, v: string): Node
    decreases path
  {
    if path == [] then
      match n
      case Leaf(_) => Leaf(v)
      case Dict(m) => Dict(m[VALUE_KEY := Leaf(v)])
    else
      var m, p := Opened(n), path[0];
      var child := if p in m then m[p] else if |path| == 1 then Leaf(v) else Dict(map[]);
      Dict(m[p := Insert(child, path[1..], v)])
  }

  function Built(pairs: seq<Pair>): Node {
    if pairs == [] then Dict(map[]) else
      var n := |pairs| - 1;
      Insert(Built(pairs[..n]), PathOf(pairs[n].key), pairs[n].value)
  }

  // ----- the tree as the source keeps it: dictionaries changed in place -----

  /** An entry of a dictionary object: a string, or another dictionary object. */
  datatype Entry = Str(s: string) | Sub(d: Table)

  class Table {
    var m: map<string, Entry>

    constructor (init: map<string, Entry>)
      ensures m == init
    {
      m := init;
    }
  }

  /** The dictionary objects of a tree and what they contain, by path. */
  type Tables = map<seq<string>, Table>
  type Bodies = map<seq<string>, map<string, Entry>>

  /** What one dictionary shows of itself: its keys, the strings, and which entries are dictionaries. */
  type Face = map<string, Option<string>>

  function NodeKind(n: Node): Option<string> { if n.Leaf? then Some(n.v) else None }
  function EntryKind(e: Entry): Option<string> { if e.Str? then Some(e.s) else None }

  ghost function NodeFace(m: map<string, Node>): Face { map k | k in m :: NodeKind(m[k]) }
  ghost function EntryFace(m: map<string, Entry>): Face { map k | k in m :: EntryKind(m[k]) }

  /** The dictionary at path p of a tree, if there is one. */
  ghost function FaceAt(t: Node, p: seq<string>): Option<Face>
    decreases p
  {
    if t.Leaf? then None
    else if p == [] then Some(NodeFace(t.m))
    else if p[0] in t.m then FaceAt(t.m[p[0]], p[1..]) else None
  }

  /** The dictionary objects, by path, hold the tree t: one object for each dictionary of t and no others,
      each with the entries of t, and no object in two places. */
  ghost predicate Holds(at: Tables, t: Node)
    reads at.Values
  {
    Shows(Contents(at), t) && Links(at, Contents(at))
  }

  ghost predicate Shows(ms: Bodies, t: Node) {
    forall p :: if p in ms then FaceAt(t, p) == Some(EntryFace(ms[p])) else FaceAt(t, p) == None
  }

  /** One object per path, and its dictionary entries are the objects one step further. */
  ghost predicate Links(at: Tables, ms: Bodies) {
    && at.Keys == ms.Keys
    && (forall p, q :: p in at && q in at && at[p] == at[q] ==> p == q)
    && (forall p, k :: p in ms && k in ms[p] && ms[p][k].Sub? ==> p + [k] in at && at[p + [k]] == ms[p][k].d)
  }

  ghost function Contents(at: Tables): Bodies
    reads at.Values
  {
    map p | p in at :: at[p].m
  }

  ghost function MapAt(t: Node, p: seq<string>): map<string, Node>
    requires FaceAt(t, p).Some?
    decreases p
  {
    if p == [] then t.m else MapAt(t.m[p[0]], p[1..])
  }

  /** The tree with entry k of the dictionary at path p set to c. */
  ghost function PutAt(t: Node, p: seq<string>, k: string, c: Node): Node
    requires FaceAt(t, p).Some?
    decreases p
  {
    if p == [] then Dict(t.m[k := c]) else Dict(t.m[p[0] := PutAt(t.m[p[0]], p[1..], k, c)])
  }

  ghost predicate Through(p: seq<string>, k: string, q: seq<string>) { |p| < |q| && q[..|p|] == p && q[|p|] == k }

  lemma {:induction false} FaceAfterPut(t: Node, p: seq<string>, k: string, c: Node, q: seq<string>)
    requires FaceAt(t, p).Some?
    ensures FaceAt(PutAt(t, p, k, c), q) ==
            if Through(p, k, q) then FaceAt(c, q[|p|+1..])
            else if q == p then Some(FaceAt(t, p).value[k := NodeKind(c)])
            else FaceAt(t, q)
    decreases p
  {
    if p == [] {
      if q == [] { assert NodeFace(t.m[k := c]) == NodeFace(t.m)[k := NodeKind(c)]; }
    } else if q == [] {
      var c1 := PutAt(t.m[p[0]], p[1..], k, c);
      assert NodeFace(t.m[p[0] := c1]) == NodeFace(t.m);
    } else if q[0] == p[0] {
      FaceAfterPut(t.m[p[0]], p[1..], k, c, q[1..]);
      assert Through(p, k, q) <==> Through(p[1..], k, q[1..]) by { ThroughTail(p, k, q); }
      assert q == p <==> q[1..] == p[1..] by { assert q == [q[0]] + q[1..] && p == [p[0]] + p[1..]; }
      if Through(p, k, q) { assert q[1..][|p|..] == q[|p|+1..]; }
    } else {
      ThroughHead(p, k, q);
    }
  }

  lemma ThroughHead(p: seq<string>, k: string, q: seq<string>)
    requires p != []
    ensures Through(p, k, q) ==> q != [] && q[0] == p[0]
  {
    if Through(p, k, q) { assert q[..|p|][0] == p[0]; }
  }

  lemma ThroughTail(p: seq<string>, k: string, q: seq<string>)
    requires p != [] && q != [] && p[0] == q[0]
    ensures Through(p, k, q) <==> Through(p[1..], k, q[1..])
  {
    if |p| < |q| {
      assert q[..|p|][1..] == q[1..][..|p|-1];
      if q[1..][..|p|-1] == p[1..] { assert q[..|p|] == [q[0]] + q[1..][..|p|-1] && p == [p[0]] + p[1..]; }
    }
  }

  // ----- one assignment to an entry -----

  /** Without what is below entry k of the dictionary at p. */
  ghost function Trimmed<T>(at: map<seq<string>, T>, p: seq<string>, k: string): map<seq<string>, T> {
    map q | q in at && !Through(p, k, q) :: at[q]
  }

  method PutString(cur: Table, k: string, v: string, ghost at: Tables, ghost t: Node, ghost p: seq<string>)
    requires Holds(at, t) && p in at && at[p] == cur
    modifies cur
    ensures Holds(Trimmed(at, p, k), PutAt(t, p, k, Leaf(v)))
  {
    hide FaceAt, PutAt, Links, Shows, Through;
    ghost var was := Contents(at);
    ShowsFace(was, t, p);
    cur.m := cur.m[k := Str(v)];
    assert Contents(at) == was[p := was[p][k := Str(v)]] by { DistinctObjects(at, was, p); }
    assert Contents(Trimmed(at, p, k)) == Trimmed(Contents(at), p, k);
    LinksWithString(at, was, p, k, v);
    ShowsWithString(was, t, p, k, v);
  }

  lemma {:induction false} ShowsFace(ms: Bodies, t: Node, p: seq<string>)
    requires Shows(ms, t) && p in ms
    ensures FaceAt(t, p) == Some(EntryFace(ms[p]))
  {
  }

  lemma DistinctObjects(at: Tables, ms: Bodies, p: seq<string>)
    requires Links(at, ms) && p in at
    ensures forall q :: q in at && q != p ==> at[q] != at[p]
  {
  }

  lemma LinksWithString(at: Tables, ms: Bodies, p: seq<string>, k: string, v: string)
    requires Links(at, ms) && p in at
    ensures p in ms && Links(Trimmed(at, p, k), Trimmed(ms[p := ms[p][k := Str(v)]], p, k))
  {
    hide Through;
    var at': Tables, ms': Bodies := Trimmed(at, p, k), Trimmed(ms[p := ms[p][k := Str(v)]], p, k);
    forall q, x | q in ms' && x in ms'[q] && ms'[q][x].Sub? ensures q + [x] in at' && at'[q + [x]] == ms'[q][x].d {
      StaysOut(p, k, q, x);
    }
  }

  lemma {:induction false} ShowsWithString(ms: Bodies, t: Node, p: seq<string>, k: string, v: string)
    requires Shows(ms, t) && p in ms
    ensures FaceAt(t, p).Some? && Shows(Trimmed(ms[p := ms[p][k := Str(v)]], p, k), PutAt(t, p, k, Leaf(v)))
  {
    hide FaceAt, PutAt, Through, EntryFace, NodeFace;
    ShowsFace(ms, t, p);
    FaceOfPut(ms[p], k, Str(v));
    NotThroughSelf(p, k);
    var ms': Bodies := Trimmed(ms[p := ms[p][k := Str(v)]], p, k);
    forall q
      ensures if q in ms' then FaceAt(PutAt(t, p, k, Leaf(v)), q) == Some(EntryFace(ms'[q])) else FaceAt(PutAt(t, p, k, Leaf(v)), q) == None
    {
      FaceAfterPut(t, p, k, Leaf(v), q);
      LeafHasNoFace(v, q, p, k);
    }
  }

  lemma NotThroughSelf(p: seq<string>, k: string)
    ensures !Through(p, k, p) && Through(p, k, p + [k])
  {
  }

  lemma LeafHasNoFace(v: string, q: seq<string>, p: seq<string>, k: string)
    ensures Through(p, k, q) ==> FaceAt(Leaf(v), q[|p|+1..]) == None
  {
  }

  /** From outside of p.k one gets inside only at p.k itself. */
  lemma StaysOut(p: seq<string>, k: string, q: seq<string>, x: string)
    ensures Through(p, k, q + [x]) ==> Through(p, k, q) || (q == p && x == k)
  {
    if |p| < |q| { assert (q + [x])[..|p|] == q[..|p|]; }
  }

  /** A dictionary object with strings only, put where no dictionary is. */
  method PutTable(cur: Table, k: string, init: map<string, Entry>, ghost at: Tables, ghost t: Node, ghost p: seq<string>,
                  ghost c: map<string, Node>)
    returns (d: Table)
    requires Holds(at, t) && p in at && at[p] == cur && (k in cur.m ==> cur.m[k].Str?)
    requires (forall x :: x in init ==> init[x].Str?) && EntryFace(init) == NodeFace(c)
    modifies cur
    ensures fresh(d) && k in cur.m && cur.m[k] == Sub(d)
    ensures Holds(at[p + [k] := d], PutAt(t, p, k, Dict(c)))
  {
    hide FaceAt, PutAt, Links, Shows, EntryFace, NodeFace;
    ghost var was := Contents(at);
    NothingThere(was, t, p, k);
    d := new Table(init);
    cur.m := cur.m[k := Sub(d)];
    assert Contents(at) == was[p := was[p][k := Sub(d)]] by { DistinctObjects(at, was, p); }
    assert Contents(at[p + [k] := d]) == Contents(at)[p + [k] := init];
    LinksWithTable(at, was, p, k, d, init);
    ShowsWithTable(was, t, p, k, d, init, c);
  }

  lemma {:induction false} ShowsWithTable(ms: Bodies, t: Node, p: seq<string>, k: string, d: Table, init: map<string, Entry>,
                       c: map<string, Node>)
    requires Shows(ms, t) && p in ms && p + [k] !in ms && (k in ms[p] ==> ms[p][k].Str?)
    requires (forall x :: x in init ==> init[x].Str?) && EntryFace(init) == NodeFace(c)
    ensures FaceAt(t, p).Some? && Shows(ms[p := ms[p][k := Sub(d)]][p + [k] := init], PutAt(t, p, k, Dict(c)))
  {
    hide FaceAt, PutAt, EntryFace, NodeFace;
    assert FaceAt(t, p) == Some(EntryFace(ms[p]));
    FaceHas(ms[p], k);
    FaceOfPut(ms[p], k, Sub(d));
    var ms': Bodies := ms[p := ms[p][k := Sub(d)]][p + [k] := init];
    forall q
      ensures if q in ms' then FaceAt(PutAt(t, p, k, Dict(c)), q) == Some(EntryFace(ms'[q])) else FaceAt(PutAt(t, p, k, Dict(c)), q) == None
    {
      FaceWithTable(t, p, k, c, init, q);
    }
  }

  lemma FaceHas(m: map<string, Entry>, k: string)
    ensures k in EntryFace(m) <==> k in m
    ensures k in m ==> EntryFace(m)[k] == EntryKind(m[k])
  {
  }

  lemma LinksWithTable(at: Tables, ms: Bodies, p: seq<string>, k: string, d: Table,
                       init: map<string, Entry>)
    requires Links(at, ms) && p in at && p + [k] !in at && d !in at.Values && forall x :: x in init ==> init[x].Str?
    ensures p in ms && Links(at[p + [k] := d], ms[p := ms[p][k := Sub(d)]][p + [k] := init])
  {
    var ms': Bodies := ms[p := ms[p][k := Sub(d)]][p + [k] := init];
    forall q, x | q in ms' && x in ms'[q] && ms'[q][x].Sub?
      ensures q + [x] in at[p + [k] := d] && at[p + [k] := d][q + [x]] == ms'[q][x].d
    {
      OtherChild(p, k, q, x);
    }
  }

  lemma FaceOfPut(m: map<string, Entry>, k: string, e: Entry)
    ensures EntryFace(m[k := e]) == EntryFace(m)[k := EntryKind(e)]
  {
  }

  lemma OtherChild(p: seq<string>, k: string, q: seq<string>, x: string)
    ensures q + [x] == p + [k] ==> q == p && x == k
  {
    if q + [x] == p + [k] { assert q == (q + [x])[..|q|] && p == (p + [k])[..|p|] && x == (q + [x])[|q|] && k == (p + [k])[|p|]; }
  }

  lemma {:induction false} NothingThere(ms: Bodies, t: Node, p: seq<string>, k: string)
    requires Shows(ms, t) && p in ms && (k in ms[p] ==> ms[p][k].Str?)
    ensures FaceAt(t, p).Some? && p + [k] !in ms
  {
    NoFaceBelow(t, p, k, p + [k]);
  }

  lemma {:induction false} FaceWithTable(t: Node, p: seq<string>, k: string, c: map<string, Node>, init: map<string, Entry>, q: seq<string>)
    requires FaceAt(t, p).Some? && (k in FaceAt(t, p).value ==> FaceAt(t, p).value[k].Some?)
    requires EntryFace(init) == NodeFace(c) && forall x :: x in init ==> init[x].Str?
    ensures FaceAt(PutAt(t, p, k, Dict(c)), q) ==
            if q == p + [k] then Some(NodeFace(c)) else if q == p then Some(FaceAt(t, p).value[k := None]) else FaceAt(t, q)
  {
    hide FaceAt, PutAt, Through, EntryFace, NodeFace;
    FaceAfterPut(t, p, k, Dict(c), q);
    FlatFace(c, init, p, k, q);
    NotThroughSelf(p, k);
    if Through(p, k, q) && q != p + [k] { NoFaceBelow(t, p, k, q); }
  }

  /** Below a string there is no dictionary. */
  lemma {:induction false} NoFaceBelow(t: Node, p: seq<string>, k: string, q: seq<string>)
    requires FaceAt(t, p).Some? && (k in FaceAt(t, p).value ==> FaceAt(t, p).value[k].Some?) && Through(p, k, q)
    ensures FaceAt(t, q).None?
    decreases p
  {
    if p != [] {
      assert q[..|p|][0] == p[0];
      ThroughTail(p, k, q);
      NoFaceBelow(t.m[p[0]], p[1..], k, q[1..]);
    }
  }

  lemma FlatFace(c: map<string, Node>, init: map<string, Entry>, p: seq<string>, k: string, q: seq<string>)
    requires EntryFace(init) == NodeFace(c) && forall x :: x in init ==> init[x].Str?
    ensures Through(p, k, q) ==> FaceAt(Dict(c), q[|p|+1..]) == if q == p + [k] then Some(NodeFace(c)) else None
  {
    if Through(p, k, q) {
      var r := q[|p|+1..];
      assert q == p + [k] + r;
      if r != [] && r[0] in c { assert r[0] in NodeFace(c) && EntryFace(init)[r[0]].Some?; }
    }
  }

  // ----- inserting one key step by step -----

  /** The dictionary at p gets a dictionary under k, unless it has one. */
  ghost function OpenStep(t: Node, p: seq<string>, k: string): Node
    requires FaceAt(t, p).Some?
  {
    var m := MapAt(t, p);
    if k !in m then PutAt(t, p, k, Dict(map[]))
    else if m[k].Leaf? then PutAt(t, p, k, Dict(map[VALUE_KEY := m[k]])) else t
  }

  lemma {:induction false} MapShows(t: Node, p: seq<string>)
    requires FaceAt(t, p).Some?
    ensures FaceAt(t, p) == Some(NodeFace(MapAt(t, p)))
    decreases p
  {
    if p != [] { MapShows(t.m[p[0]], p[1..]); }
  }

  lemma {:induction false} FaceStep(t: Node, p: seq<string>, k: string)
    requires FaceAt(t, p).Some?
    ensures FaceAt(t, p + [k]).Some? <==> k in MapAt(t, p) && MapAt(t, p)[k].Dict?
    ensures FaceAt(t, p + [k]).Some? ==> MapAt(t, p + [k]) == MapAt(t, p)[k].m
    decreases p
  {
    if p == [] {
      assert (p + [k])[1..] == [];
    } else {
      FaceStep(t.m[p[0]], p[1..], k);
      assert (p + [k])[1..] == p[1..] + [k];
    }
  }

  lemma {:induction false} OpenStepOpens(t: Node, p: seq<string>, k: string)
    requires FaceAt(t, p).Some?
    ensures FaceAt(OpenStep(t, p, k), p + [k]).Some?
  {
    FaceStep(t, p, k);
    var m := MapAt(t, p);
    NotThroughSelf(p, k);
    assert (p + [k])[|p|+1..] == [];
    if k !in m { FaceAfterPut(t, p, k, Dict(map[]), p + [k]); }
    else if m[k].Leaf? { FaceAfterPut(t, p, k, Dict(map[VALUE_KEY := m[k]]), p + [k]); }
  }

  /** The tree with dictionaries along the first i parts of the path. */
  ghost function OpenTo(t: Node, path: seq<string>, i: nat): (r: Node)
    requires t.Dict? && i <= |path|
    ensures FaceAt(r, path[..i]).Some?
  {
    if i == 0 then t else
      var r := OpenTo(t, path, i - 1);
      OpenStepOpens(r, path[..i-1], path[i-1]);
      assert path[..i-1] + [path[i-1]] == path[..i];
      OpenStep(r, path[..i-1], path[i-1])
  }

  /** The value at the end: beside the keys of a dictionary, or in place of what was there. */
  ghost function Finish(t: Node, p: seq<string>, k: string, v: string): Node
    requires FaceAt(t, p).Some?
  {
    FaceStep(t, p, k);
    if FaceAt(t, p + [k]).Some? then PutAt(t, p + [k], VALUE_KEY, Leaf(v)) else PutAt(t, p, k, Leaf(v))
  }

  lemma {:induction false} OpenToFirst(t: Node, path: seq<string>, i: nat)
    requires t.Dict? && 0 < i <= |path|
    ensures var t1 := OpenStep(t, [], path[0]);
            t1.Dict? && path[0] in t1.m && t1.m[path[0]].Dict?
            && OpenTo(t, path, i) == Dict(t1.m[path[0] := OpenTo(t1.m[path[0]], path[1..], i - 1)])
  {
    var t1 := OpenStep(t, [], path[0]);
    if i == 1 {
      assert path[..0] == [];
      assert t1.m[path[0] := t1.m[path[0]]] == t1.m;
    } else {
      OpenToFirst(t, path, i - 1);
      var c := OpenTo(t1.m[path[0]], path[1..], i - 2);
      var q, k := path[..i-1], path[i-1];
      assert q[0] == path[0] && q[1..] == path[1..][..i-2] && k == path[1..][i-2];
      OpenDeeper(t1.m, path[0], c, q[1..], k);
      assert q == [path[0]] + q[1..];
    }
  }

  lemma OpenDeeper(m: map<string, Node>, a: string, c: Node, p: seq<string>, k: string)
    requires FaceAt(c, p).Some?
    ensures FaceAt(Dict(m[a := c]), [a] + p).Some?
    ensures OpenStep(Dict(m[a := c]), [a] + p, k) == Dict(m[a := OpenStep(c, p, k)])
  {
    var t, q := Dict(m[a := c]), [a] + p;
    assert q[0] == a && q[1..] == p && t.m[a] == c;
    forall x: Node ensures PutAt(t, q, k, x) == Dict(m[a := PutAt(c, p, k, x)]) {
      assert m[a := c][a := PutAt(c, p, k, x)] == m[a := PutAt(c, p, k, x)];
    }
  }

  lemma FinishDeeper(m: map<string, Node>, a: string, c: Node, p: seq<string>, k: string, v: string)
    requires FaceAt(c, p).Some?
    ensures FaceAt(Dict(m[a := c]), [a] + p).Some?
    ensures Finish(Dict(m[a := c]), [a] + p, k, v) == Dict(m[a := Finish(c, p, k, v)])
  {
    var t, q := Dict(m[a := c]), [a] + p;
    assert q[0] == a && q[1..] == p && t.m[a] == c;
    assert (q + [k])[0] == a && (q + [k])[1..] == p + [k];
    var y := if FaceAt(c, p + [k]).Some? then PutAt(c, p + [k], VALUE_KEY, Leaf(v)) else PutAt(c, p, k, Leaf(v));
    assert m[a := c][a := y] == m[a := y];
  }

  lemma {:induction false} InsertOne(t: Node, k: string, v: string)
    requires t.Dict?
    ensures Insert(t, [k], v) == Finish(t, [], k, v)
  {
    assert [k][1..] == [] && [] + [k] == [k];
    FaceStep(t, [], k);
    if k in t.m && t.m[k].Dict? {
      assert Insert(t.m[k], [], v) == Dict(t.m[k].m[VALUE_KEY := Leaf(v)]);
      assert PutAt(t, [k], VALUE_KEY, Leaf(v)) == Dict(t.m[k := PutAt(t.m[k], [], VALUE_KEY, Leaf(v))]);
    } else {
      assert forall c: Node :: c.Leaf? ==> Insert(c, [], v) == Leaf(v);
    }
  }

  lemma {:induction false} InsertFirst(t: Node, path: seq<string>, v: string)
    requires t.Dict? && |path| > 1
    ensures var t1 := OpenStep(t, [], path[0]);
            t1.Dict? && path[0] in t1.m && t1.m[path[0]].Dict?
            && Insert(t, path, v) == Dict(t1.m[path[0] := Insert(t1.m[path[0]], path[1..], v)])
  {
    var t1, p, rest := OpenStep(t, [], path[0]), path[0], path[1..];
    var c := t1.m[p];
    assert t1.m[p := Insert(c, rest, v)] == t.m[p := Insert(c, rest, v)];
    if p in t.m && t.m[p].Leaf? { assert Insert(t.m[p], rest, v) == Insert(c, rest, v); }
  }

  /** Walking down with a cursor and inserting by recursion give the same tree. */
  lemma {:induction false} InsertIsSteps(t: Node, path: seq<string>, v: string)
    requires t.Dict? && path != []
    ensures var n := |path| - 1; Insert(t, path, v) == Finish(OpenTo(t, path, n), path[..n], path[n], v)
    decreases path
  {
    hide OpenStep, OpenTo, Finish, Insert;
    var n := |path| - 1;
    if n == 0 {
      assert path == [path[0]] && path[..0] == [];
      OpenNone(t, path);
      InsertOne(t, path[0], v);
    } else {
      OpenToFirst(t, path, n);
      InsertFirst(t, path, v);
      var t1, rest := OpenStep(t, [], path[0]), path[1..];
      var c := t1.m[path[0]];
      InsertIsSteps(c, rest, v);
      assert path[..n] == [path[0]] + rest[..n-1] && rest[n-1] == path[n];
      FinishDeeper(t1.m, path[0], OpenTo(c, rest, n - 1), rest[..n-1], path[n], v);
    }
  }

  lemma {:induction false} OpenNone(t: Node, path: seq<string>)
    requires t.Dict?
    ensures OpenTo(t, path, 0) == t
  {
  }

  // ----- the loops -----

  lemma {:induction false} EntryMatches(at: Tables, t: Node, p: seq<string>, k: string)
    requires Holds(at, t) && p in at
    ensures FaceAt(t, p).Some? && (k in at[p].m <==> k in MapAt(t, p))
    ensures k in at[p].m ==> EntryKind(at[p].m[k]) == NodeKind(MapAt(t, p)[k])
    ensures k in at[p].m && at[p].m[k].Sub? ==> p + [k] in at && at[p + [k]] == at[p].m[k].d
    ensures p + [k] in at ==> k in at[p].m && at[p].m[k].Sub?
  {
    hide FaceAt, MapAt;
    MapShows(t, p);
    FaceStep(t, p, k);
    var f := FaceAt(t, p).value;
    assert f == NodeFace(MapAt(t, p)) && f == EntryFace(at[p].m);
    assert k in at[p].m <==> k in f;
    assert k in f ==> f[k] == EntryKind(at[p].m[k]) && f[k] == NodeKind(MapAt(t, p)[k]);
  }

  /** One part of a key: a string on the way becomes a dictionary that holds it, a missing part an empty
      dictionary. */
  method StepInto(cur: Table, part: string, ghost at: Tables, ghost t: Node, ghost p: seq<string>)
    returns (next: Table, ghost at': Tables)
    requires Holds(at, t) && p in at && at[p] == cur
    modifies cur
    ensures Holds(at', OpenStep(t, p, part)) && p + [part] in at' && at'[p + [part]] == next
    ensures forall q :: q in at ==> q in at' && at'[q] == at[q]
    ensures forall q :: q in at' && q !in at ==> fresh(at'[q])
  {
    hide FaceAt, PutAt, MapAt, Through, Holds;
    EntryMatches(at, t, p, part);
    var d;
    at' := at;
    if part in cur.m && cur.m[part].Str? {
      ghost var c: map<string, Node> := map[VALUE_KEY := MapAt(t, p)[part]];
      var init := map[VALUE_KEY := cur.m[part]];
      assert EntryFace(init) == NodeFace(c);
      d := PutTable(cur, part, init, at, t, p, c);
      at' := at[p + [part] := d];
    } else if part !in cur.m {
      assert EntryFace(map[]) == NodeFace(map[]);
      d := PutTable(cur, part, map[], at, t, p, map[]);
      at' := at[p + [part] := d];
    }
    next := cur.m[part].d;
  }

  /** The value of a key at its last part. */
  method SetValue(cur: Table, last: string, v: string, ghost at: Tables, ghost t: Node, ghost p: seq<string>)
    returns (ghost at': Tables)
    requires Holds(at, t) && p in at && at[p] == cur
    modifies at.Values
    ensures FaceAt(t, p).Some? && Holds(at', Finish(t, p, last, v))
    ensures forall q :: q in at' ==> q in at && at'[q] == at[q]
    ensures [] in at ==> [] in at'
  {
    hide FaceAt, PutAt, MapAt, Holds;
    EntryMatches(at, t, p, last);
    FaceStep(t, p, last);
    if last in cur.m && cur.m[last].Sub? {
      PutString(cur.m[last].d, VALUE_KEY, v, at, t, p + [last]);
      at' := Trimmed(at, p + [last], VALUE_KEY);
    } else {
      PutString(cur, last, v, at, t, p);
      at' := Trimmed(at, p, last);
    }
  }

  /** One pair: the cursor walks down from the root, opening dictionaries on its way. */
  method InsertInPlace(tree: Table, parts: seq<string>, v: string, ghost at: Tables, ghost t: Node)
    returns (ghost at': Tables)
    requires Holds(at, t) && t.Dict? && [] in at && at[[]] == tree && parts != []
    modifies at.Values
    ensures Holds(at', Insert(t, parts, v)) && [] in at' && at'[[]] == tree
    ensures forall q :: q in at' ==> at'[q] in at.Values || fresh(at'[q])
  {
    hide Holds, OpenStep, Insert, Finish;
    var current, n := tree, |parts| - 1;
    at' := at;
    assert parts[..0] == [];
    for i := 0 to n
      invariant Holds(at', OpenTo(t, parts, i)) && parts[..i] in at' && at'[parts[..i]] == current
      invariant [] in at' && at'[[]] == tree
      invariant forall q :: q in at' ==> at'[q] in at.Values || fresh(at'[q])
      modifies at.Values
    {
      assert parts[..i] + [parts[i]] == parts[..i+1];
      current, at' := StepInto(current, parts[i], at', OpenTo(t, parts, i), parts[..i]);
    }
    at' := SetValue(current, parts[n], v, at', OpenTo(t, parts, n), parts[..n]);
    InsertIsSteps(t, parts, v);
  }

  /** build_tree: the dictionary objects hold the tree of the pairs, inserted in order. */
  method BuildTree(pairs: seq<Pair>) returns (tree: Table, ghost at: Tables)
    ensures Holds(at, Built(pairs)) && [] in at && at[[]] == tree
    ensures forall q :: q in at ==> fresh(at[q])
  {
    hide Holds, Insert;
    tree := new Table(map[]);
    at := map[[] := tree];
    assert pairs[..0] == [] && Built([]) == Dict(map[]);
    EmptyHolds(at, tree);
    for i := 0 to |pairs|
      invariant Holds(at, Built(pairs[..i])) && [] in at && at[[]] == tree
      invariant forall q :: q in at ==> fresh(at[q])
    {
      BuiltNext(pairs, i);
      at := InsertInPlace(tree, PathOf(pairs[i].key), pairs[i].value, at, Built(pairs[..i]));
    }
    assert pairs[..|pairs|] == pairs;
  }

  lemma EmptyHolds(at: Tables, tree: Table)
    requires at == map[[] := tree] && tree.m == map[]
    ensures Holds(at, Dict(map[]))
  {
    assert EntryFace(map[]) == NodeFace(map[]);
  }

  lemma {:induction false} BuiltNext(pairs: seq<Pair>, i: nat)
    requires i < |pairs|
    ensures Built(pairs[..i]).Dict? && PathOf(pairs[i].key) != []
    ensures Built(pairs[..i+1]) == Insert(Built(pairs[..i]), PathOf(pairs[i].key), pairs[i].value)
  {
    assert pairs[..i+1][..i] == pairs[..i];
    if i > 0 { BuiltNext(pairs, i - 1); }
  }

  // ----- lookup -----

  /** The value a reader finds under a path. */
  function Lookup(n: Node, path: seq<string>): Option<string> {
    if path == [] then
      match n
      case Leaf(v) => Some(v)
      case Dict(m) => if VALUE_KEY in m && m[VALUE_KEY].Leaf? then Some(m[VALUE_KEY].v) else None
    else if n.Dict? && path[0] in n.m then Lookup(n.m[path[0]], path[1..])
    else None
  }

  ghost predicate Plain(path: seq<string>) { forall i :: 0 <= i < |path| ==> path[i] != VALUE_KEY }

  /** The value of the last pair with this path. */
  function LastValue(pairs: seq<Pair>, path: seq<string>): Option<string> {
    if pairs == [] then None else
      var n := |pairs| - 1;
      if PathOf(pairs[n].key) == path then Some(pairs[n].value) else LastValue(pairs[..n], path)
  }

  lemma {:induction false} LookupFresh(path: seq<string>, v: string, q: seq<string>)
    requires Plain(path) && Plain(q)
    ensures path != [] ==> Lookup(Insert(Dict(map[]), path, v), q) == if q == path then Some(v) else None
    ensures Lookup(Insert(Leaf(v), path, v), q) == if q == path || q == [] then Some(v) else None
  {
    if path != [] && q != [] && path[0] == q[0] {
      LookupFresh(path[1..], v, q[1..]);
      assert path == [path[0]] + path[1..] && q == [q[0]] + q[1..];
    }
  }

  /** An inserted key is found with its value; every other key is found as before. */
  lemma {:induction false} LookupInsert(n: Node, path: seq<string>, v: string, q: seq<string>)
    requires Plain(path) && Plain(q)
    ensures Lookup(Insert(n, path, v), q) == if q == path then Some(v) else Lookup(n, q)
    decreases path
  {
    if path == [] {
    } else if q != [] && q[0] == path[0] {
      assert path == [path[0]] + path[1..] && q == [q[0]] + q[1..];
      var m, p := Opened(n), path[0];
      if p in m {
        LookupInsert(m[p], path[1..], v, q[1..]);
      } else {
        LookupFresh(path[1..], v, q[1..]);
      }
    }
  }

  /** Every key is found with its last value, also when it is a prefix of others; no other key is found. */
  lemma {:induction false} TreeIsCorrect(pairs: seq<Pair>, q: seq<string>)
    requires Plain(q) && q != [] && forall i :: 0 <= i < |pairs| ==> Plain(PathOf(pairs[i].key))
    ensures Lookup(Built(pairs), q) == LastValue(pairs, q)
  {
    if pairs != [] {
      var n := |pairs| - 1;
      TreeIsCorrect(pairs[..n], q);
      LookupInsert(Built(pairs[..n]), PathOf(pairs[n].key), pairs[n].value, q);
    }
  }

  /** A key that is a prefix of others has its value under "__value__", next to the longer ones. */
  lemma {:induction false} ValueBesideSubkeys(pairs: seq<Pair>, q: seq<string>)
    requires Plain(q) && q != [] && forall i :: 0 <= i < |pairs| ==> Plain(PathOf(pairs[i].key))
    requires FaceAt(Built(pairs), q).Some?
    ensures LastValue(pairs, q) == (var m := MapAt(Built(pairs), q);
                                    if "__value__" in m && m["__value__"].Leaf? then Some(m["__value__"].v) else None)
  {
    TreeIsCorrect(pairs, q);
    ValueInDict(Built(pairs), q);
  }

  lemma {:induction false} ValueInDict(t: Node, q: seq<string>)
    requires FaceAt(t, q).Some?
    ensures Lookup(t, q) == (var m := MapAt(t, q); if "__value__" in m && m["__value__"].Leaf? then Some(m["__value__"].v) else None)
    decreases q
  {
    if q != [] { ValueInDict(t.m[q[0]], q[1..]); }
  }

  /** The path of a key: its parts between slashes. */
  lemma {:induction false} PathIsKeyCutAtSlashes(key: string)
    ensures AllFree(PathOf(key), '/') && Join(PathOf(key), '/') == key
  {
    JoinSplit(key, '/');
    SplitPartsFree(key, '/');
  }

  lemma {:induction false} SplitPartsFree(s: string, c: char)
    ensures AllFree(Split(s, c), c)
  {
    if s != "" {
      SplitPartsFree(s[1..], c);
      var parts, rest := Split(s, c), Split(s[1..], c);
      forall i | 0 <= i < |parts| ensures Free(parts[i], c) {
        if i > 0 { assert parts[i] == if s[0] == c then rest[i-1] else rest[i]; }
      }
    }
  }

  // ----- the tree holds nothing else -----

  /** No empty dictionary, no dictionary that only holds a value, and values are leaves. */
  ghost predicate Canonical(n: Node) {
    match n
    case Leaf(_) => true
    case Dict(m) =>
      (exists k :: k in m && k != VALUE_KEY) && (forall k :: k in m ==> Canonical(m[k]))
      && (VALUE_KEY in m ==> m[VALUE_KEY].Leaf?)
  }

  lemma {:induction false} InsertIsCanonical(n: Node, path: seq<string>, v: string)
    requires Plain(path) && (Canonical(n) || (n == Dict(map[]) && path != []))
    ensures Canonical(Insert(n, path, v))
    decreases path
  {
    if path == [] {
      if n.Dict? {
        var k :| k in n.m && k != VALUE_KEY;
        var m' := n.m[VALUE_KEY := Leaf(v)];
        assert k in m' && Insert(n, path, v) == Dict(m');
        forall x | x in m' ensures Canonical(m'[x]) {}
      }
    } else {
      var m, p := Opened(n), path[0];
      var child := if p in m then m[p] else if |path| == 1 then Leaf(v) else Dict(map[]);
      InsertIsCanonical(child, path[1..], v);
      var m' := m[p := Insert(child, path[1..], v)];
      assert p in m' && p != VALUE_KEY;
      forall k | k in m' ensures Canonical(m'[k]) {}
      assert Insert(n, path, v) == Dict(m');
    }
  }

  /** The built tree, empty or canonical. */
  lemma {:induction false} BuiltIsCanonical(pairs: seq<Pair>)
    requires forall i :: 0 <= i < |pairs| ==> Plain(PathOf(pairs[i].key))
    ensures pairs == [] || (Canonical(Built(pairs)) && Built(pairs).Dict? && VALUE_KEY !in Built(pairs).m)
  {
    if pairs != [] {
      var n := |pairs| - 1;
      BuiltIsCanonical(pairs[..n]);
      InsertIsCanonical(Built(pairs[..n]), PathOf(pairs[n].key), pairs[n].value);
      assert PathOf(pairs[n].key)[0] != VALUE_KEY;
    }
  }

  /** Something is stored below every node of a canonical tree. */
  lemma {:induction false} SomePath(n: Node) returns (q: seq<string>)
    requires Canonical(n)
    ensures Plain(q) && Lookup(n, q).Some?
    ensures n.Dict? ==> q != []
    decreases n
  {
    match n
    case Leaf(_) => q := [];
    case Dict(m) =>
      var k :| k in m && k != VALUE_KEY;
      var rest := SomePath(m[k]);
      q := [k] + rest;
      assert q[1..] == rest;
  }

  ghost predicate SameLookups(a: Node, b: Node) { forall q :: Plain(q) ==> Lookup(a, q) == Lookup(b, q) }

  /** Canonical trees that answer alike are equal. */
  lemma {:induction false} LookupsDetermine(a: Node, b: Node)
    requires Canonical(a) && Canonical(b) && SameLookups(a, b)
    ensures a == b
    decreases a
  {
    assert Lookup(a, []) == Lookup(b, []);
    SameShape(a, b);
    SameShape(b, a);
    if a.Dict? {
      forall k | k != VALUE_KEY ensures (k in a.m <==> k in b.m) && (k in a.m ==> a.m[k] == b.m[k]) {
        if k in a.m { HasKey(a, b, k); }
        if k in b.m { HasKey(b, a, k); }
        if k in a.m {
          ChildLookups(a, b, k);
          LookupsDetermine(a.m[k], b.m[k]);
        }
      }
      assert a.m == b.m;
    }
  }

  lemma {:induction false} SameShape(a: Node, b: Node)
    requires Canonical(a) && SameLookups(a, b)
    ensures a.Dict? ==> b.Dict?
  {
    if a.Dict? {
      var q := SomePath(a);
      assert Lookup(a, q) == Lookup(b, q);
    }
  }

  lemma {:induction false} HasKey(a: Node, b: Node, k: string)
    requires Canonical(a) && a.Dict? && b.Dict? && SameLookups(a, b) && k in a.m && k != VALUE_KEY
    ensures k in b.m
  {
    var rest := SomePath(a.m[k]);
    var q := [k] + rest;
    assert q[1..] == rest && Plain(q);
    assert Lookup(a, q) == Lookup(b, q);
  }

  lemma ChildLookups(a: Node, b: Node, k: string)
    requires a.Dict? && b.Dict? && SameLookups(a, b) && k in a.m && k in b.m && k != VALUE_KEY
    ensures SameLookups(a.m[k], b.m[k])
  {
    forall q | Plain(q) ensures Lookup(a.m[k], q) == Lookup(b.m[k], q) {
      var kq := [k] + q;
      assert kq[1..] == q && Plain(kq);
      assert Lookup(a, kq) == Lookup(b, kq);
    }
  }

  // ----- independence of the order -----

  ghost predicate DistinctPaths(pairs: seq<Pair>) {
    forall i, j :: 0 <= i < j < |pairs| ==> PathOf(pairs[i].key) != PathOf(pairs[j].key)
  }

  ghost predicate DistinctKeys(pairs: seq<Pair>) {
    forall i, j :: 0 <= i < j < |pairs| ==> pairs[i].key != pairs[j].key
  }

  lemma KeysDistinguishPaths(pairs: seq<Pair>)
    requires DistinctKeys(pairs)
    ensures DistinctPaths(pairs)
  {
    forall i, j | 0 <= i < j < |pairs| ensures PathOf(pairs[i].key) != PathOf(pairs[j].key) {
      JoinSplit(pairs[i].key, '/');
      JoinSplit(pairs[j].key, '/');
    }
  }

  lemma {:induction false} LastValueOfDistinct(pairs: seq<Pair>, path: seq<string>, v: string)
    requires DistinctPaths(pairs)
    ensures LastValue(pairs, path) == Some(v) <==> exists p :: p in pairs && PathOf(p.key) == path && p.value == v
  {
    if pairs != [] {
      var n := |pairs| - 1;
      LastValueOfDistinct(pairs[..n], path, v);
      assert pairs == pairs[..n] + [pairs[n]];
      assert pairs[n] in pairs;
      if PathOf(pairs[n].key) == path {
        forall p | p in pairs && PathOf(p.key) == path ensures p == pairs[n] {
          var i :| 0 <= i < |pairs| && pairs[i] == p;
        }
      }
    }
  }

  /** With distinct keys the stored tree does not depend on the order of the pairs. */
  lemma {:induction false} OrderIrrelevant(a: seq<Pair>, b: seq<Pair>)
    requires DistinctKeys(a) && DistinctKeys(b) && forall p :: p in a <==> p in b
    requires forall i :: 0 <= i < |a| ==> Plain(PathOf(a[i].key))
    requires forall i :: 0 <= i < |b| ==> Plain(PathOf(b[i].key))
    ensures Built(a) == Built(b)
  {
    hide PathOf, Insert, Canonical;
    KeysDistinguishPaths(a);
    KeysDistinguishPaths(b);
    NoMembers(a, b);
    NoMembers(b, a);
    if a != [] {
      BuiltIsCanonical(a);
      BuiltIsCanonical(b);
      forall q | Plain(q) ensures Lookup(Built(a), q) == Lookup(Built(b), q) {
        if q != [] {
          TreeIsCorrect(a, q);
          TreeIsCorrect(b, q);
          SameLast(a, b, q);
        }
      }
      LookupsDetermine(Built(a), Built(b));
    }
  }

  lemma NoMembers(a: seq<Pair>, b: seq<Pair>)
    requires forall p :: p in a <==> p in b
    ensures b != [] ==> a != []
  {
    if b != [] { assert b[0] in b; }
  }

  lemma {:induction false} SameLast(a: seq<Pair>, b: seq<Pair>, q: seq<string>)
    requires DistinctPaths(a) && DistinctPaths(b) && forall p :: p in a <==> p in b
    ensures LastValue(a, q) == LastValue(b, q)
  {
    if LastValue(a, q).Some? {
      LastValueOfDistinct(a, q, LastValue(a, q).value);
      LastValueOfDistinct(b, q, LastValue(a, q).value);
    } else if LastValue(b, q).Some? {
      LastValueOfDistinct(b, q, LastValue(b, q).value);
      LastValueOfDistinct(a, q, LastValue(b, q).value);
    }
  }
}
