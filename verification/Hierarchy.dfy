/** The five-level in-memory index over the NISD records
    (controlplane/ctlplanefuncs/server/hierarchy.go).

    Every level is a tree of entities, every entity a tree of devices, and every device lists the
    NISDs below it and caches the sum of their free space. The lists hold pointers to NISD objects
    that all five levels share; `objs` is the table of those objects, addressed by NISD id.
 */
module Index {
  import opened Finite
  import opened Lib

  datatype Nisd = Nisd(id: Id, fdom: seq<Id>, total: int, avail: int)

  datatype DeviceAlloc = DeviceAlloc(avail: int, nisds: seq<Id>)

  type Devices = map<Id, DeviceAlloc>
  type Tree = map<Id, Devices>

  // ----- what the index says about the table -----

  ghost predicate Under(o: Nisd, i: int, e: Id, d: Id) {
    0 <= i < |o.fdom| == FD_MAX && o.fdom[i] == e && o.fdom[DEVICE_IDX] == d
  }

  ghost predicate WellTyped(objs: map<Id, Nisd>) {
    forall n :: n in objs ==> objs[n].id == n && |objs[n].fdom| == FD_MAX
  }

  /** Failure-domain tuples nest: an identifier at one level fixes the identifier one level up. */
  ghost predicate Nested(objs: map<Id, Nisd>) {
    forall n, m, i | n in objs && m in objs && 0 < i < |objs[n].fdom| == |objs[m].fdom| == FD_MAX ::
      objs[n].fdom[i] == objs[m].fdom[i] ==> objs[n].fdom[i-1] == objs[m].fdom[i-1]
  }

  /** The device node d of entity e. */
  function Dev(t: Tree, e: Id, d: Id): Option<DeviceAlloc> {
    if e in t && d in t[e] then Some(t[e][d]) else None
  }

  ghost predicate Listed(t: Tree, e: Id, d: Id, n: Id) {
    Dev(t, e, d).Some? && n in Dev(t, e, d).value.nisds
  }

  /** Level i of the index is the projection of the table: an entity, a device in it and a NISD in
      that device are present exactly when some live record says so. */
  ghost predicate TreeAgrees(t: Tree, i: nat, objs: map<Id, Nisd>) {
    && (forall e, d, n :: Listed(t, e, d, n) <==> n in objs && Under(objs[n], i, e, d))
    && (forall e :: e in t ==> t[e].Keys != {})
    && (forall e, d :: Dev(t, e, d).Some? ==>
          Dev(t, e, d).value.nisds != [] && Distinct(Dev(t, e, d).value.nisds))
  }

  ghost predicate Agrees(levels: seq<Tree>, objs: map<Id, Nisd>) {
    && WellTyped(objs)
    && |levels| == FD_MAX
    && forall i :: 0 <= i < FD_MAX ==> TreeAgrees(levels[i], i, objs)
  }

  ghost function Avail(objs: map<Id, Nisd>): Id -> int {
    n => if n in objs then objs[n].avail else 0
  }

  /** How far the cached total of a device is above the space of its NISDs; 0 for an absent device. */
  ghost function TreeSkew(t: Tree, objs: map<Id, Nisd>, e: Id, d: Id): int {
    match Dev(t, e, d)
    case None => 0
    case Some(dn) => dn.avail - Sum(dn.nisds, Avail(objs))
  }

  ghost function Skew(levels: seq<Tree>, objs: map<Id, Nisd>, i: nat, e: Id, d: Id): int
    requires i < |levels|
  {
    TreeSkew(levels[i], objs, e, d)
  }

  // ----- the updates of one level -----

  function Without(s: seq<Id>, n: Id): seq<Id> {
    if s == [] then [] else if s[0] == n then s[1..] else [s[0]] + Without(s[1..], n)
  }

  lemma DropMembers(s: seq<Id>, k: nat)
    requires Distinct(s) && k < |s|
    ensures Distinct(s[..k] + s[k+1..])
    ensures forall x :: x in s[..k] + s[k+1..] <==> x in s && x != s[k]
  {
    var r := s[..k] + s[k+1..];
    assert forall i :: 0 <= i < |r| ==> r[i] == s[if i < k then i else i + 1];
    forall x | x in s && x != s[k] ensures x in r {
      var j :| 0 <= j < |s| && s[j] == x;
      assert x == r[if j < k then j else j - 1];
    }
  }

  lemma {:induction false} WithoutRemoves(s: seq<Id>, n: Id, f: Id -> int)
    requires Distinct(s)
    ensures Distinct(Without(s, n))
    ensures forall x :: x in Without(s, n) <==> x in s && x != n
    ensures Sum(Without(s, n), f) == Sum(s, f) - (if n in s then f(n) else 0)
  {
    hide Without;
    if n in s {
      var k :| 0 <= k < |s| && s[k] == n;
      WithoutAt(s, n, k);
      DropMembers(s, k);
      SumDrop(s, k, f);
    } else {
      WithoutNone(s, n);
    }
  }

  lemma {:induction false} WithoutAt(s: seq<Id>, n: Id, k: nat)
    requires Distinct(s) && k < |s| && s[k] == n
    ensures Without(s, n) == s[..k] + s[k+1..]
  {
    if k > 0 {
      assert s[0] != s[k];
      WithoutAt(s[1..], n, k - 1);
      assert [s[0]] + (s[1..][..k-1] + s[1..][k..]) == s[..k] + s[k+1..];
    }
  }

  lemma {:induction false} WithoutNone(s: seq<Id>, n: Id)
    requires n !in s
    ensures Without(s, n) == s
  {
    if s != [] {
      FirstIsMember(s);
      WithoutNone(s[1..], n);
    }
  }

  function WithNisd(dn: DeviceAlloc, objs: map<Id, Nisd>, n: Nisd): DeviceAlloc {
    if n.id in dn.nisds
    then dn.(avail := dn.avail + n.avail - (if n.id in objs then objs[n.id].avail else 0))
    else DeviceAlloc(dn.avail + n.avail, dn.nisds + [n.id])
  }

  function TreeWith(t: Tree, i: nat, objs: map<Id, Nisd>, n: Nisd): Tree
    requires i < |n.fdom| == FD_MAX
  {
    var e, d := n.fdom[i], n.fdom[DEVICE_IDX];
    var devs := if e in t then t[e] else map[];
    var dn := if d in devs then devs[d] else DeviceAlloc(0, []);
    t[e := devs[d := WithNisd(dn, objs, n)]]
  }

  /** Creating the missing nodes first and then filling the device node in gives TreeWith. */
  lemma TreeWithIsOverwrite(t: Tree, i: nat, objs: map<Id, Nisd>, n: Nisd)
    requires i < |n.fdom| == FD_MAX
    ensures var e, d := n.fdom[i], n.fdom[DEVICE_IDX];
            var t1 := if e in t then t else t[e := map[]];
            var t2 := if d in t1[e] then t1 else t1[e := t1[e][d := DeviceAlloc(0, [])]];
            t2[e := t2[e][d := WithNisd(t2[e][d], objs, n)]] == TreeWith(t, i, objs, n)
  {
    var e, d := n.fdom[i], n.fdom[DEVICE_IDX];
    var devs: Devices := if e in t then t[e] else map[];
    var dn := if d in devs then devs[d] else DeviceAlloc(0, []);
    var dn' := WithNisd(dn, objs, n);
    assert devs[d := dn][d := dn'] == devs[d := dn'];
    assert t[e := devs][e := devs[d := dn']] == t[e := devs[d := dn']];
    assert t[e := devs[d := dn]][e := devs[d := dn']] == t[e := devs[d := dn']];
    assert t[e := devs][e := devs[d := dn]] == t[e := devs[d := dn]];
  }

  lemma TreeWithDev(t: Tree, i: nat, objs: map<Id, Nisd>, n: Nisd, e: Id, d: Id)
    requires i < |n.fdom| == FD_MAX
    ensures Dev(TreeWith(t, i, objs, n), e, d) ==
            if e == n.fdom[i] && d == n.fdom[DEVICE_IDX]
            then Some(WithNisd(Dev(t, e, d).GetOr(DeviceAlloc(0, [])), objs, n))
            else Dev(t, e, d)
  {
  }

  lemma TreeWithAgrees(t: Tree, i: nat, objs: map<Id, Nisd>, n: Nisd)
    requires WellTyped(objs) && TreeAgrees(t, i, objs) && i < |n.fdom| == FD_MAX
    requires n.id in objs ==> objs[n.id].fdom == n.fdom
    ensures TreeAgrees(TreeWith(t, i, objs, n), i, objs[n.id := n])
  {
    var t', objs' := TreeWith(t, i, objs, n), objs[n.id := n];
    forall e, d, m ensures Listed(t', e, d, m) <==> m in objs' && Under(objs'[m], i, e, d) {
      TreeWithDev(t, i, objs, n, e, d);
      assert Listed(t, e, d, m) <==> m in objs && Under(objs[m], i, e, d);
    }
    forall e, d | Dev(t', e, d).Some?
      ensures Dev(t', e, d).value.nisds != [] && Distinct(Dev(t', e, d).value.nisds)
    {
      TreeWithDev(t, i, objs, n, e, d);
    }
  }

  lemma WithNisdSkew(dn: DeviceAlloc, objs: map<Id, Nisd>, n: Nisd)
    requires Distinct(dn.nisds) && (n.id in dn.nisds ==> n.id in objs)
    ensures WithNisd(dn, objs, n).avail - Sum(WithNisd(dn, objs, n).nisds, Avail(objs[n.id := n]))
            == dn.avail - Sum(dn.nisds, Avail(objs))
  {
    var f, g, s := Avail(objs), Avail(objs[n.id := n]), dn.nisds;
    if n.id in s {
      SumUpdate(s, f, g, n.id);
    } else {
      SumSame(s, f, g);
      assert (s + [n.id])[..|s|] == s;
    }
  }

  lemma TreeWithSkew(t: Tree, i: nat, objs: map<Id, Nisd>, n: Nisd, e: Id, d: Id)
    requires WellTyped(objs) && TreeAgrees(t, i, objs) && i < |n.fdom| == FD_MAX
    requires n.id in objs ==> objs[n.id].fdom == n.fdom
    ensures TreeSkew(TreeWith(t, i, objs, n), objs[n.id := n], e, d) == TreeSkew(t, objs, e, d)
  {
    hide TreeWith, WithNisd, Distinct;
    TreeWithDev(t, i, objs, n, e, d);
    assert Listed(t, e, d, n.id) <==> n.id in objs && Under(objs[n.id], i, e, d);
    if e == n.fdom[i] && d == n.fdom[DEVICE_IDX] {
      WithNisdSkew(Dev(t, e, d).GetOr(DeviceAlloc(0, [])), objs, n);
    } else if Dev(t, e, d).Some? {
      SumSame(Dev(t, e, d).value.nisds, Avail(objs), Avail(objs[n.id := n]));
    }
  }

  function TreeWithout(t: Tree, i: nat, objs: map<Id, Nisd>, n: Nisd): Tree
    requires i < |n.fdom| == FD_MAX
  {
    var e, d := n.fdom[i], n.fdom[DEVICE_IDX];
    if Dev(t, e, d).None? then t else
      var dn := WithoutNisd(t[e][d], objs, n.id);
      var devs := if dn.nisds == [] then t[e] - {d} else t[e][d := dn];
      if devs.Keys == {} then t - {e} else t[e := devs]
  }

  function WithoutNisd(dn: DeviceAlloc, objs: map<Id, Nisd>, n: Id): DeviceAlloc {
    if n in dn.nisds
    then DeviceAlloc(dn.avail - (if n in objs then objs[n].avail else 0), Without(dn.nisds, n))
    else dn
  }

  /** Removing from the device node, then the emptied nodes, gives TreeWithout. */
  lemma TreeWithoutIsOverwrite(t: Tree, i: nat, objs: map<Id, Nisd>, n: Nisd)
    requires i < |n.fdom| == FD_MAX && Dev(t, n.fdom[i], n.fdom[DEVICE_IDX]).Some?
    ensures var e, d := n.fdom[i], n.fdom[DEVICE_IDX];
            var dn := WithoutNisd(t[e][d], objs, n.id);
            var t1 := if n.id in t[e][d].nisds then t[e := t[e][d := dn]] else t;
            var t2 := if dn.nisds == [] then t1[e := t1[e] - {d}] else t1;
            TreeWithout(t, i, objs, n) == if t2[e].Keys == {} then t2 - {e} else t2
  {
    var e, d := n.fdom[i], n.fdom[DEVICE_IDX];
    var dn := WithoutNisd(t[e][d], objs, n.id);
    assert t[e][d := dn] - {d} == t[e] - {d};
    assert t[e := t[e][d := dn]][e := t[e] - {d}] == t[e := t[e] - {d}];
    assert t[e := t[e] - {d}] - {e} == t - {e};
    if n.id !in t[e][d].nisds {
      assert t[e][d := dn] == t[e];
      assert t[e := t[e]] == t;
    }
  }

  lemma TreeWithoutDev(t: Tree, i: nat, objs: map<Id, Nisd>, n: Nisd, e: Id, d: Id)
    requires i < |n.fdom| == FD_MAX
    ensures Dev(TreeWithout(t, i, objs, n), e, d) ==
            if e == n.fdom[i] && d == n.fdom[DEVICE_IDX] && Dev(t, e, d).Some? then
              var dn := WithoutNisd(Dev(t, e, d).value, objs, n.id);
              if dn.nisds == [] then None else Some(dn)
            else Dev(t, e, d)
  {
    var e0, d0 := n.fdom[i], n.fdom[DEVICE_IDX];
    if Dev(t, e0, d0).Some? && e == e0 {
      var dn := WithoutNisd(t[e0][d0], objs, n.id);
      var devs := if dn.nisds == [] then t[e0] - {d0} else t[e0][d0 := dn];
      if devs.Keys == {} {
        assert d !in devs.Keys;
      }
    }
  }

  lemma TreeWithoutAgrees(t: Tree, i: nat, objs: map<Id, Nisd>, n: Nisd)
    requires WellTyped(objs) && TreeAgrees(t, i, objs) && i < |n.fdom| == FD_MAX
    requires n.id in objs ==> objs[n.id].fdom == n.fdom
    ensures TreeAgrees(TreeWithout(t, i, objs, n), i, objs - {n.id})
  {
    var t', objs' := TreeWithout(t, i, objs, n), objs - {n.id};
    forall e, d, m ensures Listed(t', e, d, m) <==> m in objs' && Under(objs'[m], i, e, d) {
      TreeWithoutDev(t, i, objs, n, e, d);
      assert Listed(t, e, d, m) <==> m in objs && Under(objs[m], i, e, d);
      if Dev(t, e, d).Some? { WithoutRemoves(Dev(t, e, d).value.nisds, n.id, _ => 0); }
    }
    forall e, d | Dev(t', e, d).Some?
      ensures Dev(t', e, d).value.nisds != [] && Distinct(Dev(t', e, d).value.nisds)
    {
      TreeWithoutDev(t, i, objs, n, e, d);
      WithoutRemoves(Dev(t, e, d).value.nisds, n.id, _ => 0);
    }
  }

  lemma WithoutNisdSkew(dn: DeviceAlloc, objs: map<Id, Nisd>, n: Id)
    requires Distinct(dn.nisds) && (n in objs <== n in dn.nisds)
    ensures WithoutNisd(dn, objs, n).avail - Sum(WithoutNisd(dn, objs, n).nisds, Avail(objs - {n}))
            == dn.avail - Sum(dn.nisds, Avail(objs))
  {
    hide Distinct, Without;
    var f, g, s := Avail(objs), Avail(objs - {n}), dn.nisds;
    if n in s {
      WithoutRemoves(s, n, f);
      SumSame(Without(s, n), f, g);
    } else {
      SumSame(s, f, g);
    }
  }

  lemma TreeWithoutSkew(t: Tree, i: nat, objs: map<Id, Nisd>, n: Nisd, e: Id, d: Id)
    requires WellTyped(objs) && TreeAgrees(t, i, objs) && i < |n.fdom| == FD_MAX
    requires n.id in objs ==> objs[n.id].fdom == n.fdom
    ensures var t' := TreeWithout(t, i, objs, n);
            TreeSkew(t', objs - {n.id}, e, d) == if Dev(t', e, d).Some? then TreeSkew(t, objs, e, d) else 0
  {
    hide TreeWithout, WithoutNisd, Distinct;
    TreeWithoutDev(t, i, objs, n, e, d);
    if Dev(t, e, d).Some? {
      var dn := Dev(t, e, d).value;
      assert Listed(t, e, d, n.id) <==> n.id in objs && Under(objs[n.id], i, e, d);
      WithoutNisdSkew(dn, objs, n.id);
      if !(e == n.fdom[i] && d == n.fdom[DEVICE_IDX]) { SameWithout(dn, objs, n.id); }
    }
  }

  lemma SameWithout(dn: DeviceAlloc, objs: map<Id, Nisd>, n: Id)
    requires n !in dn.nisds
    ensures WithoutNisd(dn, objs, n) == dn
  {
  }

  // ----- a change of one object, seen through one level -----

  function SetAvail(objs: map<Id, Nisd>, n: Id, a: int): map<Id, Nisd>
    requires n in objs
  {
    objs[n := objs[n].(avail := a)]
  }

  lemma SetAvailAgrees(levels: seq<Tree>, objs: map<Id, Nisd>, n: Id, a: int)
    requires Agrees(levels, objs) && n in objs
    ensures Agrees(levels, SetAvail(objs, n, a))
  {
    var objs' := SetAvail(objs, n, a);
    forall i, e, d, m | 0 <= i < FD_MAX
      ensures Listed(levels[i], e, d, m) <==> m in objs' && Under(objs'[m], i, e, d)
    {
      assert Listed(levels[i], e, d, m) <==> m in objs && Under(objs[m], i, e, d);
    }
  }

  /** Lowering the free space of a NISD behind the index's back leaves the difference as skew. */
  lemma SetAvailSkew(t: Tree, i: nat, objs: map<Id, Nisd>, n: Id, a: int, e: Id, d: Id)
    requires TreeAgrees(t, i, objs) && n in objs
    ensures TreeSkew(t, SetAvail(objs, n, a), e, d) ==
            TreeSkew(t, objs, e, d) + if Under(objs[n], i, e, d) then objs[n].avail - a else 0
  {
    var f, g := Avail(objs), Avail(SetAvail(objs, n, a));
    assert Listed(t, e, d, n) <==> Under(objs[n], i, e, d);
    if Dev(t, e, d).Some? {
      var s := Dev(t, e, d).value.nisds;
      if n in s { SumUpdate(s, f, g, n); } else { SumSame(s, f, g); }
    }
  }

  /** A device has one ancestor at each level above it. */
  lemma OneAncestor(objs: map<Id, Nisd>, n: Id, m: Id, i: nat)
    requires WellTyped(objs) && Nested(objs) && n in objs && m in objs
    requires objs[n].fdom[DEVICE_IDX] == objs[m].fdom[DEVICE_IDX] && i <= DEVICE_IDX
    ensures objs[n].fdom[i] == objs[m].fdom[i]
    decreases DEVICE_IDX - i
  {
    if i < 3 { OneAncestor(objs, n, m, i + 1); assert objs[n].fdom[i+1] == objs[m].fdom[i+1]; }
  }

  lemma ListIsDistinct(t: Tree, i: nat, objs: map<Id, Nisd>, e: Id, d: Id)
    requires TreeAgrees(t, i, objs) && Dev(t, e, d).Some?
    ensures Distinct(t[e][d].nisds)
  {
  }

  /** No partition of a device is named like that device or one of its ancestors. */
  ghost predicate PartitionIdsFresh(objs: map<Id, Nisd>) {
    forall n, m, j | n in objs && m in objs && 0 <= j < PARTITION_IDX < |objs[n].fdom| == |objs[m].fdom| == FD_MAX ::
      objs[n].fdom[DEVICE_IDX] == objs[m].fdom[DEVICE_IDX] ==> objs[n].fdom[j] != objs[m].fdom[PARTITION_IDX]
  }

  /** At level i, the only entity named by the tuple of a NISD that holds its device is its own:
      the inner search of applyNISDAlloc stops there. */
  lemma SearchFindsOwnEntity(levels: seq<Tree>, objs: map<Id, Nisd>, n: Id, i: nat, j: nat)
    requires Agrees(levels, objs) && Nested(objs) && PartitionIdsFresh(objs) && n in objs
    requires i < FD_MAX && j < FD_MAX && (j < i || i < PARTITION_IDX || j == i)
    requires Dev(levels[i], objs[n].fdom[j], objs[n].fdom[DEVICE_IDX]).Some?
    ensures objs[n].fdom[j] == objs[n].fdom[i]
  {
    var e, d := objs[n].fdom[j], objs[n].fdom[DEVICE_IDX];
    var s := Dev(levels[i], e, d).value.nisds;
    assert s != [];
    FirstIsMember(s);
    var m := s[0];
    assert Listed(levels[i], e, d, m);
    if i < PARTITION_IDX { OneAncestor(objs, n, m, i); }
  }

  function Bumped(t: Tree, e: Id, d: Id, delta: int): Tree {
    if Dev(t, e, d).Some? then t[e := t[e][d := t[e][d].(avail := t[e][d].avail + delta)]] else t
  }

  lemma BumpedAgrees(t: Tree, i: nat, objs: map<Id, Nisd>, e0: Id, d0: Id, delta: int)
    requires TreeAgrees(t, i, objs)
    ensures TreeAgrees(Bumped(t, e0, d0, delta), i, objs)
    ensures forall e, d :: TreeSkew(Bumped(t, e0, d0, delta), objs, e, d) ==
              TreeSkew(t, objs, e, d) + if e == e0 && d == d0 && Dev(t, e, d).Some? then delta else 0
  {
    var t' := Bumped(t, e0, d0, delta);
    forall e, d ensures Dev(t', e, d) ==
      if e == e0 && d == d0 && Dev(t, e, d).Some?
      then Some(t[e][d].(avail := t[e][d].avail + delta)) else Dev(t, e, d) {}
    forall e, d, m ensures Listed(t', e, d, m) <==> Listed(t, e, d, m) {}
  }

  /** Moving the total above NISD n moves the skew of exactly that device. */
  lemma BumpedAbove(t: Tree, i: nat, objs: map<Id, Nisd>, n: Id, delta: int)
    requires WellTyped(objs) && TreeAgrees(t, i, objs) && n in objs && i < FD_MAX
    ensures var t' := Bumped(t, objs[n].fdom[i], objs[n].fdom[DEVICE_IDX], delta);
            TreeAgrees(t', i, objs)
            && forall e, d :: TreeSkew(t', objs, e, d) == TreeSkew(t, objs, e, d) + if Under(objs[n], i, e, d) then delta else 0
  {
    hide Bumped, TreeSkew;
    var e0, d0 := objs[n].fdom[i], objs[n].fdom[DEVICE_IDX];
    assert Listed(t, e0, d0, n) by { assert Under(objs[n], i, e0, d0); }
    BumpedAgrees(t, i, objs, e0, d0, delta);
  }

  // ----- the search for the entity above a NISD -----

  /** The first entity named by the tuple that holds device d. */
  function FirstHit(t: Tree, fdom: seq<Id>, d: Id): Option<Id> {
    if fdom == [] then None else if Dev(t, fdom[0], d).Some? then Some(fdom[0]) else FirstHit(t, fdom[1..], d)
  }

  function Searched(t: Tree, fdom: seq<Id>, d: Id, delta: int): Tree {
    match FirstHit(t, fdom, d)
    case None => t
    case Some(e) => Bumped(t, e, d, delta)
  }

  lemma {:induction false} HitFrom(t: Tree, fdom: seq<Id>, d: Id, k: nat)
    requires k <= |fdom| && forall j :: 0 <= j < k ==> Dev(t, fdom[j], d).None?
    ensures FirstHit(t, fdom, d) == FirstHit(t, fdom[k..], d)
  {
    if k > 0 {
      HitFrom(t, fdom[1..], d, k - 1);
      assert fdom[1..][k-1..] == fdom[k..];
    } else {
      assert fdom[0..] == fdom;
    }
  }

  lemma {:induction false} HitExists(t: Tree, fdom: seq<Id>, d: Id, k: nat)
    requires k < |fdom| && Dev(t, fdom[k], d).Some?
    ensures FirstHit(t, fdom, d).Some? && Dev(t, FirstHit(t, fdom, d).value, d).Some?
    ensures exists j :: 0 <= j <= k && fdom[j] == FirstHit(t, fdom, d).value
  {
    if Dev(t, fdom[0], d).None? {
      HitExists(t, fdom[1..], d, k - 1);
      var j :| 0 <= j <= k - 1 && fdom[1..][j] == FirstHit(t, fdom[1..], d).value;
      assert fdom[j + 1] == FirstHit(t, fdom, d).value;
    }
  }

  /** The search moves the totals above NISD n, and no others, if and only if the first hit is the
      NISD's own entity of the level. */
  lemma {:induction false} SearchIsRightIff(t: Tree, i: nat, objs: map<Id, Nisd>, n: Id, delta: int)
    requires WellTyped(objs) && TreeAgrees(t, i, objs) && n in objs && i < FD_MAX && delta != 0
    ensures var fdom, d0 := objs[n].fdom, objs[n].fdom[DEVICE_IDX];
            (forall e, d :: TreeSkew(Searched(t, fdom, d0, delta), objs, e, d) ==
                            TreeSkew(t, objs, e, d) + if Under(objs[n], i, e, d) then delta else 0)
            <==> FirstHit(t, fdom, d0) == Some(fdom[i])
  {
    hide TreeSkew, Bumped, TreeAgrees;
    var fdom, d0 := objs[n].fdom, objs[n].fdom[DEVICE_IDX];
    OwnHolds(t, i, objs, n);
    HitExists(t, fdom, d0, i);
    var e := FirstHit(t, fdom, d0).value;
    BumpedAgrees(t, i, objs, e, d0, delta);
    if e == fdom[i] {
      BumpedAbove(t, i, objs, n, delta);
    } else {
      assert Under(objs[n], i, fdom[i], d0);
      assert TreeSkew(Searched(t, fdom, d0, delta), objs, fdom[i], d0) == TreeSkew(t, objs, fdom[i], d0);
    }
  }

  lemma OwnHolds(t: Tree, i: nat, objs: map<Id, Nisd>, n: Id)
    requires WellTyped(objs) && TreeAgrees(t, i, objs) && n in objs && i < FD_MAX
    ensures Dev(t, objs[n].fdom[i], objs[n].fdom[DEVICE_IDX]).Some?
  {
    assert Under(objs[n], i, objs[n].fdom[i], objs[n].fdom[DEVICE_IDX]);
    assert Listed(t, objs[n].fdom[i], objs[n].fdom[DEVICE_IDX], n);
  }

  /** It is when tuples nest and partitions have names of their own. */
  lemma SearchFindsOwn(levels: seq<Tree>, objs: map<Id, Nisd>, n: Id, i: nat)
    requires Agrees(levels, objs) && Nested(objs) && PartitionIdsFresh(objs) && n in objs && i < FD_MAX
    ensures FirstHit(levels[i], objs[n].fdom, objs[n].fdom[DEVICE_IDX]) == Some(objs[n].fdom[i])
  {
    hide Nested, PartitionIdsFresh, TreeAgrees;
    var fdom, d := objs[n].fdom, objs[n].fdom[DEVICE_IDX];
    AgreesAt(levels, objs, i);
    OwnHolds(levels[i], i, objs, n);
    HitExists(levels[i], fdom, d, i);
    var j: nat :| j <= i && fdom[j] == FirstHit(levels[i], fdom, d).value;
    SearchFindsOwnEntity(levels, objs, n, i, j);
  }

  lemma AgreesAt(levels: seq<Tree>, objs: map<Id, Nisd>, i: nat)
    requires Agrees(levels, objs) && i < FD_MAX
    ensures |levels| == FD_MAX && WellTyped(objs) && TreeAgrees(levels[i], i, objs)
  {
  }

  lemma SearchedAgrees(t: Tree, i: nat, objs: map<Id, Nisd>, fdom: seq<Id>, d: Id, delta: int)
    requires TreeAgrees(t, i, objs)
    ensures TreeAgrees(Searched(t, fdom, d, delta), i, objs)
  {
    hide TreeAgrees, Bumped;
    if FirstHit(t, fdom, d).Some? { BumpedAgrees(t, i, objs, FirstHit(t, fdom, d).value, d, delta); }
  }

  // ----- what a commit does to the table and to the totals -----

  /** The object table after committing alloc for the NISDs in done. */
  ghost function CommittedObjs(objs: map<Id, Nisd>, alloc: map<Id, int>, done: set<Id>): map<Id, Nisd> {
    map n | n in objs && !(n in done && n in alloc && alloc[n] < CHUNK_SIZE) ::
      if n in done && n in alloc then objs[n].(avail := alloc[n]) else objs[n]
  }

  /** What committing size a for NISD n takes from below (i, e, d) and leaves there as surplus:
      the whole draw if the NISD is evicted, nothing otherwise. */
  ghost function Taken(objs: map<Id, Nisd>, n: Id, a: int): (int, Id, Id) -> int {
    (i, e, d) => if n in objs && a < CHUNK_SIZE && Under(objs[n], i, e, d) then objs[n].avail - a else 0
  }

  ghost function TakenBySet(objs: map<Id, Nisd>, n: Id, a: int): (int, Id, Id) -> int {
    (i, e, d) => if n in objs && Under(objs[n], i, e, d) then objs[n].avail - a else 0
  }

  ghost function Given(objs: map<Id, Nisd>, n: Id, delta: int): (int, Id, Id) -> int {
    (i, e, d) => if n in objs && Under(objs[n], i, e, d) then delta else 0
  }

  ghost function Nothing(): (int, Id, Id) -> int { (i, e, d) => 0 }

  /** The draws from all NISDs of s that the commit evicts. */
  ghost function EvictedTake(s: seq<Id>, objs: map<Id, Nisd>, alloc: map<Id, int>): (int, Id, Id) -> int {
    (i, e, d) => Sum(s, TakenAt(objs, alloc, i, e, d))
  }

  ghost function TakenAt(objs: map<Id, Nisd>, alloc: map<Id, int>, i: int, e: Id, d: Id): Id -> int {
    n => if n in alloc then Taken(objs, n, alloc[n])(i, e, d) else 0
  }

  /** Every device present in the second index was present in the first, and its skew grew by extra. */
  ghost predicate SkewGrows(levels0: seq<Tree>, objs0: map<Id, Nisd>, levels: seq<Tree>, objs: map<Id, Nisd>,
                            extra: (int, Id, Id) -> int)
  {
    |levels0| == |levels| == FD_MAX
    && forall i, e, d | 0 <= i < FD_MAX && Dev(levels[i], e, d).Some? ::
         Dev(levels0[i], e, d).Some? && Skew(levels, objs, i, e, d) == Skew(levels0, objs0, i, e, d) + extra(i, e, d)
  }

  lemma SkewGrowsTwice(levels0: seq<Tree>, objs0: map<Id, Nisd>, levels1: seq<Tree>, objs1: map<Id, Nisd>,
                       levels2: seq<Tree>, objs2: map<Id, Nisd>,
                       x: (int, Id, Id) -> int, y: (int, Id, Id) -> int, z: (int, Id, Id) -> int)
    requires SkewGrows(levels0, objs0, levels1, objs1, x) && SkewGrows(levels1, objs1, levels2, objs2, y)
    requires forall i, e, d :: z(i, e, d) == x(i, e, d) + y(i, e, d)
    ensures SkewGrows(levels0, objs0, levels2, objs2, z)
  {
    forall i, e, d | 0 <= i < FD_MAX && Dev(levels2[i], e, d).Some?
      ensures Dev(levels0[i], e, d).Some? && Skew(levels2, objs2, i, e, d) == Skew(levels0, objs0, i, e, d) + z(i, e, d)
    {
      assert Dev(levels1[i], e, d).Some?;
      assert z(i, e, d) == x(i, e, d) + y(i, e, d);
    }
  }

  lemma SetAvailGrows(levels: seq<Tree>, objs: map<Id, Nisd>, n: Id, a: int)
    requires Agrees(levels, objs) && n in objs
    ensures SkewGrows(levels, objs, levels, SetAvail(objs, n, a), TakenBySet(objs, n, a))
  {
    forall i, e, d | 0 <= i < FD_MAX && Dev(levels[i], e, d).Some?
      ensures Skew(levels, SetAvail(objs, n, a), i, e, d) == Skew(levels, objs, i, e, d) + TakenBySet(objs, n, a)(i, e, d)
    {
      SetAvailSkew(levels[i], i, objs, n, a, e, d);
    }
  }

  lemma ShrinkGrows(levels0: seq<Tree>, objs0: map<Id, Nisd>, levels: seq<Tree>, objs: map<Id, Nisd>)
    requires Agrees(levels0, objs0) && Agrees(levels, objs)
    requires forall n :: n in objs ==> n in objs0 && objs[n].fdom == objs0[n].fdom
    requires forall i, e, d | 0 <= i < FD_MAX ::
               Skew(levels, objs, i, e, d) == if Dev(levels[i], e, d).Some? then Skew(levels0, objs0, i, e, d) else 0
    ensures SkewGrows(levels0, objs0, levels, objs, Nothing())
  {
    forall i, e, d | 0 <= i < FD_MAX && Dev(levels[i], e, d).Some? ensures Dev(levels0[i], e, d).Some? {
      StillThere(levels0[i], objs0, levels[i], objs, i, e, d);
    }
  }

  lemma AdjustGrows(levels0: seq<Tree>, objs: map<Id, Nisd>, levels: seq<Tree>, n: Id, delta: int)
    requires Agrees(levels0, objs) && Agrees(levels, objs) && n in objs
    requires forall i, e, d | 0 <= i < FD_MAX ::
               Skew(levels, objs, i, e, d) == Skew(levels0, objs, i, e, d) + if Under(objs[n], i, e, d) then delta else 0
    ensures SkewGrows(levels0, objs, levels, objs, Given(objs, n, delta))
  {
    forall i, e, d | 0 <= i < FD_MAX && Dev(levels[i], e, d).Some? ensures Dev(levels0[i], e, d).Some? {
      StillThere(levels0[i], objs, levels[i], objs, i, e, d);
    }
  }

  lemma EvictedTakeStep(s: seq<Id>, objs: map<Id, Nisd>, alloc: map<Id, int>, objs1: map<Id, Nisd>)
    requires s != [] && s[|s|-1] in alloc && s[|s|-1] in objs && s[|s|-1] in objs1
    requires objs1[s[|s|-1]] == objs[s[|s|-1]]
    ensures forall i, e, d :: EvictedTake(s, objs, alloc)(i, e, d) ==
              EvictedTake(s[..|s|-1], objs, alloc)(i, e, d) + Taken(objs1, s[|s|-1], alloc[s[|s|-1]])(i, e, d)
  {
    forall i, e, d ensures EvictedTake(s, objs, alloc)(i, e, d) ==
      EvictedTake(s[..|s|-1], objs, alloc)(i, e, d) + Taken(objs1, s[|s|-1], alloc[s[|s|-1]])(i, e, d)
    {
      var f := TakenAt(objs, alloc, i, e, d);
      var n := s[|s|-1];
      assert Sum(s, f) == Sum(s[..|s|-1], f) + f(n);
      assert f(n) == Taken(objs, n, alloc[n])(i, e, d);
      assert Taken(objs1, n, alloc[n])(i, e, d) == Taken(objs, n, alloc[n])(i, e, d);
      assert EvictedTake(s, objs, alloc)(i, e, d) == Sum(s, f);
    }
  }

  lemma SkewStep(levels0: seq<Tree>, objs0: map<Id, Nisd>, alloc: map<Id, int>, s: seq<Id>, n: Id,
                 levels1: seq<Tree>, objs1: map<Id, Nisd>, levels2: seq<Tree>, objs2: map<Id, Nisd>)
    requires n in alloc && n in objs0 && n in objs1 && objs1[n] == objs0[n]
    requires SkewGrows(levels0, objs0, levels1, objs1, EvictedTake(s, objs0, alloc))
    requires SkewGrows(levels1, objs1, levels2, objs2, Taken(objs1, n, alloc[n]))
    ensures SkewGrows(levels0, objs0, levels2, objs2, EvictedTake(s + [n], objs0, alloc))
  {
    assert (s + [n])[..|s|] == s;
    EvictedTakeStep(s + [n], objs0, alloc, objs1);
    SkewGrowsTwice(levels0, objs0, levels1, objs1, levels2, objs2, EvictedTake(s, objs0, alloc),
                   Taken(objs1, n, alloc[n]), EvictedTake(s + [n], objs0, alloc));
  }

  lemma CommittedStep(objs: map<Id, Nisd>, alloc: map<Id, int>, s: seq<Id>, n: Id)
    requires n in objs && n in alloc && n !in s
    ensures Nested(objs) && PartitionIdsFresh(objs) ==>
              Nested(CommittedObjs(objs, alloc, Members(s))) && PartitionIdsFresh(CommittedObjs(objs, alloc, Members(s)))
    ensures var before := CommittedObjs(objs, alloc, Members(s));
            n in before && before[n] == objs[n]
            && CommittedObjs(objs, alloc, Members(s + [n])) ==
               if alloc[n] < CHUNK_SIZE then before - {n} else SetAvail(before, n, alloc[n])
  {
    hide Nested, PartitionIdsFresh;
    if Nested(objs) && PartitionIdsFresh(objs) { KeepsTuples(CommittedObjs(objs, alloc, Members(s)), objs); }
  }

  lemma NothingCommitted(levels: seq<Tree>, objs: map<Id, Nisd>, alloc: map<Id, int>)
    requires |levels| == FD_MAX
    ensures CommittedObjs(objs, alloc, Members([])) == objs
    ensures SkewGrows(levels, objs, levels, objs, EvictedTake([], objs, alloc))
  {
    forall i, e, d ensures EvictedTake([], objs, alloc)(i, e, d) == 0 {
      assert EvictedTake([], objs, alloc)(i, e, d) == Sum([], TakenAt(objs, alloc, i, e, d));
    }
  }

  class Hierarchy {
    var levels: seq<Tree>
    var objs: map<Id, Nisd>

    constructor ()
      ensures Agrees(levels, objs) && objs == map[] && forall i :: 0 <= i < FD_MAX ==> levels[i] == map[]
    {
      levels := [map[], map[], map[], map[], map[]];
      objs := map[];
    }

    /** The coarsest of the levels PDU to device with at least ft entities. */
    method GetFDLevel(ft: int) returns (r: Option<nat>)
      requires |levels| == FD_MAX
      ensures r.Some? ==> r.value <= DEVICE_IDX && ft <= |levels[r.value]| && forall i :: 0 <= i < r.value ==> |levels[i]| < ft
      ensures r.None? ==> forall i :: 0 <= i <= DEVICE_IDX ==> |levels[i]| < ft
    {
      for i := 0 to DEVICE_IDX + 1
        invariant forall j :: 0 <= j < i ==> |levels[j]| < ft
      {
        if ft <= |levels[i]| {
          return Some(i);
        }
      }
      return None;
    }

    /** Finds a NISD object through its PDU: it is found exactly when the index holds it there. */
    method GetNisdByPDUID(pduId: Id, nisdId: Id) returns (found: bool)
      requires Agrees(levels, objs)
      ensures found <==> nisdId in objs && objs[nisdId].fdom[PDU_IDX] == pduId
    {
      assert TreeAgrees(levels[0], 0, objs);
      if nisdId in objs && objs[nisdId].fdom[PDU_IDX] == pduId {
        assert Listed(levels[0], pduId, objs[nisdId].fdom[DEVICE_IDX], nisdId);
      }
      if pduId !in levels[PDU_IDX] {
        return false;
      }
      var devs := levels[PDU_IDX][pduId];
      var ds := Scan(devs.Keys);
      for k := 0 to |ds|
        invariant forall j :: 0 <= j < k ==> nisdId !in devs[ds[j]].nisds
      {
        if nisdId in devs[ds[k]].nisds {
          assert Listed(levels[0], pduId, ds[k], nisdId);
          return true;
        }
      }
      return false;
    }

    method GetOrCreateEntity(i: nat, id: Id)
      requires i < |levels|
      modifies this`levels
      ensures levels == if id in old(levels)[i] then old(levels) else old(levels)[i := old(levels)[i][id := map[]]]
    {
      if id !in levels[i] {
        levels := levels[i := levels[i][id := map[]]];
      }
    }

    method GetOrCreateDeviceInEntity(i: nat, e: Id, devId: Id)
      requires i < |levels| && e in levels[i]
      modifies this`levels
      ensures levels == if devId in old(levels)[i][e] then old(levels)
                    else old(levels)[i := old(levels)[i][e := old(levels)[i][e][devId := DeviceAlloc(0, [])]]]
    {
      if devId !in levels[i][e] {
        levels := levels[i := levels[i][e := levels[i][e][devId := DeviceAlloc(0, [])]]];
      }
    }

    /** Adds a NISD to a device node, or replaces the entry it already has there. */
    method AddNisdToDevice(i: nat, e: Id, d: Id, n: Nisd)
      requires i < |levels| && Dev(levels[i], e, d).Some?
      modifies this`levels
      ensures levels == old(levels)[i := old(levels)[i][e := old(levels)[i][e][d := WithNisd(old(levels)[i][e][d], objs, n)]]]
    {
      var dn := levels[i][e][d];
      for k := 0 to |dn.nisds|
        invariant n.id !in dn.nisds[..k] && levels == old(levels)
      {
        if dn.nisds[k] == n.id {
          var existing := if n.id in objs then objs[n.id].avail else 0;
          levels := levels[i := levels[i][e := levels[i][e][d := dn.(avail := dn.avail + n.avail - existing)]]];
          return;
        }
      }
      assert dn.nisds[..|dn.nisds|] == dn.nisds;
      levels := levels[i := levels[i][e := levels[i][e][d := DeviceAlloc(dn.avail + n.avail, dn.nisds + [n.id])]]];
    }

    /** Adds or refreshes a NISD: the index still mirrors the table, and no device total moves
        relative to the sum it caches. */
    method AddNisd(n: Nisd) returns (ok: bool)
      requires Agrees(levels, objs)
      requires n.id in objs ==> objs[n.id].fdom == n.fdom
      modifies this
      ensures ok <==> |n.fdom| == FD_MAX
      ensures !ok ==> levels == old(levels) && objs == old(objs)
      ensures ok ==> objs == old(objs)[n.id := n] && Agrees(levels, objs)
      ensures ok ==> forall i, e, d :: 0 <= i < FD_MAX ==> Skew(levels, objs, i, e, d) == old(Skew(levels, objs, i, e, d))
    {
      if |n.fdom| != FD_MAX {
        return false;
      }
      var devId := n.fdom[DEVICE_IDX];
      for i := 0 to |n.fdom|
        invariant |levels| == FD_MAX && objs == old(objs)
        invariant forall j :: 0 <= j < i ==> levels[j] == TreeWith(old(levels)[j], j, objs, n)
        invariant forall j :: i <= j < FD_MAX ==> levels[j] == old(levels)[j]
      {
        GetOrCreateEntity(i, n.fdom[i]);
        GetOrCreateDeviceInEntity(i, n.fdom[i], devId);
        AddNisdToDevice(i, n.fdom[i], devId, n);
        TreeWithIsOverwrite(old(levels)[i], i, objs, n);
      }
      objs := objs[n.id := n];
      forall i | 0 <= i < FD_MAX ensures TreeAgrees(levels[i], i, objs) {
        TreeWithAgrees(old(levels)[i], i, old(objs), n);
      }
      forall i, e, d | 0 <= i < FD_MAX
        ensures Skew(levels, objs, i, e, d) == Skew(old(levels), old(objs), i, e, d)
      {
        TreeWithSkew(old(levels)[i], i, old(objs), n, e, d);
      }
      ok := true;
    }

    /** Takes a NISD off a device node; returns whether the node is now empty. */
    method RemoveNisdFromDevice(i: nat, e: Id, d: Id, n: Id) returns (empty: bool)
      requires i < |levels| && Dev(levels[i], e, d).Some? && Distinct(levels[i][e][d].nisds)
      modifies this`levels
      ensures levels == if n in old(levels)[i][e][d].nisds
                    then old(levels)[i := old(levels)[i][e := old(levels)[i][e][d := WithoutNisd(old(levels)[i][e][d], objs, n)]]]
                    else old(levels)
      ensures empty <==> WithoutNisd(old(levels)[i][e][d], objs, n).nisds == []
    {
      var dn := levels[i][e][d];
      for k := 0 to |dn.nisds|
        invariant n !in dn.nisds[..k] && levels == old(levels)
      {
        if dn.nisds[k] == n {
          var existing := if n in objs then objs[n].avail else 0;
          var rest := dn.nisds[..k] + dn.nisds[k+1..];
          WithoutAt(dn.nisds, n, k);
          levels := levels[i := levels[i][e := levels[i][e][d := DeviceAlloc(dn.avail - existing, rest)]]];
          return |rest| == 0;
        }
      }
      assert dn.nisds[..|dn.nisds|] == dn.nisds;
      return |dn.nisds| == 0;
    }

    method DeleteEmptyEntity(i: nat, id: Id)
      requires i < |levels|
      modifies this`levels
      ensures levels == if id in old(levels)[i] && old(levels)[i][id].Keys == {}
                    then old(levels)[i := old(levels)[i] - {id}] else old(levels)
    {
      if id !in levels[i] {
        return;
      }
      if |levels[i][id]| == 0 {
        assert levels[i][id].Keys == {};
        levels := levels[i := levels[i] - {id}];
      }
    }

    /** One level of DeleteNisd: the NISD, then its device and its entity if they are empty now. */
    method DeleteFromLevel(i: nat, n: Nisd)
      requires i < |levels| == FD_MAX == |n.fdom| && TreeAgrees(levels[i], i, objs)
      modifies this`levels
      ensures levels == old(levels)[i := TreeWithout(old(levels)[i], i, objs, n)]
    {
      hide TreeAgrees;
      var id, devId := n.fdom[i], n.fdom[DEVICE_IDX];
      if id !in levels[i] || devId !in levels[i][id] {
        return;
      }
      ListIsDistinct(levels[i], i, objs, id, devId);
      var empty := RemoveNisdFromDevice(i, id, devId, n.id);
      if empty {
        levels := levels[i := levels[i][id := levels[i][id] - {devId}]];
      }
      DeleteEmptyEntity(i, id);
      TreeWithoutIsOverwrite(old(levels)[i], i, objs, n);
    }

    /** Removes a NISD, and the devices and entities it leaves empty. Every surviving device keeps
        its skew. */
    method DeleteNisd(n: Nisd)
      requires Agrees(levels, objs) && |n.fdom| == FD_MAX
      requires n.id in objs ==> objs[n.id].fdom == n.fdom
      modifies this
      ensures objs == old(objs) - {n.id} && Agrees(levels, objs)
      ensures forall i, e, d | 0 <= i < FD_MAX ::
                Skew(levels, objs, i, e, d) == if Dev(levels[i], e, d).Some? then old(Skew(levels, objs, i, e, d)) else 0
    {
      hide TreeAgrees, TreeWithout, TreeSkew;
      for i := 0 to |n.fdom|
        invariant |levels| == FD_MAX && objs == old(objs)
        invariant forall j :: 0 <= j < i ==> levels[j] == TreeWithout(old(levels)[j], j, objs, n)
        invariant forall j :: i <= j < FD_MAX ==> levels[j] == old(levels)[j]
      {
        DeleteFromLevel(i, n);
      }
      objs := objs - {n.id};
      forall i | 0 <= i < FD_MAX ensures TreeAgrees(levels[i], i, objs) {
        TreeWithoutAgrees(old(levels)[i], i, old(objs), n);
      }
      forall i, e, d | 0 <= i < FD_MAX
        ensures Skew(levels, objs, i, e, d) == if Dev(levels[i], e, d).Some? then Skew(old(levels), old(objs), i, e, d) else 0
      {
        TreeWithoutSkew(old(levels)[i], i, old(objs), n, e, d);
      }
    }

    /** The search of applyNISDAlloc at level i: the first entity named by the tuple that holds
        the device gets the change. */
    method AdjustLevel(i: nat, n: Id, delta: int)
      requires Agrees(levels, objs) && n in objs && i < FD_MAX
      modifies this`levels
      ensures levels == old(levels)[i := Searched(old(levels)[i], objs[n].fdom, objs[n].fdom[DEVICE_IDX], delta)]
    {
      var fdom, devId := objs[n].fdom, objs[n].fdom[DEVICE_IDX];
      for k := 0 to |fdom|
        invariant levels == old(levels) && forall j :: 0 <= j < k ==> Dev(levels[i], fdom[j], devId).None?
      {
        var fdId := fdom[k];
        if fdId in levels[i] && devId in levels[i][fdId] {
          HitFrom(levels[i], fdom, devId, k);
          var dn := levels[i][fdId][devId];
          levels := levels[i := levels[i][fdId := levels[i][fdId][devId := dn.(avail := dn.avail + delta)]]];
          return;
        }
      }
      HitFrom(levels[i], fdom, devId, |fdom|);
    }

    /** Moves cached totals for NISD n by delta, at every level: those of the entities that the search
        finds, which are its own ones if tuples nest and partitions have names of their own. */
    method AdjustTotals(n: Id, delta: int)
      requires Agrees(levels, objs) && n in objs
      modifies this`levels
      ensures Agrees(levels, objs)
      ensures forall i | 0 <= i < FD_MAX ::
                levels[i] == Searched(old(levels)[i], objs[n].fdom, objs[n].fdom[DEVICE_IDX], delta)
      ensures Nested(objs) && PartitionIdsFresh(objs) ==>
                forall i, e, d | 0 <= i < FD_MAX ::
                  Skew(levels, objs, i, e, d) == old(Skew(levels, objs, i, e, d)) + if Under(objs[n], i, e, d) then delta else 0
    {
      hide TreeAgrees, Bumped, Under, Nested, PartitionIdsFresh, TreeSkew, Searched;
      var fdom, devId := objs[n].fdom, objs[n].fdom[DEVICE_IDX];
      for i := 0 to |levels|
        invariant |levels| == FD_MAX && Agrees(levels, objs)
        invariant forall j :: 0 <= j < i ==> levels[j] == Searched(old(levels)[j], fdom, devId, delta)
        invariant forall j :: i <= j < FD_MAX ==> levels[j] == old(levels)[j]
      {
        SearchedAgrees(levels[i], i, objs, fdom, devId, delta);
        AdjustLevel(i, n, delta);
      }
      if Nested(objs) && PartitionIdsFresh(objs) { SearchedAbove(old(levels), objs, levels, n, delta); }
    }

    /** Commits the new size a of NISD n: its object takes the size first, and then either it is
        evicted or the totals follow. */
    method CommitOne(n: Id, a: int)
      requires Agrees(levels, objs) && n in objs
      modifies this
      ensures Agrees(levels, objs)
      ensures objs == if a < CHUNK_SIZE then old(objs) - {n} else SetAvail(old(objs), n, a)
      ensures Nested(old(objs)) && PartitionIdsFresh(old(objs)) ==>
                SkewGrows(old(levels), old(objs), levels, objs, Taken(old(objs), n, a))
    {
      hide Nested, PartitionIdsFresh, Searched, SkewGrows, TreeAgrees, TreeSkew;
      ghost var objs0, levels0 := objs, levels;
      var delta := a - objs[n].avail;
      SetAvailAgrees(levels, objs, n, a);
      SetAvailGrows(levels, objs, n, a);
      objs := SetAvail(objs, n, a);
      ghost var objs1 := objs;
      if Nested(objs0) && PartitionIdsFresh(objs0) { KeepsTuples(objs, objs0); }
      if objs[n].avail < CHUNK_SIZE {
        DeleteNisd(objs[n]);
        ShrinkGrows(levels0, objs1, levels, objs);
        SkewGrowsTwice(levels0, objs0, levels0, objs1, levels, objs, TakenBySet(objs0, n, a), Nothing(), Taken(objs0, n, a));
      } else {
        AdjustTotals(n, delta);
        if Nested(objs0) && PartitionIdsFresh(objs0) {
          AdjustGrows(levels0, objs1, levels, n, delta);
          SkewGrowsTwice(levels0, objs0, levels0, objs1, levels, objs, TakenBySet(objs0, n, a), Given(objs1, n, delta), Taken(objs0, n, a));
        }
      }
    }

    /** Commits an allocation to the index: the objects take the committed sizes, NISDs with less
        than a chunk left are evicted, and every other total follows. A device that survives the
        eviction of some of its NISDs keeps what was just taken from them as surplus. */
    method ApplyNISDAlloc(alloc: map<Id, int>)
      requires Agrees(levels, objs) && alloc.Keys <= objs.Keys
      modifies this
      ensures Agrees(levels, objs) && objs == CommittedObjs(old(objs), alloc, alloc.Keys)
      ensures Nested(old(objs)) && PartitionIdsFresh(old(objs)) ==>
                SkewGrows(old(levels), old(objs), levels, objs, EvictedTake(Ranked(alloc.Keys), old(objs), alloc))
    {
      hide Agrees, Nested, PartitionIdsFresh, SkewGrows, EvictedTake, CommittedObjs, SetAvail, Taken;
      var ks := Scan(alloc.Keys);
      ghost var objs0, levels0 := objs, levels;
      ghost var nests := Nested(objs) && PartitionIdsFresh(objs);
      RankedIsDistinct(alloc.Keys);
      LevelCount(levels, objs);
      NothingCommitted(levels, objs, alloc);
      assert ks[..0] == [];
      for k := 0 to |ks|
        invariant Agrees(levels, objs)
        invariant objs == CommittedObjs(objs0, alloc, Members(ks[..k]))
        invariant nests ==> SkewGrows(levels0, objs0, levels, objs, EvictedTake(ks[..k], objs0, alloc))
      {
        var n := ks[k];
        ghost var objs1, levels1 := objs, levels;
        CommittedStep(objs0, alloc, ks[..k], n);
        CommitOne(n, alloc[n]);
        if nests { SkewStep(levels0, objs0, alloc, ks[..k], n, levels1, objs1, levels, objs); }
        assert ks[..k+1] == ks[..k] + [n];
      }
      assert ks[..|ks|] == ks;
      assert Members(ks) == alloc.Keys;
    }
  }

  lemma SearchedAbove(levels0: seq<Tree>, objs: map<Id, Nisd>, levels: seq<Tree>, n: Id, delta: int)
    requires Agrees(levels0, objs) && Nested(objs) && PartitionIdsFresh(objs) && n in objs && |levels| == FD_MAX
    requires forall i | 0 <= i < FD_MAX :: levels[i] == Searched(levels0[i], objs[n].fdom, objs[n].fdom[DEVICE_IDX], delta)
    ensures forall i, e, d | 0 <= i < FD_MAX ::
              Skew(levels, objs, i, e, d) == Skew(levels0, objs, i, e, d) + if Under(objs[n], i, e, d) then delta else 0
  {
    hide TreeAgrees, Bumped, Under, Nested, PartitionIdsFresh, TreeSkew, FirstHit;
    forall i, e, d | 0 <= i < FD_MAX
      ensures Skew(levels, objs, i, e, d) == Skew(levels0, objs, i, e, d) + if Under(objs[n], i, e, d) then delta else 0
    {
      SearchFindsOwn(levels0, objs, n, i);
      BumpedAbove(levels0[i], i, objs, n, delta);
    }
  }

  // ----- consequences of the agreement -----

  /** The index is a function of the table, up to the order of the NISD lists: whatever the order
      of the additions and removals, entities, devices, members and exact totals are the same. */
  lemma AgreementDeterminesIndex(levels1: seq<Tree>, levels2: seq<Tree>, objs: map<Id, Nisd>, i: nat)
    requires Agrees(levels1, objs) && Agrees(levels2, objs) && i < FD_MAX
    ensures levels1[i].Keys == levels2[i].Keys
    ensures forall e :: e in levels1[i] ==> levels1[i][e].Keys == levels2[i][e].Keys
    ensures forall e, d, n :: Listed(levels1[i], e, d, n) <==> Listed(levels2[i], e, d, n)
    ensures forall e, d :: Dev(levels1[i], e, d).Some? ==>
              (levels1[i][e][d].avail - levels2[i][e][d].avail == Skew(levels1, objs, i, e, d) - Skew(levels2, objs, i, e, d))
  {
    forall e, d ensures Dev(levels1[i], e, d).Some? <==> Dev(levels2[i], e, d).Some? {
      SameDevices(levels1[i], levels2[i], i, objs, e, d);
      SameDevices(levels2[i], levels1[i], i, objs, e, d);
    }
    SameEntities(levels1[i], levels2[i]);
    SameEntities(levels2[i], levels1[i]);
    forall e, d | Dev(levels1[i], e, d).Some?
      ensures levels1[i][e][d].avail - levels2[i][e][d].avail == Skew(levels1, objs, i, e, d) - Skew(levels2, objs, i, e, d)
    {
      var s1, s2 := levels1[i][e][d].nisds, levels2[i][e][d].nisds;
      forall n ensures n in s1 <==> n in s2 {
        assert Listed(levels1[i], e, d, n) <==> Listed(levels2[i], e, d, n);
      }
      assert Dev(levels2[i], e, d).Some?;
      SumOfSameMembers(s1, s2, Avail(objs));
    }
  }

  lemma SameDevices(t1: Tree, t2: Tree, i: nat, objs: map<Id, Nisd>, e: Id, d: Id)
    requires TreeAgrees(t1, i, objs) && TreeAgrees(t2, i, objs)
    ensures Dev(t1, e, d).Some? ==> Dev(t2, e, d).Some?
  {
    if Dev(t1, e, d).Some? {
      var s := Dev(t1, e, d).value.nisds;
      FirstIsMember(s);
      assert Listed(t1, e, d, s[0]);
      assert Listed(t2, e, d, s[0]);
    }
  }

  lemma SameEntities(t1: Tree, t2: Tree)
    requires forall e :: e in t1 ==> t1[e].Keys != {}
    requires forall e, d :: Dev(t1, e, d).Some? ==> Dev(t2, e, d).Some?
    ensures t1.Keys <= t2.Keys
    ensures forall e :: e in t1 ==> t1[e].Keys <= t2[e].Keys
  {
    forall e | e in t1 ensures e in t2 && t1[e].Keys <= t2[e].Keys {
      var d :| d in t1[e].Keys;
      assert Dev(t1, e, d).Some?;
      forall d | d in t1[e] ensures d in t2[e] { assert Dev(t1, e, d).Some?; }
    }
  }

  lemma EntityHasNisd(t: Tree, i: nat, objs: map<Id, Nisd>, e: Id) returns (n: Id)
    requires WellTyped(objs) && TreeAgrees(t, i, objs) && e in t
    ensures n in objs && i < FD_MAX && objs[n].fdom[i] == e
  {
    var d :| d in t[e].Keys;
    assert Dev(t, e, d).Some?;
    n := t[e][d].nisds[0];
    FirstIsMember(t[e][d].nisds);
    assert Listed(t, e, d, n);
  }

  ghost predicate IsChild(objs: map<Id, Nisd>, i: nat, e: Id, c: Id) {
    exists n :: n in objs && i + 1 < |objs[n].fdom| == FD_MAX && objs[n].fdom[i] == e && objs[n].fdom[i+1] == c
  }

  lemma HasChild(levels: seq<Tree>, objs: map<Id, Nisd>, i: nat, e: Id) returns (c: Id)
    requires Agrees(levels, objs) && i + 1 < FD_MAX && e in levels[i]
    ensures c in levels[i+1] && IsChild(objs, i, e, c)
  {
    assert TreeAgrees(levels[i], i, objs) && TreeAgrees(levels[i+1], i + 1, objs);
    var n := EntityHasNisd(levels[i], i, objs, e);
    c := objs[n].fdom[i+1];
    assert Under(objs[n], i + 1, c, objs[n].fdom[DEVICE_IDX]);
    assert Listed(levels[i+1], c, objs[n].fdom[DEVICE_IDX], n);
  }

  lemma OneParent(objs: map<Id, Nisd>, i: nat, e1: Id, e2: Id, c: Id)
    requires Nested(objs) && IsChild(objs, i, e1, c) && IsChild(objs, i, e2, c)
    ensures e1 == e2
  {
    var n :| n in objs && i + 1 < |objs[n].fdom| == FD_MAX && objs[n].fdom[i] == e1 && objs[n].fdom[i+1] == c;
    var m :| m in objs && i + 1 < |objs[m].fdom| == FD_MAX && objs[m].fdom[i] == e2 && objs[m].fdom[i+1] == c;
    assert objs[n].fdom[i+1-1] == objs[m].fdom[i+1-1];
  }

  /** Nested domains only get finer: entity counts do not fall from PDU to partition. */
  lemma CountsGrow(levels: seq<Tree>, objs: map<Id, Nisd>, i: nat)
    requires Agrees(levels, objs) && Nested(objs) && i + 1 < FD_MAX
    ensures |levels[i]| <= |levels[i+1]|
  {
    hide Agrees, Nested, IsChild;
    LevelCount(levels, objs);
    forall e | e in levels[i] ensures exists c :: c in levels[i+1] && IsChild(objs, i, e, c) {
      var c := HasChild(levels, objs, i, e);
    }
    var child := map e | e in levels[i] :: var c :| c in levels[i+1] && IsChild(objs, i, e, c); c;
    forall e1, e2 | e1 in levels[i] && e2 in levels[i] && child[e1] == child[e2] ensures e1 == e2 {
      OneParent(objs, i, e1, e2, child[e1]);
    }
    CardInjection(levels[i].Keys, levels[i+1].Keys, child);
  }

  lemma LevelCount(levels: seq<Tree>, objs: map<Id, Nisd>)
    requires Agrees(levels, objs)
    ensures |levels| == FD_MAX
  {
  }

  lemma {:induction false} CountsGrowTo(levels: seq<Tree>, objs: map<Id, Nisd>, i: nat, j: nat)
    requires Agrees(levels, objs) && Nested(objs) && i <= j < FD_MAX
    ensures |levels[i]| <= |levels[j]|
    decreases j
  {
    hide Agrees, Nested;
    LevelCount(levels, objs);
    if i < j {
      CountsGrowTo(levels, objs, i, j - 1);
      CountsGrow(levels, objs, j - 1);
    }
  }

  lemma KeepsTuples(objs: map<Id, Nisd>, objs0: map<Id, Nisd>)
    requires Nested(objs0) && PartitionIdsFresh(objs0)
    requires forall n :: n in objs ==> n in objs0 && objs[n].fdom == objs0[n].fdom
    ensures Nested(objs) && PartitionIdsFresh(objs)
  {
  }

  /** A device of a smaller table was there before. */
  lemma StillThere(t: Tree, objs: map<Id, Nisd>, t': Tree, objs': map<Id, Nisd>, i: nat, e: Id, d: Id)
    requires TreeAgrees(t, i, objs) && TreeAgrees(t', i, objs') && Dev(t', e, d).Some?
    requires forall n :: n in objs' ==> n in objs && objs'[n].fdom == objs[n].fdom
    ensures Dev(t, e, d).Some?
  {
    var s := Dev(t', e, d).value.nisds;
    FirstIsMember(s);
    assert Listed(t', e, d, s[0]);
    assert Listed(t, e, d, s[0]);
  }
}
