/** Choosing a device within an entity and a NISD within a device
    (controlplane/ctlplanefuncs/server/hierarchy.go, lines 214-331). */
module Pickers {
  import opened Finite
  import opened Lib
  import opened Index
  import opened Modulo

  /** How often a device was used by the vdev being placed, and the space it has left. */
  datatype DeviceUsageInfo = DeviceUsageInfo(usage: nat, avail: int)

  type DeviceUsage = map<Id, DeviceUsageInfo>

  function UsageOf(usage: DeviceUsage, d: Id): nat {
    if d in usage then usage[d].usage else 0
  }

  function LeftOn(devs: Devices, usage: DeviceUsage, d: Id): int
    requires d in devs
  {
    if d in usage then usage[d].avail else devs[d].avail
  }

  ghost predicate Eligible(devs: Devices, usage: DeviceUsage, d: Id) {
    d in devs && LeftOn(devs, usage, d) >= CHUNK_SIZE
  }

  /** Less used, or equally used with more space. */
  ghost predicate Beats(devs: Devices, usage: DeviceUsage, a: Id, b: Id)
    requires a in devs && b in devs
  {
    UsageOf(usage, a) < UsageOf(usage, b)
    || (UsageOf(usage, a) == UsageOf(usage, b) && LeftOn(devs, usage, a) > LeftOn(devs, usage, b))
  }

  // ----- rotation -----

  /** The members of ds from position off on, wrapping around. */
  function Rotation(ds: seq<Id>, off: nat): (rs: seq<Id>)
    ensures |rs| == |ds|
  {
    seq(|ds|, k requires 0 <= k < |ds| => ds[(off + k) % |ds|])
  }

  lemma RotationAt(ds: seq<Id>, off: nat, i: nat)
    requires i < |ds|
    ensures var idx := (off % |ds| + i) % |ds|; Rotation(ds, off)[i] == ds[idx] && ds[idx] in ds
  {
    ModAdd(off, i, |ds|);
  }

  /** A rotation meets every device. */
  lemma RotationCovers(ds: seq<Id>, off: nat, d: Id)
    requires d in ds
    ensures d in Rotation(ds, off)
  {
    var n := |ds|;
    var x :| 0 <= x < n && ds[x] == d;
    var o := off % n;
    var k := if o <= x then x - o else x + n - o;
    ModAdd(off, k, n);
    ModWrap(o + k, n);
    assert Rotation(ds, off)[k] == d;
  }

  ghost predicate Open(devs: Devices, picked: set<Id>, usage: DeviceUsage, d: Id) {
    Eligible(devs, usage, d) && d !in picked
  }

  /** d stands at position k of the rotation and no open device stands before it. */
  ghost predicate FirstOpen(devs: Devices, picked: set<Id>, usage: DeviceUsage, rs: seq<Id>, d: Id, k: nat) {
    k < |rs| && rs[k] == d && forall j | 0 <= j < k :: !Open(devs, picked, usage, rs[j])
  }

  ghost predicate NoWorse(devs: Devices, usage: DeviceUsage, rs: seq<Id>, d: Id, k: nat, j: nat) {
    d in devs && j < |rs| && rs[j] in devs
    && (Beats(devs, usage, d, rs[j]) || (k <= j && !Beats(devs, usage, rs[j], d)))
  }

  /** d stands at position k and is the best eligible device among the first n positions. */
  ghost predicate Fallback(devs: Devices, usage: DeviceUsage, rs: seq<Id>, d: Id, k: nat, n: nat) {
    k < n <= |rs| && rs[k] == d
    && forall j | 0 <= j < n :: Eligible(devs, usage, rs[j]) ==> NoWorse(devs, usage, rs, d, k, j)
  }

  /** What PickDevice promises, as a function of its inputs. The first eligible device in rotation
      that is not picked yet wins; when every eligible device is picked, the least used one with the
      most space does, the earliest in rotation among equals; with no eligible device there is none. */
  ghost predicate DeviceChoice(devs: Devices, picked: set<Id>, usage: DeviceUsage, off: nat, r: Option<Id>) {
    var rs := Rotation(Ranked(devs.Keys), off);
    match r
    case None => forall d :: !Eligible(devs, usage, d)
    case Some(d) =>
      Eligible(devs, usage, d)
      && if d !in picked then exists k :: FirstOpen(devs, picked, usage, rs, d, k)
         else (forall c :: !Open(devs, picked, usage, c)) && exists k :: Fallback(devs, usage, rs, d, k, |rs|)
  }

  lemma NothingAhead(devs: Devices, off: nat, p: Id -> bool)
    requires forall d :: d in Rotation(Ranked(devs.Keys), off) ==> !p(d)
    ensures forall d :: d in devs ==> !p(d)
  {
    forall d | d in devs ensures !p(d) { RotationCovers(Ranked(devs.Keys), off, d); }
  }

  /** A challenger that does not beat the best so far comes after it. */
  lemma FallbackKeep(devs: Devices, usage: DeviceUsage, rs: seq<Id>, d: Id, k: nat, n: nat)
    requires n < |rs| && Fallback(devs, usage, rs, d, k, n) && d in devs
    requires Eligible(devs, usage, rs[n]) ==> !Beats(devs, usage, rs[n], d)
    ensures Fallback(devs, usage, rs, d, k, n + 1)
  {
  }

  /** A challenger that beats the best so far beats everything before it. */
  lemma FallbackTake(devs: Devices, usage: DeviceUsage, rs: seq<Id>, b: Option<Id>, k: nat, n: nat)
    requires n < |rs| && rs[n] in devs
    requires b.None? ==> forall j | 0 <= j < n :: !Eligible(devs, usage, rs[j])
    requires b.Some? ==> b.value in devs && Fallback(devs, usage, rs, b.value, k, n) && Beats(devs, usage, rs[n], b.value)
    ensures Fallback(devs, usage, rs, rs[n], n, n + 1)
  {
    forall j | 0 <= j < n + 1 && Eligible(devs, usage, rs[j]) ensures NoWorse(devs, usage, rs, rs[n], n, j) {
      if j < n && b.Some? { assert NoWorse(devs, usage, rs, b.value, k, j); }
    }
  }

  /** After n positions nothing open was seen, and best is the fallback among them. */
  ghost predicate Scanned(devs: Devices, picked: set<Id>, usage: DeviceUsage, rs: seq<Id>,
                          best: Option<Id>, bestAt: nat, n: nat)
  {
    n <= |rs|
    && (forall j | 0 <= j < n :: !Open(devs, picked, usage, rs[j]))
    && match best
       case None => forall j | 0 <= j < n :: !Eligible(devs, usage, rs[j])
       case Some(b) => b in picked && Eligible(devs, usage, b) && Fallback(devs, usage, rs, b, bestAt, n)
  }

  lemma ScanStep(devs: Devices, picked: set<Id>, usage: DeviceUsage, rs: seq<Id>, best: Option<Id>, bestAt: nat, n: nat)
    requires Scanned(devs, picked, usage, rs, best, bestAt, n) && n < |rs| && rs[n] in devs
    requires !Open(devs, picked, usage, rs[n])
    ensures var take := Eligible(devs, usage, rs[n]) && (best.None? || Beats(devs, usage, rs[n], best.value));
            Scanned(devs, picked, usage, rs, if take then Some(rs[n]) else best, if take then n else bestAt, n + 1)
  {
    if Eligible(devs, usage, rs[n]) && (best.None? || Beats(devs, usage, rs[n], best.value)) {
      FallbackTake(devs, usage, rs, best, bestAt, n);
    } else if best.Some? {
      FallbackKeep(devs, usage, rs, best.value, bestAt, n);
    }
  }

  lemma ScanDone(devs: Devices, picked: set<Id>, usage: DeviceUsage, off: nat, best: Option<Id>, bestAt: nat)
    requires Scanned(devs, picked, usage, Rotation(Ranked(devs.Keys), off), best, bestAt, |devs|)
    ensures DeviceChoice(devs, picked, usage, off, best)
  {
    NothingAhead(devs, off, d => Open(devs, picked, usage, d));
    if best.None? { NothingAhead(devs, off, d => Eligible(devs, usage, d)); }
  }

  method PickDevice(devs: Devices, picked: set<Id>, usage: DeviceUsage, startOffset: nat) returns (r: Option<Id>)
    ensures DeviceChoice(devs, picked, usage, startOffset, r)
  {
    var devCnt := |devs|;
    if devCnt == 0 {
      assert devs.Keys == {};
      return None;
    }
    var ds := Scan(devs.Keys);
    ghost var rs := Rotation(ds, startOffset);
    var offset := startOffset % devCnt;
    var best: Option<Id> := None;
    ghost var bestAt: nat := 0;
    for i := 0 to devCnt
      invariant Scanned(devs, picked, usage, rs, best, bestAt, i)
    {
      var idx := (offset + i) % devCnt;
      RotationAt(ds, startOffset, i);
      var d := ds[idx];
      var u, availSize := UsageOf(usage, d), LeftOn(devs, usage, d);
      if availSize >= CHUNK_SIZE && d !in picked {
        assert FirstOpen(devs, picked, usage, rs, d, i);
        return Some(d);
      }
      ScanStep(devs, picked, usage, rs, best, bestAt, i);
      if availSize < CHUNK_SIZE {
        continue;
      }
      if best.None? || u < UsageOf(usage, best.value)
         || (u == UsageOf(usage, best.value) && availSize > LeftOn(devs, usage, best.value))
      {
        best := Some(d);
        bestAt := i;
      }
    }
    ScanDone(devs, picked, usage, startOffset, best, bestAt);
    return best;
  }

  // ----- NISDs -----

  /** The free space of every NISD as the running allocation sees it. */
  function Left(objs: map<Id, Nisd>, nisdMap: map<Id, int>): map<Id, int> {
    map n | n in objs :: if n in nisdMap then nisdMap[n] else objs[n].avail
  }

  ghost predicate Fits(picked: set<Id>, left: map<Id, int>, n: Id) {
    n !in picked && n in left && left[n] >= CHUNK_SIZE
  }

  /** n stands at position k and is the first fullest fitting NISD among the first m positions. */
  ghost predicate Fullest(nisds: seq<Id>, picked: set<Id>, left: map<Id, int>, n: Id, k: nat, m: nat) {
    k < m <= |nisds| && nisds[k] == n && Fits(picked, left, n)
    && forall j | 0 <= j < m && Fits(picked, left, nisds[j]) ::
         left[nisds[j]] < left[n] || (left[nisds[j]] == left[n] && k <= j)
  }

  /** What PickNISDFromDevice promises: the first of the NISDs with most room that still fit a chunk. */
  ghost predicate NisdChoice(nisds: seq<Id>, picked: set<Id>, left: map<Id, int>, r: Option<Id>) {
    match r
    case None => forall k | 0 <= k < |nisds| :: !Fits(picked, left, nisds[k])
    case Some(n) => exists k :: Fullest(nisds, picked, left, n, k, |nisds|)
  }

  /** The best fitting NISD among the first m positions, if any fits. */
  ghost predicate BestNisd(nisds: seq<Id>, picked: set<Id>, left: map<Id, int>, r: Option<Id>, k: nat, m: nat) {
    m <= |nisds|
    && match r
       case None => forall j | 0 <= j < m :: !Fits(picked, left, nisds[j])
       case Some(n) => Fullest(nisds, picked, left, n, k, m)
  }

  lemma BestNisdStep(nisds: seq<Id>, picked: set<Id>, left: map<Id, int>, r: Option<Id>, k: nat, m: nat)
    requires BestNisd(nisds, picked, left, r, k, m) && m < |nisds| && nisds[m] in left
    requires r.Some? ==> r.value in left
    ensures var take := Fits(picked, left, nisds[m]) && (r.None? || left[nisds[m]] > left[r.value]);
            BestNisd(nisds, picked, left, if take then Some(nisds[m]) else r, if take then m else k, m + 1)
  {
  }

  lemma BestNisdIsChoice(nisds: seq<Id>, picked: set<Id>, left: map<Id, int>, r: Option<Id>, k: nat)
    requires BestNisd(nisds, picked, left, r, k, |nisds|)
    ensures NisdChoice(nisds, picked, left, r)
  {
  }

  lemma NoneFits(nisds: seq<Id>, picked: set<Id>, left: map<Id, int>)
    ensures BestNisd(nisds, picked, left, None, 0, 0)
  {
  }

  lemma FitsWhen(picked: set<Id>, left: map<Id, int>, n: Id)
    ensures Fits(picked, left, n) <==> n !in picked && n in left && left[n] >= CHUNK_SIZE
  {
  }

  lemma LeftAt(objs: map<Id, Nisd>, nisdMap: map<Id, int>, n: Id)
    requires n in objs && n in nisdMap
    ensures n in Left(objs, nisdMap) && Left(objs, nisdMap)[n] == nisdMap[n]
  {
  }

  // ----- both choices are functions of their inputs -----

  lemma DeviceChoiceUnique(devs: Devices, picked: set<Id>, usage: DeviceUsage, off: nat, r1: Option<Id>, r2: Option<Id>)
    requires DeviceChoice(devs, picked, usage, off, r1) && DeviceChoice(devs, picked, usage, off, r2)
    ensures r1 == r2
  {
    if r1.Some? && r2.Some? {
      var rs := Rotation(Ranked(devs.Keys), off);
      var a, b := r1.value, r2.value;
      assert a !in picked <==> Open(devs, picked, usage, a);
      assert b !in picked <==> Open(devs, picked, usage, b);
      if a !in picked {
        var k :| FirstOpen(devs, picked, usage, rs, a, k);
        var l :| FirstOpen(devs, picked, usage, rs, b, l);
      } else {
        var k :| Fallback(devs, usage, rs, a, k, |rs|);
        var l :| Fallback(devs, usage, rs, b, l, |rs|);
        assert NoWorse(devs, usage, rs, a, k, l) && NoWorse(devs, usage, rs, b, l, k);
      }
    }
  }

  lemma NisdChoiceUnique(nisds: seq<Id>, picked: set<Id>, left: map<Id, int>, n: Id, r: Option<Id>)
    requires NisdChoice(nisds, picked, left, Some(n)) && NisdChoice(nisds, picked, left, r)
    ensures r == Some(n)
  {
    var k: nat :| Fullest(nisds, picked, left, n, k, |nisds|);
    assert Fits(picked, left, nisds[k]);
    if r.Some? {
      var l: nat :| Fullest(nisds, picked, left, r.value, l, |nisds|);
      assert Fits(picked, left, nisds[l]);
    }
  }
}
