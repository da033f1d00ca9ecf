/** Joining the flat lists of PDUs, racks, hypervisors, devices and partitions into trees
    (controlplane/niova-ctl/domain/service.go, lines 7-60). */
module Topology {
  import opened Finite

  datatype Partition = Partition(id: string, devId: string, info: string)

  /** A node of the topology: its id, the id of its parent, its own data, and its children. */
  datatype Item<C> = Item(id: string, parent: string, info: string, kids: seq<C>)

  type Device = Item<Partition>
  type Hypervisor = Item<Device>
  type Rack = Item<Hypervisor>
  type Pdu = Item<Rack>

  // ----- the join, declaratively -----

  /** The children of a parent, in input order. */
  function Of<C>(cs: seq<C>, up: C -> string, id: string): seq<C> {
    if cs == [] then [] else
      var n := |cs| - 1;
      Of(cs[..n], up, id) + if up(cs[n]) == id then [cs[n]] else []
  }

  /** i is the last position with its id; with distinct ids, every position is. */
  predicate IsLast<C>(ps: seq<Item<C>>, i: nat)
    requires i < |ps|
  {
    forall j :: i < j < |ps| ==> ps[j].id != ps[i].id
  }

  predicate HasId<C>(ps: seq<Item<C>>, id: string) { exists i :: 0 <= i < |ps| && ps[i].id == id }

  function Filled<C>(ps: seq<Item<C>>, cs: seq<C>, up: C -> string, i: nat): Item<C>
    requires i < |ps|
  {
    ps[i].(kids := if IsLast(ps, i) then Of(cs, up, ps[i].id) else [])
  }

  /** Every parent with the children that name it. */
  function Joined<C>(ps: seq<Item<C>>, cs: seq<C>, up: C -> string): (r: seq<Item<C>>)
    ensures |r| == |ps|
  {
    seq(|ps|, i requires 0 <= i < |ps| => Filled(ps, cs, up, i))
  }

  /** The children whose parent is not there. */
  function Orphans<C>(ps: seq<Item<C>>, cs: seq<C>, up: C -> string): seq<C> {
    if cs == [] then [] else
      var n := |cs| - 1;
      Orphans(ps, cs[..n], up) + if HasId(ps, up(cs[n])) then [] else [cs[n]]
  }

  // ----- one stage, in place -----

  ghost predicate Positions<C>(ps: seq<Item<C>>, pos: map<string, nat>) {
    (forall id :: id in pos ==> pos[id] < |ps| && ps[pos[id]].id == id && IsLast(ps, pos[id]))
    && (forall i :: 0 <= i < |ps| ==> ps[i].id in pos)
  }

  lemma PositionsNext<C>(ps: seq<Item<C>>, pos: map<string, nat>, n: nat)
    requires n < |ps| && Positions(ps[..n], pos)
    ensures Positions(ps[..n+1], pos[ps[n].id := n])
  {
    var q, p := ps[..n+1], ps[..n];
    forall id | id in pos && id != ps[n].id ensures IsLast(q, pos[id]) {
      assert IsLast(p, pos[id]);
      forall j | pos[id] < j < |q| ensures q[j].id != q[pos[id]].id {
        if j < n { assert p[j].id != p[pos[id]].id; }
      }
    }
    forall i | 0 <= i < |q| ensures q[i].id in pos[ps[n].id := n] { if i < n { assert p[i].id in pos; } }
  }

  /** One stage: parents drop their children, then every child is appended to the last parent with its
      id. */
  method Stitch<C>(ps: array<Item<C>>, cs: seq<C>, up: C -> string) returns (orphans: seq<C>)
    modifies ps
    ensures ps[..] == Joined(old(ps[..]), cs, up)
    ensures orphans == Orphans(old(ps[..]), cs, up)
  {
    hide IsLast, HasId, Filled;
    ghost var was := ps[..];
    var pos: map<string, nat> := map[];
    for i := 0 to ps.Length
      invariant forall j :: 0 <= j < i ==> ps[j] == was[j].(kids := [])
      invariant forall j :: i <= j < ps.Length ==> ps[j] == was[j]
      invariant Positions(was[..i], pos)
    {
      PositionsNext(was, pos, i);
      ps[i] := ps[i].(kids := []);
      pos := pos[ps[i].id := i];
    }
    assert was[..|was|] == was;
    orphans := [];
    forall j | 0 <= j < ps.Length ensures Filled(was, cs[..0], up, j) == was[j].(kids := []) { NothingFilled(was, up, j); }
    for k := 0 to |cs|
      invariant forall j :: 0 <= j < ps.Length ==> ps[j] == Filled(was, cs[..k], up, j)
      invariant orphans == Orphans(was, cs[..k], up)
    {
      var c := cs[k];
      assert cs[..k+1] == cs[..k] + [c] && cs[..k+1][..k] == cs[..k];
      forall j | 0 <= j < ps.Length
        ensures Filled(was, cs[..k+1], up, j) ==
          if IsLast(was, j) && was[j].id == up(c)
          then Filled(was, cs[..k], up, j).(kids := Filled(was, cs[..k], up, j).kids + [c]) else Filled(was, cs[..k], up, j)
      {
        FilledStep(was, cs[..k], c, up, j);
      }
      if up(c) in pos {
        var at := pos[up(c)];
        HasPosition(was, at, up(c));
        forall j | 0 <= j < ps.Length ensures IsLast(was, j) && was[j].id == up(c) <==> j == at { OneLast(was, j, at); }
        ps[at] := ps[at].(kids := ps[at].kids + [c]);
      } else {
        NoPosition(was, pos, up(c));
        orphans := orphans + [c];
      }
    }
    assert cs[..|cs|] == cs;
  }

  lemma NothingFilled<C>(ps: seq<Item<C>>, up: C -> string, i: nat)
    requires i < |ps|
    ensures Filled(ps, [], up, i) == ps[i].(kids := [])
  {
  }

  lemma HasPosition<C>(ps: seq<Item<C>>, at: nat, id: string)
    requires at < |ps| && ps[at].id == id
    ensures HasId(ps, id)
  {
  }

  lemma NoPosition<C>(ps: seq<Item<C>>, pos: map<string, nat>, id: string)
    requires Positions(ps, pos) && id !in pos
    ensures !HasId(ps, id) && forall j :: 0 <= j < |ps| ==> ps[j].id != id
  {
  }

  lemma OneLast<C>(ps: seq<Item<C>>, i: nat, j: nat)
    requires i < |ps| && j < |ps| && IsLast(ps, j)
    ensures IsLast(ps, i) && ps[i].id == ps[j].id <==> i == j
  {
  }

  // ----- the whole assembly -----

  function PartParent(p: Partition): string { p.devId }
  function DevParent(d: Device): string { d.parent }
  function HvParent(h: Hypervisor): string { h.parent }
  function RackParent(r: Rack): string { r.parent }

  /** Each list is joined with the already joined list below it; hypervisors without a rack are
      returned apart. */
  method StitchTopology(pdus: array<Pdu>, racks: array<Rack>, hvs: array<Hypervisor>, devices: array<Device>, partitions: seq<Partition>)
    returns (standalone: seq<Hypervisor>)
    modifies pdus, racks, hvs, devices
    ensures devices[..] == Joined(old(devices[..]), partitions, PartParent)
    ensures hvs[..] == Joined(old(hvs[..]), devices[..], DevParent)
    ensures racks[..] == Joined(old(racks[..]), hvs[..], HvParent)
    ensures pdus[..] == Joined(old(pdus[..]), racks[..], RackParent)
    ensures standalone == Orphans(old(racks[..]), hvs[..], HvParent)
  {
    var _ := Stitch(devices, partitions, PartParent);
    var _ := Stitch(hvs, devices[..], DevParent);
    standalone := Stitch(racks, hvs[..], HvParent);
    var _ := Stitch(pdus, racks[..], RackParent);
  }

  // ----- what the join guarantees -----

  function AllKids<C>(ps: seq<Item<C>>): seq<C> {
    if ps == [] then [] else AllKids(ps[..|ps|-1]) + ps[|ps|-1].kids
  }

  lemma {:induction false} AllKidsGrow<C>(ps: seq<Item<C>>, qs: seq<Item<C>>, at: nat, c: C)
    requires at < |ps| == |qs| && qs[at].kids == ps[at].kids + [c]
    requires forall j :: 0 <= j < |ps| && j != at ==> qs[j].kids == ps[j].kids
    ensures multiset(AllKids(qs)) == multiset(AllKids(ps)) + multiset{c}
  {
    var n := |ps| - 1;
    if at == n {
      AllKidsSame(ps[..n], qs[..n]);
    } else {
      AllKidsGrow(ps[..n], qs[..n], at, c);
      assert qs[n].kids == ps[n].kids;
    }
  }

  lemma {:induction false} AllKidsSame<C>(ps: seq<Item<C>>, qs: seq<Item<C>>)
    requires |ps| == |qs| && forall j :: 0 <= j < |ps| ==> qs[j].kids == ps[j].kids
    ensures AllKids(qs) == AllKids(ps)
  {
    if ps != [] { AllKidsSame(ps[..|ps|-1], qs[..|qs|-1]); }
  }

  lemma {:induction false} NoKids<C>(ps: seq<Item<C>>)
    requires forall j :: 0 <= j < |ps| ==> ps[j].kids == []
    ensures AllKids(ps) == []
  {
    if ps != [] { NoKids(ps[..|ps|-1]); }
  }

  lemma {:induction false} LastWithId<C>(ps: seq<Item<C>>, id: string) returns (at: nat)
    requires HasId(ps, id)
    ensures at < |ps| && ps[at].id == id && IsLast(ps, at)
  {
    var n := |ps| - 1;
    if ps[n].id == id {
      at := n;
    } else {
      var i :| 0 <= i < |ps| && ps[i].id == id;
      assert ps[..n][i].id == id;
      at := LastWithId(ps[..n], id);
      forall j | at < j < |ps| ensures ps[j].id != ps[at].id { if j < n { assert ps[..n][j].id != ps[..n][at].id; } }
    }
  }

  lemma {:induction false} OfStep<C>(cs: seq<C>, c: C, up: C -> string, id: string)
    ensures Of(cs + [c], up, id) == Of(cs, up, id) + if up(c) == id then [c] else []
  {
    assert (cs + [c])[..|cs|] == cs;
  }

  lemma FilledStep<C>(ps: seq<Item<C>>, cs: seq<C>, c: C, up: C -> string, i: nat)
    requires i < |ps|
    ensures Filled(ps, cs + [c], up, i) ==
            if IsLast(ps, i) && ps[i].id == up(c)
            then Filled(ps, cs, up, i).(kids := Filled(ps, cs, up, i).kids + [c]) else Filled(ps, cs, up, i)
  {
    hide IsLast;
    OfStep(cs, c, up, ps[i].id);
  }

  lemma JoinedGrows<C>(ps: seq<Item<C>>, cs: seq<C>, c: C, up: C -> string, at: nat)
    requires at < |ps| && IsLast(ps, at) && ps[at].id == up(c)
    ensures Joined(ps, cs + [c], up)[at].kids == Joined(ps, cs, up)[at].kids + [c]
    ensures forall j :: 0 <= j < |ps| && j != at ==> Joined(ps, cs + [c], up)[j].kids == Joined(ps, cs, up)[j].kids
  {
    hide IsLast, Of;
    forall j | 0 <= j < |ps|
      ensures Joined(ps, cs + [c], up)[j].kids == Joined(ps, cs, up)[j].kids + if j == at then [c] else []
    {
      OneLast(ps, j, at);
      FilledStep(ps, cs, c, up, j);
    }
  }

  lemma JoinedStays<C>(ps: seq<Item<C>>, cs: seq<C>, c: C, up: C -> string)
    requires !HasId(ps, up(c))
    ensures forall j :: 0 <= j < |ps| ==> Joined(ps, cs + [c], up)[j].kids == Joined(ps, cs, up)[j].kids
  {
    forall j | 0 <= j < |ps| ensures Joined(ps, cs + [c], up)[j].kids == Joined(ps, cs, up)[j].kids {
      assert ps[j].id != up(c);
      FilledStep(ps, cs, c, up, j);
    }
  }

  lemma {:induction false} OrphansStep<C>(ps: seq<Item<C>>, cs: seq<C>, c: C, up: C -> string)
    ensures Orphans(ps, cs + [c], up) == Orphans(ps, cs, up) + if HasId(ps, up(c)) then [] else [c]
  {
    assert (cs + [c])[..|cs|] == cs;
  }

  lemma {:induction false} NothingJoined<C>(ps: seq<Item<C>>, cs: seq<C>, up: C -> string)
    requires cs == []
    ensures AllKids(Joined(ps, cs, up)) == [] && Orphans(ps, cs, up) == []
  {
    NoKids(Joined(ps, cs, up));
  }

  /** Every child stands in exactly one place: below one parent, or among the orphans. */
  lemma {:induction false} EveryChildOnce<C>(ps: seq<Item<C>>, cs: seq<C>, up: C -> string)
    ensures multiset(AllKids(Joined(ps, cs, up))) + multiset(Orphans(ps, cs, up)) == multiset(cs)
  {
    hide Joined, AllKids, HasId, IsLast, Filled, Orphans;
    if cs == [] {
      NothingJoined(ps, cs, up);
    } else {
      var before, c := cs[..|cs|-1], cs[|cs|-1];
      EveryChildOnce(ps, before, up);
      assert cs == before + [c];
      OrphansStep(ps, before, c, up);
      if HasId(ps, up(c)) {
        var at := LastWithId(ps, up(c));
        JoinedGrows(ps, before, c, up, at);
        AllKidsGrow(Joined(ps, before, up), Joined(ps, cs, up), at, c);
      } else {
        JoinedStays(ps, before, c, up);
        AllKidsSame(Joined(ps, before, up), Joined(ps, cs, up));
      }
    }
  }

  ghost predicate DistinctIds<C>(ps: seq<Item<C>>) { forall i, j :: 0 <= i < j < |ps| ==> ps[i].id != ps[j].id }

  lemma {:induction false} OfHas<C>(cs: seq<C>, up: C -> string, id: string, c: C)
    ensures c in Of(cs, up, id) <==> c in cs && up(c) == id
  {
    if cs != [] {
      var n := |cs| - 1;
      OfHas(cs[..n], up, id, c);
      assert cs == cs[..n] + [cs[n]];
    }
  }

  /** With distinct ids the join is exactly: c stands below p when c names p. */
  lemma JoinedHas<C>(ps: seq<Item<C>>, cs: seq<C>, up: C -> string, i: nat, c: C)
    requires i < |ps| && DistinctIds(ps)
    ensures c in Joined(ps, cs, up)[i].kids <==> c in cs && up(c) == ps[i].id
    ensures Joined(ps, cs, up)[i].(kids := []) == ps[i].(kids := [])
  {
    OfHas(cs, up, ps[i].id, c);
  }

  /** Each hypervisor appears exactly once across all racks and the standalone list. */
  lemma {:induction false} HypervisorOnce(racks: seq<Rack>, hvs: seq<Hypervisor>, h: Hypervisor)
    requires DistinctIds(hvs) && h in hvs
    ensures multiset(AllKids(Joined(racks, hvs, HvParent)))[h] + multiset(Orphans(racks, hvs, HvParent))[h] == 1
  {
    EveryChildOnce(racks, hvs, HvParent);
    OnceInDistinct(hvs, h);
  }

  lemma {:induction false} OnceInDistinct<C>(ps: seq<Item<C>>, p: Item<C>)
    requires DistinctIds(ps) && p in ps
    ensures multiset(ps)[p] == 1
  {
    var n := |ps| - 1;
    assert ps == ps[..n] + [ps[n]];
    if ps[n] == p {
      forall i | 0 <= i < n ensures ps[..n][i] != p {}
      assert p !in ps[..n];
    } else {
      OnceInDistinct(ps[..n], p);
    }
  }

  /** Copies are taken late enough: a rack inside a PDU already carries its hypervisors, these their
      devices, and these their partitions. */
  lemma NestedCopiesAreStitched(pdus: seq<Pdu>, racks: seq<Rack>, hvs: seq<Hypervisor>, devs: seq<Device>, parts: seq<Partition>,
                                i: nat, r: Rack, h: Hypervisor, d: Device, p: Partition)
    requires DistinctIds(pdus) && DistinctIds(racks) && DistinctIds(hvs) && DistinctIds(devs) && i < |pdus|
    ensures var devs' := Joined(devs, parts, PartParent);
            var hvs' := Joined(hvs, devs', DevParent);
            var racks' := Joined(racks, hvs', HvParent);
            var pdus' := Joined(pdus, racks', RackParent);
            (r in pdus'[i].kids && h in r.kids && d in h.kids && p in d.kids) <==>
            (r in racks' && r.parent == pdus[i].id && h in hvs' && h.parent == r.id && d in devs' && d.parent == h.id
             && p in parts && p.devId == d.id)
  {
    var devs' := Joined(devs, parts, PartParent);
    var hvs' := Joined(hvs, devs', DevParent);
    var racks' := Joined(racks, hvs', HvParent);
    JoinedHas(pdus, racks', RackParent, i, r);
    if r in racks' {
      KidsOf(racks, hvs', HvParent, r, h);
      if h in hvs' {
        KidsOf(hvs, devs', DevParent, h, d);
        if d in devs' { KidsOf(devs, parts, PartParent, d, p); }
      }
    }
  }

  lemma KidsOf<C>(ps: seq<Item<C>>, cs: seq<C>, up: C -> string, p: Item<C>, c: C)
    requires DistinctIds(ps) && p in Joined(ps, cs, up)
    ensures c in p.kids <==> c in cs && up(c) == p.id
  {
    var j :| 0 <= j < |ps| && Joined(ps, cs, up)[j] == p;
    JoinedHas(ps, cs, up, j, c);
  }
}
