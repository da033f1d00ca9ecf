/** The mount window and the mount counter of a vdev
    (controlplane/ctlplanefuncs/server/srvctlplanefuncs.go, lines 1752-1823). Times are nanoseconds. */
module Mount {
  import opened Finite

  const SECOND: int := 1_000_000_000
  const VDEV_MOUNT_LIMIT: int := 30 * SECOND
  const UINT64: int := 0x1_0000_0000_0000_0000

  /** The zero value of a time: the first instant of year 1. */
  const ZERO_TIME: int := -62135596800 * SECOND

  /** The stored mount state: the counter, and the time in whole seconds. */
  datatype MountState = MountState(counter: Option<nat>, lastUpdated: Option<int>)

  /** The stored layout drops the fraction of a second. */
  function Stored(t: int): int { t / SECOND }

  function LastTime(m: MountState): int {
    if m.lastUpdated.Some? then m.lastUpdated.value * SECOND else ZERO_TIME
  }

  predicate Accepts(m: MountState, now: int) { now - LastTime(m) >= VDEV_MOUNT_LIMIT }

  function Mounted(m: MountState, now: int): MountState {
    MountState(Some((m.counter.GetOr(0) + 1) % UINT64), Some(Stored(now)))
  }

  datatype Reply = Ok(counter: nat, at: int) | InWindow | NotFound

  /** The mount rows of the vdevs that have any row in the store. */
  class MountTable {
    var vdevs: map<Id, MountState>

    constructor (v: map<Id, MountState>)
      ensures vdevs == v
    {
      vdevs := v;
    }

    /** A mount of a missing vdev, or one within the window, commits nothing. */
    method APMountVdev(id: Id, now: int) returns (r: Reply)
      modifies this
      ensures r.NotFound? <==> id !in old(vdevs)
      ensures r.InWindow? <==> id in old(vdevs) && !Accepts(old(vdevs)[id], now)
      ensures !r.Ok? ==> vdevs == old(vdevs)
      ensures r.Ok? ==> vdevs == old(vdevs)[id := Mounted(old(vdevs)[id], now)] && vdevs[id].counter == Some(r.counter) && r.at == now
    {
      var counter, lastUpdated := 0, ZERO_TIME;
      if id in vdevs {
        if vdevs[id].counter.Some? {
          counter := vdevs[id].counter.value;
        }
        if vdevs[id].lastUpdated.Some? {
          lastUpdated := vdevs[id].lastUpdated.value * SECOND;
        }
        if now - lastUpdated < VDEV_MOUNT_LIMIT {
          return InWindow;
        }
        counter := (counter + 1) % UINT64;
      }
      if id !in vdevs {
        return NotFound;
      }
      vdevs := vdevs[id := MountState(Some(counter), Some(Stored(now)))];
      return Ok(counter, now);
    }
  }

  // ----- any sequence of requests, with any clock readings -----

  const FRESH := MountState(None, None)

  /** The state after mount requests at these times, on a new vdev. */
  function After(nows: seq<int>): MountState {
    if nows == [] then FRESH else
      var m, now := After(nows[..|nows|-1]), nows[|nows|-1];
      if Accepts(m, now) then Mounted(m, now) else m
  }

  /** The times of the accepted requests. */
  function Accepted(nows: seq<int>): seq<int> {
    if nows == [] then [] else
      var before, now := nows[..|nows|-1], nows[|nows|-1];
      Accepted(before) + if Accepts(After(before), now) then [now] else []
  }

  /** Each mount is stored at least 30 seconds, and really happened more than 29 seconds, after the
      one before it. */
  ghost predicate Spaced(ts: seq<int>) {
    forall i :: 0 < i < |ts| ==> FarApart(ts[i-1], ts[i])
  }

  predicate FarApart(t: int, u: int) { Stored(u) - Stored(t) >= 30 && u - t > 29 * SECOND }

  /** The counter is the number of accepted mounts (modulo its width), the stored time is that of the
      last one, and accepted mounts are spaced, whatever the clocks say. */
  lemma {:induction false} MountsAreCountedAndSpaced(nows: seq<int>)
    ensures var ts := Accepted(nows);
            Spaced(ts) && After(nows) == (if ts == [] then FRESH else MountState(Some(|ts| % UINT64), Some(Stored(ts[|ts|-1]))))
  {
    if nows != [] {
      var before, now := nows[..|nows|-1], nows[|nows|-1];
      MountsAreCountedAndSpaced(before);
      var ts := Accepted(before);
      if Accepts(After(before), now) && ts != [] {
        WindowSpaces(ts[|ts|-1], now);
        CounterNext(|ts|);
      }
    }
  }

  lemma CounterNext(n: nat)
    ensures (n % UINT64 + 1) % UINT64 == (n + 1) % UINT64
  {
  }

  /** The window is measured from the stored time: a mount is accepted exactly from 30 seconds after
      the last full second on, so the real gap can be a second short of that, and not more. */
  lemma WindowSpaces(t: int, now: int)
    ensures now - Stored(t) * SECOND >= VDEV_MOUNT_LIMIT <==> Stored(now) - Stored(t) >= 30
    ensures now - Stored(t) * SECOND >= VDEV_MOUNT_LIMIT ==> now - t > 29 * SECOND
    ensures now - t >= VDEV_MOUNT_LIMIT ==> now - Stored(t) * SECOND >= VDEV_MOUNT_LIMIT
  {
  }

  /** The first mount of a vdev is measured from the first instant of year 1. */
  lemma FirstMountAccepted(now: int)
    ensures Accepted([now]) == (if now >= (30 - 62135596800) * 1_000_000_000 then [now] else [])
  {
    assert [now][..0] == [] && After([]) == FRESH && Accepted([]) == [];
  }

  /** Mounts 29.000000001 seconds apart can both be accepted. */
  lemma ShortGapAccepted()
    ensures var t := 1_700_000_000 * SECOND + 999_999_999;
            Accepted([t, t + 29 * SECOND + 1]) == [t, t + 29 * SECOND + 1]
  {
    var t := 1_700_000_000 * SECOND + 999_999_999;
    var u := t + 29 * SECOND + 1;
    assert After([]) == FRESH && Accepted([]) == [];
    assert Accepts(FRESH, t) && Accepts(Mounted(FRESH, t), u);
    assert [t][|[t]|-1] == t && [t][..|[t]|-1] == [];
    assert Accepted([t]) == [t];
    assert After([t]) == Mounted(FRESH, t);
    assert [t, u][|[t, u]|-1] == u && [t, u][..|[t, u]|-1] == [t];
  }
}
