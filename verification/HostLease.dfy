/**
  The renewed Lease that serialises operations on one host (operations.py).

  The holders read and write one Lease object by compare-and-swap and share a clock. An action is one
  write that the API server accepted; `stamp` is the time that the writer had noted, which may be
  older than the time of the write.
 */
module HostLease {
  import opened Wrappers

  /** A holder name carries a random part, so no two operations share one. */
  type Holder = nat

  const LEASE_SECONDS := 60

  datatype Lease = Lease(holder: Option<Holder>, duration: Option<int>, acquired: Option<int>, renewed: Option<int>, version: nat)

  datatype World = World(lease: Option<Lease>, clock: int, versions: nat)

  datatype Action =
    | Tick(seconds: nat)
    | Acquire(holder: Holder, stamp: int)
    | Renew(holder: Holder, stamp: int)
    | Release(holder: Holder)

  /** The renewal time counts, or else the time of acquisition; a duration that is absent or zero counts as 60. */
  function Expiry(lease: Lease): Option<int> {
    var renewed := if lease.renewed.Some? then lease.renewed else lease.acquired;
    var duration := if lease.duration.Some? && lease.duration.value != 0 then lease.duration.value else 60;
    if renewed.Some? then Some(renewed.value + duration) else None
  }

  /** Somebody holds the Lease at this time. */
  predicate Taken(lease: Option<Lease>, now: int) {
    lease.Some? && lease.value.holder.Some? && Expiry(lease.value).Some? && Expiry(lease.value).value > now
  }

  /** In some state from `from` on somebody held it at the time `now`. */
  predicate TakenSince(states: seq<World>, from: nat, now: int) {
    exists k :: from <= k < |states| && Taken(states[k].lease, now)
  }

  lemma TakenEarlier(states: seq<World>, from: nat, now: int, later: int)
    requires TakenSince(states, from, later) && now <= later
    ensures TakenSince(states, from, now)
  {
    var k :| from <= k < |states| && Taken(states[k].lease, later);
    assert Taken(states[k].lease, now);
  }

  /** What a writer has established when its write is accepted. */
  predicate Enabled(w: World, a: Action) {
    match a
    case Tick(_) => true
    case Acquire(h, stamp) => !Taken(w.lease, stamp) && stamp <= w.clock
    case Renew(h, stamp) =>
      && w.lease.Some? && w.lease.value.holder == Some(h) && stamp <= w.clock
      && (w.lease.value.renewed.Some? ==> w.lease.value.renewed.value <= stamp)
    case Release(h) => w.lease.Some? && w.lease.value.holder == Some(h)
  }

  function Apply(w: World, a: Action): World
    requires Enabled(w, a)
  {
    match a
    case Tick(seconds) => w.(clock := w.clock + seconds)
    case Acquire(h, stamp) => Stored(w, Lease(Some(h), Some(LEASE_SECONDS), Some(stamp), Some(stamp), 0))
    case Renew(h, stamp) => Stored(w, w.lease.value.(renewed := Some(stamp)))
    case Release(h) => Stored(w, w.lease.value.(holder := None))
  }

  /** Every accepted write draws a new resourceVersion. */
  function Stored(w: World, lease: Lease): World {
    World(Some(lease.(version := w.versions)), w.clock, w.versions + 1)
  }

  /** Every record was written by these actions and stamped no later than now. */
  predicate Ok(w: World) {
    w.lease.Some? ==>
      && w.lease.value.version < w.versions
      && w.lease.value.duration == Some(LEASE_SECONDS)
      && w.lease.value.renewed.Some? && w.lease.value.renewed.value <= w.clock
  }

  lemma OkPreserved(w: World, a: Action)
    requires Ok(w) && Enabled(w, a)
    ensures Ok(Apply(w, a))
  {
  }

  predicate StepAt(ws: seq<World>, acts: seq<Action>, i: nat)
    requires |ws| == |acts| + 1 && i < |acts|
  {
    Enabled(ws[i], acts[i]) && ws[i + 1] == Apply(ws[i], acts[i])
  }

  /** From a time when the Lease object did not exist. */
  predicate Behavior(ws: seq<World>, acts: seq<Action>) {
    && |ws| == |acts| + 1 && ws[0].lease.None?
    && forall i | 0 <= i < |acts| :: StepAt(ws, acts, i)
  }

  lemma {:induction false} OkAlways(ws: seq<World>, acts: seq<Action>, i: nat)
    requires Behavior(ws, acts) && i <= |acts|
    ensures Ok(ws[i])
  {
    if i > 0 {
      OkAlways(ws, acts, i - 1);
      assert StepAt(ws, acts, i - 1);
      OkPreserved(ws[i - 1], acts[i - 1]);
    }
  }

  /** `h` holds the Lease by a stamp of at least `t`. */
  predicate HeldSince(w: World, h: Holder, t: int) {
    w.lease.Some? && w.lease.value.holder == Some(h) && w.lease.value.renewed.Some? && w.lease.value.renewed.value >= t
  }

  lemma {:induction false} StillHeld(ws: seq<World>, acts: seq<Action>, i: nat, j: nat, h: Holder, t: int)
    requires Behavior(ws, acts) && i < j <= |acts| && acts[i] in {Acquire(h, t), Renew(h, t)}
    requires forall k | i < k < j :: acts[k] != Release(h)
    requires forall k | i < k < j :: acts[k].Acquire? && acts[k].holder != h ==> ws[k].clock < t + LEASE_SECONDS
    ensures HeldSince(ws[j], h, t)
  {
    assert StepAt(ws, acts, j - 1);
    if j > i + 1 {
      StillHeld(ws, acts, i, j - 1, h, t);
      OkAlways(ws, acts, j - 1);
    }
  }

  /**
    Exclusion. After a successful acquire or renew stamped `t`, the acquire of another holder is
    accepted only at `t + 60` or later, unless the first holder released the Lease before that.
   */
  lemma {:induction false} Exclusion(ws: seq<World>, acts: seq<Action>, i: nat, j: nat, h: Holder, t: int)
    requires Behavior(ws, acts) && i < j < |acts| && acts[i] in {Acquire(h, t), Renew(h, t)}
    requires acts[j].Acquire? && acts[j].holder != h
    ensures ws[j].clock >= t + LEASE_SECONDS || exists k :: i < k < j && acts[k] == Release(h)
  {
    if ws[j].clock < t + LEASE_SECONDS && forall k | i < k < j :: acts[k] != Release(h) {
      forall k | i < k < j ensures ws[k].clock < t + LEASE_SECONDS {
        ClockGrows(ws, acts, k, j);
      }
      assert StepAt(ws, acts, j);
      OkAlways(ws, acts, j);
      StillHeld(ws, acts, i, j, h, t);
    }
  }

  lemma {:induction false} ClockGrows(ws: seq<World>, acts: seq<Action>, i: nat, j: nat)
    requires Behavior(ws, acts) && i <= j <= |acts|
    ensures ws[i].clock <= ws[j].clock
  {
    if i < j {
      ClockGrows(ws, acts, i, j - 1);
      assert StepAt(ws, acts, j - 1);
    }
  }

  /**
    Renewals and releases reach only the record of their own holder, so a former holder never alters a
    successor's; and the holder changes only by its own release or after 60 seconds without renewal.
   */
  lemma HolderChanges(ws: seq<World>, acts: seq<Action>, i: nat, g: Holder)
    requires Behavior(ws, acts) && i < |acts|
    requires ws[i].lease.Some? && ws[i].lease.value.holder == Some(g)
    ensures acts[i].Renew? || acts[i].Release? ==> acts[i].holder == g
    ensures ws[i].lease.value.renewed.Some? && ws[i + 1].lease.Some?
    ensures ws[i + 1].lease.value.holder != Some(g) ==>
              acts[i] == Release(g) || (acts[i].Acquire? && ws[i].clock >= ws[i].lease.value.renewed.value + LEASE_SECONDS)
  {
    assert StepAt(ws, acts, i);
    OkAlways(ws, acts, i);
  }

  /** Who is not the holder becomes it only by acquiring. */
  lemma {:induction false} NotByItself(ws: seq<World>, acts: seq<Action>, i: nat, j: nat, h: Holder)
    requires Behavior(ws, acts) && i <= j <= |acts| && !HeldBy(ws[i], h)
    requires forall k | i <= k < j :: !(acts[k].Acquire? && acts[k].holder == h)
    ensures !HeldBy(ws[j], h)
  {
    if i < j {
      NotByItself(ws, acts, i, j - 1, h);
      assert StepAt(ws, acts, j - 1);
    }
  }

  predicate HeldBy(w: World, h: Holder) {
    w.lease.Some? && w.lease.value.holder == Some(h)
  }

  /** Somebody else acquired, and the record of `h` that it took over had not been renewed for 60 seconds. */
  predicate TakesOver(ws: seq<World>, acts: seq<Action>, k: nat, h: Holder) {
    && k < |ws| && k < |acts| && acts[k].Acquire? && acts[k].holder != h && HeldBy(ws[k], h)
    && ws[k].lease.value.renewed.Some? && ws[k].clock >= ws[k].lease.value.renewed.value + LEASE_SECONDS
  }

  /** A holder that did not release loses the Lease only to another that takes it over after it expired. */
  lemma {:induction false} LostMeansTakenOver(ws: seq<World>, acts: seq<Action>, i: nat, j: nat, h: Holder) returns (k: nat)
    requires Behavior(ws, acts) && i <= j <= |acts| && HeldBy(ws[i], h) && !HeldBy(ws[j], h)
    requires forall k | i <= k < j :: acts[k] != Release(h)
    ensures i <= k < j && TakesOver(ws, acts, k, h)
  {
    if HeldBy(ws[j - 1], h) {
      HolderChanges(ws, acts, j - 1, h);
      assert StepAt(ws, acts, j - 1);
      k := j - 1;
    } else {
      k := LostMeansTakenOver(ws, acts, i, j - 1, h);
    }
  }

  /** An accepted renewal proves that nobody else acquired since the holder's own acquisition. */
  lemma RenewalProvesHold(ws: seq<World>, acts: seq<Action>, i: nat, j: nat, h: Holder)
    requires Behavior(ws, acts) && i < j < |acts| && acts[i].Acquire? && acts[i].holder == h
    requires acts[j].Renew? && acts[j].holder == h
    requires forall k | i < k < j :: !(acts[k].Acquire? && acts[k].holder == h)
    ensures forall k | i < k < j :: !acts[k].Acquire?
  {
    forall k | i < k < j ensures !acts[k].Acquire? {
      if acts[k].Acquire? {
        assert StepAt(ws, acts, k) && StepAt(ws, acts, j);
        NotByItself(ws, acts, k + 1, j, h);
      }
    }
  }

  // ---------- the holder's own code ----------

  /** How an operation under the Lease went: refused, interrupted by its heartbeat, or through. */
  datatype Operation = NotEntered | Lost | Kept

  datatype Reply = Accepted | Conflict | Raised

  class LeaseApi {
    var world: World
    ghost var states: seq<World>
    ghost var acts: seq<Action>
    ghost var faults: nat              // requests that failed or met a conflict

    ghost predicate Valid()
      reads this
    {
      Behavior(states, acts) && states[|acts|] == world
    }

    /** What happened since is only added, and in the name of `h` it was at most `a`. */
    twostate predicate OnlyDid(h: Holder, a: Option<Action>)
      reads this
    {
      && old(states) <= states && old(acts) <= acts
      && old(world).clock <= world.clock && old(world).versions <= world.versions
      && (forall i | |old(acts)| <= i < |acts| :: acts[i].Tick? || acts[i].holder != h || Some(acts[i]) == a)
    }

    /** What `seen` was read as is still stored, or a newer version is. */
    predicate Seen(seen: Lease)
      reads this
    {
      && seen.version < world.versions && world.lease.Some?
      && (world.lease.value.version == seen.version ==> world.lease.value == seen)
    }

    constructor (clock: int)
      ensures Valid()
    {
      world := World(None, clock, 0);
      states, acts, faults := [World(None, clock, 0)], [], 0;
    }

    method Do(a: Action)
      requires Valid() && Enabled(world, a)
      modifies this
      ensures Valid() && world == Apply(old(world), a)
      ensures acts == old(acts) + [a] && states == old(states) + [world] && faults == old(faults)
    {
      ghost var ws, as_ := states, acts;
      world := Apply(world, a);
      states := states + [world];
      acts := acts + [a];
      forall i: nat | i < |acts| ensures StepAt(states, acts, i) {
        if i < |as_| { assert StepAt(ws, as_, i); }
      }
    }

    /** Other holders and the clock. */
    method Interfere(h: Holder)
      requires Valid()
      modifies this
      ensures Valid() && OnlyDid(h, None) && faults == old(faults)
      ensures forall seen | old(Seen(seen)) :: Seen(seen)
      ensures old(world).lease.Some? ==> world.lease.Some?
      ensures world.lease != old(world).lease ==> old(world).versions < world.versions
    {
      var steps: nat := *;
      while steps > 0
        invariant Valid() && OnlyDid(h, None) && faults == old(faults)
        invariant forall seen | old(Seen(seen)) :: Seen(seen)
        invariant old(world).lease.Some? ==> world.lease.Some?
        invariant world.lease != old(world).lease ==> old(world).versions < world.versions
      {
        var seconds: nat, stamp: int, g: Holder := *, *, *;
        var acquires: bool, renews: bool, ticks: bool := *, *, *;
        var a := if ticks then Tick(seconds) else if acquires then Acquire(g, stamp) else if renews then Renew(g, stamp) else Release(g);
        if Enabled(world, a) && (ticks || g != h) { Do(a); }
        steps := steps - 1;
      }
    }

    method Now(h: Holder) returns (now: int)
      requires Valid()
      modifies this
      ensures Valid() && OnlyDid(h, None) && now == world.clock && faults == old(faults)
      ensures forall seen | old(Seen(seen)) :: Seen(seen)
    {
      Interfere(h);
      now := world.clock;
    }

    /** `Some(None)`: the Lease does not exist; `None`: the request failed. */
    method Read(h: Holder) returns (current: Option<Option<Lease>>)
      requires Valid()
      modifies this
      ensures Valid() && OnlyDid(h, None) && faults == old(faults) + (if current.Some? then 0 else 1)
      ensures current.Some? ==> current.value == world.lease && (world.lease.Some? ==> Seen(world.lease.value))
    {
      Interfere(h);
      OkAlways(states, acts, |acts|);
      var failed: bool := *;
      current := if failed then None else Some(world.lease);
      if failed { faults := faults + 1; }
    }

    /** A write against the record that was read, or the creation if none was. */
    method Write(h: Holder, current: Option<Lease>, a: Action) returns (reply: Reply)
      requires Valid() && !a.Tick? && a.holder == h
      requires Enabled(world.(lease := current), a)
      requires current.Some? ==> Seen(current.value)
      modifies this
      ensures Valid() && OnlyDid(h, Some(a)) && faults == old(faults) + (if reply.Accepted? then 0 else 1)
      ensures reply.Accepted? ==> acts != old(acts) && acts[|acts| - 1] == a
      ensures reply.Conflict? ==> OnlyDid(h, None) && (old(world).lease == current ==> old(world).versions < world.versions)
    {
      Interfere(h);
      var failed: bool, lost: bool := *, *;
      faults := faults + 1;
      if failed { return Raised; }
      if if current.Some? then world.lease.value.version != current.value.version else world.lease.Some? { return Conflict; }
      Do(a);
      if lost { return Raised; }
      faults := faults - 1;
      return Accepted;
    }
  }

  /** One operation's view of the Lease. */
  class HostLease {
    const holder: Holder

    constructor (holder: Holder)
      ensures this.holder == holder
    {
      this.holder := holder;
    }

    /**
      `Some(false)`: somebody held it when it was read, or wrote it since. `None` is an error that leaves
      it open whether the Lease was taken.
     */
    method Acquire(api: LeaseApi) returns (r: Option<bool>, ghost stamp: int)
      requires api.Valid()
      modifies api
      ensures api.Valid() && api.OnlyDid(holder, if r == Some(false) then None else Some(Action.Acquire(holder, stamp)))
      ensures r == Some(true) ==> api.acts != old(api.acts) && api.acts[|api.acts| - 1] == Action.Acquire(holder, stamp)
      ensures old(api.world).clock <= stamp <= api.world.clock
      ensures old(api.faults) <= api.faults && (r.None? ==> old(api.faults) < api.faults)
      ensures r == Some(false) ==> TakenSince(api.states, |old(api.states)| - 1, stamp) || old(api.world).versions < api.world.versions
      ensures r == Some(false) && api.faults == old(api.faults) ==> TakenSince(api.states, |old(api.states)| - 1, stamp)
    {
      var now := api.Now(holder);
      stamp := now;
      var current := api.Read(holder);
      if current.None? { return None, stamp; }
      if Taken(current.value, now) {
        assert Taken(api.states[|api.states| - 1].lease, now);
        return Some(false), stamp;
      }
      var reply := api.Write(holder, current.value, Action.Acquire(holder, now));
      r := if reply.Raised? then None else Some(reply.Accepted?);
    }

    /** `Some(false)`: the Lease has another holder by now, and was left alone. */
    method Renew(api: LeaseApi) returns (r: Option<bool>, ghost stamp: int)
      requires api.Valid()
      modifies api
      ensures api.Valid() && api.OnlyDid(holder, if r == Some(false) then None else Some(Action.Renew(holder, stamp)))
      ensures r == Some(true) ==> api.acts != old(api.acts) && api.acts[|api.acts| - 1] == Action.Renew(holder, stamp)
      ensures old(api.world).clock <= stamp <= api.world.clock
      ensures old(api.faults) <= api.faults && (r != Some(true) && api.faults == old(api.faults) ==> !HeldBy(api.world, holder))
    {
      var current := api.Read(holder);
      stamp := api.world.clock;
      if current.None? || current.value.None? { return None, stamp; }
      if current.value.value.holder != Some(holder) { return Some(false), stamp; }
      OkAlways(api.states, api.acts, |api.acts|);
      var now := api.Now(holder);
      stamp := now;
      var reply := api.Write(holder, current.value, Action.Renew(holder, now));
      r := if reply.Accepted? then Some(true) else None;
    }

    /** Clears the holder name, and only its own; `Some(false)` if it is not the holder any more. */
    method Release(api: LeaseApi) returns (r: Option<bool>)
      requires api.Valid()
      modifies api
      ensures api.Valid() && api.OnlyDid(holder, if r == Some(false) then None else Some(Action.Release(holder)))
      ensures r == Some(true) ==> api.world.lease.Some? && api.world.lease.value.holder.None?
      ensures old(api.faults) <= api.faults && (r.Some? || api.faults == old(api.faults) ==> !HeldBy(api.world, holder))
    {
      var current := api.Read(holder);
      if current.None? || current.value.None? { return None; }
      if current.value.value.holder != Some(holder) { return Some(false); }
      var reply := api.Write(holder, current.value, Action.Release(holder));
      if !reply.Accepted? { return None; }
      assert StepAt(api.states, api.acts, |api.acts| - 1);
      return Some(true);
    }

    /** These steps after `entered` are renewals of this holder, in order. */
    predicate Renewals(acts: seq<Action>, entered: nat, beats: seq<nat>) {
      && (forall i | 0 <= i < |beats| :: entered < beats[i] < |acts| && acts[beats[i]].Renew? && acts[beats[i]].holder == holder)
      && (forall i, j | 0 <= i < j < |beats| :: beats[i] < beats[j])
    }

    /** The step of the last accepted heartbeat, or the one that entered. */
    function LastBeat(entered: nat, beats: seq<nat>): nat {
      if beats == [] then entered else beats[|beats| - 1]
    }

    /** Since it entered, this holder has only renewed; `beats` are the accepted renewals, and up to the last one nobody else acquired. */
    predicate Beating(acts: seq<Action>, entered: nat, beats: seq<nat>) {
      && entered < |acts| && acts[entered].Acquire? && acts[entered].holder == holder
      && Renewals(acts, entered, beats)
      && (forall k | entered < k < |acts| && !acts[k].Tick? && acts[k].holder == holder :: acts[k].Renew?)
      && (forall k | entered < k <= LastBeat(entered, beats) :: !acts[k].Acquire?)
    }

    /** After the last accepted renewal this holder has done nothing. */
    predicate Settled(acts: seq<Action>, entered: nat, beats: seq<nat>) {
      forall k | LastBeat(entered, beats) < k < |acts| :: acts[k].Tick? || acts[k].holder != holder
    }

    /** One heartbeat. */
    method Beat(api: LeaseApi, ghost entered: nat, ghost beats: seq<nat>) returns (accepted: bool, ghost beats': seq<nat>)
      requires api.Valid() && Beating(api.acts, entered, beats) && Settled(api.acts, entered, beats)
      modifies api
      ensures api.Valid() && old(api.acts) <= api.acts && old(api.faults) <= api.faults
      ensures Beating(api.acts, entered, beats') && (accepted ==> Settled(api.acts, entered, beats'))
      ensures |beats'| == if accepted then |beats| + 1 else |beats|
      ensures !accepted && api.faults == old(api.faults) ==> !HeldBy(api.world, holder)
    {
      ghost var before := api.acts;
      var renewed, at := Renew(api);
      assert api.acts[..|before|] == before;
      accepted := renewed == Some(true);
      beats' := beats;
      if accepted {
        RenewalProvesHold(api.states, api.acts, entered, |api.acts| - 1, holder);
        beats' := beats + [|api.acts| - 1];
      }
    }

    /**
      The heartbeat task, for as many heartbeats as fall due: it stops at the first that is not accepted.
     */
    method Heartbeats(api: LeaseApi, ghost entered: nat, due: nat) returns (lost: bool, ghost beats: seq<nat>)
      requires api.Valid() && entered == |api.acts| - 1 && api.acts[entered].Acquire? && api.acts[entered].holder == holder
      modifies api
      ensures api.Valid() && old(api.acts) <= api.acts && old(api.faults) <= api.faults
      ensures Beating(api.acts, entered, beats) && (!lost ==> Settled(api.acts, entered, beats))
      ensures |beats| <= due && (lost <==> |beats| < due)
      ensures lost && api.faults == old(api.faults) ==> !HeldBy(api.world, holder)
    {
      lost, beats := false, [];
      var left := due;
      while left > 0 && !lost
        invariant api.Valid() && old(api.acts) <= api.acts && old(api.faults) <= api.faults && 0 <= left
        invariant Beating(api.acts, entered, beats) && (!lost ==> Settled(api.acts, entered, beats))
        invariant |beats| + left + (if lost then 1 else 0) == due
        invariant lost && api.faults == old(api.faults) ==> !HeldBy(api.world, holder)
      {
        var accepted;
        accepted, beats := Beat(api, entered, beats);
        lost := !accepted;
        left := left - 1;
      }
    }

    /**
      The operation that entered with this step: it is kept exactly if all `due` heartbeats were
      accepted; up to the last accepted one nobody else acquired; and after it this holder renewed no
      more if the operation was kept, and did nothing but renew and release.
     */
    predicate Held(acts: seq<Action>, entered: nat, beats: seq<nat>, due: nat, kept: bool) {
      && entered < |acts| && acts[entered].Acquire? && acts[entered].holder == holder
      && Renewals(acts, entered, beats) && |beats| <= due && (kept <==> |beats| == due)
      && (forall k | entered < k <= LastBeat(entered, beats) :: !acts[k].Acquire?)
      && (forall k | LastBeat(entered, beats) < k < |acts| && !acts[k].Tick? && acts[k].holder == holder ::
            acts[k].Release? || (!kept && acts[k].Renew?))
    }

    /** Since it entered, somebody else took the Lease over. */
    predicate TakenOver(states: seq<World>, acts: seq<Action>, entered: nat) {
      exists k :: entered < k < |acts| && TakesOver(states, acts, k, holder)
    }

    /**
      `host_operation`: acquire, renew with every heartbeat that falls due, give back. Without a fault
      the Lease is not entered only if it was taken, lost only to another that took it over after it
      had expired, and not held at the end.
     */
    method Hold(api: LeaseApi, due: nat) returns (r: Operation, ghost entered: nat, ghost beats: seq<nat>)
      requires api.Valid()
      modifies api
      ensures api.Valid() && old(api.acts) <= api.acts && old(api.faults) <= api.faults
      ensures !r.NotEntered? ==> |old(api.acts)| <= entered && Held(api.acts, entered, beats, due, r.Kept?)
      ensures api.faults == old(api.faults) ==>
                match r
                case NotEntered => TakenSince(api.states, |old(api.states)| - 1, old(api.world).clock)
                case Lost => !HeldBy(api.world, holder) && TakenOver(api.states, api.acts, entered)
                case Kept => !HeldBy(api.world, holder)
    {
      entered, beats := 0, [];
      var acquired, stamp := Acquire(api);
      if acquired.None? { return NotEntered, 0, []; }
      if !acquired.value {
        if api.faults == old(api.faults) { TakenEarlier(api.states, |old(api.states)| - 1, old(api.world).clock, stamp); }
        return NotEntered, 0, [];
      }
      entered := |api.acts| - 1;
      var kept;
      kept, beats := BeatAndRelease(api, entered, due);
      return if kept then Kept else Lost, entered, beats;
    }

    /** What follows the acquisition. */
    method BeatAndRelease(api: LeaseApi, ghost entered: nat, due: nat) returns (kept: bool, ghost beats: seq<nat>)
      requires api.Valid() && entered == |api.acts| - 1 && api.acts[entered].Acquire? && api.acts[entered].holder == holder
      modifies api
      ensures api.Valid() && old(api.acts) <= api.acts && old(api.faults) <= api.faults
      ensures Held(api.acts, entered, beats, due, kept)
      ensures api.faults == old(api.faults) ==> !HeldBy(api.world, holder) && (kept || TakenOver(api.states, api.acts, entered))
    {
      var lost;
      lost, beats := Heartbeats(api, entered, due);
      ghost var states, acts := api.states, api.acts;
      if lost && api.faults == old(api.faults) { LostToAnother(states, acts, entered, beats); }
      var released := Release(api);
      assert api.acts[..|acts|] == acts;
      if TakenOver(states, acts, entered) { TakenOverStays(states, acts, api.states, api.acts, entered); }
      kept := !lost;
    }

    lemma LostToAnother(states: seq<World>, acts: seq<Action>, entered: nat, beats: seq<nat>)
      requires Behavior(states, acts) && Beating(acts, entered, beats) && !HeldBy(states[|acts|], holder)
      ensures TakenOver(states, acts, entered)
    {
      assert StepAt(states, acts, entered);
      var k := LostMeansTakenOver(states, acts, entered + 1, |acts|, holder);
    }

    lemma TakenOverStays(states: seq<World>, acts: seq<Action>, states': seq<World>, acts': seq<Action>, entered: nat)
      requires TakenOver(states, acts, entered) && states <= states' && acts <= acts'
      ensures TakenOver(states', acts', entered)
    {
      var k :| entered < k < |acts| && TakesOver(states, acts, k, holder);
      assert TakesOver(states', acts', k, holder);
    }
  }
}
