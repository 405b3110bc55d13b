/** Whole handler runs of one SSHMachine, in any number and order (controllers/sshmachine.py). */
module SshMachine {
  import opened Wrappers
  import opened Protocol
  import opened Invariants
  import opened Cluster
  import opened Inventory
  import opened Operations
  import opened Reboots
  import opened Deletion
  import L = RebootLedger

  /** What a handler leaves to Kopf: success only if it was seen, and the reboot record as it may be stored. */
  ghost predicate Staged(w: World, u: Uid, provisioned: Option<bool>, reboot: Option<L.Record>) {
    && u in w.machines
    && (provisioned == Some(true) ==> w.machines[u].past.bootstrapped)
    && StagedOk(reboot, w.machines[u].reboot)
  }

  /**
    What a run finds in things outside this model: whether the object has a CAPI owner, whether its
    configuration can work, and whether there are usable bootstrap data.
   */
  datatype Found = Found(owned: bool, wellFormed: bool, dataReady: bool)

  /** Why the allocation cannot be used, or there is none. */
  ghost predicate NotBound(w: World, w': World, states: seq<World>, from: nat, u: Uid, m: Machine) {
    if m.allocation.Some? then !Usable(w', u, m.spec, m.allocation.value)
    else Unbindable(w, w', states, from, u, m.spec, m.provisioned)
  }

  /** How the part after binding ends: in a dry run or without data nothing is sent, and else as the bootstrap ends. */
  ghost predicate ProvisionEnd(
    provisioned: Option<bool>, found: Found, w': World, states: seq<World>, acts: seq<Action>, from: nat, u: Uid, m: Machine)
    requires u in w'.machines
  {
    if !found.dataReady || m.spec.dryRun then provisioned == Some(false)
    else
      var allocation := w'.machines[u].allocation;
      allocation.Some? && BootstrapEnd(provisioned, states, acts, from, u, allocation.value)
  }

  /** How a run ends in which every call goes as asked; `m` is the object as the run read it. */
  ghost predicate ReconcileEnd(
    r: Outcome<()>, provisioned: Option<bool>, found: Found, w: World, w': World,
    states: seq<World>, acts: seq<Action>, from: nat, u: Uid, m: Machine)
    requires u in w'.machines
  {
    if m.spec.paused || m.deleting then r.Ok? && provisioned.None?
    else
      || (PausedSince(states, from, u) && r.Ok? && provisioned.None?)
      || if !found.owned then r.Ok? && provisioned == Some(false)
         else if !found.wellFormed then r.Permanent? && provisioned == Some(false)
         else
           || (!r.Ok? && provisioned.None? && NotBound(w, w', states, from, u, m))
           || if m.provisioned then r.Ok? && provisioned.None? else ProvisionEnd(provisioned, found, w', states, acts, from, u, m)
  }

  /**
    One reconcile run. It never gives up a claim, stages success only after a receipt 0, and without a
    fault ends as `ReconcileEnd` says.
   */
  method ReconcileImpl(c: Cluster, u: Uid, m: Machine, found: Found, patch: Patch) returns (r: Outcome<()>)
    requires c.Valid() && u in c.world.machines && SameRecords(m, c.world.machines[u])
    requires !m.deleting ==> m.cleanup.NoCleanup?
    requires m.deleting ==> c.world.machines[u].deleting
    requires patch.provisioned.None?
    modifies c, patch`provisioned
    ensures c.Valid() && c.Ran() && u in c.world.machines
    ensures Snapshot(m, c.world.machines[u]) && c.world.machines[u].cleanup == m.cleanup && c.world.machines[u].provisioned == m.provisioned
    ensures KeepsClaims(u, old(c.world), c.world)
    ensures patch.provisioned == Some(true) ==> c.world.machines[u].past.bootstrapped
    ensures c.faults == old(c.faults) ==>
              ReconcileEnd(r, patch.provisioned, found, old(c.world), c.world, c.states, c.acts, |old(c.acts)|, u, m)
  {
    ghost var start, from := c.world, |c.acts|;
    c.Knows(u);
    var ok, paused := IsPaused(c, u, m);
    ghost var asked, since := c.world, |c.acts|;
    SteadyKeepsClaims(start, asked, u);
    if !ok { return Temporary; }
    if paused || m.deleting {
      if paused && !m.spec.paused { PausedNow(c.states, from, u); }
      return Ok(());
    }
    if !found.owned || !found.wellFormed {
      patch.provisioned := Some(false);
      return if found.owned then Permanent else Ok(());
    }
    r := BindAndProvision(c, u, m, found, patch);
    KeepsClaimsTransitive(start, asked, c.world, u);
    if c.faults == old(c.faults) {
      if StaysLive(asked, c.world) && NotBound(asked, c.world, c.states, since, u, m) {
        NotBoundBefore(start, asked, c.world, c.states, from, since, u, m);
      }
      if ProvisionEnd(patch.provisioned, found, c.world, c.states, c.acts, since, u, m) {
        ProvisionEndBefore(patch.provisioned, found, c.world, c.states, c.acts, from, since, u, m);
      }
    }
  }

  /** The part of the run for an object that is not paused and can be worked on. */
  method BindAndProvision(c: Cluster, u: Uid, m: Machine, found: Found, patch: Patch) returns (r: Outcome<()>)
    requires c.Valid() && u in c.world.machines && SameRecords(m, c.world.machines[u])
    requires !m.deleting && m.cleanup.NoCleanup?
    requires patch.provisioned.None?
    modifies c, patch`provisioned
    ensures c.Valid() && c.Ran() && u in c.world.machines
    ensures Snapshot(m, c.world.machines[u]) && c.world.machines[u].cleanup == m.cleanup && c.world.machines[u].provisioned == m.provisioned
    ensures KeepsClaims(u, old(c.world), c.world)
    ensures patch.provisioned == Some(true) ==> c.world.machines[u].past.bootstrapped
    ensures c.faults == old(c.faults) ==>
              || (!r.Ok? && patch.provisioned.None? && NotBound(old(c.world), c.world, c.states, |old(c.acts)|, u, m) && StaysLive(old(c.world), c.world))
              || if m.provisioned then r.Ok? && patch.provisioned.None?
                 else ProvisionEnd(patch.provisioned, found, c.world, c.states, c.acts, |old(c.acts)|, u, m)
  {
    ghost var start, from := c.world, |c.acts|;
    c.Knows(u);
    var binding := BindMachine(c, u, m);
    ghost var bound, since := c.world, |c.acts|;
    if !binding.Ok? { return if binding.Permanent? then Permanent else Temporary; }
    if m.provisioned { return Ok(()); }
    r := Provision(c, u, m, binding.value, found, patch);
    KeepsClaimsTransitive(start, bound, c.world, u);
    if c.faults == old(c.faults) { ProvisionEndBefore(patch.provisioned, found, c.world, c.states, c.acts, from, since, u, m); }
  }

  lemma ProvisionEndBefore(
    provisioned: Option<bool>, found: Found, w': World, states: seq<World>, acts: seq<Action>, from0: nat, from: nat, u: Uid, m: Machine)
    requires u in w'.machines && ProvisionEnd(provisioned, found, w', states, acts, from, u, m) && from0 <= from
    ensures ProvisionEnd(provisioned, found, w', states, acts, from0, u, m)
  {
    if found.dataReady && !m.spec.dryRun {
      BootstrapEndBefore(provisioned, states, acts, from0, from, u, w'.machines[u].allocation.value);
    }
  }

  lemma NotBoundBefore(w0: World, w: World, w': World, states: seq<World>, from0: nat, from: nat, u: Uid, m: Machine)
    requires Others(u, w0, w) && StaysLive(w, w') && NotBound(w, w', states, from, u, m) && from0 <= from
    ensures NotBound(w0, w', states, from0, u, m)
  {
    if m.allocation.None? && FromPool(m.spec) {
      if g :| LostOrWithheld(w, w', u, g) {
        assert LostOrWithheld(w0, w', u, g);
      } else if h :| h in w0.hosts && Holds(w0, u, h) {
        assert !Holds(w, u, h);
        assert LostOrWithheld(w0, w', u, h);
      } else if MaySelect(m.spec, m.provisioned) {
        var listed :| ListedSince(states, from, listed) && NoCandidate(listed, m.spec);
        assert ListedSince(states, from0, listed);
      }
    }
  }

  lemma KeepsClaimsTransitive(a: World, b: World, c: World, u: Uid)
    requires KeepsClaims(u, a, b) && KeepsClaims(u, b, c)
    ensures KeepsClaims(u, a, c)
  {
  }

  /** Bootstrap data and secrets, the dry run, and the bootstrap itself. */
  method Provision(c: Cluster, u: Uid, m: Machine, binding: Binding, found: Found, patch: Patch) returns (r: Outcome<()>)
    requires c.Valid() && u in c.world.machines && c.world.machines[u].cleanup.NoCleanup?
    requires c.world.machines[u].allocation.Some? && SameTarget(c.world.machines[u].allocation.value, binding)
    requires c.world.machines[u].ownership == m.ownership
    requires binding.host.Some? ==> binding.host.value in c.world.hosts
    requires patch.provisioned.None?
    modifies c, patch`provisioned
    ensures c.Valid() && c.Ran()
    ensures OnlyBootstraps(old(c.world), c.world, u)
    ensures patch.provisioned == Some(true) ==> c.world.machines[u].past.bootstrapped
    ensures m.spec.dryRun || !found.dataReady ==> patch.provisioned == Some(false) && Others(u, old(c.world), c.world)
    ensures c.faults == old(c.faults) ==> ProvisionEnd(patch.provisioned, found, c.world, c.states, c.acts, |old(c.acts)|, u, m)
  {
    ghost var start, from := c.world, |c.acts|;
    var read := c.Try(u);
    ghost var ready, since := c.world, |c.acts|;
    CalmBootstraps(start, ready, u);
    if !read || !found.dataReady || m.spec.dryRun {
      patch.provisioned := Some(false);
      return if read && found.dataReady then Ok(()) else Temporary;
    }
    r := BootstrapMachine(c, u, m.ownership, binding, patch);
    OnlyBootstrapsTransitive(start, ready, c.world, u);
    if c.faults == old(c.faults) {
      BootstrapEndBefore(patch.provisioned, c.states, c.acts, from, since, u, binding);
      EndOfAllocation(patch.provisioned, c.states, c.acts, from, u, binding, c.world.machines[u].allocation.value);
    }
  }

  /** What is said about the binding of the run is said about the stored allocation. */
  lemma EndOfAllocation(
    provisioned: Option<bool>, states: seq<World>, acts: seq<Action>, from: nat, u: Uid, binding: Binding, allocation: Binding)
    requires BootstrapEnd(provisioned, states, acts, from, u, binding) && SameTarget(allocation, binding)
    ensures BootstrapEnd(provisioned, states, acts, from, u, allocation)
  {
  }

  /** `m` is the object of `u` in some state since `from`. */
  predicate ReadSince(states: seq<World>, from: nat, u: Uid, m: Machine) {
    exists k :: from <= k < |states| && u in states[k].machines && states[k].machines[u] == m
  }

  /**
    The handler body under the reconcile locks: read the live object, then delete, or bootstrap and
    reboot. It starts from any reachable state, so `Recovery` is about whatever earlier runs left behind.
   */
  method Handle(c: Cluster, u: Uid, delete: bool, found: Found, patch: Patch) returns (deletion: Option<Deletion>, ghost seen: Machine)
    requires c.Valid() && u in c.world.machines
    requires patch.provisioned.None? && patch.reboot.None?
    modifies c, patch
    ensures c.Valid() && c.Ran()
    ensures Staged(c.world, u, patch.provisioned, patch.reboot)
    ensures !delete ==> KeepsClaims(u, old(c.world), c.world) && deletion.None?
    ensures SameRecords(old(c.world).machines[u], seen) && ReadSince(c.states, |old(c.states)| - 1, u, seen)
    ensures deletion.Some? ==>
              Recovery(u, seen, deletion.value, c.faults == old(c.faults), old(c.world), c.world, c.states, c.acts, |old(c.acts)|)
    ensures delete && c.faults == old(c.faults) && old(c.world).machines[u].deleting ==> deletion.Some?
    ensures !delete && c.faults == old(c.faults) ==>
              UpdatedSince(patch.provisioned, found, c.states, c.acts, |old(c.states)| - 1, u, seen)
  {
    ghost var start, from := c.world, |c.acts|;
    var ok, m := c.GetMachine(u);
    ghost var read, states, since := c.world, c.states, |c.acts|;
    seen := m;
    assert states[since].machines[u] == seen;
    if !ok {
      SteadyKeepsClaims(start, read, u);
      return None, seen;
    }
    if delete {
      // Kopf calls a delete handler only for an object that is marked for deletion.
      if !m.deleting { return None, seen; }
      var ended := DeleteMachine(c, u, m, patch);
      RecoveryBefore(u, m, ended, c.faults == old(c.faults), start, read, c.world, c.states, c.acts, from, since);
      assert c.states[since] == states[since];
      return Some(ended), seen;
    }
    HandleUpdate(c, u, m, found, patch);
    SteadyKeepsClaims(start, read, u);
    KeepsClaimsTransitive(start, read, c.world, u);
    assert c.states[since] == states[since];
    assert c.faults == old(c.faults) ==> UpdatedFrom(since, patch.provisioned, found, c.states, c.acts, u, seen);
    return None, seen;
  }

  /** Step `mid` ended the reconcile run with `r`; if it went well, a reboot run followed. */
  ghost predicate UpdateEndsAt(
    mid: nat, r: Outcome<()>, provisioned: Option<bool>, found: Found, w: World, w': World,
    states: seq<World>, acts: seq<Action>, from: nat, u: Uid, m: Machine)
  {
    && from <= mid <= |acts| && mid < |states| && u in states[mid].machines
    && ReconcileEnd(r, provisioned, found, w, states[mid], states[..mid + 1], acts[..mid], from, u, m)
    && (r.Ok? && !m.deleting ==> RebootEnd(u, m, false, states[mid], w', states, acts, mid))
  }

  ghost predicate UpdateEnd(
    provisioned: Option<bool>, found: Found, w: World, w': World, states: seq<World>, acts: seq<Action>, from: nat, u: Uid, m: Machine)
  {
    exists mid, r :: UpdateEndsAt(mid, r, provisioned, found, w, w', states, acts, from, u, m)
  }

  /** The object was read in some state since `from`, and from there the run went on to its end. */
  ghost predicate UpdatedSince(
    provisioned: Option<bool>, found: Found, states: seq<World>, acts: seq<Action>, from: nat, u: Uid, m: Machine)
  {
    exists k: nat :: from <= k && UpdatedFrom(k, provisioned, found, states, acts, u, m)
  }

  ghost predicate UpdatedFrom(
    k: nat, provisioned: Option<bool>, found: Found, states: seq<World>, acts: seq<Action>, u: Uid, m: Machine)
  {
    && k < |states| && u in states[k].machines && states[k].machines[u] == m
    && UpdateEnd(provisioned, found, states[k], states[|states| - 1], states, acts, k, u, m)
  }

  /** The create, update and timer handlers. */
  method HandleUpdate(c: Cluster, u: Uid, m: Machine, found: Found, patch: Patch)
    requires c.Valid() && u in c.world.machines && c.world.machines[u] == m
    requires patch.provisioned.None? && patch.reboot.None?
    modifies c, patch
    ensures c.Valid() && c.Ran()
    ensures Staged(c.world, u, patch.provisioned, patch.reboot)
    ensures KeepsClaims(u, old(c.world), c.world)
    ensures c.faults == old(c.faults) ==>
              UpdateEnd(patch.provisioned, found, old(c.world), c.world, c.states, c.acts, |old(c.acts)|, u, m)
  {
    ghost var read, from := c.world, |c.acts|;
    c.Knows(u);
    var r := ReconcileImpl(c, u, m, found, patch);
    ghost var reconciled, mid, states, acts := c.world, |c.acts|, c.states, c.acts;
    if r.Ok? && !m.deleting {
      RebootOnUpdate(c, u, m, patch);
      KeepsClaimsTransitive(read, reconciled, c.world, u);
    }
    assert c.states[..mid + 1] == states && c.acts[..mid] == acts;
    assert c.faults == old(c.faults) ==>
             UpdateEndsAt(mid, r, patch.provisioned, found, read, c.world, c.states, c.acts, from, u, m);
  }

  /** The reboot run after a reconcile run that went well. */
  method RebootOnUpdate(c: Cluster, u: Uid, m: Machine, patch: Patch)
    requires c.Valid() && u in c.world.machines && Snapshot(m, c.world.machines[u]) && c.world.machines[u].cleanup.NoCleanup?
    requires patch.reboot.None?
    modifies c, patch`reboot
    ensures c.Valid() && c.Ran() && OnlyReboots(old(c.world), c.world, u)
    ensures StagedOk(patch.reboot, c.world.machines[u].reboot)
    ensures c.faults == old(c.faults) ==> RebootEnd(u, m, false, old(c.world), c.world, c.states, c.acts, |old(c.acts)|)
  {
    var rebooted, boot, now := ReconcileReboot(c, u, m, false, patch);
  }

  /** Kopf applies the staged patch, or fails to, before the next run; others act in between. */
  method ApplyStaged(c: Cluster, u: Uid, patch: Patch)
    requires c.Valid() && Staged(c.world, u, patch.provisioned, patch.reboot)
    modifies c
    ensures c.Valid() && c.Ran() && u in c.world.machines
    ensures var m, m' := old(c.world).machines[u], c.world.machines[u];
            && m'.cleanup == m.cleanup && m'.allocation == m.allocation && m'.ownership == m.ownership
            && m'.reboot.intents == m.reboot.intents && m'.reboot.sent == m.reboot.sent
    ensures HostsSteady(u, old(c.world), c.world)
  {
    ghost var start := c.world;
    c.Interfere(u);
    ghost var before := c.world;
    var applied: bool := *;
    if !applied || !c.world.machines[u].live { return; }
    if patch.reboot.Some? { ApplyReboot(c, u, patch.reboot); }
    HostsSteadyTransitive(start, before, c.world, u);
    if patch.provisioned.Some? { c.Do(OnMachine(u, SaveProvisioned(patch.provisioned.value))); }
  }

  method ApplyReboot(c: Cluster, u: Uid, staged: Option<L.Record>)
    requires c.Valid() && u in c.world.machines && c.world.machines[u].live
    requires staged.Some? && StagedOk(staged, c.world.machines[u].reboot)
    modifies c
    ensures c.Valid() && c.Ran() && u in c.world.machines
    ensures var m, m' := old(c.world).machines[u], c.world.machines[u];
            && m' == m.(reboot := m'.reboot, version := m'.version) && m'.reboot.record == staged
            && m'.reboot.intents == m.reboot.intents && m'.reboot.sent == m.reboot.sent
    ensures c.world.hosts == old(c.world).hosts
  {
    c.Knows(u);
    var m := c.world.machines[u];
    var change := if staged == m.reboot.record then L.Keep else L.Answer(staged.value.phase);
    StagedIsPermitted(m, u, staged, change, RemoteAt(c.world, TargetOf(m)).boots);
    c.Do(OnMachine(u, SaveReboot(change)));
  }

  /** A staged record is the stored one or the answer to its intent. */
  lemma StagedIsPermitted(m: Machine, u: Uid, staged: Option<L.Record>, change: L.Op, boots: nat)
    requires m.live && LedgerOk(m, boots) && staged.Some? && StagedOk(staged, m.reboot)
    requires change == if staged == m.reboot.record then L.Keep else L.Answer(staged.value.phase)
    ensures MayWrite(m, u, SaveReboot(change), boots)
    ensures L.Apply(m.reboot, change).record == staged
    ensures L.Apply(m.reboot, change).intents == m.reboot.intents && L.Apply(m.reboot, change).sent == m.reboot.sent
  {
  }

  /**
    Any number of runs for one Machine, each followed by its staged patch, with everybody else at work
    all the time: every state that is ever reached continues a behaviour of the transition system.
   */
  method Serve(c: Cluster, u: Uid)
    requires c.Valid() && u in c.world.machines
    modifies c
    ensures c.Valid() && c.Ran() && u in c.world.machines
  {
    var runs: nat := *;
    while runs > 0
      invariant c.Valid() && c.Ran() && u in c.world.machines
    {
      var delete: bool, found: Found := *, *;
      var patch := new Patch();
      var ended, seen := Handle(c, u, delete, found, patch);
      ApplyStaged(c, u, patch);
      runs := runs - 1;
    }
  }
}
