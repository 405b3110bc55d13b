/** Bootstrap under the remote fence: ownership, the detached job, and its receipt (operations.py, controllers/sshmachine.py). */
module Operations {
  import opened Wrappers
  import opened Protocol
  import opened Theorems
  import opened Cluster
  import opened Inventory
  import R = RemoteHost
  import L = RebootLedger

  /** The part of the Kopf patch of a handler that is not already stored when the handler ends. */
  class Patch {
    var provisioned: Option<bool>
    var reboot: Option<L.Record>

    constructor ()
      ensures provisioned.None? && reboot.None?
    {
      provisioned, reboot := None, None;
    }
  }

  /** What bootstrapping may do to the records and claims of `u`. */
  ghost predicate OnlyBootstraps(w: World, w': World, u: Uid) {
    && u in w.machines && u in w'.machines
    && OnlyOwns(w.machines[u], w'.machines[u])
    && KeepsClaims(u, w, w')
  }

  predicate OnlyOwns(m: Machine, m': Machine) {
    && m'.allocation == m.allocation && m'.provisioned == m.provisioned && m'.cleanup == m.cleanup
    && m'.reboot == m.reboot && (m.deleting ==> m'.deleting)
    && (m.ownership.Some? ==> m'.ownership == m.ownership)
    && (m.past.cleaned ==> m'.past.cleaned) && (m.past.bootstrapped ==> m'.past.bootstrapped)
  }

  lemma OnlyBootstrapsTransitive(a: World, b: World, c: World, u: Uid)
    requires OnlyBootstraps(a, b, u) && OnlyBootstraps(b, c, u)
    ensures OnlyBootstraps(a, c, u)
  {
  }

  lemma CalmBootstraps(w: World, w': World, u: Uid)
    requires Calm(w, w', u) || Others(u, w, w')
    ensures OnlyBootstraps(w, w', u)
  {
    SteadyKeepsClaims(w, w', u);
  }

  lemma SteadyKeepsClaims(w: World, w': World, u: Uid)
    requires HostsSteady(u, w, w')
    ensures KeepsClaims(u, w, w')
  {
    assert forall h | h in w.hosts :: h in w'.hosts && HostSteady(u, w.hosts[h], w'.hosts[h]);
  }

  lemma SendBootstraps(w: World, w': World, u: Uid, cleaned: bool, saw: bool)
    requires AfterSend(w, w', u, cleaned, saw) && HostsSteady(u, w, w')
    requires w'.machines[u].ownership == w.machines[u].ownership
    ensures OnlyBootstraps(w, w', u)
  {
    SteadyKeepsClaims(w, w', u);
  }

  lemma OwnershipWriteBootstraps(w: World, w': World, u: Uid, b: Binding, sure: bool)
    requires u in w.machines && Wrote(w, w', u, SaveOwnership(b), sure)
    requires w.machines[u].ownership.Some? ==> w.machines[u].ownership.value == b
    ensures OnlyBootstraps(w, w', u)
  {
    SteadyKeepsClaims(w, w', u);
  }

  method StoreOwnership(c: Cluster, u: Uid, ownership: Option<Binding>, binding: Binding) returns (ok: bool)
    requires c.Valid() && u in c.world.machines && c.world.machines[u].cleanup.NoCleanup?
    requires c.world.machines[u].allocation.Some? && SameTarget(c.world.machines[u].allocation.value, binding)
    requires c.world.machines[u].ownership == ownership
    modifies c
    ensures c.Valid() && c.Ran() && (c.faults == old(c.faults) <==> ok)
    ensures OnlyBootstraps(old(c.world), c.world, u)
    ensures ok ==> c.world.machines[u].ownership == Some(if ownership.Some? then ownership.value else binding)
    ensures NoJob(old(c.world), c.world, u)
    ensures ok ==> TargetOf(c.world.machines[u]) == binding.target
  {
    c.Knows(u);
    var owner := if ownership.Some? then ownership.value else binding;
    ok := PersistMachineStatus(c, u, SaveOwnership(owner));
    OwnershipWriteBootstraps(old(c.world), c.world, u, owner, ok);
  }

  /**
    The claim command. A host with another owner or with foreign residue answers 78 and is quarantined
    for good; a busy one is tried again.
   */
  method ClaimRemote(c: Cluster, u: Uid, binding: Binding) returns (r: Outcome<()>)
    requires c.Valid() && u in c.world.machines && MayBootstrap(c.world.machines[u])
    requires binding.target == TargetOf(c.world.machines[u])
    requires binding.host.Some? ==> binding.host.value in c.world.hosts
    modifies c
    ensures c.Valid() && c.Ran()
    ensures OnlyBootstraps(old(c.world), c.world, u) && NoJob(old(c.world), c.world, u)
    ensures r.Ok? ==> RemoteAt(c.world, binding.target).owner == R.Owned(u)
    ensures r.Permanent? ==> Refused(c.states, c.acts, |old(c.acts)|, u, binding)
    ensures c.faults == old(c.faults) && StillHeld(old(c.world), u, binding) ==>
              r.Ok? || r.Permanent? || Answered(c.states, c.acts, |old(c.acts)|, u, binding.target, false, 1)
  {
    ghost var start := c.world;
    var reply := c.RunClaimOwner(u, binding.target);
    ghost var claimed, from := c.world, |old(c.acts)|;
    SendBootstraps(start, claimed, u, false, false);
    if reply == Exit(0) { return Ok(()); }
    if reply != Exit(78) { return Temporary; }
    HeldSteady(start, claimed, u, binding);
    r := QuarantineForeign(c, u, binding, from);
    OnlyBootstrapsTransitive(start, claimed, c.world, u);
  }

  /** The answer 78 to the claim command. */
  method QuarantineForeign(c: Cluster, u: Uid, binding: Binding, ghost from: nat) returns (r: Outcome<()>)
    requires c.Valid() && u in c.world.machines && from <= |c.acts|
    requires binding.host.Some? ==> binding.host.value in c.world.hosts
    requires Answered(c.states, c.acts, from, u, binding.target, false, 78)
    modifies c
    ensures c.Valid() && c.Ran() && OnlyBootstraps(old(c.world), c.world, u) && NoJob(old(c.world), c.world, u)
    ensures r in {Permanent, Temporary} && (r.Permanent? ==> Refused(c.states, c.acts, from, u, binding))
    ensures c.faults == old(c.faults) && StillHeld(old(c.world), u, binding) ==> r.Permanent?
  {
    ghost var states, acts, refused := c.states, c.acts, c.world;
    var quarantined := SetHostPhase(c, u, binding, Quarantined, "RemoteOwnershipMismatch");
    HostPhaseBootstraps(refused, c.world, u);
    AnsweredBefore(states, acts, c.states, c.acts, from, from, u, binding.target, false, 78);
    if !quarantined { return Temporary; }
    if binding.host.Some? {
      DidBefore(c.acts, c.acts, from, |acts|, OnHost(u, binding.host.value, SetPhase(Quarantined, "RemoteOwnershipMismatch")));
    }
    return Permanent;
  }

  /** The claim command was refused, and the host was quarantined for it. */
  ghost predicate Refused(states: seq<World>, acts: seq<Action>, from: nat, u: Uid, binding: Binding) {
    && Answered(states, acts, from, u, binding.target, false, 78)
    && (binding.host.Some? ==> Did(acts, from, OnHost(u, binding.host.value, SetPhase(Quarantined, "RemoteOwnershipMismatch"))))
  }

  lemma RefusedBefore(
    states: seq<World>, acts: seq<Action>, states': seq<World>, acts': seq<Action>, from: nat, from': nat, u: Uid, binding: Binding)
    requires Refused(states, acts, from', u, binding) && states <= states' && acts <= acts' && from <= from'
    ensures Refused(states', acts', from, u, binding)
  {
    AnsweredBefore(states, acts, states', acts', from, from', u, binding.target, false, 78);
    if binding.host.Some? { DidBefore(acts, acts', from, from', OnHost(u, binding.host.value, SetPhase(Quarantined, "RemoteOwnershipMismatch"))); }
  }

  lemma HeldSteady(w: World, w': World, u: Uid, binding: Binding)
    requires HostsSteady(u, w, w')
    ensures StillHeld(w, u, binding) ==> StillHeld(w', u, binding)
  {
  }

  /** Store ownership, then claim the host; nothing is sent before ownership is stored. */
  method EnsureBootstrapOwnership(c: Cluster, u: Uid, ownership: Option<Binding>, binding: Binding) returns (r: Outcome<()>)
    requires c.Valid() && u in c.world.machines && c.world.machines[u].cleanup.NoCleanup?
    requires c.world.machines[u].allocation.Some? && SameTarget(c.world.machines[u].allocation.value, binding)
    requires c.world.machines[u].ownership == ownership
    requires binding.host.Some? ==> binding.host.value in c.world.hosts
    modifies c
    ensures c.Valid() && c.Ran()
    ensures OnlyBootstraps(old(c.world), c.world, u) && NoJob(old(c.world), c.world, u)
    ensures r.Ok? ==> c.world.machines[u].ownership == Some(if ownership.Some? then ownership.value else binding)
    ensures r.Ok? ==> TargetOf(c.world.machines[u]) == binding.target && RemoteAt(c.world, binding.target).owner == R.Owned(u)
    ensures r.Permanent? ==> Refused(c.states, c.acts, |old(c.acts)|, u, binding)
    ensures c.faults == old(c.faults) ==>
              r.Ok? || r.Permanent? || Answered(c.states, c.acts, |old(c.acts)|, u, binding.target, false, 1)
  {
    ghost var start, acts := c.world, |c.acts|;
    AllocatedHost(c, u, binding);
    var ok := StoreOwnership(c, u, ownership, binding);
    ghost var saved, from := c.world, |c.acts|;
    if !ok { return Temporary; }
    AllocatedHost(c, u, binding);
    r := ClaimRemote(c, u, binding);
    OnlyBootstrapsTransitive(start, saved, c.world, u);
    if r.Permanent? { RefusedBefore(c.states, c.acts, c.states, c.acts, acts, from, u, binding); }
    if Answered(c.states, c.acts, from, u, binding.target, false, 1) {
      AnsweredBefore(c.states, c.acts, c.states, c.acts, acts, from, u, binding.target, false, 1);
    }
  }

  /** Before any cleanup the allocated host carries the claim. */
  lemma AllocatedHost(c: Cluster, u: Uid, binding: Binding)
    requires c.Valid() && u in c.world.machines && c.world.machines[u].cleanup.NoCleanup?
    requires c.world.machines[u].allocation.Some? && SameTarget(c.world.machines[u].allocation.value, binding)
    ensures StillHeld(c.world, u, binding)
  {
    c.Knows(u);
  }

  lemma HostPhaseBootstraps(w: World, w': World, u: Uid)
    requires OnlyHosts(w, w', u) && HostsSteady(u, w, w')
    ensures OnlyBootstraps(w, w', u)
  {
    SteadyKeepsClaims(w, w', u);
  }

  /**
    Submit one detached job and watch for its receipt. Code 0 is reported only when the payload was
    started once under the owner record of this UID and that start ran to its end with 0. Without a
    fault there is a result unless there was no receipt at the last look before the deadline.
   */
  method DurableBootstrap(c: Cluster, u: Uid, e: Endpoint) returns (r: Outcome<int>)
    requires c.Valid() && u in c.world.machines && MayBootstrap(c.world.machines[u]) && e == TargetOf(c.world.machines[u])
    modifies c
    ensures c.Valid() && c.Ran()
    ensures OnlyBootstraps(old(c.world), c.world, u)
    ensures r == Ok(0) ==> c.world.machines[u].past.bootstrapped
    ensures r == Ok(0) ==> c.acts != [] && SawCompletedRun(c.states[|c.acts| - 1], c.acts[|c.acts| - 1], u)
    ensures r.Ok? ==> c.acts != [] && ReceiptSeen(c.states[|c.acts| - 1], u, e, r.value)
    ensures r.Ok? || c.faults == old(c.faults) ==> Did(c.acts, |old(c.acts)|, Send(u, e, StartJob))
    ensures !r.Permanent? && (c.faults == old(c.faults) ==> r.Ok? || StillPending(c.states, c.acts, u, e))
  {
    ghost var start := c.world;
    var submitted := c.RunStartJob(u, e);
    SendBootstraps(start, c.world, u, false, false);
    if submitted != Exit(0) { return Temporary; }
    ghost var before, submission := c.world, c.acts;
    r := WatchReceipt(c, u, e);
    OnlyBootstrapsTransitive(start, before, c.world, u);
    DidBefore(submission, c.acts, |old(c.acts)|, |old(c.acts)|, Send(u, e, StartJob));
  }

  /** Look for the receipt, at least once, until the deadline. */
  method WatchReceipt(c: Cluster, u: Uid, e: Endpoint) returns (r: Outcome<int>)
    requires c.Valid() && u in c.world.machines && c.world.machines[u].ownership.Some? && e == TargetOf(c.world.machines[u])
    modifies c
    ensures c.Valid() && c.Ran() && OnlyBootstraps(old(c.world), c.world, u) && NoJob(old(c.world), c.world, u)
    ensures r == Ok(0) ==> c.world.machines[u].past.bootstrapped
    ensures r == Ok(0) ==> c.acts != [] && SawCompletedRun(c.states[|c.acts| - 1], c.acts[|c.acts| - 1], u)
    ensures r.Ok? ==> c.acts != [] && ReceiptSeen(c.states[|c.acts| - 1], u, e, r.value)
    ensures !r.Permanent? && (c.faults == old(c.faults) ==> r.Ok? || StillPending(c.states, c.acts, u, e))
  {
    ghost var start := c.world;
    var expired := false;
    var left: nat := *;
    while !expired
      invariant c.Valid() && c.Ran() && OnlyBootstraps(start, c.world, u) && NoJob(start, c.world, u)
      invariant c.world.machines[u].ownership.Some? && e == TargetOf(c.world.machines[u])
      invariant expired ==> StillPending(c.states, c.acts, u, e)
      decreases left, !expired
    {
      ghost var before := c.world;
      var seen := c.RunObserve(u, e);
      SendBootstraps(before, c.world, u, false, seen == Receipt(0));
      OnlyBootstrapsTransitive(start, before, c.world, u);
      match seen
      case Receipt(code) =>
        if code == 0 { SeenSuccessIsReal(c.states, c.acts, |c.acts| - 1, u); }
        return Ok(code);
      case NotOwned => return Temporary;
      case Unreadable => return Temporary;
      case Pending =>
        if left == 0 { expired := true; } else { left := left - 1; }
    }
    return Temporary;
  }

  /** The last thing that happened is a look that found no receipt. */
  predicate StillPending(states: seq<World>, acts: seq<Action>, u: Uid, e: Endpoint) {
    acts != [] && |acts| <= |states| && NoReceiptSeen(states[|acts| - 1], u, e)
  }

  /** The action saw, in that state, a payload that was started once and ended with 0 on the allocated target. */
  predicate SawCompletedRun(w: World, a: Action, u: Uid) {
    && Sends(a, u, SeeSuccess) && u in w.machines && w.machines[u].allocation.Some?
    && a.to == w.machines[u].allocation.value.target
    && var h := RemoteAt(w, a.to);
       (h.owner == R.Owned(u) && h.starts == 1 && h.finished == Some(0))
  }

  lemma CallBootstraps(start: World, before: World, after: World, u: Uid)
    requires OnlyBootstraps(start, before, u) && Others(u, before, after)
    ensures OnlyBootstraps(start, after, u)
  {
    CalmBootstraps(before, after, u);
    OnlyBootstrapsTransitive(start, before, after, u);
  }

  /** The object exists, is not paused and not being deleted. */
  predicate WantedAt(w: World, u: Uid) {
    u in w.machines && w.machines[u].live && !w.machines[u].spec.paused && !w.machines[u].deleting
  }

  /** It was so in some state since `from`. */
  predicate WantedSince(states: seq<World>, from: nat, u: Uid) {
    exists k :: from <= k < |states| && WantedAt(states[k], u)
  }

  /** Since `from` the object was found paused or being deleted. */
  predicate UnwantedSince(states: seq<World>, from: nat, u: Uid) {
    exists k :: from <= k < |states| && UnwantedAt(states[k], u)
  }

  predicate UnwantedAt(w: World, u: Uid) {
    u in w.machines && (w.machines[u].spec.paused || w.machines[u].deleting)
  }

  lemma UnwantedBefore(states: seq<World>, states': seq<World>, from: nat, from': nat, u: Uid)
    requires UnwantedSince(states, from', u) && states <= states' && from <= from'
    ensures UnwantedSince(states', from, u)
  {
    var k :| from' <= k < |states| && UnwantedAt(states[k], u);
    assert UnwantedAt(states'[k], u);
  }

  /** The live object, read again before remote work: gone, paused or being deleted means hands off. */
  method StillWanted(c: Cluster, u: Uid, ghost start: World) returns (r: Outcome<()>)
    requires c.Valid() && u in c.world.machines && OnlyBootstraps(start, c.world, u)
    modifies c
    ensures c.Valid() && c.Ran() && OnlyBootstraps(start, c.world, u)
    ensures c.world.machines[u].ownership == old(c.world).machines[u].ownership
    ensures NoJob(old(c.world), c.world, u)
    ensures r.Ok? ==> WantedAt(c.world, u)
    ensures r.Permanent? ==> UnwantedAt(c.world, u)
    ensures c.faults == old(c.faults) ==> !r.Temporary?
  {
    ghost var before := c.world;
    var ok, latest := c.GetMachine(u);
    CallBootstraps(start, before, c.world, u);
    if !ok { return Temporary; }
    return if latest.spec.paused || latest.deleting then Permanent else Ok(());
  }

  /** A call that changes nothing here: Lease, connection, Secrets, the upload of a private script. */
  method Preliminary(c: Cluster, u: Uid, ghost start: World) returns (ok: bool)
    requires c.Valid() && u in c.world.machines && OnlyBootstraps(start, c.world, u)
    modifies c
    ensures c.Valid() && c.Ran() && OnlyBootstraps(start, c.world, u) && (c.faults == old(c.faults) <==> ok)
    ensures SameRecords(old(c.world).machines[u], c.world.machines[u])
  {
    ghost var before := c.world;
    ok := c.Try(u);
    CallBootstraps(start, before, c.world, u);
  }

  /** Since the state `from` of the history, `u` was found paused at least once. */
  predicate PausedSince(states: seq<World>, from: nat, u: Uid) {
    exists k :: from <= k < |states| && u in states[k].machines && states[k].machines[u].spec.paused
  }

  lemma PausedNow(states: seq<World>, from: nat, u: Uid)
    requires from < |states| && u in states[|states| - 1].machines && states[|states| - 1].machines[u].spec.paused
    ensures PausedSince(states, from, u)
  {
  }

  lemma PausedEarlier(states: seq<World>, states': seq<World>, from: nat, from': nat, u: Uid)
    requires states <= states' && from <= from' && PausedSince(states, from', u)
    ensures PausedSince(states', from, u)
  {
    var k :| from' <= k < |states| && u in states[k].machines && states[k].machines[u].spec.paused;
    assert states'[k] == states[k];
  }

  /** Take the host Lease, connect, and read the object once more: gone, paused or deleted means hands off. */
  method EnterHostOperation(c: Cluster, u: Uid, deleting: bool) returns (r: Outcome<()>)
    requires c.Valid() && u in c.world.machines
    modifies c
    ensures c.Valid() && c.Ran() && Others(u, old(c.world), c.world)
    ensures r.Permanent? ==> c.world.machines[u].spec.paused || (c.world.machines[u].deleting && !deleting)
    ensures c.faults == old(c.faults) ==> !r.Temporary?
    ensures r.Ok? ==> c.world.machines[u].live && !c.world.machines[u].spec.paused && (deleting || !c.world.machines[u].deleting)
  {
    ghost var start := c.world;
    var ok := c.Try(u);
    if !ok { return Temporary; }
    ghost var entered := c.world;
    var latest: Machine;
    ok, latest := c.GetMachine(u);
    OthersTransitive(u, start, entered, c.world);
    if !ok { return Temporary; }
    if latest.spec.paused || (latest.deleting && !deleting) { return Permanent; }
    return Ok(());
  }

  /** Why no job was submitted: paused or being deleted, or the claim command was refused or found the host busy. */
  ghost predicate NotStarted(states: seq<World>, acts: seq<Action>, from: nat, u: Uid, binding: Binding) {
    || UnwantedSince(states, from, u) || Refused(states, acts, from, u, binding)
    || Answered(states, acts, from, u, binding.target, false, 1)
  }

  lemma NotStartedBefore(
    states: seq<World>, acts: seq<Action>, states': seq<World>, acts': seq<Action>, from: nat, from': nat, u: Uid, binding: Binding)
    requires NotStarted(states, acts, from', u, binding) && states <= states' && acts <= acts' && from <= from'
    ensures NotStarted(states', acts', from, u, binding)
  {
    if UnwantedSince(states, from', u) {
      UnwantedBefore(states, states', from, from', u);
    } else if Refused(states, acts, from', u, binding) {
      RefusedBefore(states, acts, states', acts', from, from', u, binding);
    } else {
      AnsweredBefore(states, acts, states', acts', from, from', u, binding.target, false, 1);
    }
  }

  /** Lease, identity and pause check, ownership, upload, and the same check again; no job is submitted yet. */
  method PrepareBootstrap(c: Cluster, u: Uid, ownership: Option<Binding>, binding: Binding) returns (r: Outcome<()>)
    requires c.Valid() && u in c.world.machines && c.world.machines[u].cleanup.NoCleanup?
    requires c.world.machines[u].allocation.Some? && SameTarget(c.world.machines[u].allocation.value, binding)
    requires c.world.machines[u].ownership == ownership
    requires binding.host.Some? ==> binding.host.value in c.world.hosts
    modifies c
    ensures c.Valid() && c.Ran()
    ensures OnlyBootstraps(old(c.world), c.world, u) && NoJob(old(c.world), c.world, u)
    ensures r.Ok? ==> c.world.machines[u].ownership.Some? && TargetOf(c.world.machines[u]) == binding.target
    ensures r.Ok? ==> WantedAt(c.world, u)
    ensures c.faults == old(c.faults) ==> r.Ok? || NotStarted(c.states, c.acts, |old(c.acts)|, u, binding)
  {
    ghost var start, from := c.world, |c.acts|;
    r := EnterHostOperation(c, u, false);
    ghost var checked, entered := c.world, |c.acts|;
    CalmBootstraps(start, checked, u);
    if !r.Ok? {
      assert r.Permanent? ==> UnwantedAt(c.states[entered], u);
      return;
    }
    r := EnsureBootstrapOwnership(c, u, ownership, binding);
    OnlyBootstrapsTransitive(start, checked, c.world, u);
    if !r.Ok? {
      if NotStarted(c.states, c.acts, entered, u, binding) { NotStartedBefore(c.states, c.acts, c.states, c.acts, from, entered, u, binding); }
      return;
    }
    r := UploadAndRecheck(c, u, start);
    assert UnwantedAt(c.world, u) ==> UnwantedAt(c.states[|c.acts|], u);
  }

  /** Certificates, Lease check and upload of the private script, and the last look at the object. */
  method UploadAndRecheck(c: Cluster, u: Uid, ghost start: World) returns (r: Outcome<()>)
    requires c.Valid() && u in c.world.machines && OnlyBootstraps(start, c.world, u)
    modifies c
    ensures c.Valid() && c.Ran() && OnlyBootstraps(start, c.world, u) && NoJob(old(c.world), c.world, u)
    ensures c.world.machines[u].ownership == old(c.world).machines[u].ownership
    ensures r.Ok? ==> WantedAt(c.world, u)
    ensures c.faults == old(c.faults) ==> r.Ok? || UnwantedAt(c.world, u)
  {
    var uploaded := Preliminary(c, u, start);
    if !uploaded { return Temporary; }
    r := StillWanted(c, u, start);
  }

  /** Step `k` looked at a receipt other than 0. */
  predicate FailureSeenAt(states: seq<World>, acts: seq<Action>, k: nat, u: Uid, e: Endpoint) {
    k < |acts| && k < |states| && RemoteAt(states[k], e).owner == R.Owned(u)
    && RemoteAt(states[k], e).receipt.Code? && RemoteAt(states[k], e).receipt.code != 0
  }

  /** A receipt other than 0 was seen, and the host was quarantined for it. */
  ghost predicate FailureJudged(states: seq<World>, acts: seq<Action>, from: nat, u: Uid, binding: Binding) {
    && (exists k: nat :: from <= k && FailureSeenAt(states, acts, k, u, binding.target))
    && (binding.host.Some? ==> Did(acts, from, OnHost(u, binding.host.value, SetPhase(Quarantined, "BootstrapFailed"))))
  }

  /**
    How a run ends in which every call goes as asked: provisioned is staged; or a receipt other than 0
    was seen and judged; or no job was submitted, for a reason; or there was no receipt before the deadline.
   */
  ghost predicate BootstrapEnd(
    provisioned: Option<bool>, states: seq<World>, acts: seq<Action>, from: nat, u: Uid, binding: Binding)
  {
    match provisioned
    case Some(true) => true
    case Some(false) => FailureJudged(states, acts, from, u, binding)
    case None => NotStarted(states, acts, from, u, binding) || StillPending(states, acts, u, binding.target)
  }

  lemma BootstrapEndBefore(
    provisioned: Option<bool>, states: seq<World>, acts: seq<Action>, from: nat, from': nat, u: Uid, binding: Binding)
    requires BootstrapEnd(provisioned, states, acts, from', u, binding) && from <= from'
    ensures BootstrapEnd(provisioned, states, acts, from, u, binding)
  {
    if provisioned == Some(false) {
      if binding.host.Some? { DidBefore(acts, acts, from, from', OnHost(u, binding.host.value, SetPhase(Quarantined, "BootstrapFailed"))); }
    } else if provisioned.None? && NotStarted(states, acts, from', u, binding) {
      NotStartedBefore(states, acts, states, acts, from, from', u, binding);
    }
  }

  /**
    The bootstrap section of a reconcile run: prepare, run, and stage the outcome. `Permanent` is a
    stop without an outcome. A job is submitted only after the object was found alive, not paused and
    not being deleted, and with ownership stored. Without a fault `BootstrapEnd` says how it ends.
   */
  method BootstrapMachine(c: Cluster, u: Uid, ownership: Option<Binding>, binding: Binding, patch: Patch) returns (r: Outcome<()>)
    requires c.Valid() && u in c.world.machines && c.world.machines[u].cleanup.NoCleanup?
    requires c.world.machines[u].allocation.Some? && SameTarget(c.world.machines[u].allocation.value, binding)
    requires c.world.machines[u].ownership == ownership
    requires binding.host.Some? ==> binding.host.value in c.world.hosts
    requires patch.provisioned.None?
    modifies c, patch`provisioned
    ensures c.Valid() && c.Ran()
    ensures OnlyBootstraps(old(c.world), c.world, u)
    ensures !NoJob(old(c.world), c.world, u) ==> WantedSince(c.states, |old(c.states)| - 1, u) && c.world.machines[u].ownership.Some?
    ensures patch.provisioned == Some(true) ==> c.world.machines[u].past.bootstrapped
    ensures patch.provisioned == Some(true) ==> Did(c.acts, |old(c.acts)|, Send(u, binding.target, StartJob))
    ensures r.Ok? <==> patch.provisioned == Some(true)
    ensures c.faults == old(c.faults) ==> BootstrapEnd(patch.provisioned, c.states, c.acts, |old(c.acts)|, u, binding)
  {
    ghost var start := c.world;
    r := PrepareBootstrap(c, u, ownership, binding);
    if !r.Ok? { return; }
    ghost var ready, done := |c.states| - 1, |c.acts|;
    assert WantedAt(c.states[ready], u);
    ghost var states := c.states;
    r := RunAndJudge(c, u, binding, patch, start);
    assert c.states[ready] == states[ready];
    if c.faults == old(c.faults) {
      BootstrapEndBefore(patch.provisioned, c.states, c.acts, |old(c.acts)|, done, u, binding);
    }
    if r.Ok? { DidBefore(c.acts, c.acts, |old(c.acts)|, done, Send(u, binding.target, StartJob)); }
  }

  /** Run the job; a failure quarantines the host, a success still needs the kubelet to be ready. */
  method RunAndJudge(c: Cluster, u: Uid, binding: Binding, patch: Patch, ghost start: World) returns (r: Outcome<()>)
    requires c.Valid() && u in c.world.machines && MayBootstrap(c.world.machines[u]) && OnlyBootstraps(start, c.world, u)
    requires binding.target == TargetOf(c.world.machines[u])
    requires c.world.machines[u].allocation.Some? && SameTarget(c.world.machines[u].allocation.value, binding)
    requires binding.host.Some? ==> binding.host.value in c.world.hosts
    requires patch.provisioned.None?
    modifies c, patch`provisioned
    ensures c.Valid() && c.Ran() && OnlyBootstraps(start, c.world, u) && c.world.machines[u].ownership.Some?
    ensures patch.provisioned == Some(true) ==> c.world.machines[u].past.bootstrapped
    ensures r.Ok? <==> patch.provisioned == Some(true)
    ensures patch.provisioned == Some(true) ==> Did(c.acts, |old(c.acts)|, Send(u, binding.target, StartJob))
    ensures c.faults == old(c.faults) ==> BootstrapEnd(patch.provisioned, c.states, c.acts, |old(c.acts)|, u, binding)
  {
    ghost var before := c.world;
    var result := DurableBootstrap(c, u, binding.target);
    ghost var observed := c.acts;
    OnlyBootstrapsTransitive(start, before, c.world, u);
    if !result.Ok? { return Temporary; }
    if result.value != 0 {
      JudgeFailure(c, u, binding, patch, start, |old(c.acts)|);
      return Temporary;
    }
    var ready := Preliminary(c, u, start);
    if !ready {
      patch.provisioned := Some(false);
      return Temporary;
    }
    patch.provisioned := Some(true);
    DidBefore(observed, c.acts, |old(c.acts)|, |old(c.acts)|, Send(u, binding.target, StartJob));
    return Ok(());
  }

  /** The last step saw a receipt other than 0. */
  method JudgeFailure(c: Cluster, u: Uid, binding: Binding, patch: Patch, ghost start: World, ghost from: nat)
    requires c.Valid() && u in c.world.machines && MayBootstrap(c.world.machines[u]) && OnlyBootstraps(start, c.world, u)
    requires c.world.machines[u].allocation.Some? && SameTarget(c.world.machines[u].allocation.value, binding)
    requires binding.host.Some? ==> binding.host.value in c.world.hosts
    requires patch.provisioned.None? && from < |c.acts| && FailureSeenAt(c.states, c.acts, |c.acts| - 1, u, binding.target)
    modifies c, patch`provisioned
    ensures c.Valid() && c.Ran() && OnlyBootstraps(start, c.world, u) && c.world.machines[u].ownership == old(c.world).machines[u].ownership
    ensures patch.provisioned in {None, Some(false)}
    ensures c.faults == old(c.faults) ==> patch.provisioned == Some(false) && FailureJudged(c.states, c.acts, from, u, binding)
  {
    ghost var failed, seen, acts := c.world, |c.acts| - 1, c.acts;
    AllocatedHost(c, u, binding);
    var quarantined := SetHostPhase(c, u, binding, Quarantined, "BootstrapFailed");
    HostPhaseBootstraps(failed, c.world, u);
    OnlyBootstrapsTransitive(start, failed, c.world, u);
    if !quarantined { return; }
    patch.provisioned := Some(false);
    assert c.acts[..|acts|] == acts && FailureSeenAt(c.states, c.acts, seen, u, binding.target);
    if binding.host.Some? {
      DidBefore(c.acts, c.acts, from, |acts|, OnHost(u, binding.host.value, SetPhase(Quarantined, "BootstrapFailed")));
    }
  }
}
