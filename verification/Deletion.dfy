/** Deletion: clean the host, store the receipt, and only then give the host back (lifecycle.py). */
module Deletion {
  import opened Wrappers
  import opened Protocol
  import opened Cluster
  import opened Inventory
  import opened Operations
  import opened Reboots
  import L = RebootLedger

  /** How a delete run ends. Only `Finished` lets the finalizer go. */
  datatype Deletion =
    | Finished
    | Paused               // nothing was changed
    | HeldBack             // found paused after the host was marked; the host is quarantined
    | Blocked              // needs an operator
    | AwaitsReboot
    | Unclean(code: int)   // the cleanup command was rejected or failed with this exit code
    | Later                // to be retried

  /** No stored record of `u` but the cleanup receipt moved, and no claim. */
  ghost predicate OnlyCleans(w: World, w': World, u: Uid) {
    && u in w.machines && u in w'.machines
    && SameButCleanup(w.machines[u], w'.machines[u])
    && HostsSteady(u, w, w')
  }

  predicate SameButCleanup(m: Machine, m': Machine) {
    && m'.allocation == m.allocation && m'.ownership == m.ownership && m'.provisioned == m.provisioned
    && m'.reboot == m.reboot && (m.deleting ==> m'.deleting)
    && (m.past.cleaned ==> m'.past.cleaned) && (m.past.bootstrapped ==> m'.past.bootstrapped)
  }

  lemma OnlyCleansTransitive(a: World, b: World, c: World, u: Uid)
    requires OnlyCleans(a, b, u) && OnlyCleans(b, c, u)
    ensures OnlyCleans(a, c, u)
  {
    HostsSteadyTransitive(a, b, c, u);
  }

  lemma OthersOnlyCleans(w: World, w': World, u: Uid)
    requires Others(u, w, w')
    ensures OnlyCleans(w, w', u) && w'.machines[u].cleanup == w.machines[u].cleanup
  {
  }

  lemma PhaseOnlyCleans(w: World, w': World, u: Uid)
    requires OnlyHosts(w, w', u) && HostsSteady(u, w, w')
    ensures OnlyCleans(w, w', u) && w'.machines[u].cleanup == w.machines[u].cleanup
  {
  }

  /** The durable receipt; `conditions` that go with it are those of module Conditions. */
  method RecordCleanup(c: Cluster, u: Uid, cleanup: Cleanup) returns (ok: bool)
    requires c.Valid() && Permitted(c.world, u, SaveCleanup(cleanup))
    modifies c
    ensures c.Valid() && c.Ran() && (c.faults == old(c.faults) <==> ok)
    ensures OnlyCleans(old(c.world), c.world, u)
    ensures c.world.machines[u].cleanup in {old(c.world).machines[u].cleanup, cleanup}
    ensures ok ==> c.world.machines[u].cleanup == cleanup
  {
    ok := PersistMachineStatus(c, u, SaveCleanup(cleanup));
  }

  /** How the guarded part ended: with success stored and everything closed, or with an exception. */
  datatype Attempt = Stored | StoredThenFailed | Rejected(code: int) | FoundPaused | Interrupted

  /** How a run ends that saw this attempt, if nothing else fails. */
  function EndOf(attempt: Attempt): Deletion {
    match attempt
    case Stored => Finished
    case Rejected(code) => Unclean(code)
    case FoundPaused => HeldBack
    case StoredThenFailed => Later
    case Interrupted => Later
  }

  /**
    What happened since `from` that explains how cleaning `e` ended: it finishes because a cleanup
    command exited 0 there, is unclean because one exited with that code, and is held back because
    the Machine was paused.
   */
  ghost predicate Explained(r: Deletion, states: seq<World>, acts: seq<Action>, from: nat, u: Uid, e: Endpoint) {
    match r
    case Finished => Answered(states, acts, from, u, e, true, 0)
    case Unclean(code) => code != 0 && Answered(states, acts, from, u, e, true, code)
    case HeldBack => PausedSince(states, from, u)
    case _ => true
  }

  lemma ExplainedBefore(
    r: Deletion, states: seq<World>, acts: seq<Action>, states': seq<World>, acts': seq<Action>, from: nat, from': nat, u: Uid, e: Endpoint)
    requires Explained(r, states, acts, from', u, e) && states <= states' && acts <= acts' && from <= from'
    ensures Explained(r, states', acts', from, u, e)
  {
    match r
    case Finished => AnsweredBefore(states, acts, states', acts', from, from', u, e, true, 0);
    case Unclean(code) => AnsweredBefore(states, acts, states', acts', from, from', u, e, true, code);
    case HeldBack => PausedEarlier(states, states', from, from', u);
    case _ =>
  }

  /** The cleanup command under the Lease, and the receipt while the Lease is still held. */
  method CleanUnderLease(c: Cluster, u: Uid, e: Endpoint) returns (r: Attempt)
    requires c.Valid() && u in c.world.machines && MayClean(c.world.machines[u]) && c.world.machines[u].cleanup.Running?
    requires e == TargetOf(c.world.machines[u])
    modifies c
    ensures c.Valid() && c.Ran()
    ensures OnlyCleans(old(c.world), c.world, u)
    ensures c.world.machines[u].cleanup in {Running, Succeeded}
    ensures r.Stored? || r.StoredThenFailed? ==> c.world.machines[u].cleanup.Succeeded?
    ensures r.Rejected? || r.FoundPaused? ==> c.world.machines[u].cleanup.Running?
    ensures Explained(EndOf(r), c.states, c.acts, |old(c.acts)|, u, e)
    ensures c.faults == old(c.faults) ==> r.Stored? || r.Rejected? || r.FoundPaused?
  {
    ghost var start, from := c.world, |c.acts|;
    var entered := EnterHostOperation(c, u, true);
    ghost var checked := c.world;
    OthersOnlyCleans(start, checked, u);
    if entered.Permanent? {
      PausedNow(c.states, from, u);
      return FoundPaused;
    }
    if !entered.Ok? { return Interrupted; }
    var ok := c.Try(u);
    ghost var renewed, since := c.world, |c.acts|;
    OthersOnlyCleans(checked, renewed, u);
    OnlyCleansTransitive(start, checked, renewed, u);
    if !ok { return Interrupted; }
    r := RunAndRecord(c, u, e);
    OnlyCleansTransitive(start, renewed, c.world, u);
    ExplainedBefore(EndOf(r), c.states, c.acts, c.states, c.acts, from, since, u, e);
  }

  method RunAndRecord(c: Cluster, u: Uid, e: Endpoint) returns (r: Attempt)
    requires c.Valid() && u in c.world.machines && MayClean(c.world.machines[u]) && c.world.machines[u].cleanup.Running?
    requires e == TargetOf(c.world.machines[u])
    modifies c
    ensures c.Valid() && c.Ran()
    ensures OnlyCleans(old(c.world), c.world, u)
    ensures c.world.machines[u].cleanup in {Running, Succeeded}
    ensures r.Stored? || r.StoredThenFailed? ==> c.world.machines[u].cleanup.Succeeded?
    ensures r.Rejected? ==> c.world.machines[u].cleanup.Running?
    ensures Explained(EndOf(r), c.states, c.acts, |old(c.acts)|, u, e)
    ensures !r.FoundPaused? && (c.faults == old(c.faults) ==> r.Stored? || r.Rejected?)
  {
    ghost var start, from := c.world, |c.acts|;
    var reply := c.RunClean(u, e);
    ghost var ran, states, acts := c.world, c.states, c.acts;
    if reply.Broken? { return Interrupted; }
    if reply.code != 0 { return Rejected(reply.code); }
    r := RecordSuccess(c, u);
    OnlyCleansTransitive(start, ran, c.world, u);
    AnsweredBefore(states, acts, c.states, c.acts, from, from, u, e, true, 0);
  }

  /** The receipt after a command that exited 0; closing the connection and giving the Lease back may still raise. */
  method RecordSuccess(c: Cluster, u: Uid) returns (r: Attempt)
    requires c.Valid() && Permitted(c.world, u, SaveCleanup(Succeeded)) && c.world.machines[u].cleanup.Running?
    modifies c
    ensures c.Valid() && c.Ran()
    ensures OnlyCleans(old(c.world), c.world, u)
    ensures c.world.machines[u].cleanup in {Running, Succeeded}
    ensures r in {Stored, StoredThenFailed, Interrupted} && (!r.Interrupted? ==> c.world.machines[u].cleanup.Succeeded?)
    ensures c.faults == old(c.faults) ==> r.Stored?
  {
    ghost var start := c.world;
    var ok := RecordCleanup(c, u, Succeeded);
    ghost var recorded := c.world;
    if !ok { return Interrupted; }
    ok := c.Try(u);
    OthersOnlyCleans(recorded, c.world, u);
    OnlyCleansTransitive(start, recorded, c.world, u);
    return if ok then Stored else StoredThenFailed;
  }

  /**
    The exception handler. The success write may have been committed although its reply was lost, so
    the object is read again; only without a stored success is the host quarantined and Failed stored.
   */
  method AfterFailure(c: Cluster, u: Uid, binding: Binding) returns (stored: bool)
    requires c.Valid() && u in c.world.machines && c.world.machines[u].cleanup in {Running, Succeeded}
    requires c.world.machines[u].deleting
    requires binding.host.Some? ==> binding.host.value in c.world.hosts
    modifies c
    ensures c.Valid() && c.Ran()
    ensures OnlyCleans(old(c.world), c.world, u)
    ensures old(c.world).machines[u].cleanup.Succeeded? ==> c.world.machines[u].cleanup.Succeeded?
    ensures stored ==> c.world.machines[u].cleanup.Failed?
    ensures stored && binding.host.Some? ==> Did(c.acts, |old(c.acts)|, OnHost(u, binding.host.value, SetPhase(Quarantined, "CleanupFailed")))
    ensures c.faults == old(c.faults) && old(c.world).machines[u].cleanup.Running? && StillHeld(old(c.world), u, binding) ==> stored
  {
    ghost var start, from := c.world, |c.acts|;
    var ok, current := c.GetMachine(u);
    ghost var read, since := c.world, |c.acts|;
    OthersOnlyCleans(start, read, u);
    HeldSteady(start, read, u, binding);
    if !ok || current.cleanup.Succeeded? { return false; }
    stored := MarkAndRecord(c, u, binding, Quarantined, "CleanupFailed", Failed);
    OnlyCleansTransitive(start, read, c.world, u);
    if stored && binding.host.Some? {
      DidBefore(c.acts, c.acts, from, since, OnHost(u, binding.host.value, SetPhase(Quarantined, "CleanupFailed")));
    }
  }

  /** The phase of the host, and then the receipt. */
  method MarkAndRecord(c: Cluster, u: Uid, binding: Binding, phase: HostPhase, reason: string, cleanup: Cleanup) returns (ok: bool)
    requires c.Valid() && Permitted(c.world, u, SaveCleanup(cleanup)) && phase in {Cleaning, Quarantined}
    requires binding.host.Some? ==> binding.host.value in c.world.hosts
    modifies c
    ensures c.Valid() && c.Ran()
    ensures OnlyCleans(old(c.world), c.world, u)
    ensures c.world.machines[u].cleanup in {old(c.world).machines[u].cleanup, cleanup}
    ensures ok ==> c.world.machines[u].cleanup == cleanup
    ensures ok && binding.host.Some? ==> Did(c.acts, |old(c.acts)|, OnHost(u, binding.host.value, SetPhase(phase, reason)))
    ensures c.faults == old(c.faults) && StillHeld(old(c.world), u, binding) ==> ok
  {
    ghost var start, from := c.world, |c.acts|;
    ok := SetHostPhase(c, u, binding, phase, reason);
    ghost var marked, done := c.world, c.acts;
    PhaseOnlyCleans(start, marked, u);
    if !ok { return; }
    ok := RecordCleanup(c, u, cleanup);
    if binding.host.Some? { DidBefore(done, c.acts, from, from, OnHost(u, binding.host.value, SetPhase(phase, reason))); }
    OnlyCleansTransitive(start, marked, c.world, u);
  }

  /** Mark the host as being cleaned and store Running before anything is sent. */
  method PrepareCleanup(c: Cluster, u: Uid, binding: Binding) returns (ok: bool)
    requires c.Valid() && u in c.world.machines && MayClean(c.world.machines[u])
    requires binding.host.Some? ==> binding.host.value in c.world.hosts
    modifies c
    ensures c.Valid() && c.Ran()
    ensures OnlyCleans(old(c.world), c.world, u)
    ensures ok ==> c.world.machines[u].cleanup.Running?
    ensures ok && binding.host.Some? ==> Did(c.acts, |old(c.acts)|, OnHost(u, binding.host.value, SetPhase(Cleaning, "")))
    ensures c.faults == old(c.faults) && StillHeld(old(c.world), u, binding) ==> ok
  {
    ok := MarkAndRecord(c, u, binding, Cleaning, "", Running);
  }

  /** The claim of the allocated host is gone. */
  predicate GivenBack(w: World, b: Binding) {
    b.host.Some? ==> b.host.value in w.hosts && w.hosts[b.host.value].consumer.Nobody?
  }

  /** Give the host back under the stored receipt; a failure never touches the receipt. */
  method ReleaseCleanedHost(c: Cluster, u: Uid, binding: Binding) returns (r: Deletion)
    requires c.Valid() && u in c.world.machines && c.world.machines[u].cleanup.Succeeded?
    requires c.world.machines[u].allocation.Some? && c.world.machines[u].allocation.value.host == binding.host
    modifies c
    ensures c.Valid() && c.Ran()
    ensures r in {Finished, Later}
    ensures OnlyHosts(old(c.world), c.world, u) && NoNewClaims(u, old(c.world), c.world)
    ensures r.Finished? ==> GivenBack(c.world, binding)
    ensures c.faults == old(c.faults) && (NotTaken(c.world, u, binding) || StillHeld(old(c.world), u, binding)) ==> r.Finished?
  {
    c.Knows(u);
    var ok := ReleaseHost(c, u, binding);
    return if ok then Finished else Later;
  }

  /** Until success is stored, the allocated host carries the claim. */
  lemma AllocatedIsHeld(c: Cluster, u: Uid, binding: Binding)
    requires c.Valid() && u in c.world.machines && !c.world.machines[u].cleanup.Succeeded?
    requires c.world.machines[u].allocation.Some? && c.world.machines[u].allocation.value.host == binding.host
    ensures StillHeld(c.world, u, binding)
  {
    c.Knows(u);
  }

  /** The failure is stored and the host quarantined for it. */
  ghost predicate FailureRecorded(w: World, acts: seq<Action>, from: nat, u: Uid, host: Option<HostId>) {
    && u in w.machines && w.machines[u].cleanup.Failed?
    && (host.Some? ==> Did(acts, from, OnHost(u, host.value, SetPhase(Quarantined, "CleanupFailed"))))
  }

  /** Everything from the Cleaning phase to the release. */
  method CleanAllocated(c: Cluster, u: Uid, binding: Binding) returns (r: Deletion)
    requires c.Valid() && u in c.world.machines && MayClean(c.world.machines[u])
    requires c.world.machines[u].allocation.Some? && c.world.machines[u].allocation.value.host == binding.host
    requires binding.target == TargetOf(c.world.machines[u])
    modifies c
    ensures c.Valid() && c.Ran() && u in c.world.machines
    ensures r in {Finished, HeldBack, Later} || r.Unclean?
    ensures Explained(r, c.states, c.acts, |old(c.acts)|, u, binding.target)
    ensures r.Finished? ==> c.world.machines[u].cleanup.Succeeded? && GivenBack(c.world, binding)
    ensures r.Unclean? || r.HeldBack? ==> FailureRecorded(c.world, c.acts, |old(c.acts)|, u, binding.host)
    ensures c.faults == old(c.faults) ==> !r.Later?
  {
    ghost var from := |c.acts|;
    AllocatedIsHeld(c, u, binding);
    var attempt := TryCleaning(c, u, binding);
    if attempt.None? { return Later; }
    r := Conclude(c, u, binding, attempt.value, from);
  }

  /** Mark the host, store Running, and clean; `None` if the host could not be marked. */
  method TryCleaning(c: Cluster, u: Uid, binding: Binding) returns (attempt: Option<Attempt>)
    requires c.Valid() && u in c.world.machines && MayClean(c.world.machines[u])
    requires c.world.machines[u].allocation.Some? && c.world.machines[u].allocation.value.host == binding.host
    requires binding.target == TargetOf(c.world.machines[u])
    requires StillHeld(c.world, u, binding)
    modifies c
    ensures c.Valid() && c.Ran() && OnlyCleans(old(c.world), c.world, u) && StillHeld(c.world, u, binding)
    ensures attempt.Some? ==>
              && c.world.machines[u].cleanup in {Running, Succeeded}
              && (attempt.value.Stored? || attempt.value.StoredThenFailed? ==> c.world.machines[u].cleanup.Succeeded?)
              && (attempt.value.Rejected? || attempt.value.FoundPaused? ==> c.world.machines[u].cleanup.Running?)
              && Explained(EndOf(attempt.value), c.states, c.acts, |old(c.acts)|, u, binding.target)
    ensures c.faults == old(c.faults) ==> attempt.Some? && (attempt.value.Stored? || attempt.value.Rejected? || attempt.value.FoundPaused?)
  {
    ghost var start, from := c.world, |c.acts|;
    var ok := PrepareCleanup(c, u, binding);
    ghost var prepared, since := c.world, |c.acts|;
    HeldSteady(start, prepared, u, binding);
    if !ok { return None; }
    var ended := CleanUnderLease(c, u, binding.target);
    OnlyCleansTransitive(start, prepared, c.world, u);
    HeldSteady(prepared, c.world, u, binding);
    ExplainedBefore(EndOf(ended), c.states, c.acts, c.states, c.acts, from, since, u, binding.target);
    return Some(ended);
  }

  /** Release after a stored success; otherwise the exception handler, and a retry. */
  method Conclude(c: Cluster, u: Uid, binding: Binding, attempt: Attempt, ghost from: nat) returns (r: Deletion)
    requires c.Valid() && u in c.world.machines && c.world.machines[u].cleanup in {Running, Succeeded} && c.world.machines[u].deleting
    requires c.world.machines[u].allocation.Some? && c.world.machines[u].allocation.value.host == binding.host
    requires attempt.Stored? || attempt.StoredThenFailed? ==> c.world.machines[u].cleanup.Succeeded?
    requires attempt.Rejected? || attempt.FoundPaused? ==> c.world.machines[u].cleanup.Running?
    requires from <= |c.acts| && Explained(EndOf(attempt), c.states, c.acts, from, u, binding.target)
    modifies c
    ensures c.Valid() && c.Ran() && u in c.world.machines
    ensures r in {Finished, HeldBack, Later} || r.Unclean?
    ensures Explained(r, c.states, c.acts, from, u, binding.target)
    ensures r.Finished? ==> c.world.machines[u].cleanup.Succeeded? && GivenBack(c.world, binding)
    ensures r.Unclean? || r.HeldBack? ==> FailureRecorded(c.world, c.acts, from, u, binding.host)
    ensures c.faults == old(c.faults) && StillHeld(old(c.world), u, binding) && (attempt.Stored? || attempt.Rejected? || attempt.FoundPaused?) ==>
              !r.Later?
  {
    ghost var states, acts := c.states, c.acts;
    if attempt.StoredThenFailed? { return Later; }
    if attempt.Stored? {
      r := ReleaseCleanedHost(c, u, binding);
    } else {
      AllocatedInWorld(c, u, binding);
      var stored := AfterFailure(c, u, binding);
      r := if stored then EndOf(attempt) else Later;
      if stored && binding.host.Some? {
        DidBefore(c.acts, c.acts, from, |acts|, OnHost(u, binding.host.value, SetPhase(Quarantined, "CleanupFailed")));
      }
    }
    if !r.Later? { ExplainedBefore(EndOf(attempt), states, acts, c.states, c.acts, from, from, u, binding.target); }
  }

  lemma AllocatedInWorld(c: Cluster, u: Uid, binding: Binding)
    requires c.Valid() && u in c.world.machines
    requires c.world.machines[u].allocation.Some? && c.world.machines[u].allocation.value.host == binding.host
    ensures binding.host.Some? ==> binding.host.value in c.world.hosts
  {
    c.Knows(u);
  }

  // ---------- what the end of a run says about it ----------

  /** The run may send a cleanup command. */
  predicate Cleanable(m: Machine) {
    m.ownership.Some? && !m.cleanup.Succeeded? && !L.Pending(m.reboot)
  }

  /**
    What the end of a delete run says about the run, from the state `w` and step `from` to the state
    `w'`; `m` is the object as the run read it, and `clean` says that every call went as asked.
   */
  ghost predicate Recovery(u: Uid, m: Machine, r: Deletion, clean: bool, w: World, w': World, states: seq<World>, acts: seq<Action>, from: nat)
    requires u in w'.machines
  {
    match r
    case Finished =>
      && w'.machines[u].cleanup.Succeeded?
      && (m.ownership.None? ==> !MaybeLegacy(m))
      && (m.allocation.Some? ==> GivenBack(w', m.allocation.value))
      && (m.allocation.None? ==> forall g | Holds(w, u, g) && g in w'.hosts && w'.hosts[g].live :: Holds(w', u, g) <==> !FromPool(m.spec))
      && (Cleanable(m) && m.allocation.Some? ==> Explained(r, states, acts, from, u, m.allocation.value.target))
    case Paused => m.spec.paused || PausedSince(states, from, u)
    case HeldBack =>
      Cleanable(m) && m.allocation.Some? && PausedSince(states, from, u) && FailureRecorded(w', acts, from, u, m.allocation.value.host)
    case Unclean(code) =>
      && Cleanable(m) && m.allocation.Some? && FailureRecorded(w', acts, from, u, m.allocation.value.host)
      && Explained(r, states, acts, from, u, m.allocation.value.target)
    case Blocked =>
      m.ownership.None? && if MaybeLegacy(m) then LegacyQuarantined(acts, from, u, m) else NamesOtherHost(w', u, m)
    case AwaitsReboot =>
      && m.ownership.Some? && !m.cleanup.Succeeded? && L.Pending(m.reboot)
      && w'.machines[u].reboot.sent == m.reboot.sent && w'.machines[u].cleanup == m.cleanup
      && (clean ==> RebootEnd(u, m, true, w, w', states, acts, from))
    case Later =>
      clean ==>
        && m.cleanup.Succeeded? && m.allocation.Some?
        && (!NotTaken(w', u, m.allocation.value) || (m.ownership.None? && MaybeLegacy(m)))
  }

  /** What holds from a later start holds from an earlier one, if only others acted in between. */
  lemma RecoveryBefore(
    u: Uid, m: Machine, r: Deletion, clean: bool, w0: World, w: World, w': World, states: seq<World>, acts: seq<Action>, from0: nat, from: nat)
    requires u in w'.machines && Others(u, w0, w) && (m.allocation.None? ==> StaysLive(w, w')) && from0 <= from
    requires Recovery(u, m, r, clean, w, w', states, acts, from)
    ensures Recovery(u, m, r, clean, w0, w', states, acts, from0)
  {
    if PausedSince(states, from, u) { PausedEarlier(states, states, from0, from, u); }
    match r
    case Finished =>
      if m.allocation.Some? && Cleanable(m) {
        ExplainedBefore(r, states, acts, states, acts, from0, from, u, m.allocation.value.target);
      }
      if m.allocation.None? { FateBefore(u, m, w0, w, w'); }
    case HeldBack => FailureBefore(w', acts, from0, from, u, m.allocation.value.host);
    case Unclean(code) =>
      FailureBefore(w', acts, from0, from, u, m.allocation.value.host);
      ExplainedBefore(r, states, acts, states, acts, from0, from, u, m.allocation.value.target);
    case Blocked => if MaybeLegacy(m) { LegacyBefore(acts, from0, from, u, m); }
    case Paused =>
    case AwaitsReboot => if ActedOnBoot(u, m, true, w, w', states, acts, from) { ActedBefore(u, m, true, w0, w, w', states, acts, from0, from); }
    case Later =>
  }

  lemma FateBefore(u: Uid, m: Machine, w0: World, w: World, w': World)
    requires Others(u, w0, w) && StaysLive(w, w')
    requires forall g | Holds(w, u, g) && g in w'.hosts && w'.hosts[g].live :: Holds(w', u, g) <==> !FromPool(m.spec)
    ensures forall g | Holds(w0, u, g) && g in w'.hosts && w'.hosts[g].live :: Holds(w', u, g) <==> !FromPool(m.spec)
  {
  }

  lemma FailureBefore(w: World, acts: seq<Action>, from0: nat, from: nat, u: Uid, host: Option<HostId>)
    requires FailureRecorded(w, acts, from, u, host) && from0 <= from
    ensures FailureRecorded(w, acts, from0, u, host)
  {
    if host.Some? { DidBefore(acts, acts, from0, from, OnHost(u, host.value, SetPhase(Quarantined, "CleanupFailed"))); }
  }

  lemma LegacyBefore(acts: seq<Action>, from0: nat, from: nat, u: Uid, m: Machine)
    requires LegacyQuarantined(acts, from, u, m) && from0 <= from
    ensures LegacyQuarantined(acts, from0, u, m)
  {
    if m.allocation.Some? && m.allocation.value.host.Some? {
      DidBefore(acts, acts, from0, from, OnHost(u, m.allocation.value.host.value, SetPhase(Quarantined, "LegacyOwnershipUnverified")));
    }
  }

  // ---------- a Machine for which nothing was ever sent ----------

  /** The run has a spec or status that says it may be provisioned although no ownership is stored. */
  predicate MaybeLegacy(m: Machine) {
    m.provisioned || m.spec.providerId.Some?
  }

  /** The spec names a host, no allocation is stored, and no claim of `u` is on the host that the spec names. */
  ghost predicate NamesOtherHost(w: World, u: Uid, m: Machine) {
    && m.spec.hostRef.Some? && m.allocation.None?
    && forall g: HostId | Holds(w, u, g) :: m.spec.hostRef != Some(w.hosts[g].name)
  }

  ghost predicate HoldsAtMost(w: World, u: Uid, h: HostId) {
    forall g: HostId | Holds(w, u, g) :: g == h
  }

  /** Find the claim of a crash between claim and allocation, and store it as the allocation. */
  method RecoverAllocation(c: Cluster, u: Uid, m: Machine) returns (r: Outcome<Option<Binding>>)
    requires c.Valid() && u in c.world.machines && c.world.machines[u].allocation.None? && m.allocation.None?
    modifies c
    ensures c.Valid() && c.Ran()
    ensures u in c.world.machines && OnlyAllocates(old(c.world).machines[u], c.world.machines[u]) && HostsSteady(u, old(c.world), c.world)
    ensures r.Ok? ==> c.world.machines[u].allocation == r.value
    ensures r.Permanent? ==> NamesOtherHost(c.world, u, m)
    ensures r == Ok(None) ==> HoldsNothing(c.world, u)
    ensures r.Ok? && r.value.Some? ==>
              && r.value.value.host.Some? && r.value.value.host.value in c.world.hosts
              && c.world.hosts[r.value.value.host.value].consumer == By(u) && HoldsAtMost(c.world, u, r.value.value.host.value)
    ensures c.faults == old(c.faults) ==> !r.Temporary?
  {
    ghost var start := c.world;
    var found := RecoverUnstartedClaim(c, u);
    ghost var listed := c.world;
    OneClaimOnly(c, u);
    if !found.Ok? { return Temporary; }
    if found.value.None? { return Ok(None); }
    var b := found.value.value;
    if m.spec.hostRef.Some? && m.spec.hostRef != HostNameOf(c.world, b) { return Permanent; }
    var ok := PersistMachineStatus(c, u, SaveAllocation(b));
    AllocationWrite(start, listed, c.world, u, b, ok);
    OnlyClaim(listed, c.world, u, b.host.value);
    return if ok then Ok(Some(b)) else Temporary;
  }

  lemma OnlyClaim(w: World, w': World, u: Uid, h: HostId)
    requires !ManyClaims(w, u) && Holds(w, u, h) && HostsSteady(u, w, w')
    ensures HoldsAtMost(w', u, h)
  {
    forall g: HostId | Holds(w', u, g) ensures g == h {
      assert Holds(w, u, g);
    }
  }

  lemma AllocationWrite(start: World, listed: World, end: World, u: Uid, b: Binding, ok: bool)
    requires Others(u, start, listed) && Wrote(listed, end, u, SaveAllocation(b), ok)
    requires start.machines[u].allocation.None?
    ensures OnlyAllocates(start.machines[u], end.machines[u]) && HostsSteady(u, start, end)
    ensures ok ==> end.machines[u].allocation == Some(b)
  {
    HostsSteadyTransitive(start, listed, end, u);
  }

  /** `u` holds nothing that it did not hold before. */
  ghost predicate ClaimsOnlyEnd(u: Uid, w: World, w': World) {
    forall h: HostId | Holds(w', u, h) :: Holds(w, u, h)
  }

  /** Store success without a cleanup command, and give the host back if there is one. */
  method ReceiptAndRelease(c: Cluster, u: Uid, binding: Option<Binding>) returns (r: Deletion)
    requires c.Valid() && Permitted(c.world, u, SaveCleanup(Succeeded))
    requires binding.Some? ==> c.world.machines[u].allocation.Some? && c.world.machines[u].allocation.value.host == binding.value.host
    modifies c
    ensures c.Valid() && c.Ran() && u in c.world.machines
    ensures r in {Finished, Later}
    ensures binding.None? ==> HostsSteady(u, old(c.world), c.world)
    ensures ClaimsOnlyEnd(u, old(c.world), c.world) && StaysLive(old(c.world), c.world)
    ensures r.Finished? ==> c.world.machines[u].cleanup.Succeeded? && (binding.Some? ==> GivenBack(c.world, binding.value))
    ensures c.faults == old(c.faults) ==>
              r.Finished? || (binding.Some? && !NotTaken(c.world, u, binding.value) && !StillHeld(old(c.world), u, binding.value))
  {
    ghost var start := c.world;
    var ok := RecordCleanup(c, u, Succeeded);
    ghost var recorded := c.world;
    if !ok { return Later; }
    if binding.None? { return Finished; }
    if StillHeld(start, u, binding.value) { HeldSteady(start, recorded, u, binding.value); }
    r := ReleaseCleanedHost(c, u, binding.value);
  }

  /**
    Deletion of a Machine without stored ownership. It finishes without a command. A claim whose
    allocation was never stored is found and given back exactly when the spec still names a pool.
   */
  method DeleteUnowned(c: Cluster, u: Uid, m: Machine) returns (r: Deletion)
    requires c.Valid() && u in c.world.machines && SameRecords(m, c.world.machines[u])
    requires c.world.machines[u].deleting && m.ownership.None?
    modifies c
    ensures c.Valid() && c.Ran() && u in c.world.machines
    ensures StaysLive(old(c.world), c.world)
    ensures r in {Finished, Blocked, Later}
    ensures Recovery(u, m, r, c.faults == old(c.faults), old(c.world), c.world, c.states, c.acts, |old(c.acts)|)
  {
    ghost var start := c.world;
    c.Knows(u);
    if MaybeLegacy(m) {
      r := QuarantineLegacy(c, u, m.allocation);
      return;
    }
    if m.allocation.Some? || !FromPool(m.spec) {
      if m.spec.hostRef.Some? && m.allocation.None? { return Blocked; }
      r := ReceiptAndRelease(c, u, m.allocation);
      return;
    }
    r := DeleteClaimed(c, u, m);
  }

  /** The allocated host, if there is one, was quarantined because its ownership is unverified. */
  predicate LegacyQuarantined(acts: seq<Action>, from: nat, u: Uid, m: Machine) {
    m.allocation.Some? && m.allocation.value.host.Some? ==>
      Did(acts, from, OnHost(u, m.allocation.value.host.value, SetPhase(Quarantined, "LegacyOwnershipUnverified")))
  }

  /** An earlier release stored no ownership: nothing can be proved about the host, so it stays claimed. */
  method QuarantineLegacy(c: Cluster, u: Uid, binding: Option<Binding>) returns (r: Deletion)
    requires c.Valid() && u in c.world.machines
    requires binding.Some? && binding.value.host.Some? ==> binding.value.host.value in c.world.hosts
    modifies c
    ensures c.Valid() && c.Ran() && u in c.world.machines
    ensures HostsSteady(u, old(c.world), c.world)
    ensures r in {Blocked, Later}
    ensures r.Blocked? && binding.Some? && binding.value.host.Some? ==>
              Did(c.acts, |old(c.acts)|, OnHost(u, binding.value.host.value, SetPhase(Quarantined, "LegacyOwnershipUnverified")))
    ensures c.faults == old(c.faults) && (binding.Some? ==> StillHeld(old(c.world), u, binding.value)) ==> r.Blocked?
  {
    var ok := true;
    if binding.Some? { ok := SetHostPhase(c, u, binding.value, Quarantined, "LegacyOwnershipUnverified"); }
    return if ok then Blocked else Later;
  }

  /** The pool Machine whose allocation was never stored. */
  method DeleteClaimed(c: Cluster, u: Uid, m: Machine) returns (r: Deletion)
    requires c.Valid() && u in c.world.machines && c.world.machines[u].deleting
    requires c.world.machines[u].allocation.None? && c.world.machines[u].ownership.None? && m.allocation.None?
    modifies c
    ensures c.Valid() && c.Ran() && u in c.world.machines
    ensures StaysLive(old(c.world), c.world)
    ensures r in {Finished, Blocked, Later}
    ensures r.Finished? ==> c.world.machines[u].cleanup.Succeeded?
    ensures r.Finished? ==> forall g | Holds(old(c.world), u, g) && g in c.world.hosts && c.world.hosts[g].live :: !Holds(c.world, u, g)
    ensures r.Blocked? ==> NamesOtherHost(c.world, u, m)
    ensures c.faults == old(c.faults) ==> !r.Later?
  {
    ghost var start := c.world;
    var found := RecoverAllocation(c, u, m);
    ghost var recovered := c.world;
    if !found.Ok? { return if found.Permanent? then Blocked else Later; }
    if m.spec.hostRef.Some? && found.value.None? { return Blocked; }
    r := ReceiptAndRelease(c, u, found.value);
  }

  /** The stored target and the owner record's target are the same for every Machine that has both. */
  predicate CleanupTargetAgrees(m: Machine) {
    m.allocation.Some? && m.ownership.Some? && SameTarget(m.ownership.value, m.allocation.value)
  }

  /** With stored ownership: repeat the receipt, wait for the reboot, or clean. */
  method DeleteOwned(c: Cluster, u: Uid, m: Machine, patch: Patch) returns (r: Deletion)
    requires c.Valid() && u in c.world.machines && SameRecords(m, c.world.machines[u]) && m.deleting
    requires c.world.machines[u].deleting && CleanupTargetAgrees(m)
    requires patch.reboot.None?
    modifies c, patch`reboot
    ensures c.Valid() && c.Ran() && u in c.world.machines
    ensures StagedOk(patch.reboot, c.world.machines[u].reboot)
    ensures Recovery(u, m, r, c.faults == old(c.faults), old(c.world), c.world, c.states, c.acts, |old(c.acts)|)
  {
    if m.cleanup.Succeeded? {
      r := ReceiptAndRelease(c, u, m.allocation);
      return;
    }
    if L.Pending(m.reboot) {
      var observed, boot, now := ReconcileReboot(c, u, m, true, patch);
      return AwaitsReboot;
    }
    r := CleanAllocated(c, u, m.allocation.value);
  }

  /**
    One delete run, with the end that `Recovery` explains. Whatever earlier runs left behind, a run in
    which every call goes as asked ends with the receipt stored and the host given back, unless the
    Machine is paused, a reboot is open, a cleanup command of this run exits with another code, an
    operator is needed for a host that may be in use without ownership or that the spec does not
    name, or another Machine already holds the host that was given back before.
   */
  method DeleteMachine(c: Cluster, u: Uid, m: Machine, patch: Patch) returns (r: Deletion)
    requires c.Valid() && u in c.world.machines && SameRecords(m, c.world.machines[u]) && m.deleting
    requires c.world.machines[u].deleting && patch.reboot.None?
    modifies c, patch`reboot
    ensures c.Valid() && c.Ran() && u in c.world.machines
    ensures m.allocation.None? ==> StaysLive(old(c.world), c.world)
    ensures StagedOk(patch.reboot, c.world.machines[u].reboot)
    ensures Recovery(u, m, r, c.faults == old(c.faults), old(c.world), c.world, c.states, c.acts, |old(c.acts)|)
  {
    ghost var start, from := c.world, |c.acts|;
    var ok, paused := IsPaused(c, u, m);
    ghost var asked, since := c.world, |c.acts|;
    if !ok { return Later; }
    if paused {
      if !m.spec.paused { PausedNow(c.states, from, u); }
      return Paused;
    }
    if m.ownership.None? {
      r := DeleteUnowned(c, u, m);
    } else {
      TargetsAgree(c, u, m);
      if !CleanupTargetAgrees(m) { return Blocked; }
      r := DeleteOwned(c, u, m, patch);
    }
    RecoveryBefore(u, m, r, c.faults == old(c.faults), start, asked, c.world, c.states, c.acts, from, since);
  }

  /** The two comparisons of the code that can only fail for corrupt records. */
  lemma TargetsAgree(c: Cluster, u: Uid, m: Machine)
    requires c.Valid() && u in c.world.machines && SameRecords(m, c.world.machines[u]) && m.ownership.Some?
    ensures CleanupTargetAgrees(m)
  {
    c.Knows(u);
  }
}
