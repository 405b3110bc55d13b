/** Claims, the immutable allocation, and giving a host back (contracts.py and inventory.py). */
module Inventory {
  import opened Wrappers
  import opened Protocol
  import opened Theorems
  import opened Cluster
  import opened CandidateOrder
  import L = RebootLedger

  /** How a handler or a helper ends: with a value, for good, or to be retried. */
  datatype Outcome<+T> = Ok(value: T) | Permanent | Temporary

  // ---------- what a call did to the things of `u` ----------

  /** Nothing but at most the given write of the Machine object; surely that write if `sure`. */
  ghost predicate Wrote(w: World, w': World, u: Uid, write: MachineWrite, sure: bool)
    requires u in w.machines && (write.SaveReboot? ==> L.Enabled(w.machines[u].reboot, write.change))
  {
    && u in w'.machines
    && HostsSteady(u, w, w') && RemotesSteady(u, w, w')
    && (w.machines[u].deleting ==> w'.machines[u].deleting)
    && (SameRecords(Changed(w.machines[u], write), w'.machines[u]) || (!sure && SameRecords(w.machines[u], w'.machines[u])))
  }

  /** No record of the Machine moved; `u` still holds what it held. */
  ghost predicate OnlyHosts(w: World, w': World, u: Uid) {
    && u in w.machines && u in w'.machines
    && SameRecords(w.machines[u], w'.machines[u]) && (w.machines[u].deleting ==> w'.machines[u].deleting)
    && RemotesSteady(u, w, w')
    && (forall h | h in w.hosts :: h in w'.hosts && w.hosts[h].name == w'.hosts[h].name && (w'.hosts[h].live ==> w.hosts[h].live))
  }

  predicate KeepsClaims(u: Uid, w: World, w': World) {
    forall h | h in w.hosts :: h in w'.hosts && (w.hosts[h].consumer == By(u) ==> w'.hosts[h].consumer == By(u))
  }

  predicate NoNewClaims(u: Uid, w: World, w': World) {
    forall h | h in w'.hosts :: w'.hosts[h].consumer == By(u) ==> h in w.hosts && w.hosts[h].consumer == By(u)
  }

  lemma WriteIsWrote(w: World, mid: World, w': World, u: Uid, write: MachineWrite, sure: bool)
    requires Others(u, w, mid) && Permitted(w, u, write) && Permitted(mid, u, write)
    requires w' == PutMachine(mid, u, Changed(mid.machines[u], write)) || (!sure && w' == mid)
    ensures Wrote(w, w', u, write, sure)
  {
  }

  lemma OthersIsOnlyHosts(w: World, w': World, u: Uid)
    requires Others(u, w, w')
    ensures OnlyHosts(w, w', u) && KeepsClaims(u, w, w') && NoNewClaims(u, w, w')
  {
  }

  /** A write of a host object, seen from the Machine. */
  lemma HostWriteIsOnlyHosts(w: World, mid: World, w': World, u: Uid, h: HostId, write: HostWrite)
    requires Others(u, w, mid) && h in mid.hosts
    requires w' == mid || w' == PutHost(mid, h, HostChanged(mid.hosts[h], u, write))
    ensures OnlyHosts(w, w', u)
    ensures !write.Claim? ==> NoNewClaims(u, w, w')
    ensures !write.ReleaseClaim? ==> KeepsClaims(u, w, w')
    ensures (write.SetPhase? || write.MarkAvailable?) && mid.hosts[h].live ==> HostsSteady(u, w, w')
  {
    OthersIsOnlyHosts(w, mid, u);
    if w' != mid {
      HostChangedAt(mid.hosts[h], u, write);
      if (write.SetPhase? || write.MarkAvailable?) && mid.hosts[h].live { PhaseIsSteady(w, mid, w', u, h, write); }
    }
  }

  lemma HostChangedAt(o: HostObject, u: Uid, write: HostWrite)
    ensures var o' := HostChanged(o, u, write);
            && o'.name == o.name && o'.live == o.live && o'.version == o.version
            && (write.SetPhase? || write.MarkAvailable? ==> o'.consumer == o.consumer)
            && (write.Claim? ==> o'.consumer == By(u)) && (write.ReleaseClaim? ==> o'.consumer == Nobody)
  {
  }

  lemma PhaseIsSteady(w: World, mid: World, w': World, u: Uid, h: HostId, write: HostWrite)
    requires HostsSteady(u, w, mid) && h in mid.hosts && (write.SetPhase? || write.MarkAvailable?)
    requires w' == PutHost(mid, h, HostChanged(mid.hosts[h], u, write))
    ensures HostsSteady(u, w, w')
  {
  }

  lemma OnlyHostsTransitive(a: World, b: World, c: World, u: Uid)
    requires OnlyHosts(a, b, u) && OnlyHosts(b, c, u)
    ensures OnlyHosts(a, c, u)
    ensures NoNewClaims(u, a, b) && NoNewClaims(u, b, c) ==> NoNewClaims(u, a, c)
    ensures KeepsClaims(u, a, b) && KeepsClaims(u, b, c) ==> KeepsClaims(u, a, c)
  {
  }

  // ---------- contracts.py ----------

  /** Read the object, check its UID, patch the version that was read; any API error is a retry. */
  method PersistMachineStatus(c: Cluster, u: Uid, write: MachineWrite) returns (ok: bool)
    requires c.Valid() && Permitted(c.world, u, write)
    modifies c
    ensures c.Valid() && c.Ran() && (c.faults == old(c.faults) <==> ok)
    ensures Wrote(old(c.world), c.world, u, write, ok)
  {
    var current: Machine;
    ghost var start := c.world;
    ok, current := c.GetMachine(u);
    ghost var read := c.world;
    PermittedStays(start, read, u, write);
    if !ok {
      WriteIsWrote(start, read, read, u, write, false);
      return;
    }
    var reply, mid := c.PatchMachine(u, current.version, write);
    OthersTransitive(u, start, read, mid);
    ok := reply.Done?;
    WriteIsWrote(start, mid, c.world, u, write, ok);
  }

  // ---------- inventory.py ----------

  method SetHostPhase(c: Cluster, u: Uid, binding: Binding, phase: HostPhase, reason: string) returns (ok: bool)
    requires c.Valid() && u in c.world.machines && phase in {Claimed, Cleaning, Quarantined}
    requires binding.host.Some? ==> binding.host.value in c.world.hosts
    modifies c
    ensures c.Valid() && c.Ran() && (ok <== c.faults == old(c.faults) && StillHeld(old(c.world), u, binding))
    ensures OnlyHosts(old(c.world), c.world, u) && HostsSteady(u, old(c.world), c.world)
    ensures ok && binding.host.Some? ==>
              var host := c.world.hosts[binding.host.value];
              host.consumer == By(u) && host.phase == phase && host.inUse && host.reason == reason
    ensures ok && binding.host.Some? ==> Did(c.acts, |old(c.acts)|, OnHost(u, binding.host.value, SetPhase(phase, reason)))
  {
    ghost var start := c.world;
    OthersRefl(u, start);
    OthersIsOnlyHosts(start, start, u);
    if binding.host.None? { return true; }
    var h := binding.host.value;
    var seen: HostObject;
    ok, seen := c.GetHost(u, h);
    ghost var read := c.world;
    OthersIsOnlyHosts(start, read, u);
    if !ok { return; }
    if seen.consumer != By(u) { return false; }
    var reply, mid := c.PatchHost(u, h, seen, SetPhase(phase, reason));
    OthersTransitive(u, start, read, mid);
    HostWriteIsOnlyHosts(start, mid, c.world, u, h, SetPhase(phase, reason));
    ok := reply.Done?;
  }

  /** The allocated host object, if there is one, carries the claim of `u`. */
  predicate StillHeld(w: World, u: Uid, binding: Binding) {
    binding.host.Some? ==>
      var h := binding.host.value; h in w.hosts && (w.hosts[h].live ==> w.hosts[h].consumer == By(u))
  }

  /** Mark the claimed host available, then clear its claim. */
  method GiveBack(c: Cluster, u: Uid, h: HostId, seen: HostObject) returns (ok: bool)
    requires c.Valid() && u in c.world.machines && h in c.world.hosts
    requires seen == c.world.hosts[h] && seen.live && seen.consumer == By(u) && MayRelease(c.world.machines[u], h)
    modifies c
    ensures c.Valid() && c.Ran() && (c.faults == old(c.faults) <==> ok)
    ensures OnlyHosts(old(c.world), c.world, u) && NoNewClaims(u, old(c.world), c.world)
    ensures h in c.world.hosts
    ensures ok ==> c.world.hosts[h] == seen.(phase := Available, inUse := false, reason := "", consumer := Nobody, version := seen.version + 2)
  {
    ghost var start := c.world;
    var after: HostObject;
    ok, after := PatchClaimed(c, u, h, seen, MarkAvailable);
    ghost var marked := c.world;
    if !ok { return; }
    ok, after := PatchClaimed(c, u, h, after, ReleaseClaim);
    OnlyHostsTransitive(start, marked, c.world, u);
  }

  /** A write to the host that `u` holds, at the version that was read. */
  method PatchClaimed(c: Cluster, u: Uid, h: HostId, seen: HostObject, write: HostWrite) returns (ok: bool, after: HostObject)
    requires c.Valid() && u in c.world.machines && !write.Claim?
    requires Seen(c.world, h, seen) && MayWriteHost(c.world.machines[u], u, h, seen, write)
    modifies c
    ensures c.Valid() && c.Ran() && (c.faults == old(c.faults) <==> ok)
    ensures OnlyHosts(old(c.world), c.world, u) && NoNewClaims(u, old(c.world), c.world)
    ensures h in c.world.hosts
    ensures ok ==> after == c.world.hosts[h] == HostChanged(seen, u, write).(version := seen.version + 1)
  {
    ghost var start := c.world;
    var reply, mid := c.PatchHost(u, h, seen, write);
    HostWriteIsOnlyHosts(start, mid, c.world, u, h, write);
    return reply.Done?, if reply.Done? then reply.value else seen;
  }

  /** Called only with the cleanup receipt stored; a claim that is already gone was released by an earlier call. */
  method ReleaseHost(c: Cluster, u: Uid, binding: Binding) returns (ok: bool)
    requires c.Valid() && u in c.world.machines
    requires binding.host.Some? ==> binding.host.value in c.world.hosts && MayRelease(c.world.machines[u], binding.host.value)
    modifies c
    ensures c.Valid() && c.Ran()
    ensures ok <== c.faults == old(c.faults) && (NotTaken(c.world, u, binding) || StillHeld(old(c.world), u, binding))
    ensures OnlyHosts(old(c.world), c.world, u) && NoNewClaims(u, old(c.world), c.world)
    ensures ok && binding.host.Some? ==> c.world.hosts[binding.host.value].consumer.Nobody?
    ensures ok && binding.host.Some? && StillHeld(old(c.world), u, binding) ==>
              var host := c.world.hosts[binding.host.value]; host.phase.Available? && !host.inUse && host.reason == ""
  {
    ghost var start := c.world;
    OthersRefl(u, start);
    OthersIsOnlyHosts(start, start, u);
    if binding.host.None? { return true; }
    var h := binding.host.value;
    var seen: HostObject;
    ok, seen := c.GetHost(u, h);
    ghost var read := c.world;
    OthersIsOnlyHosts(start, read, u);
    if !ok { return; }
    if seen.consumer.Nobody? { return; }
    if seen.consumer != By(u) { return false; }
    ok := GiveBack(c, u, h, seen);
    OnlyHostsTransitive(start, read, c.world, u);
  }

  /** No other Machine has the allocated host. */
  predicate NotTaken(w: World, u: Uid, binding: Binding) {
    binding.host.Some? ==>
      var h := binding.host.value; h in w.hosts && (w.hosts[h].live ==> w.hosts[h].consumer in {Nobody, By(u)})
  }

  // ---------- finding and making claims ----------

  /** Two different hosts carry the claim of `u`; `OneClaimOnly` excludes it. */
  ghost predicate ManyClaims(w: World, u: Uid) {
    exists g, h :: g != h && Holds(w, u, g) && Holds(w, u, h)
  }

  lemma OneClaimOnly(c: Cluster, u: Uid)
    requires c.Valid() && u in c.world.machines
    ensures !ManyClaims(c.world, u)
  {
    InvAlways(c.states, c.acts, |c.acts|);
  }

  lemma TwoClaims(w: World, u: Uid, own: set<HostId>)
    requires |own| > 1 && forall h | h in own :: Holds(w, u, h)
    ensures ManyClaims(w, u)
  {
    var g :| g in own;
    var rest := own - {g};
    assert |rest| == |own| - 1;
    var h :| h in rest;
    assert Holds(w, u, g) && Holds(w, u, h);
  }

  predicate Lists(w: World, listed: map<HostId, HostObject>) {
    && (forall h | h in w.hosts && w.hosts[h].live :: h in listed && listed[h] == w.hosts[h])
    && (forall h | h in listed :: h in w.hosts && w.hosts[h].live)
  }

  /** List the hosts and pick those that carry the claim of `u`: exactly the ones it holds. */
  method ListOwn(c: Cluster, u: Uid) returns (ok: bool, hosts: map<HostId, HostObject>, own: set<HostId>)
    requires c.Valid() && u in c.world.machines
    modifies c
    ensures c.Valid() && c.Ran() && (c.faults == old(c.faults) <==> ok)
    ensures Others(u, old(c.world), c.world) && Lists(c.world, hosts)
    ensures forall h: HostId :: h in own <==> Holds(c.world, u, h)
    ensures own == {} ==> HoldsNothing(c.world, u)
    ensures |own| > 1 ==> ManyClaims(c.world, u)
  {
    ok, hosts := c.ListHosts(u);
    own := set h | h in hosts && hosts[h].consumer == By(u);
    forall h: HostId ensures h in own <==> Holds(c.world, u, h) {
    }
    if own == {} {
      assert forall h | h in c.world.hosts :: Holds(c.world, u, h) ==> h in own;
    }
    if |own| > 1 { TwoClaims(c.world, u, own); }
  }

  function BindingTo(u: Uid, h: HostId, host: HostObject): Binding {
    Binding(u, host.target, Some(h), host.credentials)
  }

  /** An existing claim of this UID, after a crash between claim and allocation; never another host. */
  method RecoverUnstartedClaim(c: Cluster, u: Uid) returns (r: Outcome<Option<Binding>>)
    requires c.Valid() && u in c.world.machines
    modifies c
    ensures c.Valid() && c.Ran() && !r.Permanent?
    ensures Others(u, old(c.world), c.world)
    ensures c.faults == old(c.faults) ==> r.Ok? || ManyClaims(c.world, u)
    ensures r == Ok(None) ==> HoldsNothing(c.world, u)
    ensures r.Ok? && r.value.Some? ==>
              var b := r.value.value;
              b.host.Some? && Holds(c.world, u, b.host.value) && b == BindingTo(u, b.host.value, c.world.hosts[b.host.value])
  {
    var ok, hosts, own := ListOwn(c, u);
    if !ok || |own| > 1 { return Temporary; }
    if own == {} { return Ok(None); }
    var h :| h in own;
    return Ok(Some(BindingTo(u, h, hosts[h])));
  }

  /** What a candidate must be for this selector; a host that is claimed, unclean or known unready is left alone. */
  predicate Eligible(host: HostObject, selector: set<string>) {
    && !host.deleting && selector <= host.labels
    && host.consumer.Nobody? && host.phase in {Unset, Available} && host.ready != Some(false)
  }

  /** A Machine without a claim may be given one. */
  predicate MaySelect(spec: MachineSpec, provisioned: bool) {
    spec.hostRef.None? && spec.providerId.None? && !provisioned && spec.selector.Some? && spec.selector.value != {}
  }

  /** The first eligible host of the list that was not skipped. */
  predicate Chosen(hosts: map<HostId, HostObject>, selector: set<string>, h: HostId, skipped: set<HostId>) {
    && h in hosts && Eligible(hosts[h], selector) && h !in skipped
    && forall g | g in hosts && Eligible(hosts[g], selector) && g !in skipped :: Le(hosts[h], hosts[g])
  }

  predicate NoneLeft(hosts: map<HostId, HostObject>, selector: set<string>, skipped: set<HostId>) {
    forall g | g in hosts && Eligible(hosts[g], selector) :: g in skipped
  }

  /** The list shows the live hosts of some state since `from`. */
  ghost predicate ListedSince(states: seq<World>, from: nat, listed: map<HostId, HostObject>) {
    exists k :: from <= k < |states| && Lists(states[k], listed)
  }

  /** A host for `u`: the one it already claimed, or else the first candidate whose claim is accepted. */
  method SelectHost(c: Cluster, u: Uid, spec: MachineSpec, provisioned: bool)
    returns (r: Outcome<HostId>, host: HostObject, ghost listed: map<HostId, HostObject>, ghost skipped: set<HostId>)
    requires c.Valid() && u in c.world.machines
    requires c.world.machines[u].allocation.None? && c.world.machines[u].cleanup.NoCleanup?
    modifies c
    ensures c.Valid() && c.Ran()
    ensures OnlyHosts(old(c.world), c.world, u) && KeepsClaims(u, old(c.world), c.world)
    ensures r.Ok? ==> r.value in c.world.hosts && c.world.hosts[r.value] == host && host.live && host.consumer == By(u)
    // A claim of its own is found again, whatever became of labels or health, and no second one is made.
    ensures forall g: HostId | Holds(old(c.world), u, g) && Holds(c.world, u, g) ::
              && NoNewClaims(u, old(c.world), c.world) && (r.Ok? ==> r.value == g)
              && (c.faults == old(c.faults) ==> r.Ok? || ManyClaims(c.world, u))
    // A new claim goes to the first eligible host of the list, past those that had changed in the meantime.
    ensures ListedSince(c.states, |old(c.states)| - 1, listed)
    ensures r.Ok? && HoldsNothing(old(c.world), u) ==>
              spec.selector.Some? && Chosen(listed, spec.selector.value, r.value, skipped)
    ensures forall h | h in skipped :: h in listed && ChangedSince(c.world, h, listed[h])
    // Without a fault it is made exactly if there is an eligible host.
    ensures c.faults == old(c.faults) && HoldsNothing(old(c.world), u) ==>
              if !MaySelect(spec, provisioned) then r.Permanent?
              else r.Ok? <==> exists h :: h in listed && Eligible(listed[h], spec.selector.value)
  {
    ghost var start := c.world;
    var ok, hosts, own := ListOwn(c, u);
    ghost var read := c.world;
    listed, skipped := hosts, {};
    OthersIsOnlyHosts(start, read, u);
    host := HostObject("", false, 0, Endpoint("", 0), 0, {}, None, false, Unset, false, "", Nobody);
    assert Lists(c.states[|c.states| - 1], listed);
    if !ok { return Temporary, host, listed, skipped; }
    if |own| > 1 { return Permanent, host, listed, skipped; }
    if own != {} {
      var h :| h in own;
      OnlyOne(own, h);
      return Ok(h), hosts[h], listed, skipped;
    }
    if !MaySelect(spec, provisioned) { return Permanent, host, listed, skipped; }
    r, host, skipped := SelectNew(c, u, spec.selector.value, hosts, start, |old(c.states)| - 1);
    NotHeldBefore(start, read, c.world, u);
  }

  /** A first claim from the list. */
  method SelectNew(c: Cluster, u: Uid, selector: set<string>, hosts: map<HostId, HostObject>, ghost start: World, ghost from: nat)
    returns (r: Outcome<HostId>, host: HostObject, ghost skipped: set<HostId>)
    requires c.Valid() && Others(u, start, c.world) && HoldsNothing(c.world, u)
    requires c.world.machines[u].allocation.None? && c.world.machines[u].cleanup.NoCleanup?
    requires Lists(c.world, hosts) && from < |c.states|
    modifies c
    ensures c.Valid() && c.Ran() && !r.Permanent?
    ensures MayClaim(start, c.world, u) && MayClaim(old(c.world), c.world, u) && ListedSince(c.states, from, hosts)
    ensures r.Ok? ==> r.value in c.world.hosts && c.world.hosts[r.value] == host && host.live && host.consumer == By(u)
    ensures r.Ok? ==> Chosen(hosts, selector, r.value, skipped)
    ensures forall h | h in skipped :: h in hosts && ChangedSince(c.world, h, hosts[h])
    ensures c.faults == old(c.faults) ==> (r.Ok? <==> exists h :: h in hosts && Eligible(hosts[h], selector))
  {
    ghost var read, states := c.world, c.states;
    assert Lists(states[|states| - 1], hosts);
    OthersIsOnlyHosts(start, read, u);
    r, host, skipped := TryCandidates(c, u, selector, hosts);
    assert c.states[|states| - 1] == states[|states| - 1];
    OnlyHostsTransitive(start, read, c.world, u);
  }

  lemma OnlyOne(own: set<HostId>, h: HostId)
    requires |own| <= 1 && h in own
    ensures own == {h}
  {
    assert |own - {h}| == 0;
  }

  /** A host that `u` held at the start and holds at the end was held in between. */
  lemma NotHeldBefore(start: World, read: World, end: World, u: Uid)
    requires Others(u, start, read) && HoldsNothing(read, u)
    requires forall h | h in read.hosts :: h in end.hosts && (end.hosts[h].live ==> read.hosts[h].live)
    ensures forall g :: !(Holds(start, u, g) && Holds(end, u, g))
  {
  }

  /** One attempt; a conflict leaves the candidate to others. */
  method TryClaim(c: Cluster, u: Uid, h: HostId, seen: HostObject) returns (reply: Reply<HostObject>)
    requires c.Valid() && u in c.world.machines && HoldsNothing(c.world, u)
    requires c.world.machines[u].allocation.None? && c.world.machines[u].cleanup.NoCleanup?
    requires Seen(c.world, h, seen) && seen.live && seen.consumer.Nobody? && seen.phase in {Unset, Available}
    modifies c
    ensures c.Valid() && c.Ran() && c.faults == old(c.faults) + (if reply.Done? then 0 else 1)
    ensures MayClaim(old(c.world), c.world, u)
    ensures reply.Done? ==> h in c.world.hosts && c.world.hosts[h] == reply.value && reply.value.live && reply.value.consumer == By(u)
    ensures reply.Conflict? ==> Others(u, old(c.world), c.world) && ChangedSince(c.world, h, seen)
    ensures VersionsGrow(old(c.world), c.world)
  {
    ghost var start := c.world;
    ghost var mid: World;
    reply, mid := c.PatchHost(u, h, seen, Claim);
    HostWriteIsOnlyHosts(start, mid, c.world, u, h, Claim);
    WriteGrows(start, mid, c.world, u, h, Claim);
  }

  lemma WriteGrows(w: World, mid: World, w': World, u: Uid, h: HostId, write: HostWrite)
    requires Others(u, w, mid) && h in mid.hosts
    requires w' == mid || w' == PutHost(mid, h, HostChanged(mid.hosts[h], u, write))
    ensures VersionsGrow(w, w')
  {
  }

  /** Nothing but at most a new claim of `u`. */
  ghost predicate MayClaim(w: World, w': World, u: Uid) {
    OnlyHosts(w, w', u) && KeepsClaims(u, w, w')
  }

  lemma MayClaimAfter(start: World, before: World, end: World, u: Uid)
    requires Others(u, start, before) && (end == before || MayClaim(before, end, u))
    ensures MayClaim(start, end, u)
  {
    OthersIsOnlyHosts(start, before, u);
    if end != before { OnlyHostsTransitive(start, before, end, u); }
  }

  lemma StillAttemptable(start: World, w: World, u: Uid, h: HostId, seen: HostObject)
    requires Others(u, start, w) && HoldsNothing(start, u) && h in start.hosts && start.hosts[h] == seen
    ensures HoldsNothing(w, u) && Seen(w, h, seen)
    ensures w.machines[u].allocation == start.machines[u].allocation && w.machines[u].cleanup == start.machines[u].cleanup
  {
  }

  /** The host object is not the one that was listed any more. */
  predicate ChangedSince(w: World, h: HostId, seen: HostObject) {
    h in w.hosts && seen.version < w.hosts[h].version
  }

  /** Eligible candidates that were skipped: each had changed since it was listed. */
  predicate Skipped(w: World, hosts: map<HostId, HostObject>, selector: set<string>, skipped: set<HostId>) {
    forall h | h in skipped :: h in hosts && Eligible(hosts[h], selector) && ChangedSince(w, h, hosts[h])
  }

  predicate VersionsGrow(w: World, w': World) {
    forall h | h in w.hosts :: h in w'.hosts && w.hosts[h].version <= w'.hosts[h].version
  }

  lemma SkippedStays(w: World, w': World, hosts: map<HostId, HostObject>, selector: set<string>, skipped: set<HostId>)
    requires Skipped(w, hosts, selector, skipped) && VersionsGrow(w, w')
    ensures Skipped(w', hosts, selector, skipped)
  {
  }

  /** Of the candidates before position `i` exactly the eligible ones were skipped. */
  predicate Progress(hosts: map<HostId, HostObject>, candidates: seq<HostId>, i: nat, selector: set<string>, skipped: set<HostId>) {
    && i <= |candidates|
    && (forall h | h in skipped :: h in candidates[..i])
    && (forall h | h in candidates[..i] && h in hosts && Eligible(hosts[h], selector) :: h in skipped)
  }

  /** The position moves on past a candidate that is not eligible or was skipped. */
  lemma ProgressStep(hosts: map<HostId, HostObject>, candidates: seq<HostId>, i: nat, selector: set<string>, skipped: set<HostId>)
    requires Ordered(hosts, candidates) && Progress(hosts, candidates, i, selector, skipped) && i < |candidates|
    ensures candidates[i] !in skipped
    ensures var skipped' := if Eligible(hosts[candidates[i]], selector) then skipped + {candidates[i]} else skipped;
            Progress(hosts, candidates, i + 1, selector, skipped')
  {
    assert candidates[..i + 1] == candidates[..i] + [candidates[i]];
  }

  /** The first eligible candidate is the chosen one. */
  lemma ChosenAt(hosts: map<HostId, HostObject>, candidates: seq<HostId>, i: nat, selector: set<string>, skipped: set<HostId>)
    requires Ordered(hosts, candidates) && (forall h | h in hosts :: h in candidates) && i < |candidates|
    requires Progress(hosts, candidates, i, selector, skipped) && Eligible(hosts[candidates[i]], selector)
    ensures Chosen(hosts, selector, candidates[i], skipped)
  {
    ProgressStep(hosts, candidates, i, selector, skipped);
    forall g | g in hosts && Eligible(hosts[g], selector) && g !in skipped ensures Le(hosts[candidates[i]], hosts[g]) {
      var j :| 0 <= j < |candidates| && candidates[j] == g;
      LeTotal(hosts[g], hosts[g]);
    }
  }

  lemma NoneLeftAtEnd(hosts: map<HostId, HostObject>, candidates: seq<HostId>, selector: set<string>, skipped: set<HostId>)
    requires (forall h | h in hosts :: h in candidates) && Progress(hosts, candidates, |candidates|, selector, skipped)
    ensures NoneLeft(hosts, selector, skipped)
  {
    assert candidates[..|candidates|] == candidates;
  }

  /**
    The candidates in order. The claim goes to the first eligible one that has not changed since it was
    listed; every conflict is skipped; without one and without an error, a claim is made if any host is eligible.
   */
  method TryCandidates(c: Cluster, u: Uid, selector: set<string>, hosts: map<HostId, HostObject>)
    returns (r: Outcome<HostId>, host: HostObject, ghost skipped: set<HostId>)
    requires c.Valid() && u in c.world.machines && HoldsNothing(c.world, u)
    requires c.world.machines[u].allocation.None? && c.world.machines[u].cleanup.NoCleanup?
    requires forall h | h in hosts :: h in c.world.hosts && hosts[h] == c.world.hosts[h] && hosts[h].live
    modifies c
    ensures c.Valid() && c.Ran() && !r.Permanent?
    ensures MayClaim(old(c.world), c.world, u)
    ensures r.Ok? ==> r.value in c.world.hosts && c.world.hosts[r.value] == host && host.live && host.consumer == By(u)
    ensures r.Ok? ==> Chosen(hosts, selector, r.value, skipped) && c.faults == old(c.faults) + |skipped|
    ensures !r.Ok? ==> c.faults == old(c.faults) + |skipped| + 1 || (c.faults == old(c.faults) + |skipped| && NoneLeft(hosts, selector, skipped))
    ensures forall h | h in skipped :: h in hosts && Eligible(hosts[h], selector) && ChangedSince(c.world, h, hosts[h])
  {
    ghost var start := c.world;
    OthersRefl(u, start);
    var candidates := SortCandidates(hosts);
    var i, reply;
    i, reply, skipped := ClaimFirst(c, u, selector, hosts, candidates);
    if reply.Done? {
      ChosenAt(hosts, candidates, i, selector, skipped);
      return Ok(candidates[i]), reply.value, skipped;
    }
    if reply.Conflict? { NoneLeftAtEnd(hosts, candidates, selector, skipped); }
    return Temporary, HostObject("", false, 0, Endpoint("", 0), 0, {}, None, false, Unset, false, "", Nobody), skipped;
  }

  /** The loop over the candidates. It ends with an accepted claim at position `i`, with an error there, or past the last one. */
  method ClaimFirst(c: Cluster, u: Uid, selector: set<string>, hosts: map<HostId, HostObject>, candidates: seq<HostId>)
    returns (i: nat, reply: Reply<HostObject>, ghost skipped: set<HostId>)
    requires c.Valid() && u in c.world.machines && HoldsNothing(c.world, u)
    requires c.world.machines[u].allocation.None? && c.world.machines[u].cleanup.NoCleanup?
    requires forall h | h in hosts :: h in c.world.hosts && hosts[h] == c.world.hosts[h] && hosts[h].live
    requires Ordered(hosts, candidates)
    modifies c
    ensures c.Valid() && c.Ran() && MayClaim(old(c.world), c.world, u)
    ensures Progress(hosts, candidates, i, selector, skipped) && Skipped(c.world, hosts, selector, skipped)
    ensures c.faults == old(c.faults) + |skipped| + (if reply.Raised? then 1 else 0)
    ensures if reply.Conflict? then i == |candidates| else i < |candidates| && Eligible(hosts[candidates[i]], selector)
    ensures reply.Done? ==>
              && candidates[i] in c.world.hosts && c.world.hosts[candidates[i]] == reply.value
              && reply.value.live && reply.value.consumer == By(u)
  {
    ghost var start := c.world;
    OthersRefl(u, start);
    i, reply, skipped := 0, Conflict, {};
    while i < |candidates|
      invariant c.Valid() && c.Ran() && Others(u, start, c.world)
      invariant Progress(hosts, candidates, i, selector, skipped) && Skipped(c.world, hosts, selector, skipped)
      invariant c.faults == old(c.faults) + |skipped| && reply.Conflict?
    {
      var h := candidates[i];
      ProgressStep(hosts, candidates, i, selector, skipped);
      if Eligible(hosts[h], selector) {
        reply, skipped := TryOne(c, u, selector, hosts, h, start, skipped);
        if !reply.Conflict? { return; }
      }
      i := i + 1;
    }
    MayClaimAfter(start, c.world, c.world, u);
  }

  /** One candidate of the list; a conflict adds it to the skipped ones. */
  method TryOne(
    c: Cluster, u: Uid, selector: set<string>, hosts: map<HostId, HostObject>, h: HostId, ghost start: World, ghost skipped: set<HostId>)
    returns (reply: Reply<HostObject>, ghost skipped': set<HostId>)
    requires c.Valid() && Others(u, start, c.world) && HoldsNothing(start, u)
    requires start.machines[u].allocation.None? && start.machines[u].cleanup.NoCleanup?
    requires h in hosts && h in start.hosts && hosts[h] == start.hosts[h]
    requires hosts[h].live && Eligible(hosts[h], selector) && h !in skipped
    requires Skipped(c.world, hosts, selector, skipped)
    modifies c
    ensures c.Valid() && c.Ran() && MayClaim(start, c.world, u)
    ensures reply.Conflict? ==> Others(u, start, c.world)
    ensures skipped' == (if reply.Conflict? then skipped + {h} else skipped) && Skipped(c.world, hosts, selector, skipped')
    ensures c.faults + |skipped| == old(c.faults) + |skipped'| + (if reply.Raised? then 1 else 0)
    ensures reply.Done? ==> h in c.world.hosts && c.world.hosts[h] == reply.value && reply.value.live && reply.value.consumer == By(u)
  {
    ghost var before := c.world;
    StillAttemptable(start, before, u, h, hosts[h]);
    reply := TryClaim(c, u, h, hosts[h]);
    MayClaimAfter(start, before, c.world, u);
    SkippedStays(before, c.world, hosts, selector, skipped);
    skipped' := skipped;
    if reply.Conflict? {
      OthersTransitive(u, start, before, c.world);
      skipped' := skipped + {h};
    }
  }

  // ---------- binding ----------

  function ProviderIdOf(b: Binding): string {
    "ssh://" + b.target.address
  }

  /** What the spec still says agrees with the stored allocation. */
  predicate SpecAgrees(spec: MachineSpec, b: Binding, hostName: Option<string>) {
    && (spec.address.Some? ==> spec.address.value == b.target.address)
    && (spec.port.Some? ==> spec.port.value == b.target.port)
    && (spec.hostRef.Some? ==> spec.hostRef == hostName)
    && (spec.providerId.Some? ==> spec.providerId.value == ProviderIdOf(b))
  }

  /** The stored allocation may be used: spec and host still agree with it, and the host is not withheld. */
  predicate Usable(w: World, u: Uid, spec: MachineSpec, stored: Binding) {
    && stored.machine == u && SpecAgrees(spec, stored, HostNameOf(w, stored))
    && (stored.host.Some? ==>
          var h := stored.host.value;
          && h in w.hosts && w.hosts[h].consumer == By(u) && w.hosts[h].target == stored.target
          && w.hosts[h].phase !in {Quarantined, Cleaning})
  }

  /** The existing allocation, with current credentials; any change of identity is refused for good. */
  method RefreshBinding(c: Cluster, u: Uid, spec: MachineSpec, stored: Binding) returns (r: Outcome<Binding>)
    requires c.Valid() && u in c.world.machines
    requires stored.host.Some? ==> stored.host.value in c.world.hosts
    modifies c
    ensures c.Valid() && c.Ran() && Others(u, old(c.world), c.world)
    ensures r.Ok? ==> SameTarget(stored, r.value) && SpecAgrees(spec, stored, HostNameOf(old(c.world), stored))
    ensures r.Ok? && stored.host.Some? ==>
              var host := c.world.hosts[stored.host.value];
              && host.live && host.consumer == By(u) && host.target == stored.target
              && host.phase !in {Quarantined, Cleaning} && r.value.credentials == host.credentials
    ensures r.Ok? && stored.host.None? ==> r.value.credentials == spec.credentials
    ensures c.faults == old(c.faults) ==> (r.Ok? <==> Usable(c.world, u, spec, stored))
  {
    OthersRefl(u, c.world);
    if stored.machine != u || !SpecAgrees(spec, stored, HostNameOf(c.world, stored)) { return Permanent; }
    if stored.host.None? { return Ok(stored.(credentials := spec.credentials)); }
    var ok, host := c.GetHost(u, stored.host.value);
    if !ok { return Temporary; }
    if host.consumer != By(u) || host.target != stored.target { return Permanent; }
    if host.phase in {Quarantined, Cleaning} { return Temporary; }
    return Ok(stored.(credentials := host.credentials));
  }

  function HostNameOf(w: World, b: Binding): Option<string> {
    if b.host.Some? && b.host.value in w.hosts then Some(w.hosts[b.host.value].name) else None
  }

  /** The host awaits cleanup or an operator. */
  predicate Withheld(w: World, g: HostId) {
    g in w.hosts && w.hosts[g].phase in {Quarantined, Cleaning}
  }

  /** Some list since `from` shows no host that is eligible for the selector. */
  ghost predicate NoneEligible(states: seq<World>, from: nat, spec: MachineSpec) {
    exists listed :: ListedSince(states, from, listed) && NoCandidate(listed, spec)
  }

  predicate NoCandidate(listed: map<HostId, HostObject>, spec: MachineSpec) {
    spec.selector.Some? && forall h | h in listed :: !Eligible(listed[h], spec.selector.value)
  }

  predicate LostOrWithheld(w: World, w': World, u: Uid, g: HostId) {
    (Holds(w, u, g) && !Holds(w', u, g)) || (Holds(w', u, g) && Withheld(w', g))
  }

  /**
    Why there is no first binding although every call went as asked: the address in the spec is unusable;
    or the claimed host is gone or withheld; or there was no claim, and none may be made or no host is eligible.
   */
  ghost predicate Unbindable(w: World, w': World, states: seq<World>, from: nat, u: Uid, spec: MachineSpec, provisioned: bool) {
    if !FromPool(spec) then
      spec.address.None? || spec.address.value == "" || (spec.providerId.Some? && spec.providerId.value != "ssh://" + spec.address.value)
    else
      || (exists g :: LostOrWithheld(w, w', u, g))
      || (HoldsNothing(w, u) && (!MaySelect(spec, provisioned) || NoneEligible(states, from, spec)))
  }

  /** A first binding: a claimed host, or the address in the spec. */
  method ChooseBinding(c: Cluster, u: Uid, spec: MachineSpec, provisioned: bool) returns (r: Outcome<Binding>)
    requires c.Valid() && u in c.world.machines
    requires c.world.machines[u].allocation.None? && c.world.machines[u].cleanup.NoCleanup?
    modifies c
    ensures c.Valid() && c.Ran()
    ensures OnlyHosts(old(c.world), c.world, u) && KeepsClaims(u, old(c.world), c.world)
    ensures r.Ok? ==> r.value.machine == u && (r.value.host.Some? <==> FromPool(spec))
    ensures r.Ok? && r.value.host.Some? ==>
              var h := r.value.host.value; h in c.world.hosts && c.world.hosts[h].consumer == By(u) && r.value == BindingTo(u, h, c.world.hosts[h])
    ensures r.Ok? && r.value.host.None? ==> spec.address.Some? && r.value.target == DirectTarget(spec)
    ensures forall g: HostId | Holds(old(c.world), u, g) && Holds(c.world, u, g) ::
              && NoNewClaims(u, old(c.world), c.world) && (r.Ok? && FromPool(spec) ==> r.value.host == Some(g))
              && (c.faults == old(c.faults) && FromPool(spec) ==>
                    r.Ok? || c.world.hosts[g].phase in {Quarantined, Cleaning} || ManyClaims(c.world, u))
    ensures c.faults == old(c.faults) ==>
              r.Ok? || Unbindable(old(c.world), c.world, c.states, |old(c.states)| - 1, u, spec, provisioned)
  {
    ghost var start := c.world;
    OthersRefl(u, c.world);
    OthersIsOnlyHosts(c.world, c.world, u);
    if FromPool(spec) {
      var selected, host, listed, _ := SelectHost(c, u, spec, provisioned);
      OneClaimOnly(c, u);
      if !selected.Ok? {
        if c.faults == old(c.faults) { NotSelected(start, c.world, u); }
        assert spec.selector.Some? && (forall h | h in listed :: !Eligible(listed[h], spec.selector.value)) ==> NoCandidate(listed, spec);
        return if selected.Permanent? then Permanent else Temporary;
      }
      if host.phase in {Quarantined, Cleaning} {
        assert LostOrWithheld(start, c.world, u, selected.value);
        return Temporary;
      }
      return Ok(BindingTo(u, selected.value, host));
    }
    if spec.address.None? || spec.address.value == "" { return Permanent; }
    var b := Binding(u, DirectTarget(spec), None, spec.credentials);
    if spec.providerId.Some? && spec.providerId.value != ProviderIdOf(b) { return Permanent; }
    return Ok(b);
  }

  /** A claim that was there is still there, or it was lost. */
  lemma NotSelected(w: World, w': World, u: Uid)
    requires forall g: HostId :: !(Holds(w, u, g) && Holds(w', u, g))
    ensures HoldsNothing(w, u) || exists g :: LostOrWithheld(w, w', u, g)
  {
    if !HoldsNothing(w, u) {
      var g :| g in w.hosts && Holds(w, u, g);
      assert LostOrWithheld(w, w', u, g);
    }
  }

  predicate FromPool(spec: MachineSpec) {
    spec.selector.Some? || spec.hostRef.Some?
  }

  /** The address in the spec; the port defaults to 22. */
  function DirectTarget(spec: MachineSpec): Endpoint
    requires spec.address.Some?
  {
    Endpoint(spec.address.value, if spec.port.Some? then spec.port.value else 22)
  }

  lemma SavedTargetIsCalm(w: World, mid: World, w': World, u: Uid, write: MachineWrite)
    requires Others(u, w, mid) && write.SaveTarget?
    requires w' == mid || w' == PutMachine(mid, u, Changed(mid.machines[u], write))
    ensures Calm(w, w', u)
  {
  }

  /** Store the connection fields, then the allocation; a crash in between is repaired from the claim. */
  method SaveBinding(c: Cluster, u: Uid, b: Binding) returns (ok: bool)
    requires c.Valid() && u in c.world.machines && b.machine == u
    requires c.world.machines[u].allocation.Some? ==> SameTarget(c.world.machines[u].allocation.value, b)
    requires c.world.machines[u].allocation.None? ==> BindingIsHeld(c.world, u, b)
    modifies c
    ensures c.Valid() && c.Ran() && (c.faults == old(c.faults) <==> ok)
    ensures u in c.world.machines && Wrote(old(c.world), c.world, u, SaveAllocation(b), ok)
  {
    ghost var start := c.world;
    ok := SaveConnection(c, u, b);
    ghost var saved := c.world;
    PermittedInCalm(start, saved, u, SaveAllocation(b));
    if !ok {
      CalmIsNoWrite(start, saved, u, SaveAllocation(b));
      return;
    }
    ok := PersistMachineStatus(c, u, SaveAllocation(b));
    CalmThenWrote(start, saved, c.world, u, SaveAllocation(b), ok);
  }

  /** The connection fields of the spec, patched at the version that was read. */
  method SaveConnection(c: Cluster, u: Uid, b: Binding) returns (ok: bool)
    requires c.Valid() && u in c.world.machines
    requires c.world.machines[u].allocation.Some? ==> SameTarget(c.world.machines[u].allocation.value, b)
    modifies c
    ensures c.Valid() && c.Ran() && (c.faults == old(c.faults) <==> ok)
    ensures Calm(old(c.world), c.world, u)
  {
    ghost var start := c.world;
    var current: Machine;
    ok, current := c.GetMachine(u);
    ghost var read := c.world;
    if !ok { return; }
    var write := SaveTarget(b, HostNameOf(c.world, b));
    assert Permitted(read, u, write);
    var reply, mid := c.PatchMachine(u, current.version, write);
    OthersTransitive(u, start, read, mid);
    SavedTargetIsCalm(start, mid, c.world, u, write);
    ok := reply.Done?;
  }

  lemma CalmIsNoWrite(w: World, w': World, u: Uid, write: MachineWrite)
    requires Calm(w, w', u) && !write.SaveReboot?
    ensures Wrote(w, w', u, write, false)
  {
  }

  lemma CalmThenWrote(a: World, b: World, c: World, u: Uid, write: MachineWrite, sure: bool)
    requires Calm(a, b, u) && !write.SaveReboot? && Wrote(b, c, u, write, sure)
    ensures Wrote(a, c, u, write, sure)
  {
  }

  predicate OnlyAllocates(m: Machine, m': Machine) {
    && m'.ownership == m.ownership && m'.provisioned == m.provisioned && m'.cleanup == m.cleanup
    && m'.reboot == m.reboot && m'.past == m.past && (m.deleting ==> m'.deleting)
    && (m.allocation.Some? ==> m'.allocation.Some? && SameTarget(m.allocation.value, m'.allocation.value))
  }

  /** No object comes back to life. */
  predicate StaysLive(w: World, w': World) {
    forall h | h in w.hosts :: h in w'.hosts && (w'.hosts[h].live ==> w.hosts[h].live)
  }

  /** What binding may do: store the allocation once, refresh its credentials, claim one host. */
  ghost predicate OnlyBinds(w: World, w': World, u: Uid) {
    && u in w.machines && u in w'.machines
    && OnlyAllocates(w.machines[u], w'.machines[u])
    && RemotesSteady(u, w, w')
    && KeepsClaims(u, w, w') && StaysLive(w, w')
  }

  lemma OnlyBindsFromParts(a: World, b: World, c: World, d: World, u: Uid, write: MachineWrite, sure: bool)
    requires OnlyHosts(a, b, u) && KeepsClaims(u, a, b)
    requires write.SaveAllocation? && (c == b || Wrote(b, c, u, write, sure)) && (d == c || Calm(c, d, u))
    requires a.machines[u].allocation.Some? ==> SameTarget(a.machines[u].allocation.value, write.binding)
    ensures OnlyBinds(a, d, u)
  {
    CalmKeepsClaims(c, d, u);
    if c != b {
      assert forall h | h in b.hosts :: h in c.hosts && HostSteady(u, b.hosts[h], c.hosts[h]);
    }
  }

  lemma CalmKeepsClaims(w: World, w': World, u: Uid)
    requires w == w' || Calm(w, w', u)
    ensures KeepsClaims(u, w, w') && (w != w' ==> NoNewClaims(u, w, w'))
  {
  }

  /**
    Persist an immutable target before bootstrap. An existing allocation is never changed, and a
    claim made before a crash is the one that is found again.
   */
  method BindMachine(c: Cluster, u: Uid, m: Machine) returns (r: Outcome<Binding>)
    requires c.Valid() && u in c.world.machines && AllocationSeen(m, c.world.machines[u])
    requires m.allocation.None? ==> c.world.machines[u].cleanup.NoCleanup?
    modifies c
    ensures c.Valid() && c.Ran()
    ensures OnlyBinds(old(c.world), c.world, u)
    ensures r.Ok? ==> c.world.machines[u].allocation.Some? && SameTarget(c.world.machines[u].allocation.value, r.value)
    ensures r.Ok? && r.value.host.Some? ==> r.value.host.value in c.world.hosts && c.world.hosts[r.value.host.value].consumer == By(u)
    ensures r.Ok? && m.allocation.None? ==> (r.value.host.Some? <==> FromPool(m.spec))
    ensures forall g: HostId | m.allocation.None? && r.Ok? && FromPool(m.spec) && Holds(old(c.world), u, g) && Holds(c.world, u, g) ::
              r.value.host == Some(g)
    ensures forall g: HostId | m.allocation.None? && FromPool(m.spec) && Holds(old(c.world), u, g) && Holds(c.world, u, g) ::
              c.faults == old(c.faults) ==> r.Ok? || Withheld(c.world, g)
    ensures c.faults == old(c.faults) && m.allocation.None? ==>
              r.Ok? || Unbindable(old(c.world), c.world, c.states, |old(c.states)| - 1, u, m.spec, m.provisioned)
    ensures c.faults == old(c.faults) && m.allocation.Some? ==> r.Ok? || !Usable(c.world, u, m.spec, m.allocation.value)
  {
    ghost var start := c.world;
    r := FindBinding(c, u, m);
    ghost var bound := c.world;
    if !r.Ok? {
      OnlyHostsBinds(start, bound, u);
      return;
    }
    var ok := StoreBinding(c, u, m, r.value);
    OnlyHostsBinds(start, bound, u);
    OnlyBindsTransitive(start, bound, c.world, u);
    if !ok { return Temporary; }
  }

  /** Store the binding if it is new or its credentials changed, then mark the host as claimed. */
  method StoreBinding(c: Cluster, u: Uid, m: Machine, b: Binding) returns (ok: bool)
    requires c.Valid() && u in c.world.machines && AllocationSeen(m, c.world.machines[u])
    requires b.machine == u && (m.allocation.Some? ==> SameTarget(m.allocation.value, b))
    requires b.host.Some? ==> b.host.value in c.world.hosts && c.world.hosts[b.host.value].consumer == By(u)
    modifies c
    ensures c.Valid() && c.Ran()
    ensures OnlyBinds(old(c.world), c.world, u)
    ensures b.host.Some? ==> b.host.value in c.world.hosts && c.world.hosts[b.host.value].consumer == By(u)
    ensures ok ==> c.world.machines[u].allocation.Some? && SameTarget(c.world.machines[u].allocation.value, b)
    ensures c.faults == old(c.faults) ==> ok
  {
    ghost var start := c.world;
    OthersRefl(u, start);
    OthersIsOnlyHosts(start, start, u);
    ok := true;
    if m.allocation != Some(b) { ok := SaveBinding(c, u, b); }
    ghost var saved := c.world;
    OnlyBindsFromParts(start, start, saved, saved, u, SaveAllocation(b), ok);
    if !ok || b.host.None? { return; }
    ok := SetHostPhase(c, u, b, Claimed, "");
    OnlyBindsFromParts(start, start, saved, c.world, u, SaveAllocation(b), true);
  }

  lemma OnlyBindsTransitive(a: World, b: World, c: World, u: Uid)
    requires OnlyBinds(a, b, u) && OnlyBinds(b, c, u)
    ensures OnlyBinds(a, c, u)
  {
  }

  lemma OnlyHostsBinds(w: World, w': World, u: Uid)
    requires OnlyHosts(w, w', u) && KeepsClaims(u, w, w')
    ensures OnlyBinds(w, w', u)
  {
  }

  /** The snapshot `m` of a run still tells the stored target. */
  predicate AllocationSeen(m: Machine, current: Machine) {
    && (m.allocation.Some? <==> current.allocation.Some?)
    && (m.allocation.Some? ==> SameTarget(current.allocation.value, m.allocation.value))
  }

  /** The binding to use, before anything of it is stored. */
  method FindBinding(c: Cluster, u: Uid, m: Machine) returns (r: Outcome<Binding>)
    requires c.Valid() && u in c.world.machines && AllocationSeen(m, c.world.machines[u])
    requires m.allocation.None? ==> c.world.machines[u].cleanup.NoCleanup?
    modifies c
    ensures c.Valid() && c.Ran()
    ensures OnlyHosts(old(c.world), c.world, u) && KeepsClaims(u, old(c.world), c.world)
    ensures r.Ok? ==> r.value.machine == u && (m.allocation.Some? ==> SameTarget(m.allocation.value, r.value))
    ensures r.Ok? && r.value.host.Some? ==> r.value.host.value in c.world.hosts && c.world.hosts[r.value.host.value].consumer == By(u)
    ensures r.Ok? && m.allocation.None? ==> (r.value.host.Some? <==> FromPool(m.spec))
    ensures forall g: HostId | m.allocation.None? && r.Ok? && FromPool(m.spec) && Holds(old(c.world), u, g) && Holds(c.world, u, g) ::
              r.value.host == Some(g)
    // A crash after the claim leaves it findable: without a fault, and unless that host is quarantined, it is found.
    ensures forall g: HostId | m.allocation.None? && FromPool(m.spec) && Holds(old(c.world), u, g) && Holds(c.world, u, g) ::
              c.faults == old(c.faults) ==> r.Ok? || Withheld(c.world, g)
    ensures c.faults == old(c.faults) && m.allocation.None? ==>
              r.Ok? || Unbindable(old(c.world), c.world, c.states, |old(c.states)| - 1, u, m.spec, m.provisioned)
    ensures c.faults == old(c.faults) && m.allocation.Some? ==> r.Ok? || !Usable(c.world, u, m.spec, m.allocation.value)
  {
    ghost var start := c.world;
    c.Knows(u);
    if m.allocation.Some? {
      r := RefreshBinding(c, u, m.spec, m.allocation.value);
      OthersIsOnlyHosts(start, c.world, u);
    } else {
      r := ChooseBinding(c, u, m.spec, m.provisioned);
      OneClaimOnly(c, u);
    }
  }
}
