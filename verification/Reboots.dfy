/** The reboot record: intent, one command, and the observation of a new boot (lifecycle.py). */
module Reboots {
  import opened Wrappers
  import opened Protocol
  import opened Cluster
  import opened Inventory
  import opened Operations
  import L = RebootLedger

  /** A new boot that is not seen for this many seconds is given up. */
  const DEADLINE := 300

  /** The snapshot that a run works with: it may miss what the same run stored since, but contradicts nothing. */
  predicate Snapshot(m: Machine, current: Machine) {
    && (m.allocation.Some? ==> current.allocation.Some? && SameTarget(m.allocation.value, current.allocation.value))
    && (m.ownership.Some? ==> m.allocation.Some? && current.ownership == m.ownership)
    && m.reboot == current.reboot
    && (m.deleting ==> current.deleting)
  }

  /** No stored record but the reboot record moved, and no claim. */
  ghost predicate OnlyLedger(w: World, w': World, u: Uid) {
    && u in w.machines && u in w'.machines
    && SameButReboot(w.machines[u], w'.machines[u])
    && HostsSteady(u, w, w')
  }

  predicate SameButReboot(m: Machine, m': Machine) {
    && m'.allocation == m.allocation && m'.ownership == m.ownership && m'.provisioned == m.provisioned
    && m'.cleanup == m.cleanup && (m.deleting ==> m'.deleting)
    && (m.past.cleaned ==> m'.past.cleaned) && (m.past.bootstrapped ==> m'.past.bootstrapped)
  }

  lemma OnlyLedgerTransitive(a: World, b: World, c: World, u: Uid)
    requires OnlyLedger(a, b, u) && OnlyLedger(b, c, u)
    ensures OnlyLedger(a, c, u)
  {
    HostsSteadyTransitive(a, b, c, u);
  }

  lemma HostsSteadyTransitive(a: World, b: World, c: World, u: Uid)
    requires HostsSteady(u, a, b) && HostsSteady(u, b, c)
    ensures HostsSteady(u, a, c)
  {
  }

  lemma WroteOnlyLedger(w: World, w': World, u: Uid, change: L.Op, sure: bool)
    requires u in w.machines && L.Enabled(w.machines[u].reboot, change) && Wrote(w, w', u, SaveReboot(change), sure)
    ensures OnlyLedger(w, w', u)
    ensures w'.machines[u].reboot == L.Apply(w.machines[u].reboot, change) || (!sure && w'.machines[u].reboot == w.machines[u].reboot)
  {
  }

  /**
    What the handler's patch will write once more when the handler is over: the stored record, or,
    because the patch shares the dictionary that is updated in place, the answer that could not be stored.
   */
  predicate StagedOk(staged: Option<L.Record>, l: L.Ledger) {
    staged.Some? ==>
      && l.record.Some?
      && (staged == l.record
          || (l.record.value.phase.Prepared?
              && exists phase | L.Enabled(l, L.Answer(phase)) :: staged.value == l.record.value.(phase := phase)))
  }

  /** Store the change; only then is the record staged. */
  method WriteReboot(c: Cluster, u: Uid, change: L.Op, patch: Patch) returns (ok: bool)
    requires c.Valid() && Permitted(c.world, u, SaveReboot(change))
    modifies c, patch`reboot
    ensures c.Valid() && c.Ran() && (c.faults == old(c.faults) <==> ok)
    ensures OnlyLedger(old(c.world), c.world, u)
    ensures c.world.machines[u].reboot == L.Apply(old(c.world).machines[u].reboot, change)
            || (!ok && c.world.machines[u].reboot == old(c.world).machines[u].reboot)
    ensures patch.reboot == if ok then c.world.machines[u].reboot.record else old(patch.reboot)
  {
    ghost var start := c.world;
    ok := PersistMachineStatus(c, u, SaveReboot(change));
    WroteOnlyLedger(start, c.world, u, change, ok);
    if ok { patch.reboot := c.world.machines[u].reboot.record; }
  }

  /** `spec`, annotations and the CAPI owner chain; an owner that cannot be read is an error. */
  method IsPaused(c: Cluster, u: Uid, m: Machine) returns (ok: bool, paused: bool)
    requires c.Valid() && u in c.world.machines
    modifies c
    ensures c.Valid() && c.Ran() && (c.faults == old(c.faults) <==> ok)
    ensures Others(u, old(c.world), c.world)
    ensures paused <==> m.spec.paused || c.world.machines[u].spec.paused
  {
    ok := c.Try(u);
    paused := m.spec.paused || c.world.machines[u].spec.paused;
  }

  /** A new intent for this request was stored over `l`, its command left once, and its answer is stored. */
  predicate Submitted(l: L.Ledger, l': L.Ledger, request: string, boot: nat) {
    && l'.intents == l.intents + [request] && l'.sent == l.sent + [|l.intents|]
    && l'.record.Some? && l'.record.value.request == request && l'.record.value.previousBoot == boot
    && l'.record.value.phase in {L.Submitted, L.Failed}
  }

  /** At most that much. */
  predicate AtMostSubmitted(l: L.Ledger, l': L.Ledger, request: string) {
    && l'.intents in {l.intents, l.intents + [request]}
    && l'.sent in {l.sent, l.sent + [|l.intents|]}
    && (l'.sent != l.sent ==> l'.intents == l.intents + [request])
  }

  /** Intent, command, answer. The command leaves only for the intent that has just been stored. */
  method SubmitReboot(c: Cluster, u: Uid, e: Endpoint, request: string, boot: nat, patch: Patch) returns (r: Outcome<()>)
    requires c.Valid() && u in c.world.machines && MayBootstrap(c.world.machines[u]) && e == TargetOf(c.world.machines[u])
    requires L.MayIntend(c.world.machines[u].reboot.record, request)
    requires boot <= RemoteAt(c.world, e).boots
    requires patch.reboot.None?
    modifies c, patch`reboot
    ensures c.Valid() && c.Ran()
    ensures OnlyLedger(old(c.world), c.world, u)
    ensures StagedOk(patch.reboot, c.world.machines[u].reboot)
    ensures AtMostSubmitted(old(c.world).machines[u].reboot, c.world.machines[u].reboot, request)
    ensures r.Ok? ==> Submitted(old(c.world).machines[u].reboot, c.world.machines[u].reboot, request, boot)
    ensures c.faults == old(c.faults) ==> r.Ok?
  {
    ghost var start := c.world;
    var at: int := *;
    var ok := WriteReboot(c, u, L.Intend(request, boot, at), patch);
    if !ok { return Temporary; }
    ghost var stored := c.world;
    ok := c.Try(u);
    ghost var checked := c.world;
    OnlyLedgerTransitive(start, stored, checked, u);
    if !ok { return Temporary; }
    r := SendReboot(c, u, e, patch);
    OnlyLedgerTransitive(start, checked, c.world, u);
  }

  /** The command of the intent that is stored and staged. */
  method SendReboot(c: Cluster, u: Uid, e: Endpoint, patch: Patch) returns (r: Outcome<()>)
    requires c.Valid() && u in c.world.machines && MayBootstrap(c.world.machines[u]) && e == TargetOf(c.world.machines[u])
    requires L.Enabled(c.world.machines[u].reboot, L.Send)
    requires patch.reboot == c.world.machines[u].reboot.record
    modifies c, patch`reboot
    ensures c.Valid() && c.Ran()
    ensures OnlyLedger(old(c.world), c.world, u)
    ensures StagedOk(patch.reboot, c.world.machines[u].reboot)
    ensures var l, l' := old(c.world).machines[u].reboot, c.world.machines[u].reboot;
            && l'.intents == l.intents
            && l'.sent in {l.sent, L.Apply(l, L.Send).sent}
            && l'.record.Some? && (exists phase :: l'.record.value == l.record.value.(phase := phase))
            && (r.Ok? ==> l'.sent == L.Apply(l, L.Send).sent && l'.record.value.phase in {L.Submitted, L.Failed})
    ensures c.faults == old(c.faults) ==> r.Ok?
  {
    ghost var start := c.world;
    var reply := c.RunReboot(u, e);
    ghost var sent := c.world;
    var phase := if reply.Broken? then L.Unknown else if reply == Exit(0) then L.Submitted else L.Failed;
    // The staged dictionary is the one that is updated, so the patch shows the answer before it is stored.
    patch.reboot := Some(patch.reboot.value.(phase := phase));
    var ok := WriteReboot(c, u, L.Answer(phase), patch);
    OnlyLedgerTransitive(start, sent, c.world, u);
    return if ok && reply.Exit? then Ok(()) else Temporary;
  }

  /** What is stored about this request, or about the one before it, once the present boot is known. */
  datatype Verdict = Observed | Expired | Waiting | Busy | Clear

  function Judge(previous: Option<L.Record>, request: string, boot: nat, now: int): Verdict {
    if previous.None? || !L.IsPending(previous.value.phase) then Clear
    else if boot != previous.value.previousBoot then Observed
    else if previous.value.request == request then
      if now - previous.value.startedAt >= DEADLINE then Expired else Waiting
    else if previous.value.phase != L.Unknown then Busy
    else Clear
  }

  /** A clear verdict on another or an unrecorded request is what a new intent needs. */
  lemma ClearMeansMayIntend(previous: Option<L.Record>, request: string, boot: nat, now: int)
    requires previous.Some? && previous.value.request == request ==> L.IsPending(previous.value.phase)
    ensures Judge(previous, request, boot, now).Clear? <==>
              L.MayIntend(previous, request) && (previous.Some? && previous.value.phase.Unknown? ==> boot == previous.value.previousBoot)
  {
    if previous.Some? {
      match previous.value.phase
      case Prepared =>
      case Submitted =>
      case Unknown =>
      case Succeeded =>
      case Failed =>
    }
  }

  /** What a run may add to the ledger: while observing, neither an intent nor a command. */
  predicate LedgerStep(l: L.Ledger, l': L.Ledger, request: string, observeOnly: bool) {
    && AtMostSubmitted(l, l', request)
    && (observeOnly || !L.MayIntend(l.record, request) ==> l'.intents == l.intents && l'.sent == l.sent)
  }

  /**
    What a run that knew the boot has done. A new boot is stored as success, an expired request as
    unknown, a clear one is submitted unless the run only observes; otherwise nothing moves and the
    run is to be repeated.
   */
  predicate Acted(l: L.Ledger, l': L.Ledger, request: string, observeOnly: bool, boot: nat, now: int, r: Outcome<()>) {
    match Judge(l.record, request, boot, now)
    case Observed => L.Enabled(l, L.Observe(boot)) && (r.Ok? ==> l' == L.Apply(l, L.Observe(boot)))
    case Expired => L.Enabled(l, L.GiveUp) && (r.Ok? ==> l' == L.Apply(l, L.GiveUp))
    case Waiting => l' == l && r.Temporary?
    case Busy => l' == l && r.Temporary?
    case Clear => if observeOnly then l' == l && r.Ok? else r.Ok? ==> Submitted(l, l', request, boot)
  }

  /** Without a fault the run ends as asked unless it has to wait. */
  predicate Through(l: L.Ledger, request: string, boot: nat, now: int, r: Outcome<()>) {
    r.Ok? <==> !Judge(l.record, request, boot, now).Waiting? && !Judge(l.record, request, boot, now).Busy?
  }

  /** After `from` and no earlier than `w`, `u` read this boot under its fence, and did what it calls for. */
  ghost predicate ReadAndActed(
    w: World, states: seq<World>, acts: seq<Action>, from: nat, u: Uid, e: Endpoint,
    l: L.Ledger, l': L.Ledger, request: string, observeOnly: bool, boot: nat, now: int, r: Outcome<()>)
  {
    && RemoteAt(w, e).boots <= boot && BootRead(states, acts, from, u, e, boot)
    && Acted(l, l', request, observeOnly, boot, now, r)
  }

  lemma ReadAndActedBefore(
    w0: World, w: World, states: seq<World>, acts: seq<Action>, from0: nat, from: nat, u: Uid, e: Endpoint,
    l: L.Ledger, l': L.Ledger, request: string, observeOnly: bool, boot: nat, now: int, r: Outcome<()>)
    requires ReadAndActed(w, states, acts, from, u, e, l, l', request, observeOnly, boot, now, r)
    requires RemoteAt(w0, e).boots <= RemoteAt(w, e).boots && from0 <= from
    ensures ReadAndActed(w0, states, acts, from0, u, e, l, l', request, observeOnly, boot, now, r)
  {
    BootReadBefore(states, acts, states, acts, from0, from, u, e, boot);
  }

  /** Under the Lease: read the boot ID, settle what is open, and only then submit. */
  method RebootUnderLease(c: Cluster, u: Uid, e: Endpoint, request: string, observeOnly: bool, patch: Patch)
    returns (r: Outcome<()>, ghost boot: Option<nat>, ghost now: int)
    requires c.Valid() && u in c.world.machines && c.world.machines[u].ownership.Some? && e == TargetOf(c.world.machines[u])
    requires !observeOnly ==> c.world.machines[u].cleanup.NoCleanup?
    requires var previous := c.world.machines[u].reboot.record;
             previous.Some? && previous.value.request == request ==> L.IsPending(previous.value.phase)
    requires patch.reboot.None?
    modifies c, patch`reboot
    ensures c.Valid() && c.Ran()
    ensures OnlyLedger(old(c.world), c.world, u)
    ensures StagedOk(patch.reboot, c.world.machines[u].reboot)
    ensures LedgerStep(old(c.world).machines[u].reboot, c.world.machines[u].reboot, request, observeOnly)
    ensures boot.None? ==> c.world.machines[u].reboot == old(c.world).machines[u].reboot
    ensures boot.Some? ==>
              ReadAndActed(old(c.world), c.states, c.acts, |old(c.acts)|, u, e,
                           old(c.world).machines[u].reboot, c.world.machines[u].reboot, request, observeOnly, boot.value, now, r)
    ensures c.faults == old(c.faults) ==>
              if boot.None? then PausedSince(c.states, |old(c.states)| - 1, u)
              else Through(old(c.world).machines[u].reboot, request, boot.value, now, r)
  {
    ghost var start := c.world;
    now := 0;
    var seen: Option<nat>;
    r, seen := EnterAndReadBoot(c, u, e);
    boot := seen;
    ghost var read, states, acts := c.world, c.states, c.acts;
    if !r.Ok? { return; }
    r, now := ActOnBoot(c, u, e, request, seen.value, observeOnly, patch);
    BootReadBefore(states, acts, c.states, c.acts, |old(c.acts)|, |old(c.acts)|, u, e, seen.value);
    OnlyLedgerTransitive(start, read, c.world, u);
  }

  /** Settle what is open about an earlier command, or submit a new one. */
  method ActOnBoot(c: Cluster, u: Uid, e: Endpoint, request: string, boot: nat, observeOnly: bool, patch: Patch)
    returns (r: Outcome<()>, ghost at: int)
    requires c.Valid() && u in c.world.machines && c.world.machines[u].ownership.Some? && e == TargetOf(c.world.machines[u])
    requires !observeOnly ==> c.world.machines[u].cleanup.NoCleanup?
    requires boot <= RemoteAt(c.world, e).boots
    requires var previous := c.world.machines[u].reboot.record;
             previous.Some? ==> previous.value.previousBoot <= boot && (previous.value.request == request ==> L.IsPending(previous.value.phase))
    requires patch.reboot.None?
    modifies c, patch`reboot
    ensures c.Valid() && c.Ran()
    ensures OnlyLedger(old(c.world), c.world, u)
    ensures StagedOk(patch.reboot, c.world.machines[u].reboot)
    ensures LedgerStep(old(c.world).machines[u].reboot, c.world.machines[u].reboot, request, observeOnly)
    ensures Acted(old(c.world).machines[u].reboot, c.world.machines[u].reboot, request, observeOnly, boot, at, r)
    ensures c.faults == old(c.faults) ==> Through(old(c.world).machines[u].reboot, request, boot, at, r)
  {
    var previous := c.world.machines[u].reboot.record;
    var now: int := *;
    at := now;
    ClearMeansMayIntend(previous, request, boot, now);
    match Judge(previous, request, boot, now)
    case Observed => r := Settle(c, u, L.Observe(boot), patch);
    case Expired => r := Settle(c, u, L.GiveUp, patch);
    case Waiting => r := Temporary;
    case Busy => r := Temporary;
    case Clear =>
      r := Ok(());
      if !observeOnly { r := SubmitReboot(c, u, e, request, boot, patch); }
  }

  /** Store an outcome of the pending record. */
  method Settle(c: Cluster, u: Uid, change: L.Op, patch: Patch) returns (r: Outcome<()>)
    requires c.Valid() && Permitted(c.world, u, SaveReboot(change)) && (change.Observe? || change.GiveUp?)
    requires patch.reboot.None?
    modifies c, patch`reboot
    ensures c.Valid() && c.Ran()
    ensures OnlyLedger(old(c.world), c.world, u)
    ensures StagedOk(patch.reboot, c.world.machines[u].reboot)
    ensures var l, l' := old(c.world).machines[u].reboot, c.world.machines[u].reboot;
            && l'.intents == l.intents && l'.sent == l.sent
            && (r.Ok? ==> l' == L.Apply(l, change))
    ensures !r.Permanent? && (c.faults == old(c.faults) ==> r.Ok?)
  {
    var ok := WriteReboot(c, u, change, patch);
    return if ok then Ok(()) else Temporary;
  }

  lemma PreviousBootIsPast(c: Cluster, u: Uid)
    requires c.Valid() && u in c.world.machines
    ensures var record := c.world.machines[u].reboot.record;
            record.Some? ==> record.value.previousBoot <= RemoteAt(c.world, TargetOf(c.world.machines[u])).boots
  {
    c.Knows(u);
  }

  method EnterAndReadBoot(c: Cluster, u: Uid, e: Endpoint) returns (r: Outcome<()>, boot: Option<nat>)
    requires c.Valid() && u in c.world.machines && c.world.machines[u].ownership.Some? && e == TargetOf(c.world.machines[u])
    modifies c
    ensures c.Valid() && c.Ran()
    ensures OnlyLedger(old(c.world), c.world, u)
    ensures c.world.machines[u].reboot == old(c.world).machines[u].reboot
    ensures if r.Ok? then boot.Some? else r.Temporary? && boot.None?
    ensures boot.Some? ==> RemoteAt(old(c.world), e).boots <= boot.value <= RemoteAt(c.world, e).boots
    ensures boot.Some? ==> BootRead(c.states, c.acts, |old(c.acts)|, u, e, boot.value)
    ensures boot.Some? && c.world.machines[u].reboot.record.Some? ==> c.world.machines[u].reboot.record.value.previousBoot <= boot.value
    ensures c.faults == old(c.faults) ==> r.Ok? || PausedSince(c.states, |old(c.states)| - 1, u)
  {
    ghost var start, from := c.world, |c.states| - 1;
    boot := None;
    r := EnterHostOperation(c, u, true);
    ghost var entered := c.world;
    if r.Permanent? { PausedNow(c.states, from, u); }
    if !r.Ok? { return Temporary, None; }
    var ok := c.Try(u);
    ghost var checked := c.world;
    OthersTransitive(u, start, entered, checked);
    if !ok { return Temporary, None; }
    PreviousBootIsPast(c, u);
    ghost var since := |c.acts|;
    boot := c.RunReadBoot(u, e);
    if boot.Some? { BootReadBefore(c.states, c.acts, c.states, c.acts, |old(c.acts)|, since, u, e, boot.value); }
    OnlyLedgerTransitive(start, checked, c.world, u);
    r := if boot.Some? then Ok(()) else Temporary;
  }

  /** What a reboot run may do to the records and claims of `u`. */
  ghost predicate OnlyReboots(w: World, w': World, u: Uid) {
    && u in w.machines && u in w'.machines
    && BindsAndReboots(w.machines[u], w'.machines[u])
    && KeepsClaims(u, w, w')
  }

  predicate BindsAndReboots(m: Machine, m': Machine) {
    && m'.ownership == m.ownership && m'.provisioned == m.provisioned && m'.cleanup == m.cleanup
    && (m.deleting ==> m'.deleting)
    && (m.allocation.Some? ==> m'.allocation.Some? && SameTarget(m.allocation.value, m'.allocation.value))
    && (m.past.cleaned ==> m'.past.cleaned) && (m.past.bootstrapped ==> m'.past.bootstrapped)
  }

  lemma BindThenReboot(a: World, b: World, c: World, d: World, u: Uid)
    requires Others(u, a, b) && (c == b || OnlyBinds(b, c, u)) && (d == c || OnlyLedger(c, d, u))
    ensures OnlyReboots(a, d, u)
    ensures d == c ==> d.machines[u].reboot == a.machines[u].reboot
  {
    SteadyKeepsClaims(a, b, u);
    if d != c { SteadyKeepsClaims(c, d, u); }
  }

  /** Why a run has nothing to say about a reboot: it never came to the boot ID. */
  predicate Idle(m: Machine, observeOnly: bool) {
    || RequestOf(m, observeOnly) == "" || m.spec.paused || (m.spec.dryRun && !observeOnly)
    || m.ownership.None? || !m.provisioned
    || Settled(m.reboot.record, RequestOf(m, observeOnly))
  }

  /**
    One reboot run. It submits at most one command, for a request that differs from the stored one,
    and while only observing it submits nothing. Without a fault it does what the boot ID that it
    reads calls for, unless the Machine is idle, paused, or its allocation is not usable.
   */
  method ReconcileReboot(c: Cluster, u: Uid, m: Machine, observeOnly: bool, patch: Patch)
    returns (r: Outcome<()>, ghost boot: Option<nat>, ghost now: int)
    requires c.Valid() && u in c.world.machines && Snapshot(m, c.world.machines[u])
    requires !observeOnly ==> c.world.machines[u].cleanup.NoCleanup?
    requires patch.reboot.None?
    modifies c, patch`reboot
    ensures c.Valid() && c.Ran()
    ensures OnlyReboots(old(c.world), c.world, u)
    ensures StagedOk(patch.reboot, c.world.machines[u].reboot)
    ensures LedgerStep(m.reboot, c.world.machines[u].reboot, RequestOf(m, observeOnly), observeOnly)
    ensures boot.None? ==> c.world.machines[u].reboot == m.reboot
    ensures boot.Some? ==>
              && m.ownership.Some?
              && ReadAndActed(old(c.world), c.states, c.acts, |old(c.acts)|, u, m.ownership.value.target,
                              m.reboot, c.world.machines[u].reboot, RequestOf(m, observeOnly), observeOnly, boot.value, now, r)
    ensures c.faults == old(c.faults) ==>
              if boot.Some? then Through(m.reboot, RequestOf(m, observeOnly), boot.value, now, r)
              else
                || Idle(m, observeOnly) || PausedSince(c.states, |old(c.states)| - 1, u)
                || (m.allocation.Some? && !Usable(c.world, u, m.spec, m.allocation.value))
  {
    ghost var start, from, sent := c.world, |c.states| - 1, |c.acts|;
    boot, now := None, 0;
    OthersRefl(u, start);
    BindThenReboot(start, start, start, start, u);
    var request := RequestOf(m, observeOnly);
    if request == "" { return Ok(()), boot, now; }
    var ok, paused := IsPaused(c, u, m);
    ghost var asked := c.world;
    BindThenReboot(start, asked, asked, asked, u);
    if !ok { return Temporary, boot, now; }
    if paused || (m.spec.dryRun && !observeOnly) {
      if !m.spec.paused && paused { PausedNow(c.states, from, u); }
      return Ok(()), boot, now;
    }
    if m.ownership.None? || !m.provisioned { return Temporary, boot, now; }
    r, boot, now := BindAndReboot(c, u, m, request, observeOnly, patch, start, from, sent);
  }

  /** The run read a boot under its fence, and did what this boot calls for. */
  ghost predicate ActedOnBoot(u: Uid, m: Machine, observeOnly: bool, w: World, w': World, states: seq<World>, acts: seq<Action>, from: nat) {
    && u in w'.machines && m.ownership.Some?
    && var request, l, l' := RequestOf(m, observeOnly), m.reboot, w'.machines[u].reboot;
       exists boot, now, r ::
         && ReadAndActed(w, states, acts, from, u, m.ownership.value.target, l, l', request, observeOnly, boot, now, r)
         && Through(l, request, boot, now, r)
  }

  /** How a run ends in which every call goes as asked: it acted on the boot that it read, or could not come to read one. */
  ghost predicate RebootEnd(u: Uid, m: Machine, observeOnly: bool, w: World, w': World, states: seq<World>, acts: seq<Action>, from: nat) {
    || Idle(m, observeOnly) || PausedSince(states, from, u)
    || ActedOnBoot(u, m, observeOnly, w, w', states, acts, from)
    || (m.allocation.Some? && !Usable(w', u, m.spec, m.allocation.value))
  }

  lemma ActedBefore(
    u: Uid, m: Machine, observeOnly: bool, w0: World, w: World, w': World, states: seq<World>, acts: seq<Action>, from0: nat, from: nat)
    requires Others(u, w0, w) && from0 <= from && ActedOnBoot(u, m, observeOnly, w, w', states, acts, from)
    ensures ActedOnBoot(u, m, observeOnly, w0, w', states, acts, from0)
  {
    var e, l, l', request := m.ownership.value.target, m.reboot, w'.machines[u].reboot, RequestOf(m, observeOnly);
    var boot, now, r :| ReadAndActed(w, states, acts, from, u, e, l, l', request, observeOnly, boot, now, r) && Through(l, request, boot, now, r);
    assert RemoteAt(w0, e).boots <= RemoteAt(w, e).boots;
    ReadAndActedBefore(w0, w, states, acts, from0, from, u, e, l, l', request, observeOnly, boot, now, r);
  }

  /** The binding of an owned Machine is the target of its commands. */
  lemma BoundTarget(c: Cluster, start: World, u: Uid, m: Machine, b: Binding)
    requires c.Valid() && OnlyBinds(start, c.world, u) && Snapshot(m, start.machines[u]) && m.ownership.Some?
    requires c.world.machines[u].allocation.Some? && SameTarget(c.world.machines[u].allocation.value, b)
    ensures c.world.machines[u].ownership == m.ownership && c.world.machines[u].reboot == m.reboot
    ensures b.target == m.ownership.value.target == TargetOf(c.world.machines[u])
    ensures RemoteAt(start, b.target).boots <= RemoteAt(c.world, b.target).boots
  {
    c.Knows(u);
  }

  /** The part of the run for an owned, provisioned Machine that is not paused; `start` was reached at `from` and `sent`. */
  method BindAndReboot(
    c: Cluster, u: Uid, m: Machine, request: string, observeOnly: bool, patch: Patch, ghost start: World, ghost from: nat, ghost sent: nat)
    returns (r: Outcome<()>, ghost boot: Option<nat>, ghost now: int)
    requires c.Valid() && u in c.world.machines && Snapshot(m, c.world.machines[u])
    requires m.ownership.Some? && request == RequestOf(m, observeOnly)
    requires !observeOnly ==> c.world.machines[u].cleanup.NoCleanup?
    requires patch.reboot.None?
    requires Others(u, start, c.world) && from < |c.states| && sent <= |c.acts|
    modifies c, patch`reboot
    ensures c.Valid() && c.Ran()
    ensures OnlyReboots(start, c.world, u)
    ensures StagedOk(patch.reboot, c.world.machines[u].reboot)
    ensures LedgerStep(m.reboot, c.world.machines[u].reboot, request, observeOnly)
    ensures boot.None? ==> c.world.machines[u].reboot == m.reboot
    ensures boot.Some? ==>
              ReadAndActed(start, c.states, c.acts, sent, u, m.ownership.value.target,
                           m.reboot, c.world.machines[u].reboot, request, observeOnly, boot.value, now, r)
    ensures c.faults == old(c.faults) ==>
              if boot.Some? then Through(m.reboot, request, boot.value, now, r)
              else Idle(m, observeOnly) || PausedSince(c.states, from, u) || !Usable(c.world, u, m.spec, m.allocation.value)
  {
    ghost var before := c.world;
    boot, now := None, 0;
    var binding := BindMachine(c, u, m);
    ghost var bound := c.world;
    BindThenReboot(start, before, bound, bound, u);
    if !binding.Ok? { return if binding.Permanent? then Permanent else Temporary, boot, now; }
    BoundTarget(c, before, u, m, binding.value);
    r, boot, now := RebootBound(c, u, m.ownership.value.target, request, observeOnly, patch, start, from, sent);
    BindThenReboot(start, before, bound, c.world, u);
  }

  /** The same once the target is known. */
  method RebootBound(
    c: Cluster, u: Uid, e: Endpoint, request: string, observeOnly: bool, patch: Patch, ghost start: World, ghost from: nat, ghost sent: nat)
    returns (r: Outcome<()>, ghost boot: Option<nat>, ghost now: int)
    requires c.Valid() && u in c.world.machines && c.world.machines[u].ownership.Some? && e == TargetOf(c.world.machines[u])
    requires from < |c.states| && sent <= |c.acts| && RemoteAt(start, e).boots <= RemoteAt(c.world, e).boots
    requires !observeOnly ==> c.world.machines[u].cleanup.NoCleanup?
    requires patch.reboot.None?
    modifies c, patch`reboot
    ensures c.Valid() && c.Ran()
    ensures c.world == old(c.world) || OnlyLedger(old(c.world), c.world, u)
    ensures u in c.world.machines && StagedOk(patch.reboot, c.world.machines[u].reboot)
    ensures LedgerStep(old(c.world).machines[u].reboot, c.world.machines[u].reboot, request, observeOnly)
    ensures boot.None? ==> c.world.machines[u].reboot == old(c.world).machines[u].reboot
    ensures boot.Some? ==>
              ReadAndActed(start, c.states, c.acts, sent, u, e,
                           old(c.world).machines[u].reboot, c.world.machines[u].reboot, request, observeOnly, boot.value, now, r)
    ensures c.faults == old(c.faults) ==>
              if boot.Some? then Through(old(c.world).machines[u].reboot, request, boot.value, now, r)
              else PausedSince(c.states, from, u) || Settled(old(c.world).machines[u].reboot.record, request)
  {
    boot, now := None, 0;
    ghost var bound, since, acts, l := c.world, |c.states| - 1, |c.acts|, c.world.machines[u].reboot;
    if Settled(c.world.machines[u].reboot.record, request) { return Ok(()), boot, now; }
    r, boot, now := RebootUnderLease(c, u, e, request, observeOnly, patch);
    if PausedSince(c.states, since, u) { PausedEarlier(c.states, c.states, from, since, u); }
    if boot.Some? {
      ReadAndActedBefore(start, bound, c.states, c.acts, sent, acts, u, e, l, c.world.machines[u].reboot, request, observeOnly, boot.value, now, r);
    }
  }

  /** The request was carried out, or failed, before. */
  predicate Settled(record: Option<L.Record>, request: string) {
    record.Some? && record.value.request == request && !L.IsPending(record.value.phase)
  }

  /** The request of the run; the empty string for none. */
  function RequestOf(m: Machine, observeOnly: bool): string {
    if observeOnly then (if m.reboot.record.Some? then m.reboot.record.value.request else "")
    else if m.spec.rebootRequest.Some? then m.spec.rebootRequest.value else ""
  }
}
