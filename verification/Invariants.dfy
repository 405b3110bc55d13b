/** What holds in every reachable state of the lifecycle, and how a run is spoken about. */
module Invariants {
  import opened Protocol
  import R = RemoteHost
  import L = RebootLedger

  /** Allocation, ownership, cleanup receipt and command history of one Machine agree. */
  predicate LocalOk(m: Machine, u: Uid) {
    && (m.allocation.Some? ==> m.allocation.value.machine == u)
    && (m.ownership.Some? ==> m.allocation.Some? && SameTarget(m.allocation.value, m.ownership.value))
    && (!m.cleanup.NoCleanup? ==> m.deleting)
    && (m.cleanup.Succeeded? ==> m.ownership.None? || m.past.cleaned)
    && (m.past.cleaned ==> m.ownership.Some? && !m.cleanup.NoCleanup?)
    && (m.past.commands != {} ==> m.ownership.Some? && m.past.commands == {TargetOf(m)})
    && (m.provisioned ==> m.past.legacy || m.past.bootstrapped)
  }

  /** The allocated SSHHost, while it exists, is claimed by the Machine until the cleanup receipt is stored. */
  predicate ClaimKept(w: World, u: Uid)
    requires u in w.machines
  {
    var m := w.machines[u];
    m.allocation.Some? && m.allocation.value.host.Some? ==>
      var h := m.allocation.value.host.value;
      h in w.hosts && (w.hosts[h].live ==> Holds(w, u, h) || m.cleanup.Succeeded?)
  }

  /** The stored reboot record of one Machine against the boots of its target. */
  ghost predicate LedgerOk(m: Machine, boots: nat) {
    && L.Ok(m.reboot)
    && (m.reboot.record.Some? ==>
          var record := m.reboot.record.value;
          && m.ownership.Some?
          && record.previousBoot <= boots
          && (record.phase.Succeeded? ==>
                record.observedBoot.Some? && record.previousBoot < record.observedBoot.value <= boots))
  }

  ghost predicate MachineOk(w: World, u: Uid)
    requires u in w.machines
  {
    var m := w.machines[u];
    LocalOk(m, u) && ClaimKept(w, u) && LedgerOk(m, RemoteAt(w, TargetOf(m)).boots)
  }

  /** An owner record of a UID of ours is there because that UID sent commands there; cleaned UIDs own nothing. */
  predicate OwnerOk(w: World, e: Endpoint) {
    var owner := RemoteAt(w, e).owner;
    owner.Owned? ==> owner.uid in w.machines && e in w.machines[owner.uid].past.commands && !w.machines[owner.uid].past.cleaned
  }

  /** So is a waiting job. */
  predicate QueueOk(w: World, e: Endpoint) {
    forall u | u in RemoteAt(w, e).queue :: u in w.machines && e in w.machines[u].past.commands
  }

  predicate RemoteOk(w: World, e: Endpoint) {
    R.Ok(RemoteAt(w, e)) && OwnerOk(w, e) && QueueOk(w, e)
  }

  /** Claims belong to known Machines, and no Machine holds two hosts. */
  predicate ClaimsOk(w: World) {
    && (forall h | h in w.hosts :: w.hosts[h].consumer.By? ==> w.hosts[h].consumer.uid in w.machines)
    && (forall u, g, h | u in w.machines && g in w.hosts && h in w.hosts :: Holds(w, u, g) && Holds(w, u, h) ==> g == h)
  }

  ghost predicate Inv(w: World) {
    && (forall u | u in w.machines :: MachineOk(w, u))
    && (forall e :: RemoteOk(w, e))
    && ClaimsOk(w)
  }

  /** No Machine is known and no host is claimed yet; the remote machines may have any past of their own. */
  ghost predicate Init(w: World) {
    && w.machines == map[]
    && w.hosts == map[]
    && forall e | e in w.remotes ::
         R.Ok(w.remotes[e]) && !w.remotes[e].owner.Owned? && w.remotes[e].queue == multiset{}
  }

  lemma InitInv(w: World)
    requires Init(w)
    ensures Inv(w)
  {
  }

  // ---------- preservation, one conjunct at a time ----------

  lemma WriteKeepsLocal(m: Machine, u: Uid, write: MachineWrite, boots: nat)
    requires LocalOk(m, u) && MayWrite(m, u, write, boots)
    ensures LocalOk(Changed(m, write), u)
    ensures Changed(m, write).past == m.past
    ensures m.ownership.Some? ==> TargetOf(Changed(m, write)) == TargetOf(m)
  {
  }

  lemma SendKeepsLocal(m: Machine, u: Uid, to: Endpoint, remote: R.Host, command: Command)
    requires LocalOk(m, u) && MaySend(m, u, to, remote, command)
    ensures LocalOk(Sent(m, u, to, remote, command), u)
    ensures TargetOf(Sent(m, u, to, remote, command)) == TargetOf(m)
    ensures TargetOf(m) in Sent(m, u, to, remote, command).past.commands
  {
  }

  lemma WriteKeepsLedger(m: Machine, u: Uid, write: MachineWrite, boots: nat)
    requires LedgerOk(m, boots) && MayWrite(m, u, write, boots)
    ensures LedgerOk(Changed(m, write), boots)
  {
    if write.SaveReboot? { L.OkPreserved(m.reboot, write.change); }
  }

  lemma SendKeepsLedger(m: Machine, u: Uid, to: Endpoint, remote: R.Host, command: Command)
    requires LedgerOk(m, remote.boots) && MaySend(m, u, to, remote, command)
    ensures LedgerOk(Sent(m, u, to, remote, command), remote.boots)
  {
    if command.Reboot? { L.OkPreserved(m.reboot, L.Send); }
  }

  /** What a command does to a remote machine, short of its inner workings. */
  lemma CommandOnRemote(u: Uid, m: Machine, to: Endpoint, remote: R.Host, command: Command)
    requires R.Ok(remote) && MaySend(m, u, to, remote, command)
    ensures var after := RemoteAfter(u, remote, command);
            && R.Ok(after) && after.boots == remote.boots
            && (after.owner != remote.owner ==>
                  (command.ClaimOwner? && after.owner == R.Owned(u)) || (command.Clean? && after.owner.NoOwner?))
            && (forall v | v in after.queue :: v in remote.queue || (v == u && command.StartJob?))
            && (command.Clean? && R.ResetExitsZero(remote, u, command.cleaning) ==> after.owner.NoOwner?)
  {
    match command
    case ClaimOwner => R.OkPreserved(remote, R.Claim(u));
    case StartJob => R.OkPreserved(remote, R.Submit(u));
    case Clean(cleaning) => R.OkPreserved(remote, R.Reset(u, cleaning));
    case _ =>
  }

  lemma HostStep(remote: R.Host, step: R.Op)
    requires R.Ok(remote) && R.Enabled(remote, step) && !step.Claim? && !step.Reset? && !step.Submit?
    ensures var after := R.Apply(remote, step);
            && R.Ok(after) && after.boots >= remote.boots && after.owner == remote.owner
            && (forall v | v in after.queue :: v in remote.queue)
  {
    R.OkPreserved(remote, step);
  }

  // ---------- preservation of the invariant, one kind of action at a time ----------

  lemma RemoteStep(w: World, a: Action, e: Endpoint)
    requires Enabled(w, a) && R.Ok(RemoteAt(w, e))
    ensures R.Ok(RemoteAt(Apply(w, a), e))
    ensures RemoteAt(w, e).boots <= RemoteAt(Apply(w, a), e).boots
  {
    match a
    case HostActs(e', step) => if e == e' { HostStep(RemoteAt(w, e), step); }
    case Send(u, to, command) => if e == to { CommandOnRemote(u, w.machines[u], to, RemoteAt(w, e), command); }
    case OnMachine(_, _) =>
    case OnHost(_, _, _) =>
    case User(_) =>
  }

  lemma EditKeepsLocal(w: World, edit: Edit, u: Uid)
    requires MayEdit(w, edit) && u in Edited(w, edit).machines
    requires u in w.machines ==> LocalOk(w.machines[u], u)
    ensures LocalOk(Edited(w, edit).machines[u], u)
  {
  }

  lemma LocalPreserved(w: World, a: Action, u: Uid)
    requires Enabled(w, a) && u in Apply(w, a).machines
    requires u in w.machines ==> LocalOk(w.machines[u], u)
    ensures LocalOk(Apply(w, a).machines[u], u)
  {
    if a.User? {
      EditKeepsLocal(w, a.edit, u);
    } else if a.OnMachine? && a.uid == u {
      WriteKeepsLocal(w.machines[u], u, a.write, RemoteAt(w, TargetOf(w.machines[u])).boots);
    } else if a.Send? && a.uid == u {
      SendKeepsLocal(w.machines[u], u, a.to, RemoteAt(w, a.to), a.command);
    } else {
      assert Apply(w, a).machines[u] == w.machines[u];
    }
  }

  /** The ledger of `u` stays good when its record and its target's boots move as given. */
  lemma LedgerOnOwn(w: World, a: Action, u: Uid)
    requires Enabled(w, a) && ByController(a, u) && !a.OnHost? && u in w.machines
    requires var m := w.machines[u];
             R.Ok(RemoteAt(w, TargetOf(m))) && LocalOk(m, u) && LedgerOk(m, RemoteAt(w, TargetOf(m)).boots)
    ensures var m := Apply(w, a).machines[u]; LedgerOk(m, RemoteAt(Apply(w, a), TargetOf(m)).boots)
  {
    var m := w.machines[u];
    var remote := RemoteAt(w, TargetOf(m));
    match a
    case OnMachine(_, write) =>
      WriteKeepsLocal(m, u, write, remote.boots);
      WriteKeepsLedger(m, u, write, remote.boots);
    case Send(_, to, command) =>
      SendKeepsLocal(m, u, to, remote, command);
      SendKeepsLedger(m, u, to, remote, command);
      CommandOnRemote(u, m, to, remote, command);
  }

  /** Only the controller of `u` moves its reboot record and its ownership. */
  lemma LedgerOfOthers(w: World, a: Action, u: Uid)
    requires Enabled(w, a) && u in w.machines && (ByController(a, u) ==> a.OnHost?)
    ensures var m := w.machines[u];
            && u in Apply(w, a).machines
            && Apply(w, a).machines[u].reboot == m.reboot && Apply(w, a).machines[u].ownership == m.ownership
  {
    if !a.User? { assert Apply(w, a).machines[u] == w.machines[u]; }
  }

  lemma LedgerPreserved(w: World, a: Action, u: Uid)
    requires Enabled(w, a) && u in Apply(w, a).machines
    requires u in w.machines ==>
               var m := w.machines[u];
               R.Ok(RemoteAt(w, TargetOf(m))) && LocalOk(m, u) && LedgerOk(m, RemoteAt(w, TargetOf(m)).boots)
    ensures var m := Apply(w, a).machines[u]; LedgerOk(m, RemoteAt(Apply(w, a), TargetOf(m)).boots)
  {
    if u !in w.machines { return; }
    if ByController(a, u) && !a.OnHost? {
      LedgerOnOwn(w, a, u);
    } else {
      LedgerOfOthers(w, a, u);
      RemoteStep(w, a, TargetOf(w.machines[u]));
    }
  }

  lemma ClaimKeptOnMachine(w: World, v: Uid, write: MachineWrite, u: Uid)
    requires Enabled(w, OnMachine(v, write)) && u in w.machines
    requires LocalOk(w.machines[u], u) && ClaimKept(w, u)
    ensures ClaimKept(Apply(w, OnMachine(v, write)), u)
  {
  }

  lemma ClaimKeptOnHost(w: World, v: Uid, h: HostId, write: HostWrite, u: Uid)
    requires Enabled(w, OnHost(v, h, write)) && u in w.machines
    requires ClaimKept(w, u)
    ensures ClaimKept(Apply(w, OnHost(v, h, write)), u)
  {
  }

  lemma ClaimKeptOnSend(w: World, v: Uid, to: Endpoint, command: Command, u: Uid)
    requires Enabled(w, Send(v, to, command)) && u in w.machines && ClaimKept(w, u)
    ensures ClaimKept(Apply(w, Send(v, to, command)), u)
  {
  }

  lemma ClaimKeptOnEdit(w: World, edit: Edit, u: Uid)
    requires Enabled(w, User(edit)) && u in Apply(w, User(edit)).machines
    requires u in w.machines ==> ClaimKept(w, u)
    ensures ClaimKept(Apply(w, User(edit)), u)
  {
  }

  lemma ClaimKeptPreserved(w: World, a: Action, u: Uid)
    requires Enabled(w, a) && u in Apply(w, a).machines
    requires u in w.machines ==> LocalOk(w.machines[u], u) && ClaimKept(w, u)
    ensures ClaimKept(Apply(w, a), u)
  {
    match a
    case OnMachine(v, write) => ClaimKeptOnMachine(w, v, write, u);
    case OnHost(v, h, write) => ClaimKeptOnHost(w, v, h, write, u);
    case Send(v, to, command) => ClaimKeptOnSend(w, v, to, command, u);
    case User(edit) => ClaimKeptOnEdit(w, edit, u);
    case HostActs(_, _) =>
  }

  lemma RemoteElsewhere(w: World, v: Uid, to: Endpoint, command: Command, e: Endpoint)
    requires Enabled(w, Send(v, to, command)) && RemoteOk(w, e) && e != to
    requires command.Clean? && R.ResetExitsZero(RemoteAt(w, to), v, command.cleaning) ==> RemoteAt(w, e).owner != R.Owned(v)
    ensures RemoteOk(Apply(w, Send(v, to, command)), e)
  {
  }

  lemma RemoteAtTarget(w: World, v: Uid, to: Endpoint, command: Command)
    requires Enabled(w, Send(v, to, command)) && RemoteOk(w, to) && LocalOk(w.machines[v], v)
    ensures RemoteOk(Apply(w, Send(v, to, command)), to)
  {
    var m, remote := w.machines[v], RemoteAt(w, to);
    var w' := Apply(w, Send(v, to, command));
    SendKeepsLocal(m, v, to, remote, command);
    CommandOnRemote(v, m, to, remote, command);
    CommandsGrow(w, v, to, command);
    OwnerAtTarget(w, v, to, command);
    assert RemoteAt(w', to) == RemoteAfter(v, remote, command);
    forall u | u in RemoteAt(w', to).queue ensures u in w'.machines && to in w'.machines[u].past.commands {
      assert u in remote.queue || u == v;
    }
  }

  lemma CommandsGrow(w: World, v: Uid, to: Endpoint, command: Command)
    requires Enabled(w, Send(v, to, command))
    ensures var w' := Apply(w, Send(v, to, command));
            && to in w'.machines[v].past.commands
            && (forall u | u in w.machines :: u in w'.machines && w.machines[u].past.commands <= w'.machines[u].past.commands)
            && (forall u | u in w.machines && u != v :: w'.machines[u] == w.machines[u])
  {
  }

  lemma OwnerAtTarget(w: World, v: Uid, to: Endpoint, command: Command)
    requires Enabled(w, Send(v, to, command)) && RemoteOk(w, to) && LocalOk(w.machines[v], v)
    ensures OwnerOk(Apply(w, Send(v, to, command)), to)
  {
    CommandOnRemote(v, w.machines[v], to, RemoteAt(w, to), command);
    CommandsGrow(w, v, to, command);
  }

  lemma RemoteOnSend(w: World, v: Uid, to: Endpoint, command: Command, e: Endpoint)
    requires Enabled(w, Send(v, to, command)) && RemoteOk(w, e) && LocalOk(w.machines[v], v)
    ensures RemoteOk(Apply(w, Send(v, to, command)), e)
  {
    if e == to { RemoteAtTarget(w, v, to, command); } else { RemoteElsewhere(w, v, to, command, e); }
  }

  lemma RemoteOnHostActs(w: World, e': Endpoint, step: R.Op, e: Endpoint)
    requires Enabled(w, HostActs(e', step)) && RemoteOk(w, e)
    ensures RemoteOk(Apply(w, HostActs(e', step)), e)
  {
    if e == e' { HostStep(RemoteAt(w, e), step); }
  }

  /** The facts about `e` depend on the remote machine and on what the history of each Machine says about it. */
  lemma RemoteOkCarries(w: World, w': World, e: Endpoint)
    requires RemoteOk(w, e) && RemoteAt(w', e) == RemoteAt(w, e)
    requires forall u | u in w.machines :: u in w'.machines && w'.machines[u].past == w.machines[u].past
    ensures RemoteOk(w', e)
  {
  }

  lemma WriteKeepsPast(w: World, a: Action, u: Uid)
    requires Enabled(w, a) && (a.OnMachine? || a.OnHost? || a.User?) && u in w.machines
    ensures u in Apply(w, a).machines && Apply(w, a).machines[u].past == w.machines[u].past
  {
    if a.OnMachine? && a.uid == u {
      match a.write
      case SaveTarget(_, _) =>
      case SaveAllocation(_) =>
      case SaveOwnership(_) =>
      case SaveProvisioned(_) =>
      case SaveReboot(_) =>
      case SaveCleanup(_) =>
    }
  }

  lemma WriteKeepsRemotes(w: World, a: Action, e: Endpoint)
    requires Enabled(w, a) && (a.OnMachine? || a.OnHost? || a.User?)
    ensures RemoteAt(Apply(w, a), e) == RemoteAt(w, e)
  {
  }

  lemma RemoteOnWrite(w: World, a: Action, e: Endpoint)
    requires Enabled(w, a) && RemoteOk(w, e) && (a.OnMachine? || a.OnHost? || a.User?)
    ensures RemoteOk(Apply(w, a), e)
  {
    var w' := Apply(w, a);
    WriteKeepsRemotes(w, a, e);
    forall u | u in w.machines ensures u in w'.machines && w'.machines[u].past == w.machines[u].past {
      WriteKeepsPast(w, a, u);
    }
    RemoteOkCarries(w, w', e);
  }

  lemma RemotePreserved(w: World, a: Action, e: Endpoint)
    requires Enabled(w, a) && RemoteOk(w, e)
    requires a.Send? && a.uid in w.machines ==> LocalOk(w.machines[a.uid], a.uid)
    ensures RemoteOk(Apply(w, a), e)
  {
    match a
    case HostActs(e', step) => RemoteOnHostActs(w, e', step, e);
    case Send(v, to, command) => RemoteOnSend(w, v, to, command, e);
    case OnMachine(_, _) => RemoteOnWrite(w, a, e);
    case OnHost(_, _, _) => RemoteOnWrite(w, a, e);
    case User(_) => RemoteOnWrite(w, a, e);
  }

  /** A claim that is there after a step was there before it, or has just been made by a Machine that held nothing. */
  lemma HeldBefore(w: World, a: Action, u: Uid, g: HostId)
    requires Enabled(w, a) && Holds(Apply(w, a), u, g)
    ensures Holds(w, u, g) || (a == OnHost(u, g, Claim) && u in w.machines && forall h | h in w.hosts :: !Holds(w, u, h))
  {
    match a
    case OnHost(v, h, write) => if g != h { assert Apply(w, a).hosts[g] == w.hosts[g]; }
    case User(edit) => EditHolds(w, edit, u, g);
    case OnMachine(_, _) =>
    case Send(_, _, _) =>
    case HostActs(_, _) =>
  }

  lemma EditHolds(w: World, edit: Edit, u: Uid, g: HostId)
    requires MayEdit(w, edit) && Holds(Edited(w, edit), u, g)
    ensures Holds(w, u, g)
  {
  }

  lemma ConsumerKnown(w: World, a: Action, h: HostId)
    requires Enabled(w, a) && h in Apply(w, a).hosts && Apply(w, a).hosts[h].consumer.By?
    requires h in w.hosts && w.hosts[h].consumer.By? ==> w.hosts[h].consumer.uid in w.machines
    ensures Apply(w, a).hosts[h].consumer.uid in Apply(w, a).machines
  {
    match a
    case OnHost(v, g, write) => if g != h { assert Apply(w, a).hosts[h] == w.hosts[h]; }
    case User(edit) =>
    case OnMachine(_, _) =>
    case Send(_, _, _) =>
    case HostActs(_, _) =>
  }

  lemma ClaimsPreserved(w: World, a: Action)
    requires Enabled(w, a) && ClaimsOk(w)
    ensures ClaimsOk(Apply(w, a))
  {
    var w' := Apply(w, a);
    forall h | h in w'.hosts && w'.hosts[h].consumer.By? ensures w'.hosts[h].consumer.uid in w'.machines {
      ConsumerKnown(w, a, h);
    }
    forall u, g, h | Holds(w', u, g) && Holds(w', u, h) ensures g == h {
      HeldBefore(w, a, u, g);
      HeldBefore(w, a, u, h);
      HolderKnown(w, u, g);
      HolderKnown(w, u, h);
    }
  }

  lemma HolderKnown(w: World, u: Uid, h: HostId)
    requires ClaimsOk(w)
    ensures Holds(w, u, h) ==> u in w.machines
  {
  }

  lemma InvPreserved(w: World, a: Action)
    requires Inv(w) && Enabled(w, a)
    ensures Inv(Apply(w, a))
  {
    var w' := Apply(w, a);
    forall u | u in w'.machines ensures MachineOk(w', u) {
      if u in w.machines {
        assert MachineOk(w, u);
        assert RemoteOk(w, TargetOf(w.machines[u]));
      }
      LocalPreserved(w, a, u);
      ClaimKeptPreserved(w, a, u);
      LedgerPreserved(w, a, u);
    }
    forall e ensures RemoteOk(w', e) {
      assert RemoteOk(w, e);
      if a.Send? && a.uid in w.machines { assert MachineOk(w, a.uid); }
      RemotePreserved(w, a, e);
    }
    ClaimsPreserved(w, a);
  }
}
