/**
  The shared world that the controllers act on: the API server and the remote machines, with other
  Machines, users and detached jobs at work between any two calls of a controller.

  Every call may fail with or without having taken effect; `faults` counts the calls that did not go
  as asked. `states` and `acts` are the history, and `Valid` says that it is a behaviour of Protocol.
 */
module Cluster {
  import opened Wrappers
  import opened Protocol
  import opened Invariants
  import opened Theorems
  import R = RemoteHost
  import L = RebootLedger

  // ---------- what the others can do to the things of `u` ----------

  /** The records of a Machine that only its own controller writes, and its history. */
  predicate SameRecords(m: Machine, m': Machine) {
    && m'.allocation == m.allocation && m'.ownership == m.ownership && m'.provisioned == m.provisioned
    && m'.cleanup == m.cleanup && m'.reboot == m.reboot && m'.past == m.past
  }

  predicate Unmoved(m: Machine, m': Machine) {
    && SameRecords(m, m')
    && m.version <= m'.version && (m'.version == m.version ==> m' == m)
    && (m.deleting ==> m'.deleting)
    && (m'.live ==> m.live)
  }

  predicate HostSteady(u: Uid, o: HostObject, o': HostObject) {
    && o.version <= o'.version && (o'.version == o.version ==> o' == o)
    && o'.name == o.name
    && (o'.live ==> o.live)
    && (o.consumer == By(u) <==> o'.consumer == By(u))
  }

  /** No claim of `u` appears or disappears, and an object whose version is the same is the same. */
  predicate HostsSteady(u: Uid, w: World, w': World) {
    && (forall h | h in w.hosts :: h in w'.hosts && HostSteady(u, w.hosts[h], w'.hosts[h]))
    && (forall h | h in w'.hosts :: w'.hosts[h].consumer == By(u) ==> h in w.hosts)
  }

  ghost predicate RemotesSteady(u: Uid, w: World, w': World) {
    forall e ::
      && RemoteAt(w, e).boots <= RemoteAt(w', e).boots
      && (RemoteAt(w, e).owner == R.Owned(u) <==> RemoteAt(w', e).owner == R.Owned(u))
  }

  ghost predicate Others(u: Uid, w: World, w': World) {
    && u in w.machines && u in w'.machines && Unmoved(w.machines[u], w'.machines[u])
    && HostsSteady(u, w, w')
    && RemotesSteady(u, w, w')
  }

  lemma OthersOnMachines(u: Uid, w: World, a: Action)
    requires Enabled(w, a) && !ByController(a, u) && u in w.machines
    ensures u in Apply(w, a).machines && Unmoved(w.machines[u], Apply(w, a).machines[u])
  {
    if !a.User? { assert Apply(w, a).machines[u] == w.machines[u]; }
  }

  lemma OthersWriteHost(u: Uid, m: Machine, v: Uid, h: HostId, o: HostObject, write: HostWrite)
    requires u != v && MayWriteHost(m, v, h, o, write)
    ensures HostSteady(u, o, HostChanged(o, v, write).(version := o.version + 1))
  {
  }

  lemma OthersOnHosts(u: Uid, w: World, a: Action)
    requires Enabled(w, a) && !ByController(a, u)
    ensures HostsSteady(u, w, Apply(w, a))
  {
    if a.OnHost? { OthersWriteHost(u, w.machines[a.uid], a.uid, a.host, w.hosts[a.host], a.claim); }
  }

  /** A command of another Machine neither boots the host nor gives or takes the owner record of `u`. */
  lemma CommandOfOther(u: Uid, m: Machine, v: Uid, to: Endpoint, remote: R.Host, command: Command)
    requires u != v && MaySend(m, v, to, remote, command)
    ensures RemoteAfter(v, remote, command).boots == remote.boots
    ensures remote.owner == R.Owned(u) <==> RemoteAfter(v, remote, command).owner == R.Owned(u)
  {
    match command
    case ClaimOwner => R.OwnerChanges(remote, R.Claim(v));
    case StartJob => R.OwnerChanges(remote, R.Submit(v));
    case Clean(cleaning) => R.OwnerChanges(remote, R.Reset(v, cleaning));
    case _ =>
  }

  lemma OthersOnRemotes(u: Uid, w: World, a: Action)
    requires Enabled(w, a) && !ByController(a, u)
    ensures RemotesSteady(u, w, Apply(w, a))
  {
    if a.HostActs? {
      R.OwnerChanges(RemoteAt(w, a.endpoint), a.step);
    }
    if a.Send? {
      CommandOfOther(u, w.machines[a.uid], a.uid, a.to, RemoteAt(w, a.to), a.command);
    }
  }

  lemma OthersStep(u: Uid, w: World, w': World, a: Action)
    requires Others(u, w, w') && Enabled(w', a) && !ByController(a, u)
    ensures Others(u, w, Apply(w', a))
  {
    OthersOnMachines(u, w', a);
    OthersOnHosts(u, w', a);
    OthersOnRemotes(u, w', a);
  }

  lemma OthersRefl(u: Uid, w: World)
    requires u in w.machines
    ensures Others(u, w, w)
  {
  }

  lemma OthersTransitive(u: Uid, a: World, b: World, c: World)
    requires Others(u, a, b) && Others(u, b, c)
    ensures Others(u, a, c)
  {
  }

  // ---------- guards that the others cannot break ----------

  /** A write that the controller of `u` may commit now, and still may after others have acted, if the object still exists. */
  ghost predicate Permitted(w: World, u: Uid, write: MachineWrite) {
    && u in w.machines
    && MayWrite(w.machines[u].(live := true), u, write, RemoteAt(w, TargetOf(w.machines[u])).boots)
    && (write.SaveAllocation? && w.machines[u].allocation.None? ==> BindingIsHeld(w, u, write.binding))
  }

  lemma PermittedStays(w: World, w': World, u: Uid, write: MachineWrite)
    requires Permitted(w, u, write) && Others(u, w, w')
    ensures Permitted(w', u, write)
    ensures w'.machines[u].live ==> Enabled(w', OnMachine(u, write))
  {
  }

  /** No record and no claim of `u` moved, whoever acted. */
  ghost predicate Calm(w: World, w': World, u: Uid) {
    && u in w.machines && u in w'.machines
    && SameRecords(w.machines[u], w'.machines[u]) && (w.machines[u].deleting ==> w'.machines[u].deleting)
    && HostsSteady(u, w, w') && RemotesSteady(u, w, w')
  }

  lemma PermittedInCalm(w: World, w': World, u: Uid, write: MachineWrite)
    requires Permitted(w, u, write) && Calm(w, w', u)
    ensures Permitted(w', u, write)
  {
  }

  /** A snapshot of a host object: if the stored version is still the same, so is the object. */
  predicate Seen(w: World, h: HostId, snapshot: HostObject) {
    h in w.hosts && snapshot.version <= w.hosts[h].version && (snapshot.version == w.hosts[h].version ==> snapshot == w.hosts[h])
  }

  predicate HoldsNothing(w: World, u: Uid) {
    forall h | h in w.hosts :: !Holds(w, u, h)
  }

  // ---------- replies ----------

  /** `Raised` does not tell whether the request took effect. */
  datatype Reply<+T> = Done(value: T) | Conflict | Raised

  /** `Broken` is a lost connection; it does not tell whether the command ran. */
  datatype SshReply = Exit(code: int) | Broken

  /** Exit code of the script of a command on this host; a detached job is always accepted. */
  function CodeOn(remote: R.Host, u: Uid, command: Command): int {
    match command
    case ClaimOwner => R.GuardCode(R.Admit(remote, u, R.Claiming))
    case StartJob => 0
    case ReadState => R.GuardCode(R.Admit(remote, u, R.Plain))
    case SeeSuccess => 0
    case Reboot => R.GuardCode(R.Admit(remote, u, R.Plain))
    case Clean(cleaning) => R.ResetCode(remote, u, cleaning)
  }

  /** What the observation of a bootstrap job can show. */
  datatype Observation = Pending | Receipt(code: int) | NotOwned | Unreadable

  /** The stored records of `u` other than the reboot record are as before, and its history has only grown. */
  predicate StoredKept(w: World, w': World, u: Uid) {
    && u in w.machines && u in w'.machines
    && var m, m' := w.machines[u], w'.machines[u];
       && m'.allocation == m.allocation && m'.ownership == m.ownership && m'.provisioned == m.provisioned
       && m'.cleanup == m.cleanup && (m.deleting ==> m'.deleting)
       && (m.past.cleaned ==> m'.past.cleaned) && (m.past.bootstrapped ==> m'.past.bootstrapped)
  }

  /** After a command that is no reboot; `cleaned` and `saw` are what it added to the history. */
  predicate AfterSend(w: World, w': World, u: Uid, cleaned: bool, saw: bool) {
    && StoredKept(w, w', u)
    && w'.machines[u].reboot == w.machines[u].reboot
    && (cleaned ==> w'.machines[u].past.cleaned)
    && (saw ==> w'.machines[u].past.bootstrapped)
  }

  /** No bootstrap job was submitted. */
  predicate NoJob(w: World, w': World, u: Uid) {
    u in w.machines && u in w'.machines && w'.machines[u].past.jobs == w.machines[u].past.jobs
  }

  /** What a command does to the records, claims and history of its Machine. */
  predicate Effect(w: World, w': World, u: Uid, command: Command) {
    && StoredKept(w, w', u) && HostsSteady(u, w, w')
    && (!command.StartJob? ==> NoJob(w, w', u))
    && (!command.Reboot? ==> w'.machines[u].reboot == w.machines[u].reboot)
  }

  lemma SendHasEffect(w: World, u: Uid, e: Endpoint, command: Command)
    requires Enabled(w, Send(u, e, command))
    ensures Effect(w, Apply(w, Send(u, e, command)), u, command)
    ensures command.SeeSuccess? ==> Apply(w, Send(u, e, command)).machines[u].past.bootstrapped
    ensures command.Clean? && CodeOn(RemoteAt(w, e), u, command) == 0 ==> Apply(w, Send(u, e, command)).machines[u].past.cleaned
  {
  }

  lemma OthersThenEffect(a: World, b: World, c: World, u: Uid, command: Command)
    requires Others(u, a, b) && Effect(b, c, u, command)
    ensures Effect(a, c, u, command)
  {
  }

  lemma NoEffect(w: World, u: Uid, command: Command)
    requires u in w.machines
    ensures Effect(w, w, u, command)
  {
  }

  /** At `e`, under the owner record of `u`, the receipt says `code`. */
  predicate ReceiptSeen(w: World, u: Uid, e: Endpoint, code: int) {
    RemoteAt(w, e).owner == R.Owned(u) && RemoteAt(w, e).receipt == R.Code(code)
  }

  /** At `e`, under the owner record of `u`, there is no receipt yet. */
  predicate NoReceiptSeen(w: World, u: Uid, e: Endpoint) {
    RemoteAt(w, e).owner == R.Owned(u) && RemoteAt(w, e).receipt.NoReceipt?
  }

  // ---------- what happened during a call ----------

  /** From position `from` on, the action happened. */
  predicate Did(acts: seq<Action>, from: nat, a: Action) {
    exists k :: from <= k < |acts| && acts[k] == a
  }

  lemma DidBefore(acts: seq<Action>, acts': seq<Action>, from: nat, from': nat, a: Action)
    requires Did(acts, from', a) && acts <= acts' && from <= from'
    ensures Did(acts', from, a)
  {
    var k :| from' <= k < |acts| && acts[k] == a;
    assert acts'[k] == a;
  }

  /** Step `k` is the claim command or a cleanup command of `u` to `e`, and its script exits with `code` there. */
  predicate AnswersAt(states: seq<World>, acts: seq<Action>, k: nat, u: Uid, e: Endpoint, cleaning: bool, code: int) {
    && k < |acts| && k < |states| && acts[k].Send? && acts[k].uid == u && acts[k].to == e
    && (if cleaning then acts[k].command.Clean? else acts[k].command.ClaimOwner?)
    && CodeOn(RemoteAt(states[k], e), u, acts[k].command) == code
  }

  ghost predicate Answered(states: seq<World>, acts: seq<Action>, from: nat, u: Uid, e: Endpoint, cleaning: bool, code: int) {
    exists k: nat :: from <= k && AnswersAt(states, acts, k, u, e, cleaning, code)
  }

  lemma AnsweredBefore(
    states: seq<World>, acts: seq<Action>, states': seq<World>, acts': seq<Action>, from: nat, from': nat,
    u: Uid, e: Endpoint, cleaning: bool, code: int)
    requires Answered(states, acts, from', u, e, cleaning, code)
    requires states <= states' && acts <= acts' && from <= from'
    ensures Answered(states', acts', from, u, e, cleaning, code)
  {
    var k: nat :| from' <= k && AnswersAt(states, acts, k, u, e, cleaning, code);
    assert AnswersAt(states', acts', k, u, e, cleaning, code);
  }

  /** From position `from` on, `u` read the boot of `e` under its fence, and found this one. */
  ghost predicate BootRead(states: seq<World>, acts: seq<Action>, from: nat, u: Uid, e: Endpoint, boot: nat) {
    exists k: nat :: from <= k && ReadsBootAt(states, acts, k, u, e, boot)
  }

  predicate ReadsBootAt(states: seq<World>, acts: seq<Action>, k: nat, u: Uid, e: Endpoint, boot: nat) {
    && k < |acts| && k < |states| && acts[k] == Send(u, e, ReadState)
    && RemoteAt(states[k], e).owner == R.Owned(u) && RemoteAt(states[k], e).boots == boot
  }

  lemma BootReadBefore(
    states: seq<World>, acts: seq<Action>, states': seq<World>, acts': seq<Action>, from: nat, from': nat, u: Uid, e: Endpoint, boot: nat)
    requires BootRead(states, acts, from', u, e, boot) && states <= states' && acts <= acts' && from <= from'
    ensures BootRead(states', acts', from, u, e, boot)
  {
    var k: nat :| from' <= k && ReadsBootAt(states, acts, k, u, e, boot);
    assert ReadsBootAt(states', acts', k, u, e, boot);
  }

  class Cluster {
    var world: World
    ghost var states: seq<World>
    ghost var acts: seq<Action>
    ghost var faults: nat

    ghost predicate Valid()
      reads this
    {
      Behavior(states, acts) && states[|acts|] == world
    }

    /** Everything that happened before is still what happened before. */
    twostate predicate Ran()
      reads this
    {
      old(states) <= states && old(acts) <= acts && old(faults) <= faults
    }

    constructor (w: World)
      requires Init(w)
      ensures Valid() && world == w && faults == 0
    {
      world := w;
      states, acts, faults := [w], [], 0;
    }

    /** One enabled action happens. */
    method Do(a: Action)
      requires Valid() && Enabled(world, a)
      modifies this
      ensures Valid() && Ran() && faults == old(faults)
      ensures world == Apply(old(world), a)
      ensures acts == old(acts) + [a] && states == old(states) + [world]
      ensures Did(acts, |old(acts)|, a)
    {
      OneMore(states, acts, a);
      world := Apply(world, a);
      states := states + [world];
      acts := acts + [a];
      assert acts[|old(acts)|] == a;
    }

    /** Anything that others may do, any number of times. */
    method Interfere(u: Uid)
      requires Valid() && u in world.machines
      modifies this
      ensures Valid() && Ran() && faults == old(faults)
      ensures Others(u, old(world), world)
    {
      var steps: nat := *;
      OthersRefl(u, world);
      while steps > 0
        invariant Valid() && Ran() && faults == old(faults)
        invariant Others(u, old(world), world)
      {
        var a: Action := *;
        if Enabled(world, a) && !ByController(a, u) {
          OthersStep(u, old(world), world, a);
          Do(a);
        }
        steps := steps - 1;
      }
    }

    /** A call that changes nothing here: reading a Secret, the Lease, the CAPI owners, opening a connection. */
    method Try(u: Uid) returns (ok: bool)
      requires Valid() && u in world.machines
      modifies this
      ensures Valid() && Ran() && (faults == old(faults) <==> ok)
      ensures Others(u, old(world), world)
    {
      Interfere(u);
      ok := *;
      if !ok { faults := faults + 1; }
    }

    // ---------- API server ----------

    /** The live SSHMachine with this UID; a missing or replaced object raises. */
    method GetMachine(u: Uid) returns (ok: bool, m: Machine)
      requires Valid() && u in world.machines
      modifies this
      ensures Valid() && Ran() && (faults == old(faults) <==> ok)
      ensures Others(u, old(world), world)
      ensures m == world.machines[u] && (ok ==> m.live)
    {
      ok := Try(u);
      m := world.machines[u];
      if ok && !m.live {
        ok := false;
        faults := faults + 1;
      }
    }

    /** Patch with UID and resourceVersion: applied only to the version that was read. */
    method PatchMachine(u: Uid, version: nat, write: MachineWrite) returns (reply: Reply<Machine>, ghost mid: World)
      requires Valid() && Permitted(world, u, write)
      modifies this
      ensures Valid() && Ran() && (faults == old(faults) <==> reply.Done?)
      ensures Others(u, old(world), mid) && Permitted(mid, u, write)
      ensures world == mid || world == PutMachine(mid, u, Changed(mid.machines[u], write))
      ensures reply.Done? ==> world == PutMachine(mid, u, Changed(mid.machines[u], write)) && mid.machines[u].live && reply.value == world.machines[u]
      ensures reply.Conflict? ==> world == mid
      ensures world != mid ==> mid.machines[u].version == version
    {
      Interfere(u);
      mid := world;
      PermittedStays(old(world), world, u, write);
      var lost: bool := *;
      var failed: bool := *;
      if failed || !world.machines[u].live {
        faults := faults + 1;
        return Raised, mid;
      }
      if world.machines[u].version != version {
        faults := faults + 1;
        return Conflict, mid;
      }
      Do(OnMachine(u, write));
      if lost {
        faults := faults + 1;
        return Raised, mid;
      }
      return Done(world.machines[u]), mid;
    }

    /** The live SSHHost object; a missing or replaced object raises. */
    method GetHost(u: Uid, h: HostId) returns (ok: bool, seen: HostObject)
      requires Valid() && u in world.machines && h in world.hosts
      modifies this
      ensures Valid() && Ran() && (faults == old(faults) <==> ok)
      ensures Others(u, old(world), world)
      ensures h in world.hosts && seen == world.hosts[h] && (ok ==> seen.live)
    {
      ok := Try(u);
      seen := world.hosts[h];
      if ok && !seen.live {
        ok := false;
        faults := faults + 1;
      }
    }

    method ListHosts(u: Uid) returns (ok: bool, seen: map<HostId, HostObject>)
      requires Valid() && u in world.machines
      modifies this
      ensures Valid() && Ran() && (faults == old(faults) <==> ok)
      ensures Others(u, old(world), world)
      ensures forall h :: h in seen <==> h in world.hosts && world.hosts[h].live
      ensures forall h | h in seen :: seen[h] == world.hosts[h]
    {
      ok := Try(u);
      seen := map h | h in world.hosts && world.hosts[h].live :: world.hosts[h];
    }

    /** Patch of the host object that was read as `seen`. */
    method PatchHost(u: Uid, h: HostId, seen: HostObject, write: HostWrite) returns (reply: Reply<HostObject>, ghost mid: World)
      requires Valid() && u in world.machines
      requires Seen(world, h, seen) && MayWriteHost(world.machines[u], u, h, seen, write)
      requires write.Claim? ==> HoldsNothing(world, u)
      modifies this
      ensures Valid() && Ran() && faults == old(faults) + (if reply.Done? then 0 else 1)
      ensures Others(u, old(world), mid) && h in mid.hosts
      ensures world == mid || (mid.hosts[h] == seen && world == PutHost(mid, h, HostChanged(seen, u, write)))
      ensures reply.Done? ==> mid.hosts[h] == seen && world == PutHost(mid, h, HostChanged(seen, u, write)) && reply.value == world.hosts[h]
      ensures reply.Done? ==> Did(acts, |old(acts)|, OnHost(u, h, write))
      ensures reply.Conflict? ==> world == mid && seen.version < world.hosts[h].version
    {
      Interfere(u);
      mid := world;
      var lost: bool := *;
      var failed: bool := *;
      if failed {
        faults := faults + 1;
        return Raised, mid;
      }
      if world.hosts[h].version != seen.version {
        faults := faults + 1;
        return Conflict, mid;
      }
      ghost var sent := |acts|;
      Do(OnHost(u, h, write));
      DidBefore(acts, acts, |old(acts)|, sent, OnHost(u, h, write));
      if lost {
        faults := faults + 1;
        return Raised, mid;
      }
      return Done(world.hosts[h]), mid;
    }

    // ---------- the remote host, over SSH ----------

    /** The invariant facts about `u` that a controller may use at any time. */
    lemma Knows(u: Uid)
      requires Valid() && u in world.machines
      ensures LocalOk(world.machines[u], u) && ClaimKept(world, u)
      ensures LedgerOk(world.machines[u], RemoteAt(world, TargetOf(world.machines[u])).boots)
      ensures R.Ok(RemoteAt(world, TargetOf(world.machines[u])))
    {
      InvAlways(states, acts, |acts|);
      assert MachineOk(world, u);
      assert RemoteOk(world, TargetOf(world.machines[u]));
    }

    /** `test` the fence and create the owner record if the host is pristine. */
    method RunClaimOwner(u: Uid, e: Endpoint) returns (reply: SshReply)
      requires Valid() && u in world.machines && MayBootstrap(world.machines[u]) && e == TargetOf(world.machines[u])
      modifies this
      ensures Valid() && Ran() && (faults == old(faults) <==> reply.Exit?)
      ensures HostsSteady(u, old(world), world)
      ensures AfterSend(old(world), world, u, false, false) && NoJob(old(world), world, u)
      ensures reply == Exit(0) ==> RemoteAt(world, e).owner == R.Owned(u)
      ensures reply.Exit? ==> reply.code in {0, 1, 78} && Answered(states, acts, |old(acts)|, u, e, false, reply.code)
    {
      ghost var start := world;
      Interfere(u);
      ghost var before := world;
      reply := Deliver(u, e, ClaimOwner);
      OthersThenEffect(start, before, world, u, ClaimOwner);
      if reply.Broken? { faults := faults + 1; }
    }

    /** Submit one detached bootstrap job; `nohup ... &` answers at once. */
    method RunStartJob(u: Uid, e: Endpoint) returns (reply: SshReply)
      requires Valid() && u in world.machines && MayBootstrap(world.machines[u]) && e == TargetOf(world.machines[u])
      modifies this
      ensures Valid() && Ran() && (faults == old(faults) <==> reply == Exit(0))
      ensures HostsSteady(u, old(world), world)
      ensures AfterSend(old(world), world, u, false, false)
      ensures reply == Exit(0) ==> Did(acts, |old(acts)|, Send(u, e, StartJob))
    {
      ghost var start := world;
      Interfere(u);
      ghost var before := world;
      reply := Deliver(u, e, StartJob);
      OthersThenEffect(start, before, world, u, StartJob);
      if reply != Exit(0) { faults := faults + 1; }
    }

    /** The boot ID, read under the fence; `None` when the fence refused or the reply is no boot ID. */
    method RunReadBoot(u: Uid, e: Endpoint) returns (boot: Option<nat>)
      requires Valid() && u in world.machines && world.machines[u].ownership.Some? && e == TargetOf(world.machines[u])
      modifies this
      ensures Valid() && Ran() && (faults == old(faults) <==> boot.Some?)
      ensures HostsSteady(u, old(world), world)
      ensures AfterSend(old(world), world, u, false, false) && NoJob(old(world), world, u)
      ensures boot.Some? ==> RemoteAt(old(world), e).boots <= boot.value <= RemoteAt(world, e).boots
      ensures boot.Some? ==> BootRead(states, acts, |old(acts)|, u, e, boot.value)
    {
      ghost var start := world;
      Interfere(u);
      ghost var before, from := world, |acts|;
      var remote := RemoteAt(world, e);
      var reply := Deliver(u, e, ReadState);
      OthersThenEffect(start, before, world, u, ReadState);
      boot := if reply == Exit(0) then Some(remote.boots) else None;
      if reply == Exit(0) { BootReadBefore(states, acts, states, acts, |old(acts)|, from, u, e, remote.boots); }
      if reply != Exit(0) { faults := faults + 1; }
    }

    /** The bootstrap receipt as the observing command sees it. */
    method RunObserve(u: Uid, e: Endpoint) returns (seen: Observation)
      requires Valid() && u in world.machines && world.machines[u].ownership.Some? && e == TargetOf(world.machines[u])
      modifies this
      ensures Valid() && Ran() && (faults == old(faults) <==> seen.Pending? || seen.Receipt?)
      ensures HostsSteady(u, old(world), world)
      ensures AfterSend(old(world), world, u, false, seen == Receipt(0)) && NoJob(old(world), world, u)
      ensures acts != old(acts) && (seen.Receipt? ==> ReceiptSeen(states[|acts| - 1], u, e, seen.code))
      ensures seen.Pending? ==> NoReceiptSeen(states[|acts| - 1], u, e)
      ensures seen == Receipt(0) ==> acts[|acts| - 1] == Send(u, e, SeeSuccess)
    {
      ghost var start := world;
      Interfere(u);
      ghost var before := world;
      var lost: bool := *;
      seen := if lost then Unreadable else Observed(RemoteAt(world, e), u);
      var command := if seen == Receipt(0) then SeeSuccess else ReadState;
      SendRead(u, e, command);
      OthersThenEffect(start, before, world, u, command);
      if !(seen.Pending? || seen.Receipt?) { faults := faults + 1; }
    }

    /** A command that only reads; its step is the last one of the history. */
    method SendRead(u: Uid, e: Endpoint, command: Command)
      requires Valid() && Enabled(world, Send(u, e, command)) && command in {ReadState, SeeSuccess}
      modifies this
      ensures Valid() && Ran() && faults == old(faults)
      ensures Effect(old(world), world, u, command) && (command.SeeSuccess? ==> world.machines[u].past.bootstrapped)
      ensures |acts| == |old(acts)| + 1 && acts[|acts| - 1] == Send(u, e, command) && states[|acts| - 1] == old(world)
    {
      SendHasEffect(world, u, e, command);
      Do(Send(u, e, command));
    }

    /** The reboot command, after its intent was stored and before any other was sent for it. */
    method RunReboot(u: Uid, e: Endpoint) returns (reply: SshReply)
      requires Valid() && u in world.machines && MayBootstrap(world.machines[u]) && e == TargetOf(world.machines[u])
      requires L.Enabled(world.machines[u].reboot, L.Send)
      modifies this
      ensures Valid() && Ran() && (faults == old(faults) <==> reply.Exit?)
      ensures HostsSteady(u, old(world), world)
      ensures StoredKept(old(world), world, u) && NoJob(old(world), world, u)
      ensures world.machines[u].reboot in {old(world).machines[u].reboot, L.Apply(old(world).machines[u].reboot, L.Send)}
      ensures reply.Exit? ==> world.machines[u].reboot == L.Apply(old(world).machines[u].reboot, L.Send)
    {
      ghost var start := world;
      Interfere(u);
      ghost var before := world;
      reply := Deliver(u, e, Reboot);
      OthersThenEffect(start, before, world, u, Reboot);
      if reply.Broken? { faults := faults + 1; }
    }

    /** The cleanup command. `left` and `code` are what a reset that does not succeed leaves behind and answers. */
    method RunClean(u: Uid, e: Endpoint) returns (reply: SshReply)
      requires Valid() && u in world.machines && MayClean(world.machines[u]) && world.machines[u].cleanup.Running?
      requires e == TargetOf(world.machines[u])
      modifies this
      ensures Valid() && Ran() && (faults == old(faults) <==> reply.Exit?)
      ensures HostsSteady(u, old(world), world)
      ensures AfterSend(old(world), world, u, reply == Exit(0), false) && NoJob(old(world), world, u)
      ensures reply.Exit? ==> Answered(states, acts, |old(acts)|, u, e, true, reply.code)
    {
      ghost var start := world;
      Interfere(u);
      ghost var before := world;
      var left: set<R.Marker>, code: int, complete: bool := *, *, *;
      var cleaning := if complete || code == 0 then R.Complete else R.Incomplete(left * RemoteAt(world, e).residue, code);
      reply := Deliver(u, e, Clean(cleaning));
      OthersThenEffect(start, before, world, u, Clean(cleaning));
      if reply.Broken? { faults := faults + 1; }
    }

    /** One fenced command: it may never run, run without an answer, or answer with the exit code of its script. */
    method Deliver(u: Uid, e: Endpoint, command: Command) returns (reply: SshReply)
      requires Valid() && Enabled(world, Send(u, e, command))
      modifies this
      ensures Valid() && Ran() && faults == old(faults)
      ensures world == old(world) || world == Apply(old(world), Send(u, e, command))
      ensures Effect(old(world), world, u, command)
      ensures reply.Exit? && command.Clean? && reply.code == 0 ==> world.machines[u].past.cleaned
      ensures reply.Exit? ==>
                && reply.code == CodeOn(RemoteAt(old(world), e), u, command)
                && world == Apply(old(world), Send(u, e, command))
                && Did(acts, |old(acts)|, Send(u, e, command))
                && (command.Clean? || command.ClaimOwner? ==> Answered(states, acts, |old(acts)|, u, e, command.Clean?, reply.code))
                && (command.ReadState? && reply.code == 0 ==> BootRead(states, acts, |old(acts)|, u, e, RemoteAt(old(world), e).boots))
    {
      var delivered: bool, answered: bool := *, *;
      var code := CodeOn(RemoteAt(world, e), u, command);
      SendHasEffect(world, u, e, command);
      NoEffect(world, u, command);
      if delivered || answered {
        Do(Send(u, e, command));
        assert AnswersAt(states, acts, |old(acts)|, u, e, command.Clean?, code) || !(command.Clean? || command.ClaimOwner?);
        assert command.ReadState? && code == 0 ==> ReadsBootAt(states, acts, |old(acts)|, u, e, RemoteAt(old(world), e).boots);
      }
      reply := if answered then Exit(code) else Broken;
    }
  }

  /** What the observing command prints about this host. */
  function Observed(remote: R.Host, u: Uid): Observation {
    if remote.owner != R.Owned(u) then NotOwned
    else
      match remote.receipt
      case NoReceipt => Pending
      case Torn => Unreadable
      case Code(code) => Receipt(code)
  }
}
