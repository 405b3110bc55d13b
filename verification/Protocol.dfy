/**
  The host lifecycle as one transition system.

  A state holds the API objects (SSHMachines and SSHHosts), the remote machines behind their
  endpoints, and per Machine the history that the guarantees speak about. An action is one committed
  effect: an API write that the server accepted, a command that the remote host executed, a step of
  a detached job, an edit by a user. A lost reply is an action whose sender does not learn of it; a
  crash is a sender that performs no further action. Actions of different Machines interleave freely.

  The guard of a controller action is what the code has established when it gets there. That the code
  performs no other action is proved in Inventory, Operations, Reboots, Deletion and SshMachine.
 */
module Protocol {
  import opened Wrappers
  import R = RemoteHost
  import L = RebootLedger

  type Uid = R.Uid

  /** metadata.uid of an SSHHost. */
  type HostId = nat

  datatype Endpoint = Endpoint(address: string, port: nat)

  /** The stored allocation, and its copy in the bootstrap ownership record. Credentials may rotate; the rest may not. */
  datatype Binding = Binding(machine: Uid, target: Endpoint, host: Option<HostId>, credentials: nat)

  /** The same target for the same Machine: everything but the credentials. */
  predicate SameTarget(a: Binding, b: Binding) {
    a.machine == b.machine && a.target == b.target && a.host == b.host
  }

  /** What users and the provider write in an SSHMachine spec. `paused` is the answer of the whole CAPI owner chain. */
  datatype MachineSpec = MachineSpec(
    address: Option<string>,
    port: Option<nat>,
    hostRef: Option<string>,
    selector: Option<set<string>>,
    providerId: Option<string>,
    credentials: nat,
    paused: bool,
    dryRun: bool,
    rebootRequest: Option<string>)

  datatype Cleanup = NoCleanup | Running | Failed | Succeeded

  /** What happened for this Machine: not stored anywhere, only spoken about. */
  datatype Past = Past(
    legacy: bool,           // created as already provisioned, by an earlier release
    commands: set<Endpoint>, // where fenced commands of this UID were sent
    jobs: nat,              // how many bootstrap jobs were submitted
    cleaned: bool,          // a cleanup command exited 0
    bootstrapped: bool)     // a receipt with code 0 was observed

  datatype Machine = Machine(
    live: bool,
    version: nat,
    spec: MachineSpec,
    deleting: bool,
    allocation: Option<Binding>,
    ownership: Option<Binding>,
    provisioned: bool,
    cleanup: Cleanup,
    reboot: L.Ledger,
    past: Past)

  datatype HostPhase = Unset | Available | Claimed | Cleaning | Quarantined

  /** spec.consumerRef. `Unknown` is a reference that matches no SSHMachine identity, such as one without UID. */
  datatype Consumer = Nobody | By(uid: Uid) | Unknown

  datatype HostObject = HostObject(
    name: string,
    live: bool,
    version: nat,
    target: Endpoint,
    credentials: nat,
    labels: set<string>,
    ready: Option<bool>,
    deleting: bool,
    phase: HostPhase,
    inUse: bool,
    reason: string,
    consumer: Consumer)

  datatype World = World(
    machines: map<Uid, Machine>,
    hosts: map<HostId, HostObject>,
    remotes: map<Endpoint, R.Host>)

  /** A machine nobody has touched yet. */
  const UNTOUCHED_HOST := R.Host(R.NoOwner, {}, false, R.NoReceipt, None, multiset{}, 0, 0, None)

  function RemoteAt(w: World, e: Endpoint): R.Host {
    if e in w.remotes then w.remotes[e] else UNTOUCHED_HOST
  }

  // ---------- writes to an SSHMachine by its controller ----------

  datatype MachineWrite =
    | SaveTarget(binding: Binding, hostName: Option<string>)
    | SaveAllocation(binding: Binding)
    | SaveOwnership(binding: Binding)
    | SaveProvisioned(value: bool)
    | SaveReboot(change: L.Op)
    | SaveCleanup(cleanup: Cleanup)

  /** The target of every command of this Machine; only meaningful once ownership is stored. */
  function TargetOf(m: Machine): Endpoint {
    if m.ownership.Some? then m.ownership.value.target else Endpoint("", 0)
  }

  /** Bootstrap and reboot commands: ownership is stored and no cleanup has been recorded. */
  predicate MayBootstrap(m: Machine) {
    m.ownership.Some? && m.cleanup.NoCleanup?
  }

  /** Cleanup commands: deletion was requested, ownership is stored, and no reboot outcome is open. */
  predicate MayClean(m: Machine) {
    m.deleting && m.ownership.Some? && !L.Pending(m.reboot) && !m.cleanup.Succeeded?
  }

  predicate MayRecord(m: Machine, cleanup: Cleanup) {
    match cleanup
    case NoCleanup => false
    case Running => MayClean(m)
    case Failed => m.cleanup.Running?
    case Succeeded => m.cleanup.Succeeded? || m.ownership.None? || m.past.cleaned
  }

  /** `boots` is the number of boots of the Machine's target so far. */
  predicate MayWrite(m: Machine, uid: Uid, write: MachineWrite, boots: nat) {
    && m.live
    && match write
       case SaveTarget(b, _) => m.allocation.Some? ==> SameTarget(m.allocation.value, b)
       case SaveAllocation(b) => b.machine == uid && (m.allocation.Some? ==> SameTarget(m.allocation.value, b))
       case SaveOwnership(b) =>
         && m.cleanup.NoCleanup? && m.allocation.Some? && SameTarget(m.allocation.value, b)
         && (m.ownership.Some? ==> m.ownership.value == b)
       case SaveProvisioned(value) => value ==> m.provisioned || m.past.bootstrapped
       case SaveReboot(change) =>
         && m.ownership.Some? && !change.Send? && L.Enabled(m.reboot, change)
         && (change.Intend? ==> m.cleanup.NoCleanup? && change.boot <= boots)
         && (change.Observe? ==> m.reboot.record.value.previousBoot <= change.boot <= boots)
       case SaveCleanup(cleanup) => m.deleting && MayRecord(m, cleanup)
  }

  function TargetSpec(spec: MachineSpec, b: Binding, hostName: Option<string>): MachineSpec {
    spec.(address := Some(b.target.address), port := Some(b.target.port), credentials := b.credentials,
          hostRef := if hostName.Some? then hostName else spec.hostRef)
  }

  /** The write, without the new resourceVersion. */
  function Changed(m: Machine, write: MachineWrite): Machine
    requires write.SaveReboot? ==> L.Enabled(m.reboot, write.change)
  {
    match write
    case SaveTarget(b, hostName) => m.(spec := TargetSpec(m.spec, b, hostName))
    case SaveAllocation(b) => m.(allocation := Some(b))
    case SaveOwnership(b) => m.(ownership := Some(b))
    case SaveProvisioned(value) => m.(provisioned := value)
    case SaveReboot(change) => m.(reboot := L.Apply(m.reboot, change))
    case SaveCleanup(cleanup) => m.(cleanup := cleanup)
  }

  // ---------- writes to an SSHHost by the controller of a Machine ----------

  datatype HostWrite =
    | Claim
    | SetPhase(phase: HostPhase, reason: string)
    | MarkAvailable
    | ReleaseClaim

  /** The durable receipt allows giving this host back. */
  predicate MayRelease(m: Machine, host: HostId) {
    m.cleanup.Succeeded? && m.allocation.Some? && m.allocation.value.host == Some(host)
  }

  predicate MayWriteHost(m: Machine, uid: Uid, host: HostId, host': HostObject, write: HostWrite) {
    && host'.live
    && match write
       case Claim =>
         && m.allocation.None? && m.cleanup.NoCleanup?
         && host'.consumer.Nobody? && host'.phase in {Unset, Available}
       case SetPhase(phase, _) => host'.consumer == By(uid) && phase in {Claimed, Cleaning, Quarantined}
       case MarkAvailable => host'.consumer == By(uid) && MayRelease(m, host)
       case ReleaseClaim => host'.consumer == By(uid) && MayRelease(m, host)
  }

  function HostChanged(host': HostObject, uid: Uid, write: HostWrite): HostObject {
    match write
    case Claim => host'.(consumer := By(uid))
    case SetPhase(phase, reason) => host'.(phase := phase, inUse := true, reason := reason)
    case MarkAvailable => host'.(phase := Available, inUse := false, reason := "")
    case ReleaseClaim => host'.(consumer := Nobody)
  }

  // ---------- fenced commands ----------

  datatype Command =
    | ClaimOwner                       // create the owner record, or find it
    | StartJob                         // submit one detached bootstrap job
    | ReadState                        // boot ID, receipt
    | SeeSuccess                       // read a receipt with code 0
    | Reboot
    | Clean(cleaning: R.Cleaning)

  /** The connection goes to `to`, where `remote` answers. */
  predicate MaySend(m: Machine, uid: Uid, to: Endpoint, remote: R.Host, command: Command) {
    && m.ownership.Some? && to == TargetOf(m)
    && match command
       case ClaimOwner => MayBootstrap(m)
       case StartJob => MayBootstrap(m)
       case ReadState => true
       case SeeSuccess => remote.owner == R.Owned(uid) && remote.receipt == R.Code(0)
       case Reboot => MayBootstrap(m) && L.Enabled(m.reboot, L.Send)
       case Clean(cleaning) => MayClean(m) && m.cleanup.Running? && R.Enabled(remote, R.Reset(uid, cleaning))
  }

  function RemoteAfter(uid: Uid, remote: R.Host, command: Command): R.Host
    requires command.Clean? ==> R.Enabled(remote, R.Reset(uid, command.cleaning))
  {
    match command
    case ClaimOwner => R.Apply(remote, R.Claim(uid))
    case StartJob => R.Apply(remote, R.Submit(uid))
    case Clean(cleaning) => R.Apply(remote, R.Reset(uid, cleaning))
    case _ => remote
  }

  /** What a command adds to the Machine's history. */
  function Sent(m: Machine, uid: Uid, to: Endpoint, remote: R.Host, command: Command): Machine
    requires command.Reboot? ==> L.Enabled(m.reboot, L.Send)
  {
    var m' := m.(past := m.past.(
      commands := m.past.commands + {to},
      jobs := if command.StartJob? then m.past.jobs + 1 else m.past.jobs,
      cleaned := m.past.cleaned || (command.Clean? && R.ResetExitsZero(remote, uid, command.cleaning)),
      bootstrapped := m.past.bootstrapped || command.SeeSuccess?));
    if command.Reboot? then m'.(reboot := L.Apply(m.reboot, L.Send)) else m'
  }

  // ---------- everybody else ----------

  datatype Edit =
    | CreateMachine(uid: Uid, spec: MachineSpec, provisioned: bool)
    | EditMachine(uid: Uid, spec: MachineSpec)
    | RequestDelete(uid: Uid)
    | RemoveMachine(uid: Uid)
    | CreateHost(host: HostId, with: HostObject)
    | EditHost(host: HostId, with: HostObject)
    | RemoveHost(host: HostId)

  /** A new SSHMachine. One that is already provisioned comes from a release that stored no ownership. */
  function NewMachine(spec: MachineSpec, provisioned: bool): Machine {
    Machine(true, 1, spec, false, None, None, provisioned, NoCleanup, L.EMPTY, Past(provisioned, {}, 0, false, false))
  }

  /** Users may do anything to the objects but write claims, phases and status; UIDs are never reused. */
  predicate MayEdit(w: World, edit: Edit) {
    match edit
    case CreateMachine(u, _, _) => u !in w.machines
    case EditMachine(u, _) => u in w.machines
    case RequestDelete(u) => u in w.machines
    case RemoveMachine(u) => u in w.machines
    case CreateHost(h, with) => h !in w.hosts && with.live && !with.consumer.By?
    case EditHost(h, with) =>
      && h in w.hosts
      && with.live == w.hosts[h].live && with.name == w.hosts[h].name
      && with.consumer == w.hosts[h].consumer && with.phase == w.hosts[h].phase
      && with.version == w.hosts[h].version + 1
    case RemoveHost(h) => h in w.hosts
  }

  function Edited(w: World, edit: Edit): World
    requires MayEdit(w, edit)
  {
    match edit
    case CreateMachine(u, spec, provisioned) => w.(machines := w.machines[u := NewMachine(spec, provisioned)])
    case EditMachine(u, spec) => PutMachine(w, u, w.machines[u].(spec := spec))
    case RequestDelete(u) => PutMachine(w, u, w.machines[u].(deleting := true))
    case RemoveMachine(u) => PutMachine(w, u, w.machines[u].(live := false))
    case CreateHost(h, with) => w.(hosts := w.hosts[h := with])
    case EditHost(h, with) => w.(hosts := w.hosts[h := with])
    case RemoveHost(h) => PutHost(w, h, w.hosts[h].(live := false))
  }

  // ---------- actions ----------

  datatype Action =
    | User(edit: Edit)
    | HostActs(endpoint: Endpoint, step: R.Op)
    | OnMachine(uid: Uid, write: MachineWrite)
    | OnHost(uid: Uid, host: HostId, claim: HostWrite)
    | Send(uid: Uid, to: Endpoint, command: Command)

  /** The actions of the controller that serves `uid`. */
  predicate ByController(a: Action, uid: Uid) {
    (a.OnMachine? || a.OnHost? || a.Send?) && a.uid == uid
  }

  /** The controller of `uid` sends this command, wherever to. */
  predicate Sends(a: Action, uid: Uid, command: Command) {
    a.Send? && a.uid == uid && a.command == command
  }

  predicate Holds(w: World, uid: Uid, host: HostId) {
    host in w.hosts && w.hosts[host].live && w.hosts[host].consumer == By(uid)
  }

  /** Every write to an API object moves its resourceVersion. */
  function PutMachine(w: World, u: Uid, m: Machine): World {
    w.(machines := w.machines[u := m.(version := m.version + 1)])
  }

  function PutHost(w: World, h: HostId, host': HostObject): World {
    w.(hosts := w.hosts[h := host'.(version := host'.version + 1)])
  }

  /** A stored allocation names a host that the Machine holds, unless that object has vanished. */
  predicate BindingIsHeld(w: World, uid: Uid, b: Binding) {
    b.host.Some? ==> b.host.value in w.hosts && (w.hosts[b.host.value].live ==> Holds(w, uid, b.host.value))
  }

  predicate Enabled(w: World, a: Action) {
    match a
    case User(edit) => MayEdit(w, edit)
    case HostActs(e, step) => !step.Claim? && !step.Reset? && !step.Submit? && R.Enabled(RemoteAt(w, e), step)
    case OnMachine(u, write) =>
      && u in w.machines
      && MayWrite(w.machines[u], u, write, RemoteAt(w, TargetOf(w.machines[u])).boots)
      && (write.SaveAllocation? && w.machines[u].allocation.None? ==> BindingIsHeld(w, u, write.binding))
    case OnHost(u, h, write) =>
      && u in w.machines && h in w.hosts
      && MayWriteHost(w.machines[u], u, h, w.hosts[h], write)
      && (write.Claim? ==> forall g | g in w.hosts :: !Holds(w, u, g))
    case Send(u, to, command) => u in w.machines && MaySend(w.machines[u], u, to, RemoteAt(w, to), command)
  }

  function Apply(w: World, a: Action): World
    requires Enabled(w, a)
  {
    match a
    case User(edit) => Edited(w, edit)
    case HostActs(e, step) => w.(remotes := w.remotes[e := R.Apply(RemoteAt(w, e), step)])
    case OnMachine(u, write) => PutMachine(w, u, Changed(w.machines[u], write))
    case OnHost(u, h, write) => PutHost(w, h, HostChanged(w.hosts[h], u, write))
    case Send(u, to, command) =>
      w.(machines := w.machines[u := Sent(w.machines[u], u, to, RemoteAt(w, to), command)],
         remotes := w.remotes[to := RemoteAfter(u, RemoteAt(w, to), command)])
  }
}
