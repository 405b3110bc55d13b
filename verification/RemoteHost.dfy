/**
  The remote machine as the provider sees it: the owner record, the bootstrap receipt and the
  residue markers under one flock, and the detached bootstrap jobs that outlive their SSH session.

  Every transition is one host-state step of a generated script (operations.py). Foreground
  commands take the flock with `-n` and run in one step; a detached job takes the flock when it is
  free and then runs in several steps, at each of which its process may die.
 */
module RemoteHost {
  import opened Wrappers

  /** A Machine UID; the API server never reuses one. */
  type Uid = nat

  /** Content of the owner record. `Stranger` is a UID that this controller never served. */
  datatype Owner = NoOwner | Owned(uid: Uid) | Stranger

  /** The five paths whose presence makes a host unclaimable. */
  datatype Marker = KubeletConf | KubeletConfig | ApiServerManifest | EtcdMember | BootstrapComplete

  /** The receipt file. `Torn` is the file after a shell opened it and before it wrote the code. */
  datatype Receipt = NoReceipt | Torn | Code(code: int)

  /** Where the job that holds the flock stands. */
  datatype Stage =
    | Starting            // `bootstrap-started` has just been created
    | InPayload           // the bootstrap script is running
    | Exited(code: int)   // the script is over, its receipt is not written yet
    | Interrupting        // an earlier job left no receipt; about to record that
    | Marking             // receipt file opened for the interruption code

  datatype Job = Job(uid: Uid, stage: Stage)

  /** `starts` and `finished` are history: payload starts since the owner record was created, and how that start ended. */
  datatype Host = Host(
    owner: Owner,
    residue: set<Marker>,
    started: bool,
    receipt: Receipt,
    job: Option<Job>,
    queue: multiset<Uid>,
    boots: nat,
    starts: nat,
    finished: Option<int>)

  const INTERRUPTED := 123

  /** The three ways a fenced script treats a missing owner record. */
  datatype Fence = Plain | Claiming | CleanedRetry

  /** What the guard of `owned_command` decides. */
  datatype Admission = Busy | Refused | AlreadyClean | Admitted

  /** The guard of a fenced script once it has the flock. */
  function Guard(h: Host, uid: Uid, fence: Fence): Admission {
    match h.owner
    case Owned(u) => if u == uid then Admitted else Refused
    case Stranger => Refused
    case NoOwner =>
      match fence
      case Plain => Refused
      case Claiming => if h.residue == {} then Admitted else Refused
      case CleanedRetry => if h.residue == {} then AlreadyClean else Refused
  }

  /** A foreground command: `flock -n` gives up when a job holds the lock. */
  function Admit(h: Host, uid: Uid, fence: Fence): Admission {
    if h.job.Some? then Busy else Guard(h, uid, fence)
  }

  /** How an admitted cleanup script went; `left` are the markers that survive a failed one, `code` is its exit code. */
  datatype Cleaning = Incomplete(left: set<Marker>, code: int) | Complete

  datatype Op =
    // Sent by a controller over SSH.
    | Claim(uid: Uid)
    | Reset(uid: Uid, cleaning: Cleaning)
    | Submit(uid: Uid)
    // Done by the host on its own.
    | EnterJob(uid: Uid)
    | SkipPayload
    | StartPayload
    | PayloadWrites(residue: set<Marker>)
    | EndPayload(code: int)
    | WriteReceipt
    | OpenInterrupted
    | WriteInterrupted
    | KillJob
    | LoseQueued(uid: Uid)
    | Boot

  predicate Enabled(h: Host, op: Op) {
    match op
    case Claim(_) => true
    case Reset(_, cleaning) => cleaning.Incomplete? ==> cleaning.left <= h.residue && cleaning.code != 0
    case Submit(_) => true
    case EnterJob(u) => h.job.None? && u in h.queue
    case SkipPayload => h.job.Some? && h.job.value.stage.Starting? && BootstrapComplete in h.residue
    case StartPayload => h.job.Some? && h.job.value.stage.Starting? && BootstrapComplete !in h.residue
    case PayloadWrites(_) => h.job.Some? && h.job.value.stage.InPayload?
    case EndPayload(_) => h.job.Some? && h.job.value.stage.InPayload?
    case WriteReceipt => h.job.Some? && h.job.value.stage.Exited?
    case OpenInterrupted => h.job.Some? && h.job.value.stage.Interrupting?
    case WriteInterrupted => h.job.Some? && h.job.value.stage.Marking?
    case KillJob => h.job.Some?
    case LoseQueued(u) => u in h.queue
    case Boot => true
  }

  /** `rm -rf` of the provider directory: owner record, started flag and receipt disappear together. */
  function Wiped(h: Host): Host {
    h.(owner := NoOwner, residue := {}, started := false, receipt := NoReceipt, starts := 0, finished := None)
  }

  function AtStage(h: Host, stage: Stage): Host
    requires h.job.Some?
  {
    h.(job := Some(h.job.value.(stage := stage)))
  }

  function ApplyClaim(h: Host, uid: Uid): Host {
    if Admit(h, uid, Claiming).Admitted? && h.owner.NoOwner? then h.(owner := Owned(uid)) else h
  }

  function ApplyReset(h: Host, uid: Uid, cleaning: Cleaning): Host {
    if !Admit(h, uid, CleanedRetry).Admitted? then h
    else if cleaning.Complete? then Wiped(h)
    else h.(residue := cleaning.left)
  }

  /** A queued job gets the flock, runs its guard, and looks for a receipt and a started flag. */
  function ApplyEnter(h: Host, uid: Uid): Host {
    var h' := h.(queue := h.queue - multiset{uid});
    if !Guard(h, uid, Plain).Admitted? || !h.receipt.NoReceipt? then h'
    else if h.started then h'.(job := Some(Job(uid, Interrupting)))
    else h'.(started := true, job := Some(Job(uid, Starting)))
  }

  function Apply(h: Host, op: Op): Host
    requires Enabled(h, op)
  {
    match op
    case Claim(u) => ApplyClaim(h, u)
    case Reset(u, cleaning) => ApplyReset(h, u, cleaning)
    case Submit(u) => h.(queue := h.queue + multiset{u})
    case EnterJob(u) => ApplyEnter(h, u)
    case SkipPayload => AtStage(h, Exited(0))
    case StartPayload => AtStage(h, InPayload).(starts := h.starts + 1)
    case PayloadWrites(residue) => h.(residue := residue)
    case EndPayload(code) =>
      var h' := AtStage(h, Exited(code)).(finished := Some(code));
      if code == 0 then h'.(residue := h.residue + {BootstrapComplete}) else h'
    case WriteReceipt => h.(receipt := Code(h.job.value.stage.code), job := None)
    case OpenInterrupted => AtStage(h, Marking).(receipt := Torn)
    case WriteInterrupted => h.(receipt := Code(INTERRUPTED), job := None)
    case KillJob => h.(job := None)
    case LoseQueued(u) => h.(queue := h.queue - multiset{u})
    // /run is volatile, so a boot also drops the completion marker.
    case Boot => h.(job := None, queue := multiset{}, boots := h.boots + 1, residue := h.residue - {BootstrapComplete})
  }

  /** Exit code of a fenced script whose own command exits 0. */
  function GuardCode(admission: Admission): int {
    match admission
    case Busy => 1
    case Refused => 78
    case AlreadyClean => 0
    case Admitted => 0
  }

  /** Exit code of the cleanup command on host `h`. */
  function ResetCode(h: Host, uid: Uid, cleaning: Cleaning): int {
    var admission := Admit(h, uid, CleanedRetry);
    if admission.Admitted? && cleaning.Incomplete? then cleaning.code else GuardCode(admission)
  }

  predicate ResetExitsZero(h: Host, uid: Uid, cleaning: Cleaning) {
    ResetCode(h, uid, cleaning) == 0
  }

  /** What the fence of the next claim demands of a host. */
  predicate Pristine(h: Host) {
    h.owner.NoOwner? && h.residue == {}
  }

  // ---------- the host invariant ----------

  predicate StageOk(h: Host)
    requires h.job.Some?
  {
    match h.job.value.stage
    case Starting => h.starts == 0 && h.receipt.NoReceipt? && h.finished.None?
    case InPayload => h.starts == 1 && h.receipt.NoReceipt? && h.finished.None?
    case Exited(c) => h.starts == 1 && h.receipt.NoReceipt? && h.finished == Some(c)
    case Interrupting => h.receipt.NoReceipt?
    case Marking => h.receipt.Torn?
  }

  predicate Ok(h: Host) {
    && (h.owner.NoOwner? ==> !h.started && h.receipt.NoReceipt? && h.starts == 0 && h.finished.None?)
    && (h.owner.Owned? ==>
          && h.starts <= 1
          && (!h.started ==> h.receipt.NoReceipt? && h.starts == 0)
          && (h.starts == 0 ==> BootstrapComplete !in h.residue && h.finished.None?)
          && (h.receipt.Code? && h.receipt.code != INTERRUPTED ==> h.finished == Some(h.receipt.code)))
    && (h.job.Some? ==> h.owner == Owned(h.job.value.uid) && h.started && StageOk(h))
  }

  lemma OkPreserved(h: Host, op: Op)
    requires Ok(h) && Enabled(h, op)
    ensures Ok(Apply(h, op))
  {
  }

  // ---------- what one step can and cannot do ----------

  /** A receipt is final: while the owner record stays, a written code never changes. */
  lemma ReceiptIsFinal(h: Host, op: Op)
    requires Ok(h) && Enabled(h, op) && h.owner.Owned?
    requires Apply(h, op).owner == h.owner
    ensures h.receipt.Code? ==> Apply(h, op).receipt == h.receipt
    ensures h.receipt.Torn? ==> Apply(h, op).receipt in {Torn, Code(INTERRUPTED)}
  {
  }

  /** The owner record only ever goes from absent to one UID, or from a UID to absent by that UID's own cleanup. */
  lemma OwnerChanges(h: Host, op: Op)
    requires Enabled(h, op)
    ensures Apply(h, op).owner != h.owner ==>
              || (op.Claim? && Pristine(h) && Apply(h, op).owner == Owned(op.uid))
              || (op.Reset? && h.owner == Owned(op.uid) && Pristine(Apply(h, op)))
  {
  }

  /** A job whose UID is not in the owner record changes nothing but the queue it leaves. */
  lemma StaleJobIsInert(h: Host, uid: Uid)
    requires Enabled(h, EnterJob(uid)) && h.owner != Owned(uid)
    ensures Apply(h, EnterJob(uid)) == h.(queue := h.queue - multiset{uid})
  {
  }

  /** The completion marker can never make a job of ours skip its payload: only that payload could have made it. */
  lemma PayloadIsNeverSkipped(h: Host)
    requires Ok(h)
    ensures !Enabled(h, SkipPayload)
  {
  }

  /** Exit code 0 in the receipt means: one start, and it ran to its end with 0. */
  lemma ZeroReceiptMeansCompleted(h: Host, uid: Uid)
    requires Ok(h) && h.owner == Owned(uid) && h.receipt == Code(0)
    ensures h.starts == 1 && h.finished == Some(0)
  {
  }

  /** A cleanup command that exits 0 leaves exactly what the next claim demands. */
  lemma CleanupLeavesPristine(h: Host, uid: Uid, cleaning: Cleaning)
    requires Enabled(h, Reset(uid, cleaning)) && ResetExitsZero(h, uid, cleaning)
    ensures Pristine(Apply(h, Reset(uid, cleaning)))
    ensures forall other :: Admit(Apply(h, Reset(uid, cleaning)), other, Claiming).Admitted?
  {
  }

  /** What one step does to the history of payload starts. */
  lemma StepHistory(h: Host, op: Op)
    requires Ok(h) && Enabled(h, op)
    ensures op.StartPayload? ==> h.owner.Owned? && h.starts == 0 && Apply(h, op).owner == h.owner && Apply(h, op).starts == 1
    ensures h.owner.Owned? && !Apply(h, op).owner.NoOwner? ==> Apply(h, op).owner == h.owner && Apply(h, op).starts >= h.starts
    ensures Apply(h, op).owner.Owned? && Apply(h, op).starts == 1 && !op.StartPayload? ==> Apply(h, op).owner == h.owner && h.starts == 1
    ensures Apply(h, op).owner.Owned? && Apply(h, op).finished.Some? ==>
              && Apply(h, op).owner == h.owner
              && ((op == EndPayload(Apply(h, op).finished.value) && h.starts == 1) || h.finished == Apply(h, op).finished)
  {
  }

  // ---------- whole runs ----------

  predicate StepAt(hs: seq<Host>, ops: seq<Op>, i: nat)
    requires |hs| == |ops| + 1 && i < |ops|
  {
    Enabled(hs[i], ops[i]) && hs[i + 1] == Apply(hs[i], ops[i])
  }

  /** `hs` are the successive host states while `ops` happen. */
  ghost predicate Run(hs: seq<Host>, ops: seq<Op>) {
    && |hs| == |ops| + 1
    && forall i | 0 <= i < |ops| :: StepAt(hs, ops, i)
  }

  lemma {:induction false} OkAlways(hs: seq<Host>, ops: seq<Op>, i: nat)
    requires Run(hs, ops) && Ok(hs[0]) && i <= |ops|
    ensures Ok(hs[i])
  {
    if i > 0 {
      OkAlways(hs, ops, i - 1);
      assert StepAt(hs, ops, i - 1);
      OkPreserved(hs[i - 1], ops[i - 1]);
    }
  }

  /** One step of a run, with what it does to the history. */
  lemma StepOf(hs: seq<Host>, ops: seq<Op>, i: nat)
    requires Run(hs, ops) && Ok(hs[0]) && i < |ops|
    ensures ops[i].StartPayload? ==> hs[i].owner.Owned? && hs[i].starts == 0 && hs[i + 1].owner == hs[i].owner && hs[i + 1].starts == 1
    ensures hs[i].owner.Owned? && !hs[i + 1].owner.NoOwner? ==> hs[i + 1].owner == hs[i].owner && hs[i + 1].starts >= hs[i].starts
    ensures hs[i + 1].owner.Owned? && hs[i + 1].starts == 1 && !ops[i].StartPayload? ==> hs[i + 1].owner == hs[i].owner && hs[i].starts == 1
    ensures hs[i + 1].owner.Owned? && hs[i + 1].finished.Some? ==>
              && hs[i + 1].owner == hs[i].owner
              && ((ops[i] == EndPayload(hs[i + 1].finished.value) && hs[i].starts == 1) || hs[i].finished == hs[i + 1].finished)
  {
    OkAlways(hs, ops, i);
    assert StepAt(hs, ops, i);
    StepHistory(hs[i], ops[i]);
  }

  /** From a payload start on, as long as the owner record stays, that start is remembered. */
  lemma {:induction false} StartIsRemembered(hs: seq<Host>, ops: seq<Op>, i: nat, j: nat)
    requires Run(hs, ops) && Ok(hs[0]) && i < j <= |ops| && ops[i].StartPayload?
    requires forall k | i < k <= j :: !hs[k].owner.NoOwner?
    ensures hs[j].owner.Owned? && hs[j].starts >= 1
  {
    StepOf(hs, ops, j - 1);
    if j > i + 1 { StartIsRemembered(hs, ops, i, j - 1); }
  }

  /** Bootstrap at most once: between two payload starts the owner record was removed. */
  lemma PayloadStartsAtMostOnce(hs: seq<Host>, ops: seq<Op>, i: nat, j: nat)
    requires Run(hs, ops) && Ok(hs[0]) && i < j < |ops|
    requires ops[i].StartPayload? && ops[j].StartPayload?
    ensures exists k :: i < k <= j && hs[k].owner.NoOwner?
  {
    if forall k | i < k <= j :: !hs[k].owner.NoOwner? {
      StartIsRemembered(hs, ops, i, j);
      StepOf(hs, ops, j);
    }
  }

  /** The step at which the payload of the present owner started. */
  lemma {:induction false} FindStart(hs: seq<Host>, ops: seq<Op>, n: nat) returns (a: nat)
    requires Run(hs, ops) && Ok(hs[0]) && !hs[0].owner.Owned? && n <= |ops|
    requires hs[n].owner.Owned? && hs[n].starts == 1
    ensures a < n && ops[a].StartPayload?
    ensures forall k | a <= k <= n :: hs[k].owner == hs[n].owner
  {
    StepOf(hs, ops, n - 1);
    if ops[n - 1].StartPayload? {
      a := n - 1;
    } else {
      a := FindStart(hs, ops, n - 1);
    }
  }

  /** The steps at which the payload of the present owner started and ended. */
  lemma {:induction false} FindEnd(hs: seq<Host>, ops: seq<Op>, n: nat) returns (a: nat, b: nat)
    requires Run(hs, ops) && Ok(hs[0]) && !hs[0].owner.Owned? && n <= |ops|
    requires hs[n].owner.Owned? && hs[n].finished.Some?
    ensures a < b < n && ops[a].StartPayload? && ops[b] == EndPayload(hs[n].finished.value)
    ensures forall k | a <= k <= n :: hs[k].owner == hs[n].owner
  {
    var m: nat := n - 1;
    StepOf(hs, ops, m);
    if hs[m].finished == hs[n].finished {
      a, b := FindEnd(hs, ops, m);
    } else {
      b := m;
      a := FindStart(hs, ops, m);
    }
  }

  /**
    A receipt with code 0 is the trace of one completed run: under the present owner record the
    payload was started once, and that start ended with 0.
   */
  lemma ZeroReceiptHasCompletedRun(hs: seq<Host>, ops: seq<Op>, n: nat, uid: Uid) returns (a: nat, b: nat)
    requires Run(hs, ops) && Ok(hs[0]) && !hs[0].owner.Owned? && n <= |ops|
    requires hs[n].owner == Owned(uid) && hs[n].receipt == Code(0)
    ensures a < b < n && ops[a].StartPayload? && ops[b] == EndPayload(0)
    ensures forall k | a <= k <= n :: hs[k].owner == Owned(uid)
    ensures forall k | a < k < n :: !ops[k].StartPayload?
  {
    OkAlways(hs, ops, n);
    a, b := FindEnd(hs, ops, n);
    forall k | a < k < n ensures !ops[k].StartPayload? {
      if ops[k].StartPayload? { PayloadStartsAtMostOnce(hs, ops, a, k); }
    }
  }
}
