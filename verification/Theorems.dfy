/** The lifecycle guarantees, over every behaviour of the transition system. */
module Theorems {
  import opened Wrappers
  import opened Protocol
  import opened Invariants
  import R = RemoteHost
  import L = RebootLedger

  // ---------- behaviours ----------

  predicate StepAt(ws: seq<World>, acts: seq<Action>, i: nat)
    requires |ws| == |acts| + 1 && i < |acts|
  {
    Enabled(ws[i], acts[i]) && ws[i + 1] == Apply(ws[i], acts[i])
  }

  /** `ws` are the successive states while `acts` happen, from a state in which nothing is known yet. */
  ghost predicate Behavior(ws: seq<World>, acts: seq<Action>) {
    && |ws| == |acts| + 1
    && Init(ws[0])
    && forall i | 0 <= i < |acts| :: StepAt(ws, acts, i)
  }

  lemma {:induction false} InvAlways(ws: seq<World>, acts: seq<Action>, i: nat)
    requires Behavior(ws, acts) && i <= |acts|
    ensures Inv(ws[i])
  {
    if i == 0 {
      InitInv(ws[0]);
    } else {
      InvAlways(ws, acts, i - 1);
      assert StepAt(ws, acts, i - 1);
      InvPreserved(ws[i - 1], acts[i - 1]);
    }
  }

  lemma OneMore(ws: seq<World>, acts: seq<Action>, a: Action)
    requires Behavior(ws, acts) && Enabled(ws[|acts|], a)
    ensures Behavior(ws + [Apply(ws[|acts|], a)], acts + [a])
  {
    var ws', acts' := ws + [Apply(ws[|acts|], a)], acts + [a];
    forall i: nat | i < |acts'| ensures StepAt(ws', acts', i) {
      if i < |acts| { assert StepAt(ws, acts, i); }
    }
  }

  // ---------- what one step keeps ----------

  /** Records that no step takes back. */
  predicate Grows(m: Machine, m': Machine) {
    && (m.allocation.Some? ==> m'.allocation.Some? && SameTarget(m.allocation.value, m'.allocation.value))
    && (m.ownership.Some? ==> m'.ownership == m.ownership)
    && (m.cleanup.Succeeded? ==> m'.cleanup.Succeeded?)
    && (m.past.cleaned ==> m'.past.cleaned)
    && m.past.commands <= m'.past.commands
    && (m.deleting ==> m'.deleting)
    && m.reboot.intents <= m'.reboot.intents
    && m.reboot.sent <= m'.reboot.sent
  }

  lemma WriteGrows(m: Machine, u: Uid, write: MachineWrite, boots: nat)
    requires MayWrite(m, u, write, boots)
    ensures Grows(m, Changed(m, write)) && Changed(m, write).past == m.past
  {
  }

  lemma SendGrows(m: Machine, u: Uid, to: Endpoint, remote: R.Host, command: Command)
    requires MaySend(m, u, to, remote, command)
    ensures Grows(m, Sent(m, u, to, remote, command))
    ensures to in Sent(m, u, to, remote, command).past.commands
    ensures Sent(m, u, to, remote, command).past.cleaned && !m.past.cleaned ==>
              command.Clean? && R.ResetExitsZero(remote, u, command.cleaning)
  {
  }

  lemma EditGrows(w: World, edit: Edit, u: Uid)
    requires MayEdit(w, edit) && u in w.machines
    ensures u in Edited(w, edit).machines && Grows(w.machines[u], Edited(w, edit).machines[u])
    ensures Edited(w, edit).machines[u].past == w.machines[u].past
  {
  }

  lemma OtherGrows(w: World, a: Action, u: Uid)
    requires Enabled(w, a) && u in w.machines && (ByController(a, u) ==> a.OnHost?)
    ensures u in Apply(w, a).machines && Grows(w.machines[u], Apply(w, a).machines[u])
    ensures Apply(w, a).machines[u].past == w.machines[u].past
  {
    if a.User? { EditGrows(w, a.edit, u); } else { assert Apply(w, a).machines[u] == w.machines[u]; }
  }

  lemma StepGrows(w: World, a: Action, u: Uid)
    requires Enabled(w, a) && u in w.machines
    ensures u in Apply(w, a).machines && Grows(w.machines[u], Apply(w, a).machines[u])
    ensures a.Send? && a.uid == u ==> a.to in Apply(w, a).machines[u].past.commands
    ensures Apply(w, a).machines[u].past.cleaned && !w.machines[u].past.cleaned ==>
              && a.Send? && a.uid == u && a.command.Clean?
              && R.ResetExitsZero(RemoteAt(w, a.to), u, a.command.cleaning)
  {
    if a.OnMachine? && a.uid == u {
      WriteGrows(w.machines[u], u, a.write, RemoteAt(w, TargetOf(w.machines[u])).boots);
    } else if a.Send? && a.uid == u {
      SendGrows(w.machines[u], u, a.to, RemoteAt(w, a.to), a.command);
    } else {
      OtherGrows(w, a, u);
    }
  }

  lemma {:induction false} Grown(ws: seq<World>, acts: seq<Action>, i: nat, j: nat, u: Uid)
    requires Behavior(ws, acts) && i <= j <= |acts| && u in ws[i].machines
    ensures u in ws[j].machines && Grows(ws[i].machines[u], ws[j].machines[u])
  {
    if i < j {
      Grown(ws, acts, i, j - 1, u);
      assert StepAt(ws, acts, j - 1);
      StepGrows(ws[j - 1], acts[j - 1], u);
    }
  }

  // ---------- claims ----------

  /** A claim goes only from empty to `u` by `u`, or from `u` to empty by `u`. */
  lemma ClaimChanges(w: World, a: Action, h: HostId)
    requires Enabled(w, a) && h in w.hosts
    ensures h in Apply(w, a).hosts
    ensures Apply(w, a).hosts[h].consumer != w.hosts[h].consumer ==>
              && a.OnHost? && a.host == h
              && ((a.claim.Claim? && w.hosts[h].consumer.Nobody? && Apply(w, a).hosts[h].consumer == By(a.uid))
                  || (a.claim.ReleaseClaim? && w.hosts[h].consumer == By(a.uid) && Apply(w, a).hosts[h].consumer.Nobody?))
  {
  }

  /** No Machine ever holds two hosts, and two Machines never hold the same one. */
  lemma OneHostPerMachine(ws: seq<World>, acts: seq<Action>, i: nat, u: Uid, v: Uid, g: HostId, h: HostId)
    requires Behavior(ws, acts) && i <= |acts|
    requires Holds(ws[i], u, g) && Holds(ws[i], v, h)
    ensures (u == v) == (g == h)
  {
    InvAlways(ws, acts, i);
  }

  /** Once an allocation is stored and its host object exists, the claim stays until cleanup success is stored. */
  lemma ClaimIsKept(ws: seq<World>, acts: seq<Action>, i: nat, u: Uid)
    requires Behavior(ws, acts) && i <= |acts| && u in ws[i].machines
    requires ws[i].machines[u].allocation.Some? && ws[i].machines[u].allocation.value.host.Some?
    requires !ws[i].machines[u].cleanup.Succeeded?
    ensures var h := ws[i].machines[u].allocation.value.host.value;
            h in ws[i].hosts && (ws[i].hosts[h].live ==> Holds(ws[i], u, h))
  {
    InvAlways(ws, acts, i);
    assert MachineOk(ws[i], u);
  }

  // ---------- one target for life ----------

  /** A stored allocation never moves to another Machine, endpoint or host. */
  lemma AllocationIsFinal(ws: seq<World>, acts: seq<Action>, i: nat, j: nat, u: Uid)
    requires Behavior(ws, acts) && i <= j <= |acts|
    requires u in ws[i].machines && ws[i].machines[u].allocation.Some?
    ensures u in ws[j].machines && ws[j].machines[u].allocation.Some?
    ensures SameTarget(ws[i].machines[u].allocation.value, ws[j].machines[u].allocation.value)
    ensures ws[j].machines[u].allocation.value.machine == u
  {
    Grown(ws, acts, i, j, u);
    InvAlways(ws, acts, j);
    assert MachineOk(ws[j], u);
  }

  /** Every command of a Machine, of whatever kind, is sent to the endpoint of its allocation, as stored then and at any later time. */
  lemma CommandsGoToAllocation(ws: seq<World>, acts: seq<Action>, i: nat, j: nat)
    requires Behavior(ws, acts) && i < |acts| && acts[i].Send? && i <= j <= |acts|
    ensures var u := acts[i].uid;
            && u in ws[i].machines && ws[i].machines[u].allocation.Some? && acts[i].to == ws[i].machines[u].allocation.value.target
            && u in ws[j].machines && ws[j].machines[u].allocation.Some? && acts[i].to == ws[j].machines[u].allocation.value.target
    ensures forall e | e != acts[i].to :: RemoteAt(ws[i + 1], e) == RemoteAt(ws[i], e)
  {
    var u := acts[i].uid;
    assert StepAt(ws, acts, i);
    InvAlways(ws, acts, i);
    assert MachineOk(ws[i], u);
    AllocationIsFinal(ws, acts, i, j, u);
  }

  // ---------- the cleanup receipt ----------

  /** After Succeeded is stored, nothing else is stored over it and no cleanup command is sent. */
  lemma ReceiptIsDurable(ws: seq<World>, acts: seq<Action>, i: nat, j: nat, u: Uid)
    requires Behavior(ws, acts) && i < j < |acts|
    requires acts[i] == OnMachine(u, SaveCleanup(Succeeded))
    ensures u in ws[j].machines && ws[j].machines[u].cleanup.Succeeded?
    ensures acts[j].OnMachine? && acts[j].uid == u && acts[j].write.SaveCleanup? ==> acts[j].write.cleanup.Succeeded?
    ensures !(acts[j].Send? && acts[j].uid == u && acts[j].command.Clean?)
  {
    assert StepAt(ws, acts, i);
    Grown(ws, acts, i + 1, j, u);
    assert StepAt(ws, acts, j);
  }

  // ---------- host handoff ----------

  /** The cleanup command that the history records: it exited 0 and left the host as the next claim demands it. */
  lemma {:induction false} CleanupHappened(ws: seq<World>, acts: seq<Action>, i: nat, u: Uid) returns (j: nat)
    requires Behavior(ws, acts) && i <= |acts| && u in ws[i].machines && ws[i].machines[u].past.cleaned
    ensures j < i && acts[j].Send? && acts[j].uid == u && acts[j].command.Clean?
    ensures u in ws[j].machines && ws[j].machines[u].ownership.Some?
    ensures R.ResetExitsZero(RemoteAt(ws[j], acts[j].to), u, acts[j].command.cleaning) && R.Pristine(RemoteAt(ws[j + 1], acts[j].to))
  {
    assert StepAt(ws, acts, i - 1);
    var w := ws[i - 1];
    if u in w.machines {
      StepGrows(w, acts[i - 1], u);
      if w.machines[u].past.cleaned {
        j := CleanupHappened(ws, acts, i - 1, u);
      } else {
        j := i - 1;
        R.CleanupLeavesPristine(RemoteAt(w, acts[j].to), u, acts[j].command.cleaning);
      }
    }
  }

  /** Without stored ownership no command was ever sent. */
  lemma NothingWasSent(ws: seq<World>, acts: seq<Action>, i: nat, u: Uid)
    requires Behavior(ws, acts) && i <= |acts| && u in ws[i].machines && ws[i].machines[u].ownership.None?
    ensures forall j | 0 <= j < i :: !(acts[j].Send? && acts[j].uid == u)
  {
    InvAlways(ws, acts, i);
    assert MachineOk(ws[i], u);
    forall j | 0 <= j < i ensures !(acts[j].Send? && acts[j].uid == u) {
      if acts[j].Send? && acts[j].uid == u {
        assert StepAt(ws, acts, j);
        StepGrows(ws[j], acts[j], u);
        Grown(ws, acts, j + 1, i, u);
      }
    }
  }

  /** From the successful cleanup on, `u` owns no host, and any job of `u` that still gets a flock changes nothing there. */
  lemma CleanedUidIsInert(ws: seq<World>, acts: seq<Action>, j: nat, k: nat, u: Uid, e: Endpoint)
    requires Behavior(ws, acts) && j <= k <= |acts| && u in ws[j].machines && ws[j].machines[u].past.cleaned
    ensures RemoteAt(ws[k], e).owner != R.Owned(u)
    ensures R.Enabled(RemoteAt(ws[k], e), R.EnterJob(u)) ==>
              var h := RemoteAt(ws[k], e);
              R.Apply(h, R.EnterJob(u)) == h.(queue := h.queue - multiset{u})
  {
    Grown(ws, acts, j, k, u);
    InvAlways(ws, acts, k);
    assert RemoteOk(ws[k], e);
    if R.Enabled(RemoteAt(ws[k], e), R.EnterJob(u)) { R.StaleJobIsInert(RemoteAt(ws[k], e), u); }
  }

  /**
    Host handoff. When the claim of `u` is cleared, either no command of `u` was ever sent, or a
    cleanup command of `u` exited 0 at its target and left exactly what the next claim demands, and
    from then on nothing that `u` left behind can act on any host.
   */
  lemma HostHandoff(ws: seq<World>, acts: seq<Action>, i: nat, u: Uid, h: HostId)
    requires Behavior(ws, acts) && i < |acts| && acts[i] == OnHost(u, h, ReleaseClaim)
    ensures (forall j | 0 <= j < i :: !(acts[j].Send? && acts[j].uid == u))
            || (exists j: nat :: CleanedAt(ws, acts, j, i, u)
                            && forall k, e | j < k <= |acts| :: RemoteAt(ws[k], e).owner != R.Owned(u))
  {
    InvAlways(ws, acts, i);
    assert StepAt(ws, acts, i);
    assert MachineOk(ws[i], u);
    if ws[i].machines[u].ownership.None? {
      NothingWasSent(ws, acts, i, u);
    } else {
      var j := CleanupHappened(ws, acts, i, u);
      assert StepAt(ws, acts, j);
      forall k, e | j < k <= |acts| ensures RemoteAt(ws[k], e).owner != R.Owned(u) {
        CleanedUidIsInert(ws, acts, j + 1, k, u, e);
      }
      CommandsGoToAllocation(ws, acts, j, i);
      assert CleanedAt(ws, acts, j, i, u);
    }
  }

  /** Step `j` is a cleanup command of `u` that exited 0, before step `i`, at the target of the allocation. */
  predicate CleanedAt(ws: seq<World>, acts: seq<Action>, j: nat, i: nat, u: Uid)
    requires |ws| == |acts| + 1 && i < |acts|
  {
    && j < i && acts[j].Send? && acts[j].uid == u && acts[j].command.Clean?
    && u in ws[i].machines && ws[i].machines[u].allocation.Some? && acts[j].to == ws[i].machines[u].allocation.value.target
    && R.ResetExitsZero(RemoteAt(ws[j], acts[j].to), u, acts[j].command.cleaning)
    && R.Pristine(RemoteAt(ws[j + 1], acts[j].to))
  }

  // ---------- bootstrap ----------

  /** A success that the controller saw is one payload start that ran to its end with 0, on the Machine's own target. */
  lemma SeenSuccessIsReal(ws: seq<World>, acts: seq<Action>, i: nat, u: Uid)
    requires Behavior(ws, acts) && i < |acts| && Sends(acts[i], u, SeeSuccess)
    ensures u in ws[i].machines && ws[i].machines[u].allocation.Some?
    ensures var h := RemoteAt(ws[i], ws[i].machines[u].allocation.value.target);
            h.owner == R.Owned(u) && h.starts == 1 && h.finished == Some(0)
    ensures acts[i].to == ws[i].machines[u].allocation.value.target
  {
    InvAlways(ws, acts, i);
    assert StepAt(ws, acts, i);
    assert MachineOk(ws[i], u);
    var e := acts[i].to;
    assert RemoteOk(ws[i], e);
    R.ZeroReceiptMeansCompleted(RemoteAt(ws[i], e), u);
  }

  /** The payload start of the present owner record is remembered from `h` to `h'`. */
  predicate Remembers(h: R.Host, h': R.Host) {
    h.owner.Owned? && !h'.owner.NoOwner? ==> h'.owner == h.owner && h'.starts >= h.starts
  }

  lemma CommandRemembers(u: Uid, m: Machine, e: Endpoint, h: R.Host, command: Command)
    requires R.Ok(h) && MaySend(m, u, e, h, command)
    ensures Remembers(h, RemoteAfter(u, h, command))
  {
    match command
    case ClaimOwner => R.StepHistory(h, R.Claim(u));
    case StartJob => R.StepHistory(h, R.Submit(u));
    case Clean(cleaning) => R.StepHistory(h, R.Reset(u, cleaning));
    case _ =>
  }

  /** What a step does to the payload history of one endpoint. */
  lemma PayloadStep(w: World, a: Action, e: Endpoint)
    requires R.Ok(RemoteAt(w, e)) && Enabled(w, a)
    ensures Remembers(RemoteAt(w, e), RemoteAt(Apply(w, a), e))
    ensures a == HostActs(e, R.StartPayload) ==>
              && RemoteAt(w, e).owner.Owned? && RemoteAt(Apply(w, a), e).owner == RemoteAt(w, e).owner
              && RemoteAt(w, e).starts == 0 && RemoteAt(Apply(w, a), e).starts == 1
  {
    var h := RemoteAt(w, e);
    if a.HostActs? && a.endpoint == e {
      R.StepHistory(h, a.step);
    } else if a.Send? && a.to == e {
      CommandRemembers(a.uid, w.machines[a.uid], e, h, a.command);
    }
  }

  lemma PayloadAt(ws: seq<World>, acts: seq<Action>, i: nat, e: Endpoint)
    requires Behavior(ws, acts) && i < |acts|
    ensures Remembers(RemoteAt(ws[i], e), RemoteAt(ws[i + 1], e))
    ensures acts[i] == HostActs(e, R.StartPayload) ==>
              && RemoteAt(ws[i], e).owner.Owned? && RemoteAt(ws[i + 1], e).owner == RemoteAt(ws[i], e).owner
              && RemoteAt(ws[i], e).starts == 0 && RemoteAt(ws[i + 1], e).starts == 1
  {
    InvAlways(ws, acts, i);
    assert RemoteOk(ws[i], e);
    assert StepAt(ws, acts, i);
    PayloadStep(ws[i], acts[i], e);
  }

  lemma {:induction false} StartIsRemembered(ws: seq<World>, acts: seq<Action>, i: nat, j: nat, e: Endpoint)
    requires Behavior(ws, acts) && i < j <= |acts| && acts[i] == HostActs(e, R.StartPayload)
    requires forall k | i < k <= j :: !RemoteAt(ws[k], e).owner.NoOwner?
    ensures RemoteAt(ws[j], e).owner.Owned? && RemoteAt(ws[j], e).starts >= 1
  {
    PayloadAt(ws, acts, j - 1, e);
    if j > i + 1 { StartIsRemembered(ws, acts, i, j - 1, e); }
  }

  /**
    Bootstrap at most once, whatever is submitted, lost, killed or taken over: between two payload
    starts on an endpoint, its owner record was removed.
   */
  lemma BootstrapAtMostOnce(ws: seq<World>, acts: seq<Action>, i: nat, j: nat, e: Endpoint)
    requires Behavior(ws, acts) && i < j < |acts|
    requires acts[i] == acts[j] == HostActs(e, R.StartPayload)
    ensures exists k :: i < k <= j && RemoteAt(ws[k], e).owner.NoOwner?
  {
    if forall k | i < k <= j :: !RemoteAt(ws[k], e).owner.NoOwner? {
      StartIsRemembered(ws, acts, i, j, e);
      PayloadAt(ws, acts, j, e);
    }
  }

  /** A Machine is reported provisioned only after such a success was seen, unless it was created provisioned. */
  lemma ProvisionedMeansBootstrapped(ws: seq<World>, acts: seq<Action>, i: nat, u: Uid)
    requires Behavior(ws, acts) && i <= |acts| && u in ws[i].machines
    requires ws[i].machines[u].provisioned && !ws[i].machines[u].past.legacy
    ensures exists j :: 0 <= j < i && Sends(acts[j], u, SeeSuccess)
  {
    InvAlways(ws, acts, i);
    assert MachineOk(ws[i], u);
    SuccessWasSeen(ws, acts, i, u);
  }

  lemma BootstrappedStep(w: World, a: Action, u: Uid)
    requires Enabled(w, a) && u in Apply(w, a).machines && Apply(w, a).machines[u].past.bootstrapped
    ensures Sends(a, u, SeeSuccess) || (u in w.machines && w.machines[u].past.bootstrapped)
  {
    if u in w.machines && (ByController(a, u) ==> a.OnHost?) { OtherGrows(w, a, u); }
  }

  lemma {:induction false} SuccessWasSeen(ws: seq<World>, acts: seq<Action>, i: nat, u: Uid)
    requires Behavior(ws, acts) && i <= |acts| && u in ws[i].machines && ws[i].machines[u].past.bootstrapped
    ensures exists j :: 0 <= j < i && Sends(acts[j], u, SeeSuccess)
  {
    assert StepAt(ws, acts, i - 1);
    BootstrappedStep(ws[i - 1], acts[i - 1], u);
    if !Sends(acts[i - 1], u, SeeSuccess) { SuccessWasSeen(ws, acts, i - 1, u); }
  }

  // ---------- reboots ----------

  /**
    Reboot discipline. In every reachable state: neighbouring intents ask for different requests, no
    intent is followed by two commands, and a stored Succeeded names a boot later than the one read
    before its command. A command leaves only for the intent stored last, and a new intent is stored
    only when the previous record is resolved or given up.
   */
  lemma RebootDiscipline(ws: seq<World>, acts: seq<Action>, i: nat, u: Uid)
    requires Behavior(ws, acts) && i <= |acts| && u in ws[i].machines
    ensures var l := ws[i].machines[u].reboot;
            && (forall k | 0 <= k < |l.intents| - 1 :: l.intents[k] != l.intents[k + 1])
            && (forall j, k | 0 <= j < k < |l.sent| :: l.sent[j] < l.sent[k] < |l.intents|)
            && (l.record.Some? && l.record.value.phase.Succeeded? ==>
                  && l.record.value.observedBoot.Some?
                  && l.record.value.previousBoot < l.record.value.observedBoot.value
                     <= RemoteAt(ws[i], TargetOf(ws[i].machines[u])).boots)
  {
    InvAlways(ws, acts, i);
    assert MachineOk(ws[i], u);
  }

  /** The steps of the discipline: what holds when a reboot command, an intent or a cleanup command happens. */
  lemma RebootSteps(ws: seq<World>, acts: seq<Action>, i: nat, u: Uid)
    requires Behavior(ws, acts) && i < |acts| && ByController(acts[i], u)
    ensures u in ws[i].machines
    ensures var l := ws[i].machines[u].reboot;
            && (Sends(acts[i], u, Reboot) ==>
                  && l.record.Some? && l.record.value.phase.Prepared? && l.intents != []
                  && l.record.value.request == l.intents[|l.intents| - 1]
                  && (forall k | 0 <= k < |l.sent| :: l.sent[k] < |l.intents| - 1))
            && (acts[i].OnMachine? && acts[i].write.SaveReboot? && acts[i].write.change.Intend? ==>
                  L.MayIntend(l.record, acts[i].write.change.request))
            && (acts[i].Send? && acts[i].command.Clean? ==> !L.Pending(l))
  {
    InvAlways(ws, acts, i);
    assert StepAt(ws, acts, i);
    assert MachineOk(ws[i], u);
  }

  /** Step `k` stores a new intent of `u`, over a record that is settled or given up and asks for something else. */
  predicate NewIntentAt(ws: seq<World>, acts: seq<Action>, k: nat, u: Uid)
    requires |ws| == |acts| + 1
  {
    && k < |acts| && acts[k].OnMachine? && acts[k].uid == u && acts[k].write.SaveReboot? && acts[k].write.change.Intend?
    && u in ws[k].machines && ws[k].machines[u].reboot.record.Some?
    && ws[k].machines[u].reboot.record.value.phase in {L.Succeeded, L.Failed, L.Unknown}
    && ws[k].machines[u].reboot.record.value.request != acts[k].write.change.request
  }

  /** Only storing an intent arms the ledger; a command disarms it. */
  lemma ArmedStep(w: World, a: Action, u: Uid)
    requires Enabled(w, a) && u in w.machines
    ensures u in Apply(w, a).machines
    ensures !w.machines[u].reboot.armed && Apply(w, a).machines[u].reboot.armed ==>
              a.OnMachine? && a.uid == u && a.write.SaveReboot? && a.write.change.Intend?
    ensures Sends(a, u, Reboot) ==> w.machines[u].reboot.armed && w.machines[u].reboot.intents != [] && !Apply(w, a).machines[u].reboot.armed
  {
    if !(a.OnMachine? && a.uid == u) && !(a.Send? && a.uid == u) && !a.User? { assert Apply(w, a).machines[u] == w.machines[u]; }
  }

  lemma {:induction false} IntentBetween(ws: seq<World>, acts: seq<Action>, i: nat, j: nat, u: Uid) returns (k: nat)
    requires Behavior(ws, acts) && i <= j <= |acts| && u in ws[i].machines && u in ws[j].machines
    requires !ws[i].machines[u].reboot.armed && ws[j].machines[u].reboot.armed
    ensures i <= k < j && acts[k].OnMachine? && acts[k].uid == u && acts[k].write.SaveReboot? && acts[k].write.change.Intend?
  {
    Grown(ws, acts, i, j - 1, u);
    assert StepAt(ws, acts, j - 1);
    ArmedStep(ws[j - 1], acts[j - 1], u);
    if ws[j - 1].machines[u].reboot.armed { k := IntentBetween(ws, acts, i, j - 1, u); } else { k := j - 1; }
  }

  /** Between two reboot commands a new intent was stored, after the record before it was settled or given up. */
  lemma RebootsAreSeparated(ws: seq<World>, acts: seq<Action>, i: nat, j: nat, u: Uid)
    requires Behavior(ws, acts) && i < j < |acts| && Sends(acts[i], u, Reboot) && Sends(acts[j], u, Reboot)
    ensures exists k: nat :: i < k < j && NewIntentAt(ws, acts, k, u)
  {
    assert StepAt(ws, acts, i) && StepAt(ws, acts, j);
    ArmedStep(ws[i], acts[i], u);
    ArmedStep(ws[j], acts[j], u);
    var k := IntentBetween(ws, acts, i + 1, j, u);
    RecordStays(ws, acts, i, k, u);
    IntentOverRecord(ws, acts, k, u);
  }

  /** A Machine that has stored an intent has a record ever after. */
  lemma RecordStays(ws: seq<World>, acts: seq<Action>, i: nat, k: nat, u: Uid)
    requires Behavior(ws, acts) && i <= k <= |acts| && u in ws[i].machines && ws[i].machines[u].reboot.intents != []
    ensures u in ws[k].machines && ws[k].machines[u].reboot.record.Some?
  {
    Grown(ws, acts, i, k, u);
    InvAlways(ws, acts, k);
    assert MachineOk(ws[k], u);
  }

  lemma IntentOverRecord(ws: seq<World>, acts: seq<Action>, k: nat, u: Uid)
    requires Behavior(ws, acts) && k < |acts| && acts[k].OnMachine? && acts[k].uid == u
    requires acts[k].write.SaveReboot? && acts[k].write.change.Intend?
    requires u in ws[k].machines && ws[k].machines[u].reboot.record.Some?
    ensures NewIntentAt(ws, acts, k, u)
  {
    assert StepAt(ws, acts, k);
  }

  /** Over all behaviours: consecutive reboot commands carry different requests unless an intent stored between them was abandoned. */
  lemma RebootRequestsDiffer(ws: seq<World>, acts: seq<Action>, i: nat, u: Uid, k: nat)
    requires Behavior(ws, acts) && i <= |acts| && u in ws[i].machines && k + 1 < |ws[i].machines[u].reboot.sent|
    ensures var l := ws[i].machines[u].reboot;
            && l.sent[k] < l.sent[k + 1] < |l.intents|
            && (L.RequestOf(l, k) != L.RequestOf(l, k + 1) || L.AbandonedAt(l, k, l.sent[k] + 1))
  {
    InvAlways(ws, acts, i);
    assert MachineOk(ws[i], u);
    var l := ws[i].machines[u].reboot;
    if L.RequestOf(l, k) == L.RequestOf(l, k + 1) { L.RepetitionNeedsAbandoned(l, k); }
  }
}
