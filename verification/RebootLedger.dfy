/**
  The stored reboot record of one Machine and the history around it: which intents were stored and
  which of them were followed by a reboot command.

  `boot` numbers stand for boot IDs. The host draws a fresh ID at every boot and the controller only
  compares IDs for equality, so the ordinal of the boot is a faithful name for it.
 */
module RebootLedger {
  import opened Wrappers

  datatype Phase = Prepared | Submitted | Unknown | Succeeded | Failed

  datatype Record = Record(request: string, phase: Phase, previousBoot: nat, startedAt: int, observedBoot: Option<nat>)

  /** `intents` are the requests stored as Prepared, in order; `sent` are the positions in it that were followed by the command. */
  datatype Ledger = Ledger(record: Option<Record>, intents: seq<string>, sent: seq<nat>, armed: bool)

  const EMPTY := Ledger(None, [], [], false)

  datatype Op =
    | Intend(request: string, boot: nat, at: int) // store Prepared, before the command is sent
    | Send                                        // the command leaves
    | Answer(phase: Phase)                        // store what is known about the command; an exit code only if it left
    | Observe(boot: nat)                          // store Succeeded
    | GiveUp                                      // store Unknown after the observation deadline
    | Keep                                        // store the same record again

  predicate IsPending(phase: Phase) {
    phase in {Prepared, Submitted, Unknown}
  }

  predicate Pending(l: Ledger) {
    l.record.Some? && IsPending(l.record.value.phase)
  }

  /** The check before a new intent: nothing stored, or the stored one is resolved (or given up) and for another request. */
  predicate MayIntend(record: Option<Record>, request: string) {
    record.Some? ==> record.value.phase in {Succeeded, Failed, Unknown} && record.value.request != request
  }

  predicate Enabled(l: Ledger, op: Op) {
    match op
    case Intend(request, _, _) => MayIntend(l.record, request)
    case Send => l.armed && l.intents != [] && l.record.Some? && l.record.value.phase.Prepared?
    case Answer(phase) =>
      && l.record.Some? && l.record.value.phase.Prepared? && phase in {Submitted, Failed, Unknown}
      && (!phase.Unknown? ==> !l.armed)
    case Observe(boot) => Pending(l) && boot != l.record.value.previousBoot
    case GiveUp => Pending(l)
    case Keep => l.record.Some?
  }

  function Apply(l: Ledger, op: Op): Ledger
    requires Enabled(l, op)
  {
    match op
    case Intend(request, boot, at) =>
      // A merge patch keeps the field that the new record does not mention.
      var observed := if l.record.Some? then l.record.value.observedBoot else None;
      Ledger(Some(Record(request, Prepared, boot, at, observed)), l.intents + [request], l.sent, true)
    case Send => l.(sent := l.sent + [|l.intents| - 1], armed := false)
    case Answer(phase) => l.(record := Some(l.record.value.(phase := phase)))
    case Observe(boot) => l.(record := Some(l.record.value.(phase := Succeeded, observedBoot := Some(boot))))
    case GiveUp => l.(record := Some(l.record.value.(phase := Unknown)))
    case Keep => l
  }

  /** The command of the last intent was the last one to leave. */
  predicate LastSent(l: Ledger) {
    l.sent != [] && l.sent[|l.sent| - 1] == |l.intents| - 1
  }

  ghost predicate Ok(l: Ledger) {
    && (l.record.None? ==> l.intents == [] && !l.armed)
    && (l.record.Some? ==> l.intents != [] && l.intents[|l.intents| - 1] == l.record.value.request)
    && (forall i | 0 <= i < |l.intents| - 1 :: l.intents[i] != l.intents[i + 1])
    && (forall i | 0 <= i < |l.sent| :: l.sent[i] < |l.intents|)
    && (forall i, j | 0 <= i < j < |l.sent| :: l.sent[i] < l.sent[j])
    && (l.armed ==> forall i | 0 <= i < |l.sent| :: l.sent[i] < |l.intents| - 1)
    && (l.record.Some? && !l.armed ==> LastSent(l))
    && (l.record.Some? && l.record.value.phase in {Submitted, Failed} ==> !l.armed)
  }

  /** Every stored intent differs from the one before it, and no intent is followed by two commands. */
  lemma OkPreserved(l: Ledger, op: Op)
    requires Ok(l) && Enabled(l, op)
    ensures Ok(Apply(l, op))
  {
    var l' := Apply(l, op);
    if op.Intend? {
      assert forall i | 0 <= i < |l.intents| :: l'.intents[i] == l.intents[i];
    }
  }

  function RequestOf(l: Ledger, k: nat): string
    requires k < |l.sent| && l.sent[k] < |l.intents|
  {
    l.intents[l.sent[k]]
  }

  /** Commands of neighbouring intents carry different requests. */
  lemma NeighbouringCommandsDiffer(l: Ledger, k: nat)
    requires Ok(l) && k + 1 < |l.sent| && l.sent[k + 1] == l.sent[k] + 1
    ensures RequestOf(l, k) != RequestOf(l, k + 1)
  {
    assert l.sent[k] < |l.intents| - 1;
  }

  /** The intent at position `i` was stored between the commands `k` and `k + 1`, and its own command never left. */
  predicate AbandonedAt(l: Ledger, k: nat, i: nat) {
    k + 1 < |l.sent| && l.sent[k] < i < l.sent[k + 1] && i !in l.sent
  }

  /** Two consecutive commands carry the same request only if an intent between them was abandoned. */
  lemma RepetitionNeedsAbandoned(l: Ledger, k: nat)
    requires Ok(l) && k + 1 < |l.sent| && RequestOf(l, k) == RequestOf(l, k + 1)
    ensures AbandonedAt(l, k, l.sent[k] + 1) && l.intents[l.sent[k] + 1] != RequestOf(l, k)
  {
    var i := l.sent[k] + 1;
    if i == l.sent[k + 1] { NeighbouringCommandsDiffer(l, k); }
  }

  predicate StepAt(ls: seq<Ledger>, ops: seq<Op>, i: nat)
    requires |ls| == |ops| + 1 && i < |ops|
  {
    Enabled(ls[i], ops[i]) && ls[i + 1] == Apply(ls[i], ops[i])
  }

  ghost predicate Run(ls: seq<Ledger>, ops: seq<Op>) {
    && |ls| == |ops| + 1
    && forall i | 0 <= i < |ops| :: StepAt(ls, ops, i)
  }

  /** An intent, whatever else, and its command: no other intent and no other command in between. */
  predicate IntentToCommand(ops: seq<Op>) {
    && |ops| >= 2 && ops[0].Intend? && ops[|ops| - 1].Send?
    && forall i | 0 < i < |ops| - 1 :: !ops[i].Intend? && !ops[i].Send?
  }

  /** The request of the command that left last. */
  function LastRequest(l: Ledger): Option<string> {
    if l.sent != [] && l.sent[|l.sent| - 1] < |l.intents| then Some(RequestOf(l, |l.sent| - 1)) else None
  }

  /** Until the command leaves, the intent is the last one and nothing is sent. */
  lemma {:induction false} IntentStays(ls: seq<Ledger>, ops: seq<Op>, i: nat)
    requires Run(ls, ops) && IntentToCommand(ops) && 1 <= i < |ops|
    ensures ls[i].intents == ls[0].intents + [ops[0].request] && ls[i].sent == ls[0].sent
  {
    assert StepAt(ls, ops, i - 1);
    if i > 1 { IntentStays(ls, ops, i - 1); }
  }

  lemma CommandOfIntent(ls: seq<Ledger>, ops: seq<Op>)
    requires Run(ls, ops) && IntentToCommand(ops)
    ensures var l := ls[|ops|];
            && MayIntend(ls[0].record, ops[0].request)
            && l.sent == ls[0].sent + [|ls[0].intents|] && l.intents == ls[0].intents + [ops[0].request]
            && LastRequest(l) == Some(ops[0].request)
  {
    assert StepAt(ls, ops, 0) && StepAt(ls, ops, |ops| - 1);
    IntentStays(ls, ops, |ops| - 1);
  }

  /** The shortest way to a command for this request. */
  lemma AskNow(l: Ledger, request: string) returns (ls: seq<Ledger>, ops: seq<Op>)
    requires MayIntend(l.record, request)
    ensures Run(ls, ops) && ls[0] == l && IntentToCommand(ops) && ops[0].request == request
  {
    var intent := Intend(request, 0, 0);
    var l1 := Apply(l, intent);
    ops := [intent, Send];
    ls := [l, l1, Apply(l1, Send)];
    assert StepAt(ls, ops, 0) && StepAt(ls, ops, 1);
  }

  /** However the run goes on, the command of the next intent carries another request than the last command. */
  ghost predicate SureToDiffer(l: Ledger) {
    forall ls, ops | Run(ls, ops) && ls[0] == l && IntentToCommand(ops) :: LastRequest(ls[|ops|]) != LastRequest(l)
  }

  /**
    The exact condition, in the state in which a new intent may be stored: the command of that intent
    is sure to carry another request than the last command if and only if the stored record, settled
    or given up, asks for what that last command asked for.
   */
  lemma NextCommandDiffers(l: Ledger)
    requires Ok(l) && l.sent != [] && l.record.Some? && l.record.value.phase in {Succeeded, Failed, Unknown}
    ensures Some(l.record.value.request) == LastRequest(l) <==> SureToDiffer(l)
  {
    forall ls, ops | Some(l.record.value.request) == LastRequest(l) && Run(ls, ops) && ls[0] == l && IntentToCommand(ops)
      ensures LastRequest(ls[|ops|]) != LastRequest(l)
    {
      CommandOfIntent(ls, ops);
    }
    if Some(l.record.value.request) != LastRequest(l) {
      var ls, ops := AskNow(l, LastRequest(l).value);
      CommandOfIntent(ls, ops);
    }
  }

  /** Some run from the empty ledger ends here. */
  ghost predicate Reachable(l: Ledger) {
    exists ls, ops :: Run(ls, ops) && ls[0] == EMPTY && ls[|ops|] == l
  }

  lemma {:induction false} OkAlways(ls: seq<Ledger>, ops: seq<Op>, i: nat)
    requires Run(ls, ops) && ls[0] == EMPTY && i <= |ops|
    ensures Ok(ls[i])
  {
    if i > 0 {
      OkAlways(ls, ops, i - 1);
      assert StepAt(ls, ops, i - 1);
      OkPreserved(ls[i - 1], ops[i - 1]);
    }
  }

  /**
    What the stored phase tells, in the reachable states in which a command has left and a new intent
    may be stored: after Failed the next command is sure to differ from the last one, and Failed is the
    only phase after which this is sure.
   */
  lemma OnlyFailedTells(phase: Phase)
    requires phase in {Succeeded, Failed, Unknown}
    ensures phase.Failed? <==>
              forall l | Reachable(l) && l.sent != [] && l.record.Some? && l.record.value.phase == phase :: SureToDiffer(l)
  {
    if phase.Failed? {
      forall l | Reachable(l) && l.sent != [] && l.record.Some? && l.record.value.phase == phase ensures SureToDiffer(l) {
        ReachableOk(l);
        NextCommandDiffers(l);
      }
    } else {
      var l := AbandonedThen(phase);
      ReachableOk(l);
      NextCommandDiffers(l);
    }
  }

  lemma ReachableOk(l: Ledger)
    requires Reachable(l)
    ensures Ok(l)
  {
    var ls, ops :| Run(ls, ops) && ls[0] == EMPTY && ls[|ops|] == l;
    OkAlways(ls, ops, |ops|);
  }

  lemma OneMore(l: Ledger, op: Op)
    requires Reachable(l) && Enabled(l, op)
    ensures Reachable(Apply(l, op))
  {
    var ls, ops :| Run(ls, ops) && ls[0] == EMPTY && ls[|ops|] == l;
    var ls', ops' := ls + [Apply(l, op)], ops + [op];
    forall i | 0 <= i < |ops'| ensures StepAt(ls', ops', i) {
      if i < |ops| { assert StepAt(ls, ops, i); }
    }
    assert Run(ls', ops') && ls'[|ops'|] == Apply(l, op);
  }

  /** A command for "a", then an intent for "b" that is settled, or given up, before its command leaves. */
  lemma AbandonedThen(phase: Phase) returns (l: Ledger)
    requires phase in {Succeeded, Unknown}
    ensures Reachable(l) && l.record.Some? && l.record.value.phase == phase
    ensures l.sent != [] && Some(l.record.value.request) != LastRequest(l)
  {
    assert Run([EMPTY], []);
    OneMore(EMPTY, Intend("a", 0, 0));
    var asked := Ledger(Some(Record("a", Prepared, 0, 0, None)), ["a"], [], true);
    OneMore(asked, Send);
    var sent := asked.(sent := [0], armed := false);
    OneMore(sent, Observe(1));
    var seen := sent.(record := Some(Record("a", Succeeded, 0, 0, Some(1))));
    OneMore(seen, Intend("b", 1, 0));
    var again := Ledger(Some(Record("b", Prepared, 1, 0, Some(1))), ["a", "b"], [0], true);
    var last := if phase.Unknown? then GiveUp else Observe(2);
    OneMore(again, last);
    l := Apply(again, last);
  }
}
