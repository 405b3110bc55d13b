/**
  The bounded executor for blocking API calls (api_io.py): a slot per submitted function, kept until
  the function has finished, however often the caller is cancelled.

  Methods are the stretches of `APIExecutor.run` and of `asyncio.Semaphore` between two suspension
  points, one cancellation request, or the end of a function in its thread; any schedule is a sequence
  of method calls. Calls are numbered and never restarted.
 */
module ApiExecutor {
  import opened Wrappers

  type Call = nat

  /** `BaseRaised` is an exception that is no `Exception`, such as SystemExit. */
  datatype Outcome = Returned | Raised | BaseRaised

  /** A future in the semaphore's queue. */
  datatype Fate = Asleep | Granted | Cancelled | GrantedThenCancelled

  datatype Waiter = Waiter(call: Call, fate: Fate)

  /** A call that has submitted its function. `interrupted`: a cancellation is pending; `cancelled`: one was seen and put off. */
  datatype Run = Run(finished: Option<Outcome>, cancelled: bool, interrupted: bool)

  /** How a call ends for its caller. */
  datatype Exit = WithCancellation | With(outcome: Outcome)

  predicate HoldsSlot(fate: Fate) {
    fate in {Granted, GrantedThenCancelled}
  }

  predicate GaveUp(fate: Fate) {
    fate in {Cancelled, GrantedThenCancelled}
  }

  /** Slots that are handed out to calls that have not resumed yet. */
  function Grants(ws: seq<Waiter>): nat {
    if ws == [] then 0 else Grants(ws[..|ws| - 1]) + if HoldsSlot(ws[|ws| - 1].fate) then 1 else 0
  }

  lemma {:induction false} GrantsConcat(a: seq<Waiter>, b: seq<Waiter>)
    ensures Grants(a + b) == Grants(a) + Grants(b)
  {
    if b == [] {
      assert a + b == a;
    } else {
      assert (a + b)[..|a + b| - 1] == a + b[..|b| - 1];
      GrantsConcat(a, b[..|b| - 1]);
    }
  }

  lemma GrantsThree(a: seq<Waiter>, w: Waiter, b: seq<Waiter>)
    ensures Grants(a + [w] + b) == Grants(a + b) + if HoldsSlot(w.fate) then 1 else 0
  {
    GrantsConcat(a + [w], b);
    GrantsConcat(a, b);
    assert (a + [w])[..|a|] == a;
  }

  lemma SplitAt(ws: seq<Waiter>, i: nat)
    requires i < |ws|
    ensures ws[..i] + [ws[i]] + ws[i + 1..] == ws
  {
  }

  lemma GrantsAround(ws: seq<Waiter>, i: nat)
    requires i < |ws|
    ensures Grants(ws) == Grants(ws[..i] + ws[i + 1..]) + if HoldsSlot(ws[i].fate) then 1 else 0
  {
    SplitAt(ws, i);
    GrantsThree(ws[..i], ws[i], ws[i + 1..]);
  }

  lemma GrantsUpdate(ws: seq<Waiter>, i: nat, w: Waiter)
    requires i < |ws|
    ensures Grants(ws[i := w]) + (if HoldsSlot(ws[i].fate) then 1 else 0) == Grants(ws) + if HoldsSlot(w.fate) then 1 else 0
  {
    GrantsAround(ws, i);
    GrantsAround(ws[i := w], i);
    assert ws[i := w][..i] + ws[i := w][i + 1..] == ws[..i] + ws[i + 1..];
  }

  predicate SomeFate(ws: seq<Waiter>, fates: set<Fate>) {
    exists i :: 0 <= i < |ws| && ws[i].fate in fates
  }

  /** A slot is free although somebody sleeps: only while a call that was let in, or gave up, is about to resume and wake others. */
  predicate Awake(value: nat, ws: seq<Waiter>) {
    value > 0 && SomeFate(ws, {Asleep}) ==> SomeFate(ws, {Granted, GrantedThenCancelled})
  }

  predicate DistinctCalls(ws: seq<Waiter>) {
    forall i, j | 0 <= i < j < |ws| :: ws[i].call != ws[j].call
  }

  /** Every call queues once, has not started, and shows in its future whether it was cancelled. */
  predicate QueueOk(ws: seq<Waiter>, started: set<Call>, abandoned: set<Call>) {
    && DistinctCalls(ws)
    && (forall i | 0 <= i < |ws| :: ws[i].call !in started && (GaveUp(ws[i].fate) <==> ws[i].call in abandoned))
  }

  predicate NotQueued(ws: seq<Waiter>, c: Call) {
    forall i | 0 <= i < |ws| :: ws[i].call != c
  }

  lemma QueueAppend(value: nat, ws: seq<Waiter>, started: set<Call>, abandoned: set<Call>, c: Call)
    requires QueueOk(ws, started, abandoned) && Awake(value, ws) && NotQueued(ws, c) && c !in started && c !in abandoned
    requires value > 0 ==> exists i :: 0 <= i < |ws| && !ws[i].fate.Cancelled?
    ensures QueueOk(ws + [Waiter(c, Asleep)], started, abandoned) && Awake(value, ws + [Waiter(c, Asleep)])
    ensures Grants(ws + [Waiter(c, Asleep)]) == Grants(ws)
  {
    var ws' := ws + [Waiter(c, Asleep)];
    assert ws'[..|ws'| - 1] == ws;
    if value > 0 {
      var i :| 0 <= i < |ws| && !ws[i].fate.Cancelled?;
      if ws[i].fate.Asleep? { assert ws[i].fate in {Asleep}; } else { assert ws[i].fate in {Granted, GrantedThenCancelled}; }
      var k :| 0 <= k < |ws| && ws[k].fate in {Granted, GrantedThenCancelled};
      assert ws'[k].fate in {Granted, GrantedThenCancelled};
    }
  }

  lemma RemovedAt(ws: seq<Waiter>, i: nat, rest: seq<Waiter>)
    requires i < |ws| && rest == ws[..i] + ws[i + 1..]
    ensures |rest| == |ws| - 1 && forall k | 0 <= k < |rest| :: rest[k] == ws[if k < i then k else k + 1]
  {
  }

  lemma RemainingOk(ws: seq<Waiter>, started: set<Call>, abandoned: set<Call>, i: nat, rest: seq<Waiter>)
    requires QueueOk(ws, started, abandoned) && i < |ws| == |rest| + 1
    requires forall k | 0 <= k < |rest| :: rest[k] == ws[if k < i then k else k + 1]
    ensures QueueOk(rest, started, abandoned) && NotQueued(rest, ws[i].call)
  {
  }

  lemma QueueRemove(ws: seq<Waiter>, started: set<Call>, abandoned: set<Call>, i: nat, rest: seq<Waiter>)
    requires QueueOk(ws, started, abandoned) && i < |ws| && rest == ws[..i] + ws[i + 1..]
    ensures |rest| == |ws| - 1 && QueueOk(rest, started, abandoned) && NotQueued(rest, ws[i].call)
    ensures Grants(ws) == Grants(rest) + if HoldsSlot(ws[i].fate) then 1 else 0
  {
    RemovedAt(ws, i, rest);
    RemainingOk(ws, started, abandoned, i, rest);
    GrantsAround(ws, i);
  }

  lemma QueueStart(ws: seq<Waiter>, started: set<Call>, abandoned: set<Call>, c: Call)
    requires QueueOk(ws, started, abandoned) && NotQueued(ws, c)
    ensures QueueOk(ws, started + {c}, abandoned)
  {
  }

  /** The same calls in the same order; sleepers may have been let in. */
  predicate SameQueue(ws: seq<Waiter>, ws': seq<Waiter>) {
    && |ws| == |ws'|
    && forall i | 0 <= i < |ws| :: ws'[i] == ws[i] || (ws[i].fate.Asleep? && ws'[i] == ws[i].(fate := Granted))
  }

  lemma SameQueueOk(ws: seq<Waiter>, ws': seq<Waiter>, started: set<Call>, abandoned: set<Call>, c: Call)
    requires QueueOk(ws, started, abandoned) && SameQueue(ws, ws')
    ensures QueueOk(ws', started, abandoned)
    ensures NotQueued(ws, c) ==> NotQueued(ws', c)
  {
    assert forall i | 0 <= i < |ws| :: ws'[i].call == ws[i].call && GaveUp(ws'[i].fate) == GaveUp(ws[i].fate);
  }

  class APIExecutor {
    const workers: nat
    var value: nat
    var waiters: seq<Waiter>
    var running: map<Call, Run>
    ghost var started: set<Call>     // functions ever submitted
    ghost var abandoned: set<Call>   // calls cancelled before they submitted anything
    ghost var requested: set<Call>   // calls cancelled after that

    ghost predicate Valid()
      reads this
    {
      && value + |running| + Grants(waiters) == workers
      && QueueOk(waiters, started, abandoned)
      && Awake(value, waiters)
      && running.Keys <= started && started !! abandoned
      && (forall c | c in running :: c in requested <==> running[c].cancelled || running[c].interrupted)
    }

    /** Submitted functions that have not finished. */
    function Unfinished(): set<Call>
      reads this
    {
      set c | c in running && running[c].finished.None?
    }

    constructor (workers: nat)
      ensures Valid() && this.workers == workers == value && running == map[] && waiters == []
      ensures started == {} && abandoned == {}
    {
      this.workers, value, waiters, running := workers, workers, [], map[];
      started, abandoned, requested := {}, {}, {};
    }

    /** Never more submitted, unfinished functions than workers. */
    lemma Bounded()
      requires Valid()
      ensures |Unfinished()| <= workers
    {
      SubsetSize(Unfinished(), running.Keys);
    }

    /** A call that was cancelled while it queued has not started anything. */
    lemma AbandonedNeverStarts(c: Call)
      requires Valid() && c in abandoned
      ensures c !in started && c !in running
    {
    }

    /** The call has not been seen yet. */
    ghost predicate New(c: Call)
      reads this
    {
      c !in started && c !in abandoned && NotQueued(waiters, c)
    }

    /** `run` up to its first suspension: take a slot and submit, or queue for a slot. */
    method Start(c: Call) returns (submitted: bool)
      requires Valid() && New(c)
      modifies this
      ensures Valid() && abandoned == old(abandoned) && requested == old(requested) - {c}
      ensures submitted <==> old(value) > 0 && forall i | 0 <= i < |old(waiters)| :: old(waiters)[i].fate.Cancelled?
      ensures submitted ==> running == old(running)[c := Run(None, false, false)] && started == old(started) + {c} && waiters == old(waiters)
      ensures !submitted ==> waiters == old(waiters) + [Waiter(c, Asleep)] && running == old(running) && started == old(started)
    {
      requested := requested - {c};
      submitted := value > 0 && forall i | 0 <= i < |waiters| :: waiters[i].fate.Cancelled?;
      if submitted {
        QueueStart(waiters, started, abandoned, c);
        value := value - 1;
        Submit(c);
      } else {
        QueueAppend(value, waiters, started, abandoned, c);
        waiters := waiters + [Waiter(c, Asleep)];
      }
    }

    /** `run_in_executor`: the slot is taken already. */
    method Submit(c: Call)
      requires c !in running
      modifies this`running, this`started
      ensures running == old(running)[c := Run(None, false, false)] && |running| == |old(running)| + 1
      ensures started == old(started) + {c}
    {
      assert running[c := Run(None, false, false)].Keys == running.Keys + {c};
      running := running[c := Run(None, false, false)];
      started := started + {c};
    }

    /** A queued call is cancelled; it notices when it is resumed. */
    method CancelQueued(c: Call, i: nat)
      requires Valid() && i < |waiters| && waiters[i].call == c
      modifies this`waiters, this`abandoned
      ensures Valid() && abandoned == old(abandoned) + {c}
      ensures |waiters| == |old(waiters)| && GaveUp(waiters[i].fate) && waiters == old(waiters)[i := Waiter(c, waiters[i].fate)]
    {
      var fate := if HoldsSlot(waiters[i].fate) then GrantedThenCancelled else Cancelled;
      GrantsUpdate(waiters, i, Waiter(c, fate));
      ghost var before := waiters;
      waiters := waiters[i := Waiter(c, fate)];
      abandoned := abandoned + {c};
      AwakeAfterCancel(value, before, i, fate);
    }

    /** A call that has submitted is cancelled; it notices when it is resumed. */
    method CancelRunning(c: Call)
      requires Valid() && c in running
      modifies this`running, this`requested
      ensures Valid() && requested == old(requested) + {c}
      ensures running == old(running)[c := old(running)[c].(interrupted := true)]
    {
      assert running[c := running[c].(interrupted := true)].Keys == running.Keys;
      running := running[c := running[c].(interrupted := true)];
      requested := requested + {c};
    }

    /** The function ends in its thread. */
    method Finish(c: Call, outcome: Outcome)
      requires Valid() && c in running && running[c].finished.None?
      modifies this`running
      ensures Valid() && running == old(running)[c := old(running)[c].(finished := Some(outcome))]
    {
      assert running[c := running[c].(finished := Some(outcome))].Keys == running.Keys;
      running := running[c := running[c].(finished := Some(outcome))];
    }

    /** The event loop resumes a queued call: it submits its function exactly if it was not cancelled. */
    method ResumeQueued(c: Call, i: nat) returns (submitted: bool)
      requires Valid() && i < |waiters| && waiters[i].call == c && !waiters[i].fate.Asleep?
      modifies this
      ensures Valid() && abandoned == old(abandoned) && requested == old(requested) - {c}
      ensures submitted <==> c !in abandoned
      ensures submitted ==> running == old(running)[c := Run(None, false, false)] && started == old(started) + {c}
      ensures !submitted ==> running == old(running) && started == old(started)
      ensures |waiters| == |old(waiters)| - 1 && NotQueued(waiters, c)
    {
      requested := requested - {c};
      submitted := TakeOut(c, i);
      if submitted {
        QueueStart(waiters, started, abandoned, c);
        Submit(c);
      }
    }

    /** Leave the queue; a slot that was granted to a cancelled call goes back; wake whoever can go on. */
    method TakeOut(c: Call, i: nat) returns (granted: bool)
      requires QueueOk(waiters, started, abandoned) && i < |waiters| && waiters[i].call == c && !waiters[i].fate.Asleep?
      modifies this`value, this`waiters
      ensures granted == old(waiters)[i].fate.Granted?
      ensures value + Grants(waiters) + (if granted then 1 else 0) == old(value + Grants(waiters))
      ensures QueueOk(waiters, started, abandoned) && NotQueued(waiters, c) && |waiters| == |old(waiters)| - 1
      ensures Awake(value, waiters)
    {
      ghost var rest := waiters[..i] + waiters[i + 1..];
      QueueRemove(waiters, started, abandoned, i, rest);
      granted := waiters[i].fate.Granted?;
      if waiters[i].fate.GrantedThenCancelled? { value := value + 1; }
      waiters := waiters[..i] + waiters[i + 1..];
      WakeAll();
      SameQueueOk(rest, waiters, started, abandoned, c);
    }

    /** Wake one sleeper after the other while slots are free. */
    method WakeAll()
      modifies this`value, this`waiters
      ensures value + Grants(waiters) == old(value + Grants(waiters))
      ensures value == 0 || !SomeFate(waiters, {Asleep})
      ensures SameQueue(old(waiters), waiters)
    {
      while value > 0 && SomeFate(waiters, {Asleep})
        invariant value + Grants(waiters) == old(value + Grants(waiters))
        invariant SameQueue(old(waiters), waiters)
        decreases value
      {
        WakeNext();
      }
    }

    /** `_wake_up_next`: the first sleeper gets a slot. */
    method WakeNext()
      requires value > 0
      modifies this`value, this`waiters
      ensures value + Grants(waiters) == old(value + Grants(waiters))
      ensures if old(SomeFate(waiters, {Asleep})) then value == old(value) - 1 && SomeFate(waiters, {Granted}) else value == old(value) && waiters == old(waiters)
      ensures SameQueue(old(waiters), waiters)
    {
      var i := 0;
      while i < |waiters| && !waiters[i].fate.Asleep?
        invariant i <= |waiters| && forall j | 0 <= j < i :: !waiters[j].fate.Asleep?
      {
        i := i + 1;
      }
      if i < |waiters| {
        GrantsUpdate(waiters, i, waiters[i].(fate := Granted));
        value := value - 1;
        waiters := waiters[i := waiters[i].(fate := Granted)];
        assert waiters[i].fate in {Granted};
      }
    }

    /**
      The event loop resumes a call that waits for its function: a pending cancellation is put off
      while the function runs, and the slot is given back only when the function has finished.
     */
    method ResumeRunning(c: Call) returns (exit: Option<Exit>)
      requires Valid() && c in running && (running[c].interrupted || running[c].finished.Some?)
      modifies this
      ensures Valid() && started == old(started) && abandoned == old(abandoned) && requested == old(requested)
      // The caller gets its exit, and the slot is free again, exactly when the function has finished.
      ensures exit.Some? <==> old(running)[c].finished.Some?
      ensures exit.None? ==> running == old(running)[c := Run(None, true, false)] && waiters == old(waiters) && value == old(value)
      ensures exit.Some? ==> running == old(running) - {c} && value + Grants(waiters) == old(value + Grants(waiters)) + 1
      // A cancelled call always ends with its cancellation, unless its function raised no Exception and nothing is pending.
      ensures exit.Some? ==>
                exit.value == if c in requested && (!old(running)[c].finished.value.BaseRaised? || old(running)[c].interrupted)
                              then WithCancellation else With(old(running)[c].finished.value)
    {
      var run := running[c];
      if run.finished.None? {
        assert running[c := Run(None, true, false)].Keys == running.Keys;
        running := running[c := Run(None, true, false)];
        return None;
      }
      exit := Some(ExitOf(run));
      GiveBack(c);
    }

    /** The call leaves: its slot is free, or goes to the next in the queue. */
    method GiveBack(c: Call)
      requires Valid() && c in running
      modifies this`running, this`value, this`waiters
      ensures Valid() && running == old(running) - {c} && value + Grants(waiters) == old(value + Grants(waiters)) + 1
    {
      assert (running - {c}).Keys == running.Keys - {c};
      running := running - {c};
      value := value + 1;
      ghost var queue := waiters;
      WakeNext();
      SameQueueOk(queue, waiters, started, abandoned, c);
    }
  }

  /** A cancellation that arrives with the result wins; one that was put off wins over a result or an Exception. */
  function ExitOf(run: Run): Exit
    requires run.finished.Some?
  {
    if run.interrupted || (run.cancelled && !run.finished.value.BaseRaised?) then WithCancellation else With(run.finished.value)
  }

  lemma AwakeAfterCancel(value: nat, ws: seq<Waiter>, i: nat, fate: Fate)
    requires Awake(value, ws) && i < |ws|
    requires fate == if HoldsSlot(ws[i].fate) then GrantedThenCancelled else Cancelled
    ensures Awake(value, ws[i := ws[i].(fate := fate)])
  {
    var ws' := ws[i := ws[i].(fate := fate)];
    if SomeFate(ws', {Asleep}) && value > 0 {
      var j :| 0 <= j < |ws'| && ws'[j].fate in {Asleep};
      assert ws[j].fate in {Asleep};
      var k :| 0 <= k < |ws| && ws[k].fate in {Granted, GrantedThenCancelled};
      assert ws'[k].fate in {Granted, GrantedThenCancelled};
    }
  }

  lemma {:induction false} SubsetSize<T>(a: set<T>, b: set<T>)
    requires a <= b
    ensures |a| <= |b|
  {
    if a != {} {
      var x :| x in a;
      SubsetSize(a - {x}, b - {x});
    }
  }

  /** A call that is cancelled while its function runs, and whose function then raises no Exception, ends without the cancellation. */
  method LostCancellation() returns (exit: Option<Exit>)
    ensures exit == Some(With(BaseRaised))
  {
    var executor := new APIExecutor(8);
    var submitted := executor.Start(0);
    executor.CancelRunning(0);
    exit := executor.ResumeRunning(0);
    executor.Finish(0, BaseRaised);
    exit := executor.ResumeRunning(0);
  }
}
