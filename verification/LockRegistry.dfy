/**
  The in-process registry of one asyncio lock per SSHMachine (controllers/sshmachine.py), with the
  semantics of `asyncio.Lock`: a waiter sleeps on a future, is woken or cancelled by somebody else,
  and acts on that only when the event loop resumes it.

  Every method is one stretch of code between two suspension points, so any interleaving of tasks is a
  sequence of method calls.
 */
module LockRegistry {
  type Task = nat
  type Key = string
  type LockId = nat

  /** `WokenThenCancelled`: the future has its result, and the task has a cancellation pending. */
  datatype Fate = Asleep | Woken | Cancelled | WokenThenCancelled

  datatype Waiter = Waiter(task: Task, fate: Fate)

  datatype Lock = Lock(locked: bool, waiters: seq<Waiter>)

  predicate Done(fate: Fate) {
    !fate.Asleep?
  }

  predicate Granted(fate: Fate) {
    fate in {Woken, WokenThenCancelled}
  }

  /** `_wake_up_first`: the first future gets its result unless it is done. */
  function WakeFirst(waiters: seq<Waiter>): (r: seq<Waiter>)
    ensures |r| == |waiters|
    ensures r != [] ==> Done(r[0].fate) && r[1..] == waiters[1..] && r[0].task == waiters[0].task
  {
    if waiters != [] && waiters[0].fate.Asleep? then [waiters[0].(fate := Woken)] + waiters[1..] else waiters
  }

  /** The lock can be taken at once: nobody holds it and whoever waits has been cancelled. */
  predicate Free(lock: Lock) {
    !lock.locked && forall i | 0 <= i < |lock.waiters| :: lock.waiters[i].fate.Cancelled?
  }

  predicate WaitsAt(lock: Lock, t: Task, i: nat) {
    i < |lock.waiters| && lock.waiters[i].task == t
  }

  /** Somebody is inside, or waits. */
  predicate Used(lock: Lock) {
    lock.locked || lock.waiters != []
  }

  /**
    `inside` are the tasks that took the lock and have not released it. There is at most one, and
    exactly while the lock is locked; nobody waits twice or while inside; and only the head of the
    queue has been let in, and only while the lock is open.
   */
  ghost predicate QueueOk(lock: Lock, inside: set<Task>) {
    && (lock.locked <==> inside != {})
    && (forall t, t' | t in inside && t' in inside :: t == t')
    && (forall i, j | 0 <= i < j < |lock.waiters| :: lock.waiters[i].task != lock.waiters[j].task)
    && (forall i | 0 <= i < |lock.waiters| :: lock.waiters[i].task !in inside)
    && (forall i | 0 <= i < |lock.waiters| && Granted(lock.waiters[i].fate) :: i == 0 && !lock.locked)
  }

  /** No wake-up is lost: while the lock is open, the head of the queue is about to run. */
  ghost predicate LockOk(lock: Lock, inside: set<Task>) {
    && QueueOk(lock, inside)
    && (!lock.locked && lock.waiters != [] ==> Done(lock.waiters[0].fate))
  }

  /** The task has nothing to do with this lock. */
  predicate Stranger(lock: Lock, inside: set<Task>, t: Task) {
    t !in inside && forall i | 0 <= i < |lock.waiters| :: lock.waiters[i].task != t
  }

  // ---------- asyncio.Lock ----------

  /** `acquire` up to its first suspension: inside at once, or queued. */
  function Arrive(lock: Lock, t: Task): Lock {
    if Free(lock) then lock.(locked := true) else lock.(waiters := lock.waiters + [Waiter(t, Asleep)])
  }

  function WithoutWaiter(lock: Lock, i: nat): Lock
    requires i < |lock.waiters|
  {
    lock.(waiters := lock.waiters[..i] + lock.waiters[i + 1..])
  }

  /** A resumed waiter leaves the queue, and takes the lock or passes its wake-up on. */
  function Wake(lock: Lock, i: nat): Lock
    requires i < |lock.waiters|
  {
    var rest := WithoutWaiter(lock, i);
    if lock.waiters[i].fate.Woken? then rest.(locked := true)
    else if rest.locked then rest
    else rest.(waiters := WakeFirst(rest.waiters))
  }

  function CancelWaiter(lock: Lock, i: nat): Lock
    requires i < |lock.waiters|
  {
    var fate := if Granted(lock.waiters[i].fate) then WokenThenCancelled else Cancelled;
    lock.(waiters := lock.waiters[i := lock.waiters[i].(fate := fate)])
  }

  /** `release`: open the lock and wake the first waiter. */
  function Open(lock: Lock): Lock {
    Lock(false, WakeFirst(lock.waiters))
  }

  lemma ArriveOk(lock: Lock, inside: set<Task>, t: Task)
    requires LockOk(lock, inside) && Stranger(lock, inside, t)
    ensures LockOk(Arrive(lock, t), if Free(lock) then inside + {t} else inside)
    ensures Used(Arrive(lock, t))
    ensures Free(lock) ==> inside == {}
  {
  }

  lemma WakeOk(lock: Lock, inside: set<Task>, i: nat)
    requires LockOk(lock, inside) && i < |lock.waiters| && Done(lock.waiters[i].fate)
    ensures LockOk(Wake(lock, i), if lock.waiters[i].fate.Woken? then inside + {lock.waiters[i].task} else inside)
    ensures lock.waiters[i].fate.Woken? ==> inside == {}
  {
    WithoutWaiterOk(lock, inside, i);
    var rest := WithoutWaiter(lock, i);
    if lock.waiters[i].fate.Woken? {
      assert inside == {} && i == 0;
    } else if !rest.locked {
      WakeFirstOk(rest, inside);
    }
  }

  lemma WithoutWaiterOk(lock: Lock, inside: set<Task>, i: nat)
    requires LockOk(lock, inside) && i < |lock.waiters| && Done(lock.waiters[i].fate)
    ensures QueueOk(WithoutWaiter(lock, i), inside)
    ensures forall k | 0 <= k < |lock.waiters| - 1 :: WithoutWaiter(lock, i).waiters[k] == lock.waiters[if k < i then k else k + 1]
  {
  }

  lemma WakeFirstOk(lock: Lock, inside: set<Task>)
    requires QueueOk(lock, inside) && !lock.locked
    ensures LockOk(lock.(waiters := WakeFirst(lock.waiters)), inside)
  {
    var after := WakeFirst(lock.waiters);
    assert forall k | 0 <= k < |after| :: after[k].task == lock.waiters[k].task && (k > 0 ==> after[k] == lock.waiters[k]);
  }

  lemma CancelOk(lock: Lock, inside: set<Task>, i: nat)
    requires LockOk(lock, inside) && i < |lock.waiters|
    ensures LockOk(CancelWaiter(lock, i), inside)
  {
  }

  /** The task that releases was the only one inside. */
  lemma OpenOk(lock: Lock, inside: set<Task>, t: Task)
    requires LockOk(lock, inside) && t in inside
    ensures inside - {t} == {} && LockOk(Open(lock), inside - {t})
  {
    assert forall t' | t' in inside :: t' == t;
    WakeFirstOk(lock.(locked := false), {});
  }

  ghost predicate SoundAt(locks: map<LockId, Lock>, inside: map<LockId, set<Task>>, id: LockId)
    requires locks.Keys == inside.Keys
  {
    id in locks ==> LockOk(locks[id], inside[id])
  }

  ghost predicate AllOk(locks: map<LockId, Lock>, inside: map<LockId, set<Task>>) {
    locks.Keys == inside.Keys && forall id {:trigger SoundAt(locks, inside, id)} :: SoundAt(locks, inside, id)
  }

  lemma UpdateOk(locks: map<LockId, Lock>, inside: map<LockId, set<Task>>, id: LockId, lock: Lock, tasks: set<Task>)
    requires AllOk(locks, inside) && LockOk(lock, tasks)
    ensures AllOk(locks[id := lock], inside[id := tasks])
  {
    var locks', inside' := locks[id := lock], inside[id := tasks];
    forall l ensures SoundAt(locks', inside', l) {
      assert SoundAt(locks, inside, l);
    }
  }

  // ---------- the registry ----------

  /** The entry of a key is a lock of that key that is in use. */
  predicate EntryOk(current: map<Key, LockId>, locks: map<LockId, Lock>, keys: map<LockId, Key>, key: Key)
    requires keys.Keys == locks.Keys
  {
    key in current ==> current[key] in locks && keys[current[key]] == key && Used(locks[current[key]])
  }

  /** A lock in use is the entry of its key. */
  predicate HomeOk(current: map<Key, LockId>, locks: map<LockId, Lock>, keys: map<LockId, Key>, id: LockId)
    requires keys.Keys == locks.Keys
  {
    id in locks && Used(locks[id]) ==> keys[id] in current && current[keys[id]] == id
  }

  ghost predicate Linked(current: map<Key, LockId>, locks: map<LockId, Lock>, keys: map<LockId, Key>) {
    && keys.Keys == locks.Keys
    && (forall key {:trigger EntryOk(current, locks, keys, key)} :: EntryOk(current, locks, keys, key))
    && (forall id {:trigger HomeOk(current, locks, keys, id)} :: HomeOk(current, locks, keys, id))
  }

  /** The locks moved, but the same ones are in use, except that `id` may have fallen out of use and lost its entry. */
  lemma LinkedAfter(current: map<Key, LockId>, locks: map<LockId, Lock>, keys: map<LockId, Key>, id: LockId, lock: Lock)
    requires Linked(current, locks, keys) && id in locks && Used(locks[id])
    ensures Linked(if Used(lock) then current else current - {keys[id]}, locks[id := lock], keys)
    ensures keys[id] in current && current[keys[id]] == id
  {
    var current' := if Used(lock) then current else current - {keys[id]};
    var locks' := locks[id := lock];
    assert HomeOk(current, locks, keys, id);
    forall key ensures EntryOk(current', locks', keys, key) {
      assert EntryOk(current, locks, keys, key);
    }
    forall l ensures HomeOk(current', locks', keys, l) {
      assert HomeOk(current, locks, keys, l);
    }
  }

  /** A new lock in use gets the entry of a key that had none. */
  lemma LinkedWith(current: map<Key, LockId>, locks: map<LockId, Lock>, keys: map<LockId, Key>, key: Key, id: LockId, lock: Lock)
    requires Linked(current, locks, keys) && key !in current && id !in locks && Used(lock)
    ensures Linked(current[key := id], locks[id := lock], keys[id := key])
  {
    var current', locks', keys' := current[key := id], locks[id := lock], keys[id := key];
    forall k ensures EntryOk(current', locks', keys', k) {
      assert EntryOk(current, locks, keys, k);
    }
    forall l ensures HomeOk(current', locks', keys', l) {
      assert HomeOk(current, locks, keys, l);
    }
  }

  class LockRegistry {
    var current: map<Key, LockId>
    var locks: map<LockId, Lock>          // every lock object ever created
    var created: nat
    ghost var inside: map<LockId, set<Task>> // who took each of them and has not released it
    ghost var keys: map<LockId, Key>

    /** Every lock is sound, the registered ones are those in use, and a lock in use is the registered one of its key. */
    ghost predicate Valid()
      reads this
    {
      (forall id | id in locks :: id < created) && AllOk(locks, inside) && Linked(current, locks, keys)
    }

    constructor ()
      ensures Valid() && current == map[]
    {
      current, locks, created, inside, keys := map[], map[], 0, map[], map[];
    }

    /** At most one task is inside for a key, however many lock objects the key has had. */
    lemma AtMostOneInside(a: LockId, b: LockId, t: Task, t': Task)
      requires Valid() && a in locks && b in locks && keys[a] == keys[b]
      requires t in inside[a] && t' in inside[b]
      ensures a == b && t == t'
    {
      assert SoundAt(locks, inside, a) && SoundAt(locks, inside, b);
      assert HomeOk(current, locks, keys, a) && HomeOk(current, locks, keys, b);
    }

    /** All who are inside or wait for one key share the registered lock object. */
    lemma AllShareOneLock(key: Key, a: LockId)
      requires Valid() && a in locks && keys[a] == key && (inside[a] != {} || exists t, i: nat :: WaitsAt(locks[a], t, i))
      ensures key in current && current[key] == a
    {
      assert SoundAt(locks, inside, a);
      assert HomeOk(current, locks, keys, a);
    }

    /** An entry exists exactly while somebody is inside or waits. */
    lemma EntryIffUsed(key: Key)
      requires Valid()
      ensures key in current <==> exists id :: id in locks && keys[id] == key && (inside[id] != {} || locks[id].waiters != [])
    {
      assert EntryOk(current, locks, keys, key);
      if key in current { assert SoundAt(locks, inside, current[key]); }
      forall id | id in locks && keys[id] == key && (inside[id] != {} || locks[id].waiters != []) ensures key in current {
        assert SoundAt(locks, inside, id) && HomeOk(current, locks, keys, id);
      }
    }

    /** Whenever nobody is inside and somebody waits, the head of the queue is about to run. */
    lemma NoLostWakeUp(id: LockId)
      requires Valid() && id in locks && inside[id] == {} && locks[id].waiters != []
      ensures Done(locks[id].waiters[0].fate)
    {
      assert SoundAt(locks, inside, id);
    }

    /**
      Look up or create the lock, then take it or queue up: there is no suspension in between. A task
      gets inside at once exactly if the key has no lock in use, or all who wait for it were cancelled,
      and then nobody is inside.
     */
    method Enter(t: Task, key: Key) returns (id: LockId, entered: bool)
      requires Valid() && forall l | l in locks :: Stranger(locks[l], inside[l], t)
      modifies this
      ensures Valid() && id in locks && current == old(current)[key := id] && keys == old(keys)[id := key]
      ensures if key in old(current) then id == old(current)[key] && id in old(locks) else id !in old(locks)
      ensures var lock := if id in old(locks) then old(locks)[id] else Lock(false, []);
              entered == Free(lock) && locks == old(locks)[id := Arrive(lock, t)]
      ensures var before := if id in old(inside) then old(inside)[id] else {};
              (entered ==> before == {}) && inside == old(inside)[id := if entered then before + {t} else before]
    {
      if key in current {
        assert EntryOk(current, locks, keys, key);
        id := current[key];
        entered := QueueUp(t, id);
      } else {
        entered := true;
        id := Create(t, key);
        assert {} + {t} == {t};
      }
    }

    /** A new lock is created, registered and taken without a suspension in between. */
    method Create(t: Task, key: Key) returns (id: LockId)
      requires Valid() && key !in current
      modifies this
      ensures Valid() && id !in old(locks) && current == old(current)[key := id] && keys == old(keys)[id := key]
      ensures locks == old(locks)[id := Lock(true, [])] && inside == old(inside)[id := {t}]
    {
      id := created;
      LinkedWith(current, locks, keys, key, id, Lock(true, []));
      UpdateOk(locks, inside, id, Lock(true, []), {t});
      created, current := created + 1, current[key := id];
      locks, inside, keys := locks[id := Arrive(Lock(false, []), t)], inside[id := {t}], keys[id := key];
    }

    method QueueUp(t: Task, id: LockId) returns (entered: bool)
      requires Valid() && id in locks && Used(locks[id]) && Stranger(locks[id], inside[id], t)
      modifies this`locks, this`inside
      ensures Valid() && entered == Free(old(locks)[id]) && (entered ==> old(inside)[id] == {})
      ensures locks == old(locks)[id := Arrive(old(locks)[id], t)]
      ensures inside == old(inside)[id := if entered then old(inside)[id] + {t} else old(inside)[id]]
    {
      assert SoundAt(locks, inside, id);
      ArriveOk(locks[id], inside[id], t);
      entered := Free(locks[id]);
      ghost var tasks := if entered then inside[id] + {t} else inside[id];
      UpdateOk(locks, inside, id, Arrive(locks[id], t), tasks);
      LinkedAfter(current, locks, keys, id, Arrive(locks[id], t));
      locks, inside := locks[id := Arrive(locks[id], t)], inside[id := tasks];
    }

    /** Somebody cancels a waiting task; the task itself runs later. */
    method Cancel(t: Task, id: LockId, i: nat)
      requires Valid() && id in locks && WaitsAt(locks[id], t, i)
      modifies this`locks
      ensures Valid()
      ensures locks == old(locks)[id := CancelWaiter(old(locks)[id], i)]
    {
      assert SoundAt(locks, inside, id);
      CancelOk(locks[id], inside[id], i);
      UpdateOk(locks, inside, id, CancelWaiter(locks[id], i), inside[id]);
      assert inside[id := inside[id]] == inside;
      LinkedAfter(current, locks, keys, id, CancelWaiter(locks[id], i));
      locks := locks[id := CancelWaiter(locks[id], i)];
    }

    /** The event loop resumes a waiter: it gets inside, where nobody is, or it leaves and drops an unused entry. */
    method Resume(t: Task, key: Key, id: LockId, i: nat) returns (entered: bool)
      requires Valid() && id in locks && keys[id] == key && WaitsAt(locks[id], t, i) && Done(locks[id].waiters[i].fate)
      modifies this
      ensures Valid() && keys == old(keys)
      ensures locks == old(locks)[id := Wake(old(locks)[id], i)]
      ensures entered <==> old(locks)[id].waiters[i].fate.Woken?
      ensures entered ==> old(inside)[id] == {} && inside == old(inside)[id := old(inside)[id] + {t}] && current == old(current)
      ensures !entered ==> inside == old(inside) && current == if Used(locks[id]) then old(current) else old(current) - {key}
    {
      assert SoundAt(locks, inside, id);
      WakeOk(locks[id], inside[id], i);
      entered := locks[id].waiters[i].fate.Woken?;
      ghost var tasks := if entered then inside[id] + {t} else inside[id];
      UpdateOk(locks, inside, id, Wake(locks[id], i), tasks);
      LinkedAfter(current, locks, keys, id, Wake(locks[id], i));
      locks, inside := locks[id := Wake(locks[id], i)], inside[id := tasks];
      if !entered { Cleanup(key, id); }
    }

    /** The task inside leaves: the lock opens, the next waiter is woken, and an unused entry is dropped. */
    method Leave(t: Task, key: Key, id: LockId)
      requires Valid() && id in locks && keys[id] == key && t in inside[id]
      modifies this
      ensures Valid() && keys == old(keys)
      ensures locks == old(locks)[id := Open(old(locks)[id])]
      ensures inside == old(inside)[id := old(inside)[id] - {t}] && inside[id] == {}
      ensures current == if Used(locks[id]) then old(current) else old(current) - {key}
    {
      assert SoundAt(locks, inside, id);
      OpenOk(locks[id], inside[id], t);
      UpdateOk(locks, inside, id, Open(locks[id]), inside[id] - {t});
      LinkedAfter(current, locks, keys, id, Open(locks[id]));
      locks, inside := locks[id := Open(locks[id])], inside[id := inside[id] - {t}];
      Cleanup(key, id);
    }

    /** Drop the entry of this very lock when nobody holds it or waits for it. */
    method Cleanup(key: Key, id: LockId)
      requires id in locks
      modifies this`current
      ensures current == if key in old(current) && old(current)[key] == id && !Used(locks[id]) then old(current) - {key} else old(current)
    {
      if key in current && current[key] == id && !locks[id].locked && locks[id].waiters == [] {
        current := current - {key};
      }
    }
  }
}
