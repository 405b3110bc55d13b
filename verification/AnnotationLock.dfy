/**
  The expiring lock in an annotation of the SSHMachine (controllers/sshmachine.py): its value as text,
  the bounded compare-and-swap loops, and exclusion between processes.

  Time is counted in whole seconds, as the code does; all processes share the clock.
 */
module AnnotationLock {
  import opened Wrappers
  import opened Texts

  // ---------- the value ----------

  const SEPARATOR := '|'

  function PrintInt(n: int): string {
    if n < 0 then "-" + PrintNat(-n) else PrintNat(n)
  }

  function PrintLock(holder: string, expires: int): string {
    holder + [SEPARATOR] + PrintInt(expires)
  }

  /** Digits, with single underscores allowed between two of them. */
  function ParseDigits(s: string): Option<nat> {
    if s == [] || !IsDigit(s[|s| - 1]) then None
    else if |s| == 1 then Some(DigitValue(s[0]))
    else
      var front := s[..|s| - 1];
      var rest := ParseDigits(if front[|front| - 1] == '_' then front[..|front| - 1] else front);
      if rest.Some? then Some(10 * rest.value + DigitValue(s[|s| - 1])) else None
  }

  function Signed(negative: bool, n: int): int {
    if negative then -n else n
  }

  /** Python's `int` of a text: surrounding white space, one sign, digits. */
  function ParseInt(s: string): Option<int> {
    var t := Strip(s);
    if t == [] then None
    else
      var digits := ParseDigits(if t[0] in "+-" then t[1..] else t);
      if digits.None? then None else Some(Signed(t[0] == '-', digits.value))
  }

  /** Position of the last separator, or -1. */
  function LastSeparator(s: string): (i: int)
    ensures -1 <= i < |s|
    ensures i >= 0 ==> s[i] == SEPARATOR
    ensures forall k | i < k < |s| :: s[k] != SEPARATOR
  {
    if s == [] then -1 else if s[|s| - 1] == SEPARATOR then |s| - 1 else LastSeparator(s[..|s| - 1])
  }

  datatype Held = Held(holder: string, expires: int)

  /** Anything that is not `holder|integer` counts as no lock. */
  function ParseLock(value: Option<string>): Option<Held> {
    if value.None? then None
    else
      var i := LastSeparator(value.value);
      if i <= 0 then None
      else
        var expires := ParseInt(value.value[i + 1..]);
        if expires.None? then None else Some(Held(value.value[..i], expires.value))
  }

  lemma {:induction false} ParsePrintNat(n: nat)
    ensures ParseDigits(PrintNat(n)) == Some(n)
  {
    if n >= 10 {
      ParsePrintNat(n / 10);
      var s := PrintNat(n);
      assert s[..|s| - 1] == PrintNat(n / 10);
    }
  }

  lemma ParsePrintInt(n: int)
    ensures ParseInt(PrintInt(n)) == Some(n)
    ensures SEPARATOR !in PrintInt(n)
  {
    var s := PrintInt(n);
    var digits := PrintNat(if n < 0 then -n else n);
    ParsePrintNat(if n < 0 then -n else n);
    assert IsDigit(digits[0]) && IsDigit(digits[|digits| - 1]);
    NothingToTrim(s);
    if n < 0 { assert s[1..] == digits; }
  }

  /** Reading a printed value gives back holder and expiry, also for a holder that contains the separator. */
  lemma RoundTrip(holder: string, expires: int)
    ensures ParseLock(Some(PrintLock(holder, expires))) == if holder == "" then None else Some(Held(holder, expires))
  {
    ParsePrintInt(expires);
    SeparatorAt(holder, PrintInt(expires));
  }

  /** The last separator is the one before a text without separators. */
  lemma SeparatorAt(a: string, b: string)
    requires SEPARATOR !in b
    ensures var s := a + [SEPARATOR] + b; LastSeparator(s) == |a| && s[..|a|] == a && s[|a| + 1..] == b
  {
    var s := a + [SEPARATOR] + b;
    var i := LastSeparator(s);
    assert s[|a|] == SEPARATOR;
  }

  // ---------- the object and what is done to it ----------

  const ATTEMPTS := 5

  function Ttl(setting: int): int {
    if setting < 30 then 30 else setting
  }

  datatype World = World(live: bool, annotation: Option<string>, version: nat, clock: int, setting: int)

  /** One accepted write each; `Touch` is any other write to the object, `Remove` its end. */
  datatype Action = Tick(seconds: nat) | Touch | Remove | Acquire(holder: string, now: int) | Release(holder: string)

  /** Another process holds the lock at this time. */
  predicate Excluded(annotation: Option<string>, holder: string, now: int) {
    var held := ParseLock(annotation);
    held.Some? && held.value.holder != holder && held.value.expires > now
  }

  predicate HeldBy(annotation: Option<string>, holder: string) {
    ParseLock(annotation).Some? && ParseLock(annotation).value.holder == holder
  }

  predicate Enabled(w: World, a: Action) {
    match a
    case Tick(_) => true
    case Touch => w.live
    case Remove => true
    case Acquire(h, now) =>
      && w.live && h != "" && now <= w.clock && !Excluded(w.annotation, h, now)
      && (HeldBy(w.annotation, h) ==> ParseLock(w.annotation).value.expires <= now + Ttl(w.setting))
    case Release(h) => w.live && HeldBy(w.annotation, h)
  }

  function Apply(w: World, a: Action): World
    requires Enabled(w, a)
  {
    match a
    case Tick(seconds) => w.(clock := w.clock + seconds)
    case Touch => w.(version := w.version + 1)
    case Remove => w.(live := false)
    case Acquire(h, now) => w.(annotation := Some(PrintLock(h, now + Ttl(w.setting))), version := w.version + 1)
    case Release(_) => w.(annotation := None, version := w.version + 1)
  }

  /** No stored expiry is later than one lifetime from now. */
  predicate Ok(w: World) {
    ParseLock(w.annotation).Some? ==> ParseLock(w.annotation).value.expires <= w.clock + Ttl(w.setting)
  }

  lemma OkPreserved(w: World, a: Action)
    requires Ok(w) && Enabled(w, a)
    ensures Ok(Apply(w, a))
  {
    if a.Acquire? { RoundTrip(a.holder, a.now + Ttl(w.setting)); }
  }

  predicate StepAt(ws: seq<World>, acts: seq<Action>, i: nat)
    requires |ws| == |acts| + 1 && i < |acts|
  {
    Enabled(ws[i], acts[i]) && ws[i + 1] == Apply(ws[i], acts[i])
  }

  predicate Behavior(ws: seq<World>, acts: seq<Action>) {
    && |ws| == |acts| + 1 && ParseLock(ws[0].annotation).None?
    && forall i | 0 <= i < |acts| :: StepAt(ws, acts, i)
  }

  lemma {:induction false} OkAlways(ws: seq<World>, acts: seq<Action>, i: nat)
    requires Behavior(ws, acts) && i <= |acts|
    ensures Ok(ws[i])
  {
    if i > 0 {
      OkAlways(ws, acts, i - 1);
      assert StepAt(ws, acts, i - 1);
      OkPreserved(ws[i - 1], acts[i - 1]);
    }
  }

  lemma {:induction false} ClockGrows(ws: seq<World>, acts: seq<Action>, i: nat, j: nat)
    requires Behavior(ws, acts) && i <= j <= |acts|
    ensures ws[i].clock <= ws[j].clock && ws[i].setting == ws[j].setting
  {
    if i < j {
      ClockGrows(ws, acts, i, j - 1);
      assert StepAt(ws, acts, j - 1);
    }
  }

  predicate HeldUntil(w: World, holder: string, expires: int) {
    HeldBy(w.annotation, holder) && ParseLock(w.annotation).value.expires >= expires
  }

  lemma StepKeepsHolder(w: World, a: Action, holder: string, expires: int)
    requires Enabled(w, a) && HeldUntil(w, holder, expires) && a != Release(holder)
    requires a.Acquire? && a.holder != holder ==> w.clock < expires
    ensures HeldUntil(Apply(w, a), holder, expires)
  {
    if a.Acquire? { RoundTrip(a.holder, a.now + Ttl(w.setting)); }
  }

  lemma AcquireHolds(w: World, holder: string, now: int)
    requires Enabled(w, Acquire(holder, now))
    ensures HeldUntil(Apply(w, Acquire(holder, now)), holder, now + Ttl(w.setting))
  {
    RoundTrip(holder, now + Ttl(w.setting));
  }

  lemma {:induction false} StillHeld(ws: seq<World>, acts: seq<Action>, i: nat, j: nat, holder: string, now: int)
    requires Behavior(ws, acts) && i < j <= |acts| && acts[i] == Acquire(holder, now)
    requires forall k | i < k < j :: acts[k] != Release(holder) && ws[k].clock < now + Ttl(ws[i].setting)
    ensures HeldUntil(ws[j], holder, now + Ttl(ws[i].setting))
  {
    assert StepAt(ws, acts, j - 1);
    if j > i + 1 {
      StillHeld(ws, acts, i, j - 1, holder, now);
      StepKeepsHolder(ws[j - 1], acts[j - 1], holder, now + Ttl(ws[i].setting));
    } else {
      AcquireHolds(ws[i], holder, now);
    }
  }

  /**
    Exclusion. After a process acquired the lock until `now + ttl`, another process acquires it only at
    that time or later, unless the first released it before.
   */
  lemma Exclusion(ws: seq<World>, acts: seq<Action>, i: nat, j: nat, holder: string, now: int)
    requires Behavior(ws, acts) && i < j < |acts| && acts[i] == Acquire(holder, now)
    requires acts[j].Acquire? && acts[j].holder != holder
    ensures ws[j].clock >= now + Ttl(ws[i].setting) || exists k :: i < k < j && acts[k] == Release(holder)
  {
    if ws[j].clock < now + Ttl(ws[i].setting) && forall k | i < k < j :: acts[k] != Release(holder) {
      forall k | i < k < j ensures ws[k].clock < now + Ttl(ws[i].setting) {
        ClockGrows(ws, acts, k, j);
      }
      assert StepAt(ws, acts, j);
      StillHeld(ws, acts, i, j, holder, now);
    }
  }

  /** A release removes nothing but the value of its own holder; nothing else removes a live value of another. */
  lemma ReleaseIsOwn(ws: seq<World>, acts: seq<Action>, i: nat, holder: string)
    requires Behavior(ws, acts) && i < |acts| && HeldBy(ws[i].annotation, holder)
    ensures !HeldBy(ws[i + 1].annotation, holder) ==>
              acts[i] == Release(holder)
              || (acts[i].Acquire? && acts[i].holder != holder && ParseLock(ws[i].annotation).value.expires <= ws[i].clock)
  {
    assert StepAt(ws, acts, i);
    if acts[i].Acquire? { RoundTrip(acts[i].holder, acts[i].now + Ttl(ws[i].setting)); }
  }

  // ---------- the code of one process ----------

  datatype Reply = Accepted | Conflict | Missing | Raised

  class Api {
    var world: World
    ghost var states: seq<World>
    ghost var acts: seq<Action>
    ghost var faults: nat              // requests that failed without telling what they did

    ghost predicate Valid()
      reads this
    {
      Behavior(states, acts) && states[|acts|] == world
    }

    constructor (annotation: Option<string>, version: nat, clock: int, setting: int)
      requires ParseLock(annotation).None?
      ensures Valid()
    {
      world := World(true, annotation, version, clock, setting);
      states, acts, faults := [World(true, annotation, version, clock, setting)], [], 0;
    }

    /** What happened since is only added, and the acquires and releases of `holder` among it are all `a`. */
    twostate predicate OnlyDid(holder: string, a: Option<Action>)
      reads this
    {
      && old(states) <= states && old(acts) <= acts
      && old(world).clock <= world.clock && old(world).setting == world.setting
      && old(world).version <= world.version && old(faults) <= faults && (!old(world).live ==> !world.live)
      && (forall i | |old(acts)| <= i < |acts| :: By(acts[i], holder) ==> Some(acts[i]) == a)
    }

    /** Versions only grow, and the same version means the same annotation. */
    twostate predicate Versioned()
      reads this
    {
      old(world).version <= world.version && (old(world).version == world.version ==> old(world).annotation == world.annotation)
    }

    method Do(a: Action)
      requires Valid() && Enabled(world, a)
      modifies this
      ensures Valid() && world == Apply(old(world), a)
      ensures acts == old(acts) + [a] && states == old(states) + [world] && faults == old(faults)
    {
      ghost var ws, before := states, acts;
      world := Apply(world, a);
      states := states + [world];
      acts := acts + [a];
      forall i: nat | i < |acts| ensures StepAt(states, acts, i) {
        if i < |before| { assert StepAt(ws, before, i); }
      }
    }

    /** Other processes, other writers of the object, and the clock. */
    method Interfere(holder: string)
      requires Valid()
      modifies this
      ensures Valid() && OnlyDid(holder, None) && Versioned() && faults == old(faults)
    {
      var steps: nat := *;
      while steps > 0
        invariant Valid() && OnlyDid(holder, None) && Versioned() && faults == old(faults)
      {
        var seconds: nat, now: int, g: string := *, *, *;
        var acquires: bool, releases: bool, ticks: bool, removes: bool := *, *, *, *;
        var a :=
          if ticks then Tick(seconds) else if acquires then Acquire(g, now) else if releases then Release(g)
          else if removes then Remove else Touch;
        if Enabled(world, a) && !By(a, holder) { Do(a); }
        steps := steps - 1;
      }
    }

    method Get(holder: string) returns (reply: Reply, annotation: Option<string>, version: nat)
      requires Valid()
      modifies this
      ensures Valid() && OnlyDid(holder, None)
      ensures reply in {Accepted, Missing, Raised} && (reply.Missing? ==> !world.live)
      ensures faults == old(faults) + (if reply.Raised? then 1 else 0)
      ensures annotation == world.annotation && version == world.version
    {
      Interfere(holder);
      var failed: bool := *;
      if failed { faults := faults + 1; }
      return if failed then Raised else if !world.live then Missing else Accepted, world.annotation, world.version;
    }

    /** `int(time.time())` */
    method Now(holder: string) returns (now: int)
      requires Valid()
      modifies this
      ensures Valid() && OnlyDid(holder, None) && Versioned() && now == world.clock && faults == old(faults)
    {
      Interfere(holder);
      now := world.clock;
    }

    /** Patch with the resourceVersion that was read. */
    method Patch(holder: string, annotation: Option<string>, version: nat, a: Action) returns (reply: Reply)
      requires Valid() && By(a, holder) && Enabled(world.(annotation := annotation, live := true), a)
      requires version <= world.version && (version == world.version ==> world.annotation == annotation)
      modifies this
      ensures Valid() && OnlyDid(holder, Some(a))
      ensures reply.Accepted? ==> acts != old(acts) && acts[|acts| - 1] == a
      ensures reply.Accepted? && a.Release? ==> world.annotation.None?
      ensures reply.Conflict? || reply.Missing? ==> OnlyDid(holder, None)
      ensures reply.Missing? ==> !world.live
      ensures reply.Conflict? ==> version < world.version
      ensures faults == old(faults) + (if reply.Raised? then 1 else 0)
    {
      Interfere(holder);
      var failed: bool, lost: bool := *, *;
      if failed {
        faults := faults + 1;
        return Raised;
      }
      if !world.live { return Missing; }
      if world.version != version { return Conflict; }
      Do(a);
      if lost {
        faults := faults + 1;
        return Raised;
      }
      return Accepted;
    }
  }

  /** In some state from `from` on, the value was live and of another holder. */
  predicate ExcludedSince(states: seq<World>, from: nat, holder: string) {
    exists k :: from <= k < |states| && Excluded(states[k].annotation, holder, states[k].clock)
  }

  /** In some state from `from` on, the value named another holder. */
  predicate OthersSince(states: seq<World>, from: nat, holder: string) {
    exists k :: from <= k < |states| && ParseLock(states[k].annotation).Some? && !HeldBy(states[k].annotation, holder)
  }

  predicate By(a: Action, holder: string) {
    (a.Acquire? || a.Release?) && a.holder == holder
  }

  lemma LastHolds(api: Api, holder: string, now: int)
    requires api.Valid() && api.acts != [] && api.acts[|api.acts| - 1] == Acquire(holder, now)
    ensures HeldUntil(api.world, holder, now + Ttl(api.world.setting))
  {
    assert StepAt(api.states, api.acts, |api.acts| - 1);
    AcquireHolds(api.states[|api.acts| - 1], holder, now);
  }

  /** One attempt: `Taken` by this holder, `Denied`, lost to a `Race`, or an error that leaves it open. */
  datatype Attempt = Taken | Denied | Race | Unclear

  method TryAcquire(api: Api, holder: string, ghost from: nat) returns (r: Attempt, ghost stamp: int)
    requires api.Valid() && holder != "" && from < |api.states|
    modifies api
    ensures api.Valid() && api.OnlyDid(holder, if r.Denied? || r.Race? then None else Some(Acquire(holder, stamp)))
    ensures r.Taken? ==> api.acts != old(api.acts) && api.acts[|api.acts| - 1] == Acquire(holder, stamp)
    ensures old(api.world).clock <= stamp
    ensures r.Denied? ==> !api.world.live || ExcludedSince(api.states, from, holder)
    ensures r.Race? ==> old(api.world).version < api.world.version
    ensures r.Unclear? ==> !api.world.live || old(api.faults) < api.faults
  {
    stamp := api.world.clock;
    var got, annotation, version := api.Get(holder);
    if got.Raised? || got.Missing? { return Unclear, stamp; }
    OkAlways(api.states, api.acts, |api.acts|);
    ghost var states := api.states;
    var now := api.Now(holder);
    stamp := now;
    if Excluded(annotation, holder, now) {
      assert api.states[|states| - 1] == states[|states| - 1];
      return Denied, stamp;
    }
    var reply := api.Patch(holder, annotation, version, Acquire(holder, now));
    match reply
    case Accepted => r := Taken;
    case Missing => r := Denied;
    case Raised => r := Unclear;
    case Conflict => r := Race;
  }

  /**
    Up to five attempts. `Some(false)`: somebody else held it in some state since the start, or the
    object is gone, or there are five newer versions. `None` is an error that leaves it open whether
    the lock was taken.
   */
  method AcquireLock(api: Api, holder: string) returns (r: Option<bool>, ghost stamp: int)
    requires api.Valid() && holder != ""
    modifies api
    ensures api.Valid() && api.OnlyDid(holder, if r == Some(false) then None else Some(Acquire(holder, stamp)))
    ensures r == Some(true) ==> api.acts != old(api.acts) && api.acts[|api.acts| - 1] == Acquire(holder, stamp)
    ensures r == Some(true) ==> HeldUntil(api.world, holder, stamp + Ttl(api.world.setting))
    ensures r == Some(true) ==> old(api.world).clock <= stamp
    ensures r == Some(false) ==>
              || !api.world.live || ExcludedSince(api.states, |old(api.states)| - 1, holder)
              || old(api.world).version + ATTEMPTS <= api.world.version
    ensures r == None ==> !api.world.live || old(api.faults) < api.faults
  {
    stamp := api.world.clock;
    var attempt := 0;
    while attempt < ATTEMPTS
      invariant 0 <= attempt <= ATTEMPTS && api.Valid() && api.OnlyDid(holder, None)
      invariant old(api.world).version + attempt <= api.world.version
    {
      var tried;
      tried, stamp := TryAcquire(api, holder, |old(api.states)| - 1);
      match tried
      case Taken =>
        LastHolds(api, holder, stamp);
        return Some(true), stamp;
      case Denied => return Some(false), stamp;
      case Unclear => return None, stamp;
      case Race => attempt := attempt + 1;
    }
    return Some(false), stamp;
  }

  /**
    Clears the annotation only while it names this holder; a value that names nobody counts as released.
    `Some(false)`: it named another holder in some state since the start, or there are five newer versions.
   */
  method ReleaseLock(api: Api, holder: string) returns (r: Option<bool>)
    requires api.Valid()
    modifies api
    ensures api.Valid() && api.OnlyDid(holder, Some(Release(holder)))
    ensures r == Some(false) ==> api.OnlyDid(holder, None)
    ensures r == Some(true) ==> !api.world.live || ParseLock(api.world.annotation).None?
    ensures r == Some(false) ==>
              OthersSince(api.states, |old(api.states)| - 1, holder) || old(api.world).version + ATTEMPTS <= api.world.version
    ensures r == None ==> old(api.faults) < api.faults
  {
    var attempt := 0;
    while attempt < ATTEMPTS
      invariant 0 <= attempt <= ATTEMPTS && api.Valid() && api.OnlyDid(holder, None)
      invariant old(api.world).version + attempt <= api.world.version
    {
      var got, annotation, version := api.Get(holder);
      if got.Raised? { return None; }
      if got.Missing? || ParseLock(annotation).None? { return Some(true); }
      if ParseLock(annotation).value.holder != holder {
        assert api.states[|api.states| - 1] == api.world;
        return Some(false);
      }
      var reply := api.Patch(holder, annotation, version, Release(holder));
      match reply
      case Accepted => return Some(true);
      case Missing => return Some(true);
      case Raised => return None;
      case Conflict => attempt := attempt + 1;
    }
    return Some(false);
  }
}
