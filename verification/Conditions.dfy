/**
  Status conditions: merging updates by type while keeping transition times (conditions.py).

  A Python dict is a sequence of entries with distinct types in insertion order. Times are points on
  the wall clock; a `lastTransitionTime` may be missing, or be there and empty.
 */
module Conditions {
  import opened Wrappers

  datatype Since = Missing | Blank | At(time: int)

  datatype Condition = Condition(
    kind: string,
    status: string,
    reason: string,
    message: string,
    since: Since,
    generation: Option<int>)

  type Dict = seq<Condition>

  predicate Distinct(d: Dict) {
    forall i, j | 0 <= i < j < |d| :: d[i].kind != d[j].kind
  }

  function Kinds(d: Dict): seq<string> {
    if d == [] then [] else [d[0].kind] + Kinds(d[1..])
  }

  function Find(d: Dict, kind: string): Option<Condition> {
    if d == [] then None else if d[0].kind == kind then Some(d[0]) else Find(d[1..], kind)
  }

  /** `d[c.kind] = c`: in place if the key exists, else at the end. */
  function Put(d: Dict, c: Condition): Dict {
    if d == [] then [c] else if d[0].kind == c.kind then [c] + d[1..] else [d[0]] + Put(d[1..], c)
  }

  /** `{item["type"]: item for item in items if item.get("type")}` */
  function Indexed(items: seq<Condition>): Dict {
    if items == [] then []
    else
      var front := Indexed(items[..|items| - 1]);
      var last := items[|items| - 1];
      if last.kind == "" then front else Put(front, last)
  }

  /** The time of an update that changes the status: its own, be it empty, or else the time of the merge. */
  function OwnTime(update: Condition, now: int): (t: Since)
    ensures !t.Missing?
  {
    if update.since.Missing? then At(now) else update.since
  }

  /** One update as it is stored; `now` is the time of the merge. */
  function Stored(previous: Option<Condition>, update: Condition, generation: Option<int>, now: int): (c: Condition)
    ensures c.kind == update.kind && c.status == update.status && !c.since.Missing?
  {
    var since :=
      if previous.Some? && previous.value.status == update.status && previous.value.since.At? then previous.value.since
      else OwnTime(update, now);
    update.(since := since, generation := if generation.Some? then generation else update.generation)
  }

  /** An update, the generation that its merge reports, and the time at which it is handled. */
  datatype Event = Event(update: Condition, generation: Option<int>, now: int)

  function Merged(d: Dict, events: seq<Event>): Dict {
    if events == [] then d
    else
      var front := Merged(d, events[..|events| - 1]);
      var e := events[|events| - 1];
      Put(front, Stored(Find(front, e.update.kind), e.update, e.generation, e.now))
  }

  function Events(updates: seq<Condition>, generation: Option<int>, times: seq<int>): (es: seq<Event>)
    requires |updates| == |times|
    ensures |es| == |updates|
  {
    seq(|updates|, i requires 0 <= i < |updates| => Event(updates[i], generation, times[i]))
  }

  /** `times[i]` is what the clock shows when update `i` is handled. */
  method MergeConditions(existing: seq<Condition>, updates: seq<Condition>, generation: Option<int>, times: seq<int>) returns (merged: Dict)
    requires |updates| == |times|
    ensures merged == Merged(Indexed(existing), Events(updates, generation, times))
  {
    merged := [];
    for i := 0 to |existing|
      invariant merged == Indexed(existing[..i])
    {
      assert existing[..i + 1][..i] == existing[..i];
      if existing[i].kind != "" { merged := Put(merged, existing[i]); }
    }
    assert existing[..|existing|] == existing;
    ghost var all := Events(updates, generation, times);
    for i := 0 to |updates|
      invariant merged == Merged(Indexed(existing), all[..i])
    {
      assert all[..i + 1][..i] == all[..i];
      merged := Put(merged, Stored(Find(merged, updates[i].kind), updates[i], generation, times[i]));
    }
    assert all[..|updates|] == all;
  }

  // ---------- dictionaries ----------

  lemma {:induction false} PutFinds(d: Dict, c: Condition, kind: string)
    ensures Find(Put(d, c), kind) == if kind == c.kind then Some(c) else Find(d, kind)
  {
    if d != [] && d[0].kind != c.kind { PutFinds(d[1..], c, kind); }
  }

  /** Existing keys keep their places, a new key comes last. */
  lemma {:induction false} PutKinds(d: Dict, c: Condition)
    ensures Kinds(Put(d, c)) == if Find(d, c.kind).Some? then Kinds(d) else Kinds(d) + [c.kind]
  {
    if d != [] && d[0].kind != c.kind { PutKinds(d[1..], c); }
  }

  lemma {:induction false} FindIsIn(d: Dict, kind: string)
    ensures Find(d, kind).Some? <==> exists i :: 0 <= i < |d| && d[i].kind == kind
    ensures Find(d, kind).Some? ==> Find(d, kind).value in d && Find(d, kind).value.kind == kind
  {
    if d != [] {
      FindIsIn(d[1..], kind);
      if d[0].kind != kind && exists i :: 0 <= i < |d| && d[i].kind == kind {
        var i :| 0 <= i < |d| && d[i].kind == kind;
        assert d[1..][i - 1].kind == kind;
      }
    }
  }

  lemma {:induction false} PutDistinct(d: Dict, c: Condition)
    requires Distinct(d)
    ensures Distinct(Put(d, c))
    ensures forall x | x in Put(d, c) :: x == c || x in d
  {
    if d != [] && d[0].kind != c.kind {
      PutDistinct(d[1..], c);
      var rest := Put(d[1..], c);
      forall j | 0 <= j < |rest| ensures rest[j].kind != d[0].kind {
        assert rest[j] in rest;
        if rest[j] != c { var k :| 0 <= k < |d[1..]| && d[1..][k] == rest[j]; }
      }
    }
  }

  lemma {:induction false} IndexedDistinct(items: seq<Condition>)
    ensures Distinct(Indexed(items))
  {
    if items != [] {
      IndexedDistinct(items[..|items| - 1]);
      PutDistinct(Indexed(items[..|items| - 1]), items[|items| - 1]);
    }
  }

  /** Every type occurs once in every merge result. */
  lemma {:induction false} MergedDistinct(d: Dict, events: seq<Event>)
    requires Distinct(d)
    ensures Distinct(Merged(d, events))
  {
    if events != [] {
      var front := Merged(d, events[..|events| - 1]);
      var e := events[|events| - 1];
      MergedDistinct(d, events[..|events| - 1]);
      PutDistinct(front, Stored(Find(front, e.update.kind), e.update, e.generation, e.now));
    }
  }

  /** Merging in two rounds is merging once: a history of merges is one sequence of events. */
  lemma {:induction false} MergedConcat(d: Dict, a: seq<Event>, b: seq<Event>)
    ensures Merged(d, a + b) == Merged(Merged(d, a), b)
  {
    if b == [] {
      assert a + b == a;
    } else {
      assert (a + b)[..|a + b| - 1] == a + b[..|b| - 1];
      MergedConcat(d, a, b[..|b| - 1]);
    }
  }

  // ---------- histories ----------

  predicate Mentions(events: seq<Event>, kind: string) {
    exists i :: 0 <= i < |events| && events[i].update.kind == kind
  }

  /** A type that no update mentions keeps its content and its place; new types come after all old ones. */
  lemma {:induction false} AbsentTypesKept(d: Dict, events: seq<Event>, kind: string)
    ensures Kinds(d) <= Kinds(Merged(d, events))
    ensures !Mentions(events, kind) ==> Find(Merged(d, events), kind) == Find(d, kind)
  {
    if events != [] {
      var front := Merged(d, events[..|events| - 1]);
      var e := events[|events| - 1];
      var c := Stored(Find(front, e.update.kind), e.update, e.generation, e.now);
      AbsentTypesKept(d, events[..|events| - 1], kind);
      PutKinds(front, c);
      PutFinds(front, c, kind);
      if Mentions(events[..|events| - 1], kind) {
        var i :| 0 <= i < |events| - 1 && events[..|events| - 1][i].update.kind == kind;
        assert events[i].update.kind == kind;
      }
    }
  }

  /** Event `i` is the last one before `end` that mentions the type. */
  predicate LastMention(events: seq<Event>, kind: string, end: nat, i: nat) {
    && i < end <= |events| && events[i].update.kind == kind
    && forall k | i < k < end :: events[k].update.kind != kind
  }

  /** The type has had one status from event `j` on. */
  predicate SameSince(events: seq<Event>, kind: string, j: nat) {
    && j < |events| && events[j].update.kind == kind
    && forall k | j <= k < |events| && events[k].update.kind == kind :: events[k].update.status == events[j].update.status
  }

  /** Event `j` is the first with a time since the status last changed: all before it that gave this status had an empty one. */
  predicate FirstTimed(events: seq<Event>, kind: string, j: nat) {
    SameSince(events, kind, j) && forall i: nat | i < j && SameSince(events, kind, i) :: events[i].update.since.Blank?
  }

  /** The time that an event brings. */
  function Stamp(e: Event): Since {
    OwnTime(e.update, e.now)
  }

  /** The condition is what event `i`, the last of its type, says. */
  predicate Says(c: Condition, events: seq<Event>, kind: string, i: nat) {
    && LastMention(events, kind, |events|, i)
    && c.status == events[i].update.status && c.reason == events[i].update.reason && c.message == events[i].update.message
    && (events[i].generation.Some? ==> c.generation == events[i].generation)
  }

  /** Its time is the one that event `j` brought, and empty only if all events since the last change had an empty one. */
  predicate DatesFrom(c: Condition, events: seq<Event>, kind: string, j: nat) {
    && FirstTimed(events, kind, j) && c.since == Stamp(events[j]) && c.status == events[j].update.status
    && (c.since.Blank? ==> forall k | j <= k < |events| && events[k].update.kind == kind :: events[k].update.since.Blank?)
  }

  ghost predicate Follows(c: Condition, events: seq<Event>, kind: string) {
    && c.kind == kind
    && (exists i: nat :: Says(c, events, kind, i))
    && (exists j: nat :: DatesFrom(c, events, kind, j))
  }

  lemma MentionsInFront(events: seq<Event>, kind: string)
    requires events != [] && events[|events| - 1].update.kind != kind
    ensures Mentions(events, kind) <==> Mentions(events[..|events| - 1], kind)
  {
    var front := events[..|events| - 1];
    if Mentions(events, kind) {
      var i :| 0 <= i < |events| && events[i].update.kind == kind;
      assert front[i].update.kind == kind;
    }
  }

  /** An event of another type changes nothing. */
  lemma FollowsOther(c: Condition, events: seq<Event>, kind: string)
    requires events != [] && events[|events| - 1].update.kind != kind
    requires Follows(c, events[..|events| - 1], kind)
    ensures Follows(c, events, kind)
  {
    var front := events[..|events| - 1];
    var i: nat :| Says(c, front, kind, i);
    var j: nat :| DatesFrom(c, front, kind, j);
    assert Says(c, events, kind, i);
    TimeStays(events, kind, j);
    assert DatesFrom(c, events, kind, j);
  }

  lemma TimeStays(events: seq<Event>, kind: string, j: nat)
    requires events != [] && FirstTimed(events[..|events| - 1], kind, j)
    requires var e := events[|events| - 1].update; e.kind == kind ==> e.status == events[j].update.status
    ensures FirstTimed(events, kind, j)
  {
    var front := events[..|events| - 1];
    forall k | j <= k < |events| && events[k].update.kind == kind ensures events[k].update.status == events[j].update.status {
      if k < |front| { assert front[k] == events[k]; }
    }
    forall i: nat | i < j && SameSince(events, kind, i) ensures events[i].update.since.Blank? {
      SameInFront(events, kind, i);
    }
  }

  lemma SameInFront(events: seq<Event>, kind: string, i: nat)
    requires i + 1 < |events| && SameSince(events, kind, i)
    ensures SameSince(events[..|events| - 1], kind, i)
  {
    var front := events[..|events| - 1];
    assert forall k | i <= k < |front| :: front[k] == events[k];
  }

  lemma FollowsChange(events: seq<Event>, previous: Option<Condition>)
    requires events != []
    requires var e := events[|events| - 1];
             if previous.None? then !Mentions(events[..|events| - 1], e.update.kind) else Follows(previous.value, events[..|events| - 1], e.update.kind)
    ensures var e := events[|events| - 1]; Follows(Stored(previous, e.update, e.generation, e.now), events, e.update.kind)
  {
    var n := |events| - 1;
    var front := events[..n];
    var e := events[n];
    var kind := e.update.kind;
    var c := Stored(previous, e.update, e.generation, e.now);
    assert Says(c, events, kind, n);
    if previous.Some? && previous.value.status == e.update.status {
      var j: nat :| DatesFrom(previous.value, front, kind, j);
      if previous.value.since.At? {
        TimeStays(events, kind, j);
        assert DatesFrom(c, events, kind, j);
      } else {
        BlankBefore(events, kind, j);
        assert DatesFrom(c, events, kind, n);
      }
    } else {
      if previous.Some? {
        forall i: nat | i < n ensures !SameSince(events, kind, i) {
          ChangedHere(events, previous.value, kind, i);
        }
      }
      assert forall i | 0 <= i < n && events[i].update.kind == kind :: front[i].update.kind == kind;
      assert DatesFrom(c, events, kind, n);
    }
  }

  /** Where the last event changes the status, no earlier one has given the present one. */
  lemma ChangedHere(events: seq<Event>, previous: Condition, kind: string, i: nat)
    requires i + 1 < |events| && Follows(previous, events[..|events| - 1], kind)
    requires events[|events| - 1].update.kind == kind && events[|events| - 1].update.status != previous.status
    ensures !SameSince(events, kind, i)
  {
    var front := events[..|events| - 1];
    var k: nat :| Says(previous, front, kind, k);
    assert front[i].update.kind == kind ==> i <= k;
    assert events[k].update.status == previous.status;
  }

  /** If all times since the last change were empty, the last event brings the first one. */
  lemma BlankBefore(events: seq<Event>, kind: string, j: nat)
    requires events != [] && events[|events| - 1].update.kind == kind && FirstTimed(events[..|events| - 1], kind, j)
    requires forall k | j <= k < |events| - 1 && events[k].update.kind == kind :: events[k].update.since.Blank?
    ensures FirstTimed(events, kind, |events| - 1)
  {
    forall i: nat | i < |events| - 1 && SameSince(events, kind, i) ensures events[i].update.since.Blank? {
      SameInFront(events, kind, i);
    }
  }

  /**
    After any history of merges that began with an empty list, a type is present exactly if it was
    ever mentioned; it says what its last update says; and its transition time is the one stamped when
    its status last changed, whatever reason, message and generation did since. An update may bring an
    empty time; it lasts only until the next update of that status brings one.
   */
  lemma {:induction false} History(events: seq<Event>, kind: string)
    ensures Distinct(Merged([], events))
    ensures Find(Merged([], events), kind).Some? <==> Mentions(events, kind)
    ensures Mentions(events, kind) ==> Follows(Find(Merged([], events), kind).value, events, kind)
  {
    MergedDistinct([], events);
    if events != [] {
      var front := events[..|events| - 1];
      var e := events[|events| - 1];
      var previous := Find(Merged([], front), e.update.kind);
      History(front, kind);
      PutFinds(Merged([], front), Stored(previous, e.update, e.generation, e.now), kind);
      if e.update.kind == kind {
        assert events[|events| - 1].update.kind == kind;
        FollowsChange(events, previous);
      } else {
        MentionsInFront(events, kind);
        if Mentions(events, kind) { FollowsOther(Find(Merged([], front), kind).value, events, kind); }
      }
    }
  }

  // ---------- the staged patch of a handler ----------

  /** `{item["type"]: item for item in items}`, with an empty type like any other. */
  function Dictionary(items: seq<Condition>): Dict {
    if items == [] then [] else Put(Dictionary(items[..|items| - 1]), items[|items| - 1])
  }

  function Kept(d: Dict): Dict {
    if d == [] then [] else if d[0].kind == "" then Kept(d[1..]) else [d[0]] + Kept(d[1..])
  }

  lemma {:induction false} KeptPut(d: Dict, c: Condition)
    ensures Kept(Put(d, c)) == if c.kind == "" then Kept(d) else Put(Kept(d), c)
  {
    if d != [] {
      KeptPut(d[1..], c);
      var rest := Put(d[1..], c);
      assert ([d[0]] + rest)[1..] == rest && ([c] + d[1..])[1..] == d[1..];
      if d[0].kind != "" { assert ([d[0]] + Kept(d[1..]))[1..] == Kept(d[1..]); }
    }
  }

  lemma {:induction false} KeptDictionary(items: seq<Condition>)
    ensures Kept(Dictionary(items)) == Indexed(items) && Distinct(Dictionary(items))
  {
    if items != [] {
      var front := items[..|items| - 1];
      KeptDictionary(front);
      KeptPut(Dictionary(front), items[|items| - 1]);
      PutDistinct(Dictionary(front), items[|items| - 1]);
    }
  }

  lemma {:induction false} KeptConcat(a: Dict, b: Dict)
    ensures Kept(a + b) == Kept(a) + Kept(b)
  {
    if a == [] {
      assert a + b == b;
    } else {
      assert (a + b)[1..] == a[1..] + b;
      KeptConcat(a[1..], b);
    }
  }

  lemma {:induction false} KeptIsIn(d: Dict, kind: string)
    requires forall c | c in d :: c.kind != kind
    ensures Find(Kept(d), kind).None?
  {
    if d != [] {
      assert d[0] in d;
      KeptIsIn(d[1..], kind);
      assert ([d[0]] + Kept(d[1..]))[1..] == Kept(d[1..]);
    }
  }

  lemma {:induction false} IndexedIsKept(d: Dict)
    requires Distinct(d)
    ensures Indexed(d) == Kept(d)
  {
    if d != [] {
      var n := |d| - 1;
      IndexedIsKept(d[..n]);
      assert d == d[..n] + [d[n]];
      KeptConcat(d[..n], [d[n]]);
      assert Kept([d[n]]) == if d[n].kind == "" then [] else [d[n]];
      KeptIsIn(d[..n], d[n].kind);
      if d[n].kind != "" { PutAtEnd(Kept(d[..n]), d[n]); }
    }
  }

  /** Indexing twice is indexing once. */
  lemma IndexedDictionary(items: seq<Condition>)
    ensures Indexed(Dictionary(items)) == Indexed(items)
  {
    KeptDictionary(items);
    IndexedIsKept(Dictionary(items));
  }

  /** `patch_conditions`: updates on top of what is stored and of what this handler has staged before. */
  method PatchConditions(stored: seq<Condition>, staged: seq<Condition>, updates: seq<Condition>, generation: Option<int>, times: seq<int>)
    returns (staged': seq<Condition>)
    requires |updates| == |times|
    ensures staged' == Merged(Indexed(stored + staged), Events(updates, generation, times))
  {
    var items := stored + staged;
    var existing := [];
    for i := 0 to |items|
      invariant existing == Dictionary(items[..i])
    {
      assert items[..i + 1][..i] == items[..i];
      existing := Put(existing, items[i]);
    }
    assert items[..|items|] == items;
    IndexedDictionary(items);
    staged' := MergeConditions(existing, updates, generation, times);
  }

  predicate Named(items: seq<Condition>) {
    forall c | c in items :: c.kind != ""
  }

  lemma {:induction false} PutAtEnd(d: Dict, c: Condition)
    requires Find(d, c.kind).None?
    ensures Put(d, c) == d + [c]
  {
    if d != [] { PutAtEnd(d[1..], c); }
  }

  lemma {:induction false} PutInPlace(a: Dict, old_: Condition, b: Dict, c: Condition)
    requires Find(a, c.kind).None? && old_.kind == c.kind
    ensures Put(a + [old_] + b, c) == a + [c] + b
  {
    var d := a + [old_] + b;
    if a == [] {
      assert d[0] == old_ && d[1..] == b;
    } else {
      assert d[0] == a[0] && d[1..] == a[1..] + [old_] + b;
      PutInPlace(a[1..], old_, b, c);
    }
  }

  lemma NotBefore(d: Dict, k: nat)
    requires Distinct(d) && k < |d|
    ensures Find(d[..k], d[k].kind).None?
  {
    FindIsIn(d[..k], d[k].kind);
  }

  lemma {:induction false} KindsAt(d: Dict)
    ensures |Kinds(d)| == |d| && forall i | 0 <= i < |d| :: Kinds(d)[i] == d[i].kind
  {
    if d != [] { KindsAt(d[1..]); }
  }

  function Overlaid(d: Dict, base: Dict, k: nat): Dict
    requires k <= |d|
  {
    d[..k] + if k <= |base| then base[k..] else []
  }

  lemma OverlayInPlace(d: Dict, base: Dict, k: nat)
    requires Distinct(d) && k < |d| && k < |base| && base[k].kind == d[k].kind
    ensures Put(d[..k] + base[k..], d[k]) == d[..k + 1] + base[k + 1..]
  {
    NotBefore(d, k);
    PutInPlace(d[..k], base[k], base[k + 1..], d[k]);
    assert d[..k] + base[k..] == d[..k] + [base[k]] + base[k + 1..];
    assert d[..k + 1] + base[k + 1..] == d[..k] + [d[k]] + base[k + 1..];
  }

  lemma OverlayAtEnd(d: Dict, k: nat)
    requires Distinct(d) && k < |d|
    ensures Put(d[..k], d[k]) == d[..k + 1]
  {
    NotBefore(d, k);
    PutAtEnd(d[..k], d[k]);
  }

  lemma OverlayStep(d: Dict, base: Dict, k: nat)
    requires Distinct(d) && k < |d| && Kinds(base) <= Kinds(d)
    ensures Put(Overlaid(d, base, k), d[k]) == Overlaid(d, base, k + 1)
  {
    if k < |base| {
      KindsAt(base);
      KindsAt(d);
      assert Kinds(base)[k] == Kinds(d)[k];
      OverlayInPlace(d, base, k);
    } else {
      OverlayAtEnd(d, k);
      assert Overlaid(d, base, k) == d[..k] && Overlaid(d, base, k + 1) == d[..k + 1];
    }
  }

  /** Indexing what is stored and then a dictionary that covers it in the same order gives that dictionary. */
  lemma {:induction false} IndexedOver(stored: seq<Condition>, d: Dict, k: nat)
    requires Distinct(d) && Named(d) && k <= |d| && Kinds(Indexed(stored)) <= Kinds(d)
    ensures Indexed(stored + d[..k]) == Overlaid(d, Indexed(stored), k)
  {
    if k == 0 {
      assert stored + d[..0] == stored;
    } else {
      var items := stored + d[..k];
      IndexedOver(stored, d, k - 1);
      assert items[..|items| - 1] == stored + d[..k - 1];
      assert items[|items| - 1] == d[k - 1] && d[k - 1] in d;
      OverlayStep(d, Indexed(stored), k - 1);
    }
  }

  lemma IndexedAll(stored: seq<Condition>, d: Dict)
    requires Distinct(d) && Named(d) && Kinds(Indexed(stored)) <= Kinds(d)
    ensures Indexed(stored + d) == d
  {
    IndexedOver(stored, d, |d|);
    KindsAt(Indexed(stored));
    KindsAt(d);
    assert d[..|d|] == d;
  }

  lemma {:induction false} IndexedNamed(items: seq<Condition>)
    ensures Named(Indexed(items))
  {
    if items != [] {
      var front := Indexed(items[..|items| - 1]);
      IndexedNamed(items[..|items| - 1]);
      IndexedDistinct(items[..|items| - 1]);
      PutDistinct(front, items[|items| - 1]);
    }
  }

  lemma {:induction false} MergedNamed(d: Dict, events: seq<Event>)
    requires Distinct(d) && Named(d) && forall e | e in events :: e.update.kind != ""
    ensures Named(Merged(d, events))
  {
    if events != [] {
      var front := Merged(d, events[..|events| - 1]);
      var e := events[|events| - 1];
      MergedNamed(d, events[..|events| - 1]);
      MergedDistinct(d, events[..|events| - 1]);
      PutDistinct(front, Stored(Find(front, e.update.kind), e.update, e.generation, e.now));
    }
  }

  /**
    Two rounds of `patch_conditions` in one handler are one round with both updates: neither what is
    stored nor what was staged before is lost, reordered or stamped anew.
   */
  lemma PatchTwice(stored: seq<Condition>, a: seq<Event>, b: seq<Event>)
    requires forall e | e in a :: e.update.kind != ""
    ensures var staged := Merged(Indexed(stored), a);
            Merged(Indexed(stored + staged), b) == Merged(Indexed(stored), a + b)
  {
    var base := Indexed(stored);
    var staged := Merged(base, a);
    IndexedDistinct(stored);
    IndexedNamed(stored);
    MergedDistinct(base, a);
    MergedNamed(base, a);
    AbsentTypesKept(base, a, "");
    IndexedAll(stored, staged);
    MergedConcat(base, a, b);
  }
}
