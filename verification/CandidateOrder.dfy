/** The order in which host candidates are tried: ready ones first, then by name (inventory.py). */
module CandidateOrder {
  import opened Wrappers
  import opened Protocol

  /** Code-point order of strings. */
  predicate StringLe(a: string, b: string) {
    a == [] || (b != [] && (a[0] < b[0] || (a[0] == b[0] && StringLe(a[1..], b[1..]))))
  }

  lemma {:induction false} StringLeTotal(a: string, b: string)
    ensures StringLe(a, b) || StringLe(b, a)
  {
    if a != [] && b != [] && a[0] == b[0] { StringLeTotal(a[1..], b[1..]); }
  }

  lemma {:induction false} StringLeTransitive(a: string, b: string, c: string)
    requires StringLe(a, b) && StringLe(b, c)
    ensures StringLe(a, c)
  {
    if a != [] && a[0] == b[0] == c[0] { StringLeTransitive(a[1..], b[1..], c[1..]); }
  }

  /** sorted() by (ready is not True, name). */
  predicate Le(a: HostObject, b: HostObject) {
    var ready, ready' := a.ready == Some(true), b.ready == Some(true);
    if ready != ready' then ready else StringLe(a.name, b.name)
  }

  lemma LeTotal(a: HostObject, b: HostObject)
    ensures Le(a, b) || Le(b, a)
  {
    StringLeTotal(a.name, b.name);
  }

  lemma LeTransitive(a: HostObject, b: HostObject, c: HostObject)
    requires Le(a, b) && Le(b, c)
    ensures Le(a, c)
  {
    if StringLe(a.name, b.name) && StringLe(b.name, c.name) { StringLeTransitive(a.name, b.name, c.name); }
  }

  /** Each once, in order. */
  predicate Ordered(hosts: map<HostId, HostObject>, ids: seq<HostId>) {
    && (forall i | 0 <= i < |ids| :: ids[i] in hosts)
    && (forall i, j | 0 <= i < j < |ids| :: ids[i] in hosts && ids[j] in hosts && ids[i] != ids[j] && Le(hosts[ids[i]], hosts[ids[j]]))
  }

  /** Put one more candidate in its place. */
  method Insert(hosts: map<HostId, HostObject>, ids: seq<HostId>, h: HostId) returns (ids': seq<HostId>)
    requires Ordered(hosts, ids) && h in hosts && h !in ids
    ensures Ordered(hosts, ids')
    ensures forall g :: g in ids' <==> g in ids || g == h
  {
    var i := 0;
    while i < |ids| && Le(hosts[ids[i]], hosts[h])
      invariant i <= |ids|
      invariant forall j | 0 <= j < i :: Le(hosts[ids[j]], hosts[h])
    {
      i := i + 1;
    }
    ids' := ids[..i] + [h] + ids[i..];
    Inserted(hosts, ids, i, h);
  }

  lemma Inserted(hosts: map<HostId, HostObject>, ids: seq<HostId>, i: nat, h: HostId)
    requires Ordered(hosts, ids) && h in hosts && h !in ids && i <= |ids|
    requires forall j | 0 <= j < i :: Le(hosts[ids[j]], hosts[h])
    requires i < |ids| ==> !Le(hosts[ids[i]], hosts[h])
    ensures Ordered(hosts, ids[..i] + [h] + ids[i..])
    ensures forall g :: g in ids[..i] + [h] + ids[i..] <==> g in ids || g == h
  {
    InsertedAt(ids, i, h);
    forall j | i <= j < |ids| ensures Le(hosts[h], hosts[ids[j]]) {
      NotAfter(hosts, ids, i, j, h);
    }
    InOrder(hosts, ids, i, h, ids[..i] + [h] + ids[i..]);
  }

  /** What stands at position `j` after `h` was put at position `i`. */
  predicate InsertedIs(ids: seq<HostId>, i: nat, h: HostId, ids': seq<HostId>, j: int) {
    && i <= |ids| && |ids'| == |ids| + 1
    && (0 <= j < |ids'| ==> ids'[j] == if j < i then ids[j] else if j == i then h else ids[j - 1])
  }

  lemma InsertedAt(ids: seq<HostId>, i: nat, h: HostId)
    requires i <= |ids|
    ensures var ids' := ids[..i] + [h] + ids[i..];
            && |ids'| == |ids| + 1
            && (forall j | 0 <= j < |ids'| :: InsertedIs(ids, i, h, ids', j))
            && (forall g :: g in ids' <==> g in ids || g == h)
  {
    assert ids == ids[..i] + ids[i..];
  }

  lemma NotAfter(hosts: map<HostId, HostObject>, ids: seq<HostId>, i: nat, j: nat, h: HostId)
    requires Ordered(hosts, ids) && h in hosts && i <= j < |ids| && !Le(hosts[ids[i]], hosts[h])
    ensures Le(hosts[h], hosts[ids[j]])
  {
    LeTotal(hosts[h], hosts[ids[i]]);
    if i < j { LeTransitive(hosts[h], hosts[ids[i]], hosts[ids[j]]); }
  }

  lemma InOrder(hosts: map<HostId, HostObject>, ids: seq<HostId>, i: nat, h: HostId, ids': seq<HostId>)
    requires Ordered(hosts, ids) && h in hosts && h !in ids && i <= |ids|
    requires forall j | 0 <= j < i :: Le(hosts[ids[j]], hosts[h])
    requires forall j | i <= j < |ids| :: Le(hosts[h], hosts[ids[j]])
    requires |ids'| == |ids| + 1 && forall j | 0 <= j < |ids'| :: InsertedIs(ids, i, h, ids', j)
    ensures Ordered(hosts, ids')
  {
    forall j | 0 <= j < |ids'| ensures ids'[j] in hosts {
      assert InsertedIs(ids, i, h, ids', j);
    }
    forall j, k | 0 <= j < k < |ids'|
      ensures ids'[j] in hosts && ids'[k] in hosts && ids'[j] != ids'[k] && Le(hosts[ids'[j]], hosts[ids'[k]])
    {
      assert InsertedIs(ids, i, h, ids', j) && InsertedIs(ids, i, h, ids', k);
    }
  }

  /** All candidates in the order in which they are tried. */
  method SortCandidates(hosts: map<HostId, HostObject>) returns (ids: seq<HostId>)
    ensures Ordered(hosts, ids)
    ensures forall h :: h in ids <==> h in hosts
  {
    ids := [];
    var rest := hosts.Keys;
    while rest != {}
      invariant rest <= hosts.Keys && Ordered(hosts, ids)
      invariant forall h :: h in ids <==> h in hosts && h !in rest
      decreases rest
    {
      var h :| h in rest;
      ids := Insert(hosts, ids, h);
      rest := rest - {h};
    }
  }
}
