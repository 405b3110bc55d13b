/**
  Provider-ID and external-etcd arguments in kubeadm documents (controllers/sshmachine.py).

  Documents are parsed YAML. A mapping is a Dafny map: like the equality of Python dictionaries, and
  unlike the rendered text, it does not see the order of the keys.
 */
module Kubeadm {
  import opened Wrappers

  datatype Yaml =
    | Null
    | Text(text: string)
    | Atom(id: nat)        // a number, a boolean, a date
    | List(items: seq<Yaml>)
    | Map(fields: map<string, Yaml>)

  /** `Rejected` is a PermanentError. */
  datatype Result<+T> = Ok(value: T) | Rejected

  type Fields = map<string, Yaml>

  /** The arguments to set, in order, each name once. */
  type Desired = seq<(string, string)>

  const V1BETA3 := Text("kubeadm.k8s.io/v1beta3")
  const V1BETA4 := Text("kubeadm.k8s.io/v1beta4")

  predicate Names(desired: Desired, name: string) {
    exists i :: 0 <= i < |desired| && desired[i].0 == name
  }

  predicate NamesOnce(desired: Desired) {
    forall i, j | 0 <= i < j < |desired| :: desired[i].0 != desired[j].0
  }

  // ---------- argument lists and maps ----------

  function Get(fields: Fields, key: string, default: Yaml): Yaml {
    if key in fields then fields[key] else default
  }

  /** `{"name": ..., "value": ...}`, possibly with more fields. */
  predicate IsArg(y: Yaml) {
    && y.Map? && "name" in y.fields && y.fields["name"].Text?
    && "value" in y.fields && y.fields["value"].Text?
  }

  function MakeArg(name: string, value: string): Yaml {
    Map(map["name" := Text(name), "value" := Text(value)])
  }

  predicate AllArgs(args: seq<Yaml>) {
    forall arg | arg in args :: IsArg(arg)
  }

  /** The arguments that are not to be set, in their order. */
  function Unrelated(args: seq<Yaml>, desired: Desired): (r: seq<Yaml>)
    requires AllArgs(args)
    ensures AllArgs(r)
  {
    if args == [] then []
    else
      assert args[0] in args;
      var rest := Unrelated(args[1..], desired);
      if Names(desired, args[0].fields["name"].text) then rest else [args[0]] + rest
  }

  function Rendered(desired: Desired): (r: seq<Yaml>)
    ensures |r| == |desired| && AllArgs(r)
    ensures forall i | 0 <= i < |r| :: r[i] == MakeArg(desired[i].0, desired[i].1)
  {
    if desired == [] then [] else [MakeArg(desired[0].0, desired[0].1)] + Rendered(desired[1..])
  }

  /** `dict.update` */
  function Updated(args: Fields, desired: Desired): Fields {
    if desired == [] then args else Updated(args, desired[..|desired| - 1])[desired[|desired| - 1].0 := Text(desired[|desired| - 1].1)]
  }

  /** What `setdefault` puts there. */
  function NoArgs(version: Yaml): Yaml {
    if version == V1BETA4 then List([]) else Map(map[])
  }

  /** The new content of the argument field, in the shape that the API version asks for. */
  function NewArgs(version: Yaml, args: Option<Yaml>, desired: Desired): Result<Yaml> {
    if version == V1BETA4 then
      var present := if args.Some? then args.value else NoArgs(version);
      if present.List? && AllArgs(present.items) then Ok(List(Unrelated(present.items, desired) + Rendered(desired))) else Rejected
    else if version == V1BETA3 then
      var present := if args.Some? then args.value else NoArgs(version);
      if present.Map? then Ok(Map(Updated(present.fields, desired))) else Rejected
    else Rejected
  }

  /** `_set_kubeadm_args`: the parent with the new field, and whether the field differs from before. */
  function SetArgs(version: Yaml, parent: Fields, field: string, desired: Desired): Result<(Fields, bool)> {
    var before := if field in parent then Some(parent[field]) else None;
    var args := NewArgs(version, before, desired);
    if args.Ok? then Ok((parent[field := args.value], before != Some(args.value))) else Rejected
  }

  // ---------- what kubeadm reads from them ----------

  function NamedIn(args: seq<Yaml>, name: string): seq<Yaml>
    requires AllArgs(args)
  {
    if args == [] then []
    else
      assert args[0] in args;
      var rest := NamedIn(args[1..], name);
      if args[0].fields["name"].text == name then [args[0].fields["value"]] + rest else rest
  }

  /** All values given to an argument, in order, in either shape; nothing where the field has no such shape. */
  function Values(version: Yaml, parent: Fields, field: string, name: string): seq<Yaml> {
    if field !in parent then []
    else if version == V1BETA4 then
      if parent[field].List? && AllArgs(parent[field].items) then NamedIn(parent[field].items, name) else []
    else if parent[field].Map? && name in parent[field].fields then [parent[field].fields[name]]
    else []
  }

  lemma {:induction false} NamedConcat(a: seq<Yaml>, b: seq<Yaml>, name: string)
    requires AllArgs(a) && AllArgs(b)
    ensures AllArgs(a + b) && NamedIn(a + b, name) == NamedIn(a, name) + NamedIn(b, name)
  {
    if a == [] {
      assert a + b == b;
    } else {
      assert (a + b)[1..] == a[1..] + b;
      NamedConcat(a[1..], b, name);
    }
  }

  lemma {:induction false} UnrelatedNamed(args: seq<Yaml>, desired: Desired, name: string)
    requires AllArgs(args)
    ensures NamedIn(Unrelated(args, desired), name) == if Names(desired, name) then [] else NamedIn(args, name)
  {
    if args != [] {
      assert args[0] in args;
      UnrelatedNamed(args[1..], desired, name);
      var rest := Unrelated(args[1..], desired);
      assert ([args[0]] + rest)[1..] == rest;
    }
  }

  lemma NamesTail(desired: Desired, name: string)
    requires desired != []
    ensures Names(desired, name) <==> desired[0].0 == name || Names(desired[1..], name)
  {
    if Names(desired, name) && desired[0].0 != name {
      var k :| 0 <= k < |desired| && desired[k].0 == name;
      assert desired[1..][k - 1].0 == name;
    }
    if Names(desired[1..], name) {
      var k :| 0 <= k < |desired| - 1 && desired[1..][k].0 == name;
      assert desired[k + 1].0 == name;
    }
  }

  lemma {:induction false} RenderedOthers(desired: Desired, name: string)
    requires !Names(desired, name)
    ensures NamedIn(Rendered(desired), name) == []
  {
    if desired != [] {
      NamesTail(desired, name);
      assert Rendered(desired)[1..] == Rendered(desired[1..]);
      RenderedOthers(desired[1..], name);
    }
  }

  lemma {:induction false} RenderedNamed(desired: Desired, i: nat)
    requires NamesOnce(desired) && i < |desired|
    ensures NamedIn(Rendered(desired), desired[i].0) == [Text(desired[i].1)]
  {
    var rest := desired[1..];
    assert Rendered(desired)[1..] == Rendered(rest);
    if i == 0 {
      RenderedOthers(rest, desired[0].0);
    } else {
      assert rest[i - 1] == desired[i];
      RenderedNamed(rest, i - 1);
    }
  }

  lemma {:induction false} UpdatedAt(args: Fields, desired: Desired, name: string)
    requires NamesOnce(desired)
    ensures !Names(desired, name) ==> (name in Updated(args, desired) <==> name in args) && (name in args ==> Updated(args, desired)[name] == args[name])
    ensures forall i | 0 <= i < |desired| && desired[i].0 == name :: name in Updated(args, desired) && Updated(args, desired)[name] == Text(desired[i].1)
  {
    if desired != [] {
      var front := desired[..|desired| - 1];
      UpdatedAt(args, front, name);
      if Names(front, name) {
        var k :| 0 <= k < |front| && front[k].0 == name;
        assert desired[k].0 == name;
      }
      forall i | 0 <= i < |desired| && desired[i].0 == name
        ensures name in Updated(args, desired) && Updated(args, desired)[name] == Text(desired[i].1)
      {
        if i < |front| { assert front[i] == desired[i]; }
      }
    }
  }

  lemma {:induction false} UnrelatedConcat(a: seq<Yaml>, b: seq<Yaml>, desired: Desired)
    requires AllArgs(a) && AllArgs(b)
    ensures AllArgs(a + b) && Unrelated(a + b, desired) == Unrelated(a, desired) + Unrelated(b, desired)
  {
    if a == [] {
      assert a + b == b;
    } else {
      assert (a + b)[1..] == a[1..] + b;
      UnrelatedConcat(a[1..], b, desired);
    }
  }

  lemma {:induction false} UnrelatedTwice(args: seq<Yaml>, desired: Desired)
    requires AllArgs(args)
    ensures Unrelated(Unrelated(args, desired), desired) == Unrelated(args, desired)
  {
    if args != [] {
      assert args[0] in args;
      UnrelatedTwice(args[1..], desired);
      var rest := Unrelated(args[1..], desired);
      assert ([args[0]] + rest)[1..] == rest;
    }
  }

  lemma {:induction false} RenderedUnrelated(part: Desired, desired: Desired)
    requires forall i | 0 <= i < |part| :: Names(desired, part[i].0)
    ensures Unrelated(Rendered(part), desired) == []
  {
    if part != [] {
      assert Rendered(part)[1..] == Rendered(part[1..]);
      RenderedUnrelated(part[1..], desired);
    }
  }

  /** The new list keeps the unrelated arguments, each as often and in the same order. */
  lemma UnrelatedKept(args: seq<Yaml>, desired: Desired)
    requires AllArgs(args)
    ensures var after := Unrelated(args, desired) + Rendered(desired);
            AllArgs(after) && Unrelated(after, desired) == Unrelated(args, desired)
  {
    forall i | 0 <= i < |desired| ensures Names(desired, desired[i].0) {
    }
    UnrelatedConcat(Unrelated(args, desired), Rendered(desired), desired);
    UnrelatedTwice(args, desired);
    RenderedUnrelated(desired, desired);
  }

  lemma UpdatedTwice(args: Fields, desired: Desired)
    requires NamesOnce(desired)
    ensures Updated(Updated(args, desired), desired) == Updated(args, desired)
  {
    var once := Updated(args, desired);
    var twice := Updated(once, desired);
    forall name ensures (name in twice <==> name in once) && (name in once ==> twice[name] == once[name]) {
      UpdatedAt(args, desired, name);
      UpdatedAt(once, desired, name);
    }
    assert twice.Keys == once.Keys;
  }

  /** The argument field without the arguments to set. */
  function Rest(args: Yaml, desired: Desired): Yaml {
    match args
    case List(items) => if AllArgs(items) then List(Unrelated(items, desired)) else args
    case Map(fields) => Map(map name | name in fields && !Names(desired, name) :: fields[name])
    case _ => args
  }

  /** Every argument to set has exactly its value, once; every other one has what it had; nothing else moved. */
  predicate ArgsSet(version: Yaml, parent: Fields, parent': Fields, field: string, desired: Desired)
  {
    && field in parent'
    && (forall i | 0 <= i < |desired| :: Values(version, parent', field, desired[i].0) == [Text(desired[i].1)])
    && Rest(parent'[field], desired) == Rest(Get(parent, field, NoArgs(version)), desired)
    && parent' - {field} == parent - {field}
  }

  lemma ListSet(parent: Fields, field: string, desired: Desired)
    requires NamesOnce(desired) && SetArgs(V1BETA4, parent, field, desired).Ok?
    ensures var parent' := SetArgs(V1BETA4, parent, field, desired).value.0;
            ArgsSet(V1BETA4, parent, parent', field, desired) && NewArgs(V1BETA4, Some(parent'[field]), desired) == Ok(parent'[field])
  {
    var parent' := SetArgs(V1BETA4, parent, field, desired).value.0;
    var items := if field in parent then parent[field].items else [];
    UnrelatedKept(items, desired);
    forall i | 0 <= i < |desired| ensures Values(V1BETA4, parent', field, desired[i].0) == [Text(desired[i].1)] {
      var name := desired[i].0;
      NamedConcat(Unrelated(items, desired), Rendered(desired), name);
      UnrelatedNamed(items, desired, name);
      RenderedNamed(desired, i);
    }
  }

  lemma MapSet(parent: Fields, field: string, desired: Desired)
    requires NamesOnce(desired) && SetArgs(V1BETA3, parent, field, desired).Ok?
    ensures var parent' := SetArgs(V1BETA3, parent, field, desired).value.0;
            ArgsSet(V1BETA3, parent, parent', field, desired) && NewArgs(V1BETA3, Some(parent'[field]), desired) == Ok(parent'[field])
  {
    var parent' := SetArgs(V1BETA3, parent, field, desired).value.0;
    var fields := if field in parent then parent[field].fields else map[];
    UpdatedTwice(fields, desired);
    RestOfUpdated(fields, desired);
    forall i | 0 <= i < |desired| ensures Values(V1BETA3, parent', field, desired[i].0) == [Text(desired[i].1)] {
      UpdatedAt(fields, desired, desired[i].0);
    }
  }

  lemma RestOfUpdated(fields: Fields, desired: Desired)
    requires NamesOnce(desired)
    ensures Rest(Map(Updated(fields, desired)), desired) == Rest(Map(fields), desired)
  {
    var after := Updated(fields, desired);
    var was := map name | name in fields && !Names(desired, name) :: fields[name];
    var is_ := map name | name in after && !Names(desired, name) :: after[name];
    forall name ensures (name in was <==> name in is_) && (name in was ==> was[name] == is_[name]) {
      UpdatedAt(fields, desired, name);
    }
    assert was.Keys == is_.Keys;
  }

  /** Setting the arguments does what it should, and doing it again changes nothing. */
  lemma SetArgsMeets(version: Yaml, parent: Fields, field: string, desired: Desired)
    requires NamesOnce(desired) && SetArgs(version, parent, field, desired).Ok?
    ensures var (parent', changed) := SetArgs(version, parent, field, desired).value;
            && ArgsSet(version, parent, parent', field, desired)
            && SetArgs(version, parent', field, desired) == Ok((parent', false))
            && (changed <==> parent' != parent)
  {
    if version == V1BETA4 { ListSet(parent, field, desired); } else { MapSet(parent, field, desired); }
    var parent' := SetArgs(version, parent, field, desired).value.0;
    assert parent'[field := parent'[field]] == parent';
    if field in parent && parent'[field] == parent[field] { assert parent' == parent; }
  }

  // ---------- documents ----------

  /** A normalized external etcd configuration. */
  datatype Etcd = Etcd(endpoints: seq<string>, servers: string, caFile: string, certFile: string, keyFile: string)

  /** The two patches of a bootstrap payload. */
  datatype Patch = ProviderId(id: string) | ExternalEtcd(etcd: Etcd)

  /** A document after a patch: whether it is of the kind that the patch is about, and whether it changed. */
  datatype Patched = Patched(doc: Yaml, saw: bool, changed: bool)

  predicate IsKind(doc: Yaml, kinds: set<string>) {
    doc.Map? && "kind" in doc.fields && doc.fields["kind"].Text? && doc.fields["kind"].text in kinds
  }

  function Version(doc: Yaml): Yaml {
    if doc.Map? then Get(doc.fields, "apiVersion", Null) else Null
  }

  function Wanted(patch: Patch): (desired: Desired)
    ensures NamesOnce(desired)
  {
    match patch
    case ProviderId(id) => [("provider-id", id)]
    case ExternalEtcd(e) =>
      [("etcd-servers", e.servers), ("etcd-cafile", e.caFile), ("etcd-certfile", e.certFile), ("etcd-keyfile", e.keyFile)]
  }

  function TextList(texts: seq<string>): seq<Yaml> {
    seq(|texts|, i requires 0 <= i < |texts| => Text(texts[i]))
  }

  function EtcdSection(e: Etcd): Yaml {
    Map(map["external" := Map(map[
      "endpoints" := List(TextList(e.endpoints)), "caFile" := Text(e.caFile), "certFile" := Text(e.certFile), "keyFile" := Text(e.keyFile)])])
  }

  /** Where a patch puts its arguments: a section of the document, and a field in it. */
  function Section(patch: Patch): string {
    if patch.ProviderId? then "nodeRegistration" else "apiServer"
  }

  function ArgsField(patch: Patch): string {
    if patch.ProviderId? then "kubeletExtraArgs" else "extraArgs"
  }

  predicate Concerns(patch: Patch, doc: Yaml) {
    if patch.ProviderId? then IsKind(doc, {"InitConfiguration", "JoinConfiguration"}) else IsKind(doc, {"ClusterConfiguration"})
  }

  /** A control-plane join needs the certificates, but its arguments come from the existing cluster. */
  predicate ControlPlaneJoin(doc: Yaml) {
    IsKind(doc, {"JoinConfiguration"}) && "controlPlane" in doc.fields
  }

  /** The section with its arguments set. */
  function WithSection(patch: Patch, doc: Yaml): Result<Patched>
    requires doc.Map?
  {
    var section := Get(doc.fields, Section(patch), Map(map[]));
    if !section.Map? then Rejected
    else
      var set_ := SetArgs(Version(doc), section.fields, ArgsField(patch), Wanted(patch));
      if set_.Rejected? then Rejected
      else Ok(Patched(Map(doc.fields[Section(patch) := Map(set_.value.0)]), true, set_.value.1))
  }

  function WithEtcd(patch: Patch, p: Patched): Patched
    requires p.doc.Map?
  {
    if patch.ProviderId? || ("etcd" in p.doc.fields && p.doc.fields["etcd"] == EtcdSection(patch.etcd)) then p
    else Patched(Map(p.doc.fields["etcd" := EtcdSection(patch.etcd)]), p.saw, true)
  }

  function PatchDoc(patch: Patch, doc: Yaml): Result<Patched> {
    if Concerns(patch, doc) then
      var p := WithSection(patch, doc);
      if p.Ok? then Ok(WithEtcd(patch, p.value)) else Rejected
    else if patch.ExternalEtcd? && ControlPlaneJoin(doc) then
      if Version(doc) in {V1BETA3, V1BETA4} then Ok(Patched(doc, true, false)) else Rejected
    else Ok(Patched(doc, false, false))
  }

  /** The document has what the patch is for. */
  predicate Wired(patch: Patch, doc: Yaml) {
    Concerns(patch, doc) ==>
      && Section(patch) in doc.fields && doc.fields[Section(patch)].Map?
      && (forall i | 0 <= i < |Wanted(patch)| ::
            Values(Version(doc), doc.fields[Section(patch)].fields, ArgsField(patch), Wanted(patch)[i].0) == [Text(Wanted(patch)[i].1)])
      && (patch.ExternalEtcd? ==> "etcd" in doc.fields && doc.fields["etcd"] == EtcdSection(patch.etcd))
  }

  function Sections(patch: Patch): set<string> {
    if patch.ProviderId? then {Section(patch)} else {Section(patch), "etcd"}
  }

  /** What a patch leaves alone in a document that it is about. */
  predicate OnlyThere(patch: Patch, doc: Yaml, doc': Yaml) {
    && doc.Map? && doc'.Map?
    && doc'.fields - Sections(patch) == doc.fields - Sections(patch)
    && Section(patch) in doc'.fields && doc'.fields[Section(patch)].Map?
    && Get(doc.fields, Section(patch), Map(map[])).Map?
    && ArgsSet(Version(doc), Get(doc.fields, Section(patch), Map(map[])).fields, doc'.fields[Section(patch)].fields, ArgsField(patch), Wanted(patch))
  }

  /**
    One document. It ends up wired, everything else in it is kept, a document of another kind is not
    touched, and the same patch finds nothing more to do.
   */
  lemma PatchDocMeets(patch: Patch, doc: Yaml)
    requires PatchDoc(patch, doc).Ok?
    ensures var p := PatchDoc(patch, doc).value;
            && Wired(patch, p.doc)
            && (if Concerns(patch, doc) then OnlyThere(patch, doc, p.doc) else p.doc == doc)
            && (Concerns(patch, p.doc) <==> Concerns(patch, doc))
            && (!p.changed ==> p.doc == doc)
            && PatchDoc(patch, p.doc) == Ok(Patched(p.doc, p.saw, false))
  {
    if Concerns(patch, doc) {
      SectionMeets(patch, doc);
      EtcdMeets(patch, WithSection(patch, doc).value);
      var p := WithEtcd(patch, WithSection(patch, doc).value);
      assert WithSection(patch, p.doc) == Ok(Patched(p.doc, true, false)) by { SectionSettled(patch, doc, p.doc); }
    }
  }

  /** The section of an unchanged document is set to what it is. */
  lemma SectionSettled(patch: Patch, doc: Yaml, doc': Yaml)
    requires doc'.Map? && Version(doc') == Version(doc) && Section(patch) in doc'.fields && doc'.fields[Section(patch)].Map?
    requires SetArgs(Version(doc), doc'.fields[Section(patch)].fields, ArgsField(patch), Wanted(patch))
             == Ok((doc'.fields[Section(patch)].fields, false))
    ensures WithSection(patch, doc') == Ok(Patched(doc', true, false))
  {
    assert doc'.fields[Section(patch) := doc'.fields[Section(patch)]] == doc'.fields;
  }

  /** Setting the etcd section keeps the rest and is done after once. */
  lemma EtcdMeets(patch: Patch, s: Patched)
    requires s.doc.Map? && "kind" in s.doc.fields && Section(patch) in s.doc.fields && s.saw
    ensures var p := WithEtcd(patch, s);
            && p.doc.Map? && "kind" in p.doc.fields && p.doc.fields["kind"] == s.doc.fields["kind"] && Version(p.doc) == Version(s.doc)
            && Section(patch) in p.doc.fields && p.doc.fields[Section(patch)] == s.doc.fields[Section(patch)]
            && p.doc.fields - Sections(patch) == s.doc.fields - Sections(patch)
            && (patch.ExternalEtcd? ==> "etcd" in p.doc.fields && p.doc.fields["etcd"] == EtcdSection(patch.etcd))
            && (!p.changed ==> p.doc == s.doc && !s.changed) && p.saw
            && WithEtcd(patch, Patched(p.doc, true, false)) == Patched(p.doc, true, false)
  {
    var p := WithEtcd(patch, s);
    assert p.doc.fields - Sections(patch) == s.doc.fields - Sections(patch);
  }

  lemma SectionMeets(patch: Patch, doc: Yaml)
    requires doc.Map? && "kind" in doc.fields && WithSection(patch, doc).Ok?
    ensures var p := WithSection(patch, doc).value;
            && OnlyThere(patch, doc, p.doc)
            && p.doc.fields["kind"] == doc.fields["kind"] && Version(p.doc) == Version(doc)
            && (!p.changed ==> p.doc == doc)
            && SetArgs(Version(doc), p.doc.fields[Section(patch)].fields, ArgsField(patch), Wanted(patch))
               == Ok((p.doc.fields[Section(patch)].fields, false))
  {
    var section := Get(doc.fields, Section(patch), Map(map[]));
    SetArgsMeets(Version(doc), section.fields, ArgsField(patch), Wanted(patch));
    var p := WithSection(patch, doc).value;
    if !p.changed {
      assert Section(patch) in doc.fields;
      assert p.doc.fields == doc.fields;
    }
    assert p.doc.fields - Sections(patch) == doc.fields - Sections(patch);
  }

  // ---------- all documents of a payload ----------

  datatype Payload = Payload(docs: seq<Yaml>, saw: bool, changed: bool)

  predicate Accepts(patch: Patch, docs: seq<Yaml>) {
    forall i | 0 <= i < |docs| :: PatchDoc(patch, docs[i]).Ok?
  }

  function PatchAll(patch: Patch, docs: seq<Yaml>): Payload
    requires Accepts(patch, docs)
  {
    Payload(
      seq(|docs|, i requires 0 <= i < |docs| => PatchDoc(patch, docs[i]).value.doc),
      exists i :: 0 <= i < |docs| && PatchDoc(patch, docs[i]).value.saw,
      exists i :: 0 <= i < |docs| && PatchDoc(patch, docs[i]).value.changed)
  }

  /** What the patch makes of each document. */
  function Results(patch: Patch, docs: seq<Yaml>): seq<Result<Patched>> {
    seq(|docs|, i requires 0 <= i < |docs| => PatchDoc(patch, docs[i]))
  }

  /** What has been seen and changed after the first `n` documents. */
  predicate Patching(results: seq<Result<Patched>>, was: seq<Yaml>, now: seq<Yaml>, n: nat, saw: bool, changed: bool) {
    && n <= |was| == |now| == |results|
    && (forall k | n <= k < |was| :: now[k] == was[k])
    && (forall k | 0 <= k < n :: results[k].Ok? && now[k] == results[k].value.doc)
    && (saw <==> exists k :: 0 <= k < n && results[k].value.saw)
    && (changed <==> exists k :: 0 <= k < n && results[k].value.changed)
    && (!changed ==> now == was)
  }

  lemma PatchingStep(results: seq<Result<Patched>>, was: seq<Yaml>, now: seq<Yaml>, n: nat, saw: bool, changed: bool, p: Patched)
    requires Patching(results, was, now, n, saw, changed) && n < |was| && results[n] == Ok(p)
    requires !p.changed ==> p.doc == was[n]
    ensures Patching(results, was, now[n := p.doc], n + 1, p.saw || saw, p.changed || changed)
  {
    if !p.changed { assert now[n := p.doc] == now; }
  }

  lemma PatchingDone(patch: Patch, was: seq<Yaml>, now: seq<Yaml>, saw: bool, changed: bool)
    requires Patching(Results(patch, was), was, now, |was|, saw, changed)
    ensures Accepts(patch, was) && Payload(now, saw, changed) == PatchAll(patch, was)
  {
    var results := Results(patch, was);
    assert forall k | 0 <= k < |was| :: results[k] == PatchDoc(patch, was[k]);
    assert now == PatchAll(patch, was).docs;
  }

  /** The documents are patched one after the other; the first one that is rejected ends it. */
  method PatchDocs(patch: Patch, docs: array<Yaml>) returns (r: Result<(bool, bool)>)
    modifies docs
    ensures r.Ok? <==> Accepts(patch, old(docs[..]))
    ensures r.Ok? ==> Payload(docs[..], r.value.0, r.value.1) == PatchAll(patch, old(docs[..]))
    ensures r.Ok? && !r.value.1 ==> docs[..] == old(docs[..])
  {
    ghost var was := docs[..];
    var saw, changed := false, false;
    var i := 0;
    while i < docs.Length
      invariant i <= docs.Length && Patching(Results(patch, was), was, docs[..], i, saw, changed)
    {
      var p := PatchDoc(patch, docs[i]);
      assert docs[..][i] == was[i] && Results(patch, was)[i] == p;
      if p.Rejected? { return Rejected; }
      PatchDocMeets(patch, was[i]);
      PatchingStep(Results(patch, was), was, docs[..], i, saw, changed, p.value);
      docs[i] := p.value.doc;
      saw, changed := p.value.saw || saw, p.value.changed || changed;
      i := i + 1;
    }
    PatchingDone(patch, was, docs[..], saw, changed);
    return Ok((saw, changed));
  }

  lemma ChangedWasSeen(patch: Patch, doc: Yaml)
    requires PatchDoc(patch, doc).Ok?
    ensures PatchDoc(patch, doc).value.changed ==> PatchDoc(patch, doc).value.saw
  {
  }

  lemma StaysDocument(patch: Patch, doc: Yaml)
    requires PatchDoc(patch, doc).Ok? && !doc.Null?
    ensures !PatchDoc(patch, doc).value.doc.Null?
  {
  }

  lemma PatchesAreDisjoint(id: string, e: Etcd, doc: Yaml)
    requires Concerns(ProviderId(id), doc)
    ensures !Concerns(ExternalEtcd(e), doc)
  {
  }

  /** One document through both patches. */
  lemma BothOnDoc(id: string, e: Etcd, doc: Yaml)
    requires PatchDoc(ProviderId(id), doc).Ok?
    requires PatchDoc(ExternalEtcd(e), PatchDoc(ProviderId(id), doc).value.doc).Ok?
    ensures var doc' := PatchDoc(ExternalEtcd(e), PatchDoc(ProviderId(id), doc).value.doc).value.doc;
            && Wired(ProviderId(id), doc') && Wired(ExternalEtcd(e), doc')
            && (Concerns(ProviderId(id), doc) ==> OnlyThere(ProviderId(id), doc, doc'))
            && (Concerns(ExternalEtcd(e), doc) ==> OnlyThere(ExternalEtcd(e), doc, doc'))
            && (!Concerns(ProviderId(id), doc) && !Concerns(ExternalEtcd(e), doc) ==> doc' == doc)
            && PatchDoc(ProviderId(id), doc').Ok? && PatchDoc(ProviderId(id), doc').value.doc == doc' && !PatchDoc(ProviderId(id), doc').value.changed
            && PatchDoc(ExternalEtcd(e), doc').Ok? && PatchDoc(ExternalEtcd(e), doc').value.doc == doc' && !PatchDoc(ExternalEtcd(e), doc').value.changed
  {
    var p, q := ProviderId(id), ExternalEtcd(e);
    var doc1 := PatchDoc(p, doc).value.doc;
    PatchDocMeets(p, doc);
    PatchDocMeets(q, doc1);
    if Concerns(p, doc1) {
      PatchesAreDisjoint(id, e, doc1);
    } else {
      assert doc1 == doc;
    }
  }

  /**
    The whole payload: after both patches every document is wired for both, each patched document
    differs only where its patch puts things, documents of other kinds are the same, and repeating
    either patch reports no change.
   */
  lemma Pipeline(id: string, e: Etcd, docs: seq<Yaml>)
    requires Accepts(ProviderId(id), docs) && Accepts(ExternalEtcd(e), PatchAll(ProviderId(id), docs).docs)
    ensures var docs' := PatchAll(ExternalEtcd(e), PatchAll(ProviderId(id), docs).docs).docs;
            && |docs'| == |docs|
            && (forall i | 0 <= i < |docs| ::
                  && Wired(ProviderId(id), docs'[i]) && Wired(ExternalEtcd(e), docs'[i])
                  && (Concerns(ProviderId(id), docs[i]) ==> OnlyThere(ProviderId(id), docs[i], docs'[i]))
                  && (Concerns(ExternalEtcd(e), docs[i]) ==> OnlyThere(ExternalEtcd(e), docs[i], docs'[i]))
                  && (!Concerns(ProviderId(id), docs[i]) && !Concerns(ExternalEtcd(e), docs[i]) ==> docs'[i] == docs[i]))
            && (forall patch | patch in {ProviderId(id), ExternalEtcd(e)} ::
                  Accepts(patch, docs') && PatchAll(patch, docs').docs == docs' && !PatchAll(patch, docs').changed)
  {
    var docs1 := PatchAll(ProviderId(id), docs).docs;
    var docs' := PatchAll(ExternalEtcd(e), docs1).docs;
    forall i | 0 <= i < |docs|
      ensures Wired(ProviderId(id), docs'[i]) && Wired(ExternalEtcd(e), docs'[i])
      ensures Concerns(ProviderId(id), docs[i]) ==> OnlyThere(ProviderId(id), docs[i], docs'[i])
      ensures Concerns(ExternalEtcd(e), docs[i]) ==> OnlyThere(ExternalEtcd(e), docs[i], docs'[i])
      ensures !Concerns(ProviderId(id), docs[i]) && !Concerns(ExternalEtcd(e), docs[i]) ==> docs'[i] == docs[i]
      ensures Settled(ProviderId(id), docs'[i]) && Settled(ExternalEtcd(e), docs'[i])
    {
      assert docs1[i] == PatchDoc(ProviderId(id), docs[i]).value.doc;
      assert PatchDoc(ExternalEtcd(e), docs1[i]).Ok?;
      BothOnDoc(id, e, docs[i]);
    }
    AllSettled(ProviderId(id), docs');
    AllSettled(ExternalEtcd(e), docs');
  }

  predicate Settled(patch: Patch, doc: Yaml) {
    PatchDoc(patch, doc).Ok? && PatchDoc(patch, doc).value.doc == doc && !PatchDoc(patch, doc).value.changed
  }

  lemma AllSettled(patch: Patch, docs: seq<Yaml>)
    requires forall i | 0 <= i < |docs| :: Settled(patch, docs[i])
    ensures Accepts(patch, docs) && PatchAll(patch, docs).docs == docs && !PatchAll(patch, docs).changed
  {
  }
}
