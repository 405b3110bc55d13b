/** Concrete runs and inputs behind the conditions of the other modules: each shows that what the condition excludes does happen. */
module Witnesses {
  import opened Wrappers
  import opened Protocol
  import opened Theorems
  import opened Inventory
  import Cluster
  import Reboots
  import Heredoc
  import CloudConfig
  import Texts
  import R = RemoteHost
  import L = RebootLedger

  /** A behaviour with one more action. */
  lemma Extended(ws: seq<World>, acts: seq<Action>, a: Action) returns (ws': seq<World>, acts': seq<Action>)
    requires Behavior(ws, acts) && Enabled(ws[|acts|], a)
    ensures Behavior(ws', acts') && ws'[|acts'|] == Apply(ws[|acts|], a)
  {
    OneMore(ws, acts, a);
    ws', acts' := ws + [Apply(ws[|acts|], a)], acts + [a];
  }

  lemma Nothing() returns (ws: seq<World>, acts: seq<Action>)
    ensures Behavior(ws, acts) && ws[|acts|] == World(map[], map[], map[])
  {
    ws, acts := [World(map[], map[], map[])], [];
  }

  function PlainSpec(selector: Option<set<string>>): MachineSpec {
    MachineSpec(Some("node"), None, None, selector, None, 0, false, false, None)
  }

  // ---------- the claim that deletion does not find ----------

  const FREE_HOST := HostObject("host", true, 1, Endpoint("node", 22), 0, {"pool"}, Some(true), false, Available, false, "", Nobody)

  /** The Machine 0 has claimed host 0, and its allocation is not stored yet. */
  lemma ClaimWithoutAllocation() returns (ws: seq<World>, acts: seq<Action>)
    ensures Behavior(ws, acts)
    ensures ws[|acts|] == World(
              map[0 := NewMachine(PlainSpec(Some({"pool"})), false)],
              map[0 := FREE_HOST.(consumer := By(0), version := 2)],
              map[])
  {
    ws, acts := Nothing();
    ws, acts := Extended(ws, acts, User(CreateMachine(0, PlainSpec(Some({"pool"})), false)));
    ws, acts := Extended(ws, acts, User(CreateHost(0, FREE_HOST)));
    ghost var w := ws[|acts|];
    assert w.hosts == map[0 := FREE_HOST];
    assert !Holds(w, 0, 0);
    ws, acts := Extended(ws, acts, OnHost(0, 0, Claim));
  }

  /**
    A run that strands a claim: the spec is changed to name no pool between the claim and the
    allocation, deletion then records success without looking for claims, and the host stays claimed.
   */
  lemma StrandedClaim() returns (ws: seq<World>, acts: seq<Action>)
    ensures Behavior(ws, acts)
    ensures var w := ws[|acts|];
            && 0 in w.machines && w.machines[0].cleanup.Succeeded? && w.machines[0].allocation.None?
            && !FromPool(w.machines[0].spec) && Holds(w, 0, 0)
  {
    ws, acts := ClaimWithoutAllocation();
    ws, acts := Extended(ws, acts, User(EditMachine(0, PlainSpec(None))));
    ws, acts := Extended(ws, acts, User(RequestDelete(0)));
    ws, acts := Extended(ws, acts, OnMachine(0, SaveCleanup(Succeeded)));
  }

  // ---------- reboots of a Machine that was bootstrapped ----------

  const NODE := Endpoint("node", 22)
  const NODE_BINDING := Binding(0, NODE, None, 0)

  /** The Machine 0 owns the node, may bootstrap and reboot there, and has this history. */
  predicate Owning(w: World, remote: R.Host, provisioned: bool, past: Past, l: L.Ledger) {
    && 0 in w.machines && w.machines[0].live && !w.machines[0].deleting
    && w.machines[0].allocation == Some(NODE_BINDING) && w.machines[0].ownership == Some(NODE_BINDING)
    && w.machines[0].provisioned == provisioned && w.machines[0].cleanup.NoCleanup?
    && w.machines[0].past == past && w.machines[0].reboot == l
    && RemoteAt(w, NODE) == remote
  }

  lemma Owned() returns (ws: seq<World>, acts: seq<Action>)
    ensures Behavior(ws, acts) && Owning(ws[|acts|], UNTOUCHED_HOST, false, Past(false, {}, 0, false, false), L.EMPTY)
  {
    ws, acts := Nothing();
    ws, acts := Extended(ws, acts, User(CreateMachine(0, PlainSpec(None), false)));
    ws, acts := Extended(ws, acts, OnMachine(0, SaveAllocation(NODE_BINDING)));
    ws, acts := Extended(ws, acts, OnMachine(0, SaveOwnership(NODE_BINDING)));
  }

  /** One command to the node, or one step of the node. */
  lemma Commanded(ws: seq<World>, acts: seq<Action>, command: Command, remote: R.Host, provisioned: bool, past: Past, l: L.Ledger)
    returns (ws': seq<World>, acts': seq<Action>)
    requires Behavior(ws, acts) && Owning(ws[|acts|], remote, provisioned, past, l)
    requires command in {ClaimOwner, StartJob} || (command.SeeSuccess? && remote.owner == R.Owned(0) && remote.receipt == R.Code(0))
    ensures Behavior(ws', acts')
    ensures Owning(
              ws'[|acts'|], RemoteAfter(0, remote, command), provisioned,
              past.(commands := past.commands + {NODE}, jobs := if command.StartJob? then past.jobs + 1 else past.jobs,
                    bootstrapped := past.bootstrapped || command.SeeSuccess?), l)
  {
    ws', acts' := Extended(ws, acts, Send(0, NODE, command));
  }

  lemma Stepped(ws: seq<World>, acts: seq<Action>, step: R.Op, remote: R.Host, provisioned: bool, past: Past, l: L.Ledger)
    returns (ws': seq<World>, acts': seq<Action>)
    requires Behavior(ws, acts) && Owning(ws[|acts|], remote, provisioned, past, l)
    requires !step.Claim? && !step.Reset? && !step.Submit? && R.Enabled(remote, step)
    ensures Behavior(ws', acts') && Owning(ws'[|acts'|], R.Apply(remote, step), provisioned, past, l)
  {
    ws', acts' := Extended(ws, acts, HostActs(NODE, step));
  }

  /** The node after one bootstrap that ended with 0. */
  const DONE_HOST := R.Host(R.Owned(0), {R.BootstrapComplete}, true, R.Code(0), None, multiset{}, 0, 1, Some(0))
  const DONE_PAST := Past(false, {NODE}, 1, false, true)

  /** The Machine 0 was bootstrapped on the node and is provisioned. */
  lemma Bootstrapped() returns (ws: seq<World>, acts: seq<Action>)
    ensures Behavior(ws, acts) && Owning(ws[|acts|], DONE_HOST, true, DONE_PAST, L.EMPTY)
  {
    var past := Past(false, {}, 0, false, false);
    ws, acts := Owned();
    ws, acts := Commanded(ws, acts, ClaimOwner, UNTOUCHED_HOST, false, past, L.EMPTY);
    var h0 := UNTOUCHED_HOST.(owner := R.Owned(0));
    past := Past(false, {NODE}, 0, false, false);
    ws, acts := Commanded(ws, acts, StartJob, h0, false, past, L.EMPTY);
    past := Past(false, {NODE}, 1, false, false);
    ws, acts := JobRuns(ws, acts, past);
    ws, acts := Commanded(ws, acts, SeeSuccess, DONE_HOST, false, past, L.EMPTY);
    ws, acts := Extended(ws, acts, OnMachine(0, SaveProvisioned(true)));
  }

  lemma JobRuns(ws: seq<World>, acts: seq<Action>, past: Past) returns (ws': seq<World>, acts': seq<Action>)
    requires Behavior(ws, acts)
    requires Owning(ws[|acts|], UNTOUCHED_HOST.(owner := R.Owned(0), queue := multiset{0}), false, past, L.EMPTY)
    ensures Behavior(ws', acts') && Owning(ws'[|acts'|], DONE_HOST, false, past, L.EMPTY)
  {
    var h1 := UNTOUCHED_HOST.(owner := R.Owned(0), queue := multiset{0});
    ws', acts' := Stepped(ws, acts, R.EnterJob(0), h1, false, past, L.EMPTY);
    var h2 := h1.(queue := multiset{}, started := true, job := Some(R.Job(0, R.Starting)));
    ws', acts' := Stepped(ws', acts', R.StartPayload, h2, false, past, L.EMPTY);
    var h3 := h2.(job := Some(R.Job(0, R.InPayload)), starts := 1);
    ws', acts' := Stepped(ws', acts', R.EndPayload(0), h3, false, past, L.EMPTY);
    var h4 := h3.(job := Some(R.Job(0, R.Exited(0))), finished := Some(0), residue := {R.BootstrapComplete});
    ws', acts' := Stepped(ws', acts', R.WriteReceipt, h4, false, past, L.EMPTY);
  }

  /** One change of the reboot record, or one reboot command, of the bootstrapped Machine. */
  lemma Rebooting(ws: seq<World>, acts: seq<Action>, l: L.Ledger, op: L.Op) returns (ws': seq<World>, acts': seq<Action>)
    requires Behavior(ws, acts) && Owning(ws[|acts|], DONE_HOST, true, DONE_PAST, l) && L.Enabled(l, op)
    requires op.Send? || op.GiveUp? || (op.Intend? && op.boot == 0)
    ensures Behavior(ws', acts') && Owning(ws'[|acts'|], DONE_HOST, true, DONE_PAST, L.Apply(l, op))
  {
    ws', acts' := Extended(ws, acts, if op.Send? then Send(0, NODE, Reboot) else OnMachine(0, SaveReboot(op)));
  }

  /** An intent that is stored and then given up, with or without its command. */
  lemma Abandoned(ws: seq<World>, acts: seq<Action>, l: L.Ledger, request: string, at: int, send: bool)
    returns (ws': seq<World>, acts': seq<Action>)
    requires Behavior(ws, acts) && Owning(ws[|acts|], DONE_HOST, true, DONE_PAST, l) && L.MayIntend(l.record, request)
    requires l.record.Some? ==> l.record.value.observedBoot.None?
    ensures Behavior(ws', acts')
    ensures Owning(
              ws'[|acts'|], DONE_HOST, true, DONE_PAST,
              L.Ledger(Some(L.Record(request, L.Unknown, 0, at, None)), l.intents + [request],
                       if send then l.sent + [|l.intents|] else l.sent, !send))
  {
    var l1 := L.Apply(l, L.Intend(request, 0, at));
    ws', acts' := Rebooting(ws, acts, l, L.Intend(request, 0, at));
    if send {
      ws', acts' := Rebooting(ws', acts', l1, L.Send);
      ws', acts' := Rebooting(ws', acts', L.Apply(l1, L.Send), L.GiveUp);
    } else {
      ws', acts' := Rebooting(ws', acts', l1, L.GiveUp);
    }
  }

  /**
    A behaviour of the whole system in which two consecutive reboot commands carry the same request:
    `a` is sent and no boot is observed, the intent for `b` is stored but its command never leaves,
    and `a` is requested and sent again.
   */
  lemma RepeatedRequest() returns (ws: seq<World>, acts: seq<Action>)
    ensures Behavior(ws, acts) && 0 in ws[|acts|].machines
    ensures var m := ws[|acts|].machines[0];
            m.provisioned && !m.past.legacy && m.reboot.intents == ["a", "b", "a"] && m.reboot.sent == [0, 2]
  {
    ws, acts := Bootstrapped();
    ws, acts := Abandoned(ws, acts, L.EMPTY, "a", 0, true);
    var l1 := L.Ledger(Some(L.Record("a", L.Unknown, 0, 0, None)), ["a"], [0], false);
    ws, acts := Abandoned(ws, acts, l1, "b", 400, false);
    var l2 := L.Ledger(Some(L.Record("b", L.Unknown, 0, 400, None)), ["a", "b"], [0], true);
    ws, acts := Abandoned(ws, acts, l2, "a", 800, true);
  }

  /** The answer to a command is staged although only its intent is stored, as after a failed write of the answer. */
  lemma UnsavedAnswer() returns (ws: seq<World>, acts: seq<Action>, staged: Option<L.Record>)
    ensures Behavior(ws, acts) && 0 in ws[|acts|].machines
    ensures var l := ws[|acts|].machines[0].reboot; Reboots.StagedOk(staged, l) && staged.Some? && staged != l.record
  {
    ws, acts := Bootstrapped();
    ws, acts := Rebooting(ws, acts, L.EMPTY, L.Intend("a", 0, 0));
    var l := L.Apply(L.EMPTY, L.Intend("a", 0, 0));
    ws, acts := Rebooting(ws, acts, l, L.Send);
    staged := Some(l.record.value.(phase := L.Submitted));
  }

  // ---------- the receipt that is cut off ----------

  /**
    A job dies, its successor dies while it writes the receipt of that interruption: the receipt is
    empty, the observing command cannot read it, and no later job changes it.
   */
  lemma TornReceipt() returns (hs: seq<R.Host>, ops: seq<R.Op>)
    ensures R.Run(hs, ops) && R.Ok(hs[0]) && hs[0] == UNTOUCHED_HOST
    ensures var h := hs[|ops|];
            && h.owner == R.Owned(0) && h.receipt.Torn? && h.job.None? && Cluster.Observed(h, 0).Unreadable?
            && R.Apply(h.(queue := multiset{0}), R.EnterJob(0)) == h
  {
    var owned := UNTOUCHED_HOST.(owner := R.Owned(0));
    var waiting := owned.(queue := multiset{0, 0});
    var running := owned.(queue := multiset{0}, started := true, job := Some(R.Job(0, R.Starting)));
    var killed := running.(job := None);
    var second := killed.(queue := multiset{}, job := Some(R.Job(0, R.Interrupting)));
    var writing := second.(job := Some(R.Job(0, R.Marking)), receipt := R.Torn);
    ops := [R.Claim(0), R.Submit(0), R.Submit(0), R.EnterJob(0), R.KillJob, R.EnterJob(0), R.OpenInterrupted, R.KillJob];
    hs := [UNTOUCHED_HOST, owned, owned.(queue := multiset{0}), waiting, running, killed, second, writing, writing.(job := None)];
    forall i: nat | i < |ops| ensures R.StepAt(hs, ops, i) {
    }
  }

  // ---------- heredocs ----------

  const PATH := "/kubeadm.yaml"

  lemma PathIsConcerned()
    ensures Heredoc.KubeadmYaml(PATH)
  {
    assert Heredoc.ContainsAt(PATH, "kubeadm", 1);
  }

  lemma PathIsPlain()
    ensures CloudConfig.NeedsNoQuotes(PATH)
  {
  }

  /** A start line that opens a heredoc for the path. */
  lemma StartOfDocument() returns (start: string, tag: string)
    ensures Heredoc.ParseStart(start) == Some(Heredoc.Start(PATH, tag))
    ensures Texts.Strip(tag) == tag && |tag| > 1 && '\n' !in tag
  {
    PathIsPlain();
    CloudConfig.PathReadBack(0, PATH);
    CloudConfig.MarkerIsTag(0);
    start, tag := CloudConfig.StartLine(0, PATH), CloudConfig.Marker(0);
  }

  /** A patch that sees every document and leaves it alone. */
  function Keep(text: string): Option<Heredoc.Patched> {
    Some(Heredoc.Patched(text, true, false))
  }

  lemma KeepDropsBlank(starts: Heredoc.Starts, segment: Heredoc.Segment, path: string, tag: string)
    requires segment.Heredoc? && starts(segment.start) == Some(Heredoc.Start(path, tag)) && Heredoc.KubeadmYaml(path)
    requires segment.body == ["x", ""]
    ensures Heredoc.Rewritten(starts, Keep, segment) != segment
  {
    Heredoc.UnchangedBody(starts, Keep, segment);
  }

  /** A document that is left alone loses the empty line at its end. */
  lemma DroppedBlankLine() returns (segment: Heredoc.Segment)
    ensures Heredoc.Rewritten(Heredoc.ParseStart, Keep, segment) != segment
  {
    var start, tag := StartOfDocument();
    PathIsConcerned();
    segment := Heredoc.Heredoc(start, ["x", ""], tag);
    KeepDropsBlank(Heredoc.ParseStart, segment, PATH, tag);
  }

  lemma TerminatorInBody(starts: Heredoc.Starts, patch: Heredoc.Patch, start: string, tag: string)
    requires starts(start) == Some(Heredoc.Start(PATH, tag)) && Texts.Strip(tag) == tag && |tag| > 1 && '\n' !in tag
    requires patch("x") == Some(Heredoc.Patched(tag, true, true)) && Heredoc.KubeadmYaml(PATH)
    ensures var r := Heredoc.RewriteAll(starts, patch, Heredoc.Split(starts, [start, "x", tag]));
            Heredoc.Split(starts, Heredoc.Flatten(r)) != r
  {
    var segment := Heredoc.Heredoc(start, ["x"], tag);
    assert Heredoc.LinesOf(segment) + [] == [start, "x", tag];
    Heredoc.SplitSegment(starts, segment, []);
    var segments := Heredoc.Split(starts, [start, "x", tag]);
    assert segments == [segment];
    var r := Heredoc.RewriteAll(starts, patch, segments);
    Texts.LinesJoin([tag]);
    assert r[0] == Heredoc.Heredoc(start, [tag], tag);
    assert tag in r[0].body && !Heredoc.Closed(starts, r[0]);
    Heredoc.FoundAgain(starts, patch, [start, "x", tag]);
  }

  /** A patched document that contains the terminator of its own heredoc is not found again in the rewritten script. */
  lemma SelfTerminated() returns (patch: Heredoc.Patch, lines: seq<string>)
    ensures var r := Heredoc.RewriteAll(Heredoc.ParseStart, patch, Heredoc.Split(Heredoc.ParseStart, lines));
            Heredoc.Split(Heredoc.ParseStart, Heredoc.Flatten(r)) != r
  {
    var start, tag := StartOfDocument();
    PathIsConcerned();
    patch := text => Some(Heredoc.Patched(tag, true, true));
    lines := [start, "x", tag];
    TerminatorInBody(Heredoc.ParseStart, patch, start, tag);
  }

  // ---------- cloud-config ----------

  /** An owner of three lines, of which the second opens a heredoc. */
  function OwnerText(opening: string): string {
    "x\n" + opening + "\nz"
  }

  lemma NotStrippedTo(line: string, tag: string)
    requires line != [] && !Texts.IsSpace(line[0]) && tag != [] && tag[0] != line[0]
    ensures Texts.Strip(line) != tag
  {
    assert Texts.TrimLeft(line) == line;
    FirstStays(line);
  }

  lemma {:induction false} FirstStays(s: string)
    ensures Texts.TrimRight(s) <= s
  {
    if s != [] && Texts.IsSpace(s[|s| - 1]) { FirstStays(s[..|s| - 1]); }
  }

  lemma {:induction false} NothingEscaped(s: string)
    requires '\'' !in s
    ensures CloudConfig.Escaped(s) == s
  {
    if s != [] {
      assert s[0] in s;
      NothingEscaped(s[1..]);
    }
  }

  lemma ThreeLines(a: string, b: string, c: string)
    requires Texts.OneLine(a) && Texts.OneLine(b) && Texts.OneLine(c)
    ensures Texts.Physical([a + (['\n'] + (b + (['\n'] + c)))]) == [a, b, c]
  {
    var text := a + (['\n'] + (b + (['\n'] + c)));
    assert text + ['\n'] == a + ['\n'] + (b + ['\n'] + (c + ['\n'] + ""));
    Texts.FirstLine(a, b + ['\n'] + (c + ['\n'] + ""));
    Texts.FirstLine(b, c + ['\n'] + "");
    Texts.FirstLine(c, "");
  }

  lemma OwnerQuoted(opening: string)
    requires '\'' !in opening
    ensures CloudConfig.Quote(OwnerText(opening)) == "'" + OwnerText(opening) + "'"
  {
    var owner := OwnerText(opening);
    assert owner[1] == '\n' && owner[1] in owner;
    NothingEscaped(owner);
  }

  lemma Regrouped(opening: string, path: string)
    ensures "chown " + ("'" + OwnerText(opening) + "'") + " " + path == "chown 'x" + (['\n'] + (opening + (['\n'] + ("z' " + path))))
  {
  }

  /** The owner is written in quotes, so its newlines break the line of the command into three. */
  lemma OwnerLines(f: CloudConfig.File, opening: string) returns (head: string, tail: string)
    requires f.permissions.None? && f.owner == Some(OwnerText(opening))
    requires '\'' !in opening && Texts.OneLine(opening) && CloudConfig.NeedsNoQuotes(f.path)
    ensures Texts.Physical(CloudConfig.AfterFile(f)) == [head, opening, tail]
    ensures Heredoc.ParseStart(head).None? && tail != [] && tail[0] == 'z'
  {
    head, tail := "chown 'x", "z' " + f.path;
    CloudConfig.NoStart(head);
    OwnerQuoted(opening);
    Regrouped(opening, f.path);
    CloudConfig.SafeOneLine(f.path);
    ThreeLines(head, opening, tail);
    assert CloudConfig.AfterFile(f) == ["chown " + CloudConfig.Quote(OwnerText(opening)) + " " + CloudConfig.Quote(f.path)];
  }

  lemma LinesOfEmptyFile(f: CloudConfig.File)
    requires CloudConfig.NeedsNoQuotes(f.path) && f.content == "" && f.permissions.None? && f.owner.None?
    ensures Texts.Physical(CloudConfig.FileLines(1, f)) == [CloudConfig.InstallLine(f), CloudConfig.StartLine(1, f.path), CloudConfig.Marker(1)]
  {
    CloudConfig.FileShape(1, f);
  }

  /** No line of an empty file is this tag. */
  lemma EmptyFileKeeps(f: CloudConfig.File, tag: string)
    requires CloudConfig.NeedsNoQuotes(f.path) && f.content == "" && f.permissions.None? && f.owner.None?
    requires tag != [] && tag[0] !in "ic_"
    ensures forall line | line in Texts.Physical(CloudConfig.FileLines(1, f)) :: Texts.Strip(line) != tag
  {
    LinesOfEmptyFile(f);
    NotStrippedTo(CloudConfig.InstallLine(f), tag);
    NotStrippedTo(CloudConfig.StartLine(1, f.path), tag);
    NotStrippedTo(CloudConfig.Marker(1), tag);
  }

  predicate EmptyFile(f: CloudConfig.File) {
    CloudConfig.NeedsNoQuotes(f.path) && f.content == "" && f.permissions.None?
  }

  /** Two empty files, of which the first has the owner. */
  predicate SplitOwner(config: CloudConfig.Config, opening: string) {
    && |config.files| == 2 && config.commands == [] && EmptyFile(config.files[0]) && EmptyFile(config.files[1])
    && config.files[0].owner == Some(OwnerText(opening)) && config.files[1].owner.None?
  }

  /** The first of two empty files is followed by a line that opens a heredoc with this tag. */
  predicate Opened(files: seq<CloudConfig.File>, head: string, opening: string, tail: string, tag: string) {
    && |files| == 2 && EmptyFile(files[0]) && EmptyFile(files[1]) && files[1].owner.None?
    && Texts.Physical(CloudConfig.AfterFile(files[0])) == [head, opening, tail]
    && Heredoc.ParseStart(head).None? && Heredoc.ParseStart(opening).Some? && Heredoc.ParseStart(opening).value.tag == tag
  }

  lemma OnlyFirstFound(config: CloudConfig.Config, head: string, opening: string, tail: string, tag: string)
    requires Opened(config.files, head, opening, tail, tag) && config.commands == []
    requires forall line | line in [tail] + Texts.Physical(CloudConfig.FileLines(1, config.files[1])) :: Texts.Strip(line) != tag
    ensures |CloudConfig.FoundIn(config)| == 1
  {
    CloudConfig.SecondHidden(config, head, opening, tail);
  }

  lemma RestKeeps(f: CloudConfig.File, tail: string, tag: string)
    requires EmptyFile(f) && f.owner.None? && tail != [] && tail[0] == 'z' && tag != [] && tag[0] !in "ic_" && tag[0] != 'z'
    ensures forall line | line in [tail] + Texts.Physical(CloudConfig.FileLines(1, f)) :: Texts.Strip(line) != tag
  {
    NotStrippedTo(tail, tag);
    EmptyFileKeeps(f, tag);
  }

  lemma OwnerHides(config: CloudConfig.Config, opening: string, tag: string)
    requires SplitOwner(config, opening) && '\'' !in opening && Texts.OneLine(opening)
    requires Heredoc.ParseStart(opening).Some? && Heredoc.ParseStart(opening).value.tag == tag
    requires tag != [] && tag[0] !in "ic_" && tag[0] != 'z'
    ensures |CloudConfig.FoundIn(config)| == 1
  {
    var head, tail := OwnerLines(config.files[0], opening);
    RestKeeps(config.files[1], tail, tag);
    OnlyFirstFound(config, head, opening, tail, tag);
  }

  lemma OpeningFor(path: string, tag: string) returns (opening: string)
    requires CloudConfig.IsTag(tag) && CloudConfig.NeedsNoQuotes(path)
    ensures Heredoc.ParseStart(opening).Some? && Heredoc.ParseStart(opening).value.tag == tag
    ensures '\'' !in opening && Texts.OneLine(opening)
  {
    opening := CloudConfig.DirectLine(path, tag);
    CloudConfig.ReadDirectLine(path, tag);
    CharsOfDirectLine(path, tag);
  }

  lemma CharsOfDirectLine(path: string, tag: string)
    requires CloudConfig.IsTag(tag) && CloudConfig.NeedsNoQuotes(path)
    ensures '\'' !in CloudConfig.DirectLine(path, tag) && Texts.OneLine(CloudConfig.DirectLine(path, tag))
  {
  }

  lemma TwoFiles(opening: string) returns (config: CloudConfig.Config)
    ensures SplitOwner(config, opening) && CloudConfig.AllAccepted(config.files) && CloudConfig.PathsAndContentsOk(config.files)
  {
    config := CloudConfig.Config([CloudConfig.File("/a", "", None, Some(OwnerText(opening))), CloudConfig.File("/b", "", None, None)], []);
  }

  /** A file that is written and not found: the owner of the file before it opens a heredoc on a line of its own. */
  lemma HiddenFile() returns (config: CloudConfig.Config)
    ensures CloudConfig.AllAccepted(config.files) && CloudConfig.PathsAndContentsOk(config.files)
    ensures !(CloudConfig.Contents(config.files) <= CloudConfig.FoundIn(config))
  {
    var tag := "E";
    var opening := OpeningFor("/x", tag);
    config := TwoFiles(opening);
    OwnerHides(config, opening, tag);
    assert |CloudConfig.Contents(config.files)| == 2;
  }
}
