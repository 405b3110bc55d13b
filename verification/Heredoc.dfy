/**
  Rewriting the kubeadm documents that a shell bootstrap script writes with heredocs
  (controllers/sshmachine.py): the index loop, and a script as a sequence of segments.
 */
module Heredoc {
  import opened Wrappers
  import opened Texts

  // ---------- heredoc starts ----------

  datatype Start = Start(path: string, tag: string)

  /** Which lines open a heredoc; `ParseStart` is the one in use. */
  type Starts = string -> Option<Start>

  predicate IsTagChar(c: char) {
    IsLetter(c) || IsDigit(c) || c == '_'
  }

  /** Length of the leading characters of a tag. */
  function TagLength(s: string): (n: nat)
    ensures n <= |s|
  {
    if s != [] && IsTagChar(s[0]) then 1 + TagLength(s[1..]) else 0
  }

  /** Length of the leading characters that are no white space. */
  function WordLength(s: string): (n: nat)
    ensures n <= |s| && forall c | c in s[..n] :: !IsSpace(c)
  {
    if s != [] && !IsSpace(s[0]) then
      assert s[..1 + WordLength(s[1..])] == [s[0]] + s[1..][..WordLength(s[1..])];
      1 + WordLength(s[1..])
    else 0
  }

  /** The rest after `cat` and at least one space. */
  function AfterCat(line: string): Option<string> {
    var s := TrimLeft(line);
    if |s| > 3 && s[0] == 'c' && s[1] == 'a' && s[2] == 't' && IsSpace(s[3]) then Some(TrimLeft(s[3..])) else None
  }

  predicate IsTo(s: string) {
    |s| > 0 && s[0] == '>'
  }

  predicate IsFrom(s: string) {
    |s| > 1 && s[0] == '<' && s[1] == '<'
  }

  function Unquoted(s: string): string {
    if s != [] && s[0] in "\"'" then s[1..] else s
  }

  /** `\s*["']?tag["']?`: the tag and the rest. */
  function TakeTag(s: string): Option<(string, string)> {
    var t := Unquoted(TrimLeft(s));
    if t != [] && IsTagChar(t[0]) && !IsDigit(t[0]) then Some((t[..TagLength(t)], Unquoted(t[TagLength(t)..]))) else None
  }

  /** `\s*(\S+)`: the word and the rest. */
  function TakeWord(s: string): Option<(string, string)> {
    var t := TrimLeft(s);
    if t == [] then None else Some((t[..WordLength(t)], t[WordLength(t)..]))
  }

  /** `cat > path << tag` */
  function Direct(line: string): Option<Start> {
    var s := AfterCat(line);
    if s.None? || !IsTo(s.value) then None
    else
      var word := TakeWord(s.value[1..]);
      if word.None? || !IsFrom(TrimLeft(word.value.1)) then None
      else
        var tag := TakeTag(TrimLeft(word.value.1)[2..]);
        if tag.None? || TrimLeft(tag.value.1) != [] then None else Some(Start(word.value.0, tag.value.0))
  }

  /** `cat << tag > path` */
  function Reverse(line: string): Option<Start> {
    var s := AfterCat(line);
    if s.None? || !IsFrom(s.value) then None
    else
      var tag := TakeTag(s.value[2..]);
      if tag.None? || tag.value.1 == [] || !IsSpace(tag.value.1[0]) || !IsTo(TrimLeft(tag.value.1)) then None
      else
        var word := TakeWord(TrimLeft(tag.value.1)[1..]);
        if word.None? || TrimLeft(word.value.1) != [] then None else Some(Start(word.value.0, tag.value.0))
  }

  function ParseStart(line: string): Option<Start> {
    var direct := Direct(line);
    if direct.Some? then direct else Reverse(line)
  }

  // ---------- a script as segments ----------

  datatype Segment =
    | Plain(line: string)
    | Heredoc(start: string, body: seq<string>, end: string)
    | Unclosed(start: string, body: seq<string>)   // runs to the end of the script

  /** Position of the first line that ends a heredoc with this tag. */
  function BodyEnd(lines: seq<string>, tag: string): (k: nat)
    ensures k <= |lines| && (k < |lines| ==> Strip(lines[k]) == tag)
    ensures forall i | 0 <= i < k :: Strip(lines[i]) != tag
  {
    if lines == [] || Strip(lines[0]) == tag then 0
    else
      assert forall i | 1 <= i < 1 + BodyEnd(lines[1..], tag) :: lines[i] == lines[1..][i - 1];
      1 + BodyEnd(lines[1..], tag)
  }

  /** The first segment and the lines after it. */
  function First(starts: Starts, lines: seq<string>): (r: (Segment, seq<string>))
    requires lines != []
    ensures |r.1| < |lines|
  {
    var start := starts(lines[0]);
    var rest := lines[1..];
    if start.None? then (Plain(lines[0]), rest)
    else
      var k := BodyEnd(rest, start.value.tag);
      if k == |rest| then (Unclosed(lines[0], rest), []) else (Heredoc(lines[0], rest[..k], rest[k]), rest[k + 1..])
  }

  function Split(starts: Starts, lines: seq<string>): seq<Segment>
    decreases |lines|
  {
    if lines == [] then [] else [First(starts, lines).0] + Split(starts, First(starts, lines).1)
  }

  function LinesOf(segment: Segment): seq<string> {
    match segment
    case Plain(line) => [line]
    case Heredoc(start, body, end) => [start] + body + [end]
    case Unclosed(start, body) => [start] + body
  }

  function Flatten(segments: seq<Segment>): seq<string> {
    if segments == [] then [] else LinesOf(segments[0]) + Flatten(segments[1..])
  }

  /** What a segment must be to be found again. */
  predicate SegmentOk(starts: Starts, segment: Segment, last: bool) {
    match segment
    case Plain(line) => starts(line).None?
    case Heredoc(start, body, end) =>
      && starts(start).Some? && Strip(end) == starts(start).value.tag
      && forall line | line in body :: Strip(line) != starts(start).value.tag
    case Unclosed(start, body) =>
      && last && starts(start).Some?
      && forall line | line in body :: Strip(line) != starts(start).value.tag
  }

  predicate WellFormed(starts: Starts, segments: seq<Segment>) {
    forall i | 0 <= i < |segments| :: SegmentOk(starts, segments[i], i == |segments| - 1)
  }

  lemma CutAt(lines: seq<string>, k: nat)
    requires k < |lines|
    ensures lines == lines[..k] + [lines[k]] + lines[k + 1..]
  {
  }

  lemma HeadAndRest(lines: seq<string>)
    requires lines != []
    ensures lines == [lines[0]] + lines[1..]
  {
  }

  lemma NoneEnds(lines: seq<string>, tag: string)
    ensures forall line | line in lines[..BodyEnd(lines, tag)] :: Strip(line) != tag
  {
  }

  lemma FirstOk(starts: Starts, lines: seq<string>)
    requires lines != []
    ensures var (segment, rest) := First(starts, lines); lines == LinesOf(segment) + rest && SegmentOk(starts, segment, rest == [])
  {
    var rest := lines[1..];
    HeadAndRest(lines);
    if starts(lines[0]).Some? {
      var tag := starts(lines[0]).value.tag;
      var k := BodyEnd(rest, tag);
      NoneEnds(rest, tag);
      if k < |rest| {
        CutAt(rest, k);
        FirstIsHeredoc(lines[0], rest, k);
      } else {
        assert rest[..k] == rest;
      }
    }
  }

  lemma FirstIsHeredoc(line: string, rest: seq<string>, k: nat)
    requires k < |rest| && rest == rest[..k] + [rest[k]] + rest[k + 1..]
    ensures [line] + rest == LinesOf(Heredoc(line, rest[..k], rest[k])) + rest[k + 1..]
  {
  }

  /** A script is its segments, one after the other. */
  lemma {:induction false} SplitFlatten(starts: Starts, lines: seq<string>)
    ensures Flatten(Split(starts, lines)) == lines && WellFormed(starts, Split(starts, lines))
    decreases |lines|
  {
    if lines != [] {
      var (segment, rest) := First(starts, lines);
      FirstOk(starts, lines);
      SplitFlatten(starts, rest);
      OneMoreSegment(starts, segment, Split(starts, rest));
    }
  }

  lemma OneMoreSegment(starts: Starts, segment: Segment, segments: seq<Segment>)
    ensures Flatten([segment] + segments) == LinesOf(segment) + Flatten(segments)
    ensures SegmentOk(starts, segment, segments == []) && WellFormed(starts, segments) ==> WellFormed(starts, [segment] + segments)
    ensures WellFormed(starts, [segment] + segments) ==> SegmentOk(starts, segment, segments == []) && WellFormed(starts, segments)
  {
    var all := [segment] + segments;
    assert all[1..] == segments;
    if SegmentOk(starts, segment, segments == []) && WellFormed(starts, segments) {
      forall i | 0 <= i < |all| ensures SegmentOk(starts, all[i], i == |all| - 1) {
        if i > 0 { assert all[i] == segments[i - 1]; }
      }
    }
    if WellFormed(starts, all) {
      assert all[0] == segment;
      forall i | 0 <= i < |segments| ensures SegmentOk(starts, segments[i], i == |segments| - 1) {
        assert all[i + 1] == segments[i];
      }
    }
  }

  lemma {:induction false} BodyEndAt(body: seq<string>, tag: string, rest: seq<string>)
    requires forall line | line in body :: Strip(line) != tag
    requires rest == [] || Strip(rest[0]) == tag
    ensures BodyEnd(body + rest, tag) == |body|
  {
    if body == [] {
      assert body + rest == rest;
    } else {
      assert (body + rest)[1..] == body[1..] + rest;
      assert body[0] in body;
      BodyEndAt(body[1..], tag, rest);
    }
  }

  /** The lines of a heredoc and what follows, taken apart. */
  lemma HeredocLines(segment: Segment, rest: seq<string>)
    requires segment.Heredoc?
    ensures var lines := LinesOf(segment) + rest;
            lines != [] && lines[0] == segment.start && lines[1..] == segment.body + ([segment.end] + rest)
  {
  }

  lemma AfterBody(body: seq<string>, end: string, rest: seq<string>)
    ensures var lines := body + ([end] + rest);
            |body| < |lines| && lines[..|body|] == body && lines[|body|] == end && lines[|body| + 1..] == rest
  {
  }

  lemma FirstHeredoc(starts: Starts, segment: Segment, rest: seq<string>)
    requires segment.Heredoc? && SegmentOk(starts, segment, rest == [])
    ensures First(starts, LinesOf(segment) + rest) == (segment, rest)
  {
    HeredocLines(segment, rest);
    BodyEndAt(segment.body, starts(segment.start).value.tag, [segment.end] + rest);
    AfterBody(segment.body, segment.end, rest);
  }

  lemma FirstUnclosed(starts: Starts, segment: Segment)
    requires segment.Unclosed? && SegmentOk(starts, segment, true)
    ensures First(starts, LinesOf(segment)) == (segment, [])
  {
    var lines := LinesOf(segment);
    assert lines[1..] == segment.body && segment.body + [] == segment.body;
    BodyEndAt(segment.body, starts(segment.start).value.tag, []);
  }

  lemma SplitSegment(starts: Starts, segment: Segment, rest: seq<string>)
    requires SegmentOk(starts, segment, rest == [])
    ensures Split(starts, LinesOf(segment) + rest) == [segment] + Split(starts, rest)
  {
    var lines := LinesOf(segment) + rest;
    match segment
    case Plain(line) => assert lines[1..] == rest;
    case Heredoc(_, _, _) => FirstHeredoc(starts, segment, rest);
    case Unclosed(_, _) =>
      assert lines == LinesOf(segment);
      FirstUnclosed(starts, segment);
  }

  /** Segments are found again in their own text exactly if they are well formed. */
  lemma {:induction false} FlattenSplit(starts: Starts, segments: seq<Segment>)
    ensures WellFormed(starts, segments) <==> Split(starts, Flatten(segments)) == segments
  {
    if WellFormed(starts, segments) { FlattenSplits(starts, segments); }
    SplitFlatten(starts, Flatten(segments));
  }

  lemma {:induction false} FlattenSplits(starts: Starts, segments: seq<Segment>)
    requires WellFormed(starts, segments)
    ensures Split(starts, Flatten(segments)) == segments
  {
    if segments != [] {
      assert segments == [segments[0]] + segments[1..];
      OneMoreSegment(starts, segments[0], segments[1..]);
      FlattenSplits(starts, segments[1..]);
      NothingIsEmpty(segments[1..]);
      SplitSegment(starts, segments[0], Flatten(segments[1..]));
    }
  }

  lemma NothingIsEmpty(segments: seq<Segment>)
    ensures Flatten(segments) == [] <==> segments == []
  {
  }

  // ---------- rewriting ----------

  /** What a document patch makes of a body; `None` is a PermanentError. */
  datatype Patched = Patched(text: string, saw: bool, changed: bool)

  type Patch = string -> Option<Patched>

  predicate ContainsAt(s: string, part: string, i: nat) {
    i + |part| <= |s| && s[i..i + |part|] == part
  }

  predicate Contains(s: string, part: string) {
    exists i | 0 <= i <= |s| :: ContainsAt(s, part, i)
  }

  predicate EndsWith(s: string, part: string) {
    |part| <= |s| && s[|s| - |part|..] == part
  }

  predicate KubeadmYaml(path: string) {
    Contains(path, "kubeadm") && (EndsWith(path, ".yaml") || EndsWith(path, ".yml"))
  }

  /** A terminated heredoc that writes a kubeadm document. */
  predicate Concerned(starts: Starts, segment: Segment) {
    segment.Heredoc? && starts(segment.start).Some? && KubeadmYaml(starts(segment.start).value.path)
  }

  /** What the patch says about a segment. */
  function Outcome(starts: Starts, patch: Patch, segment: Segment): Option<Patched> {
    if Concerned(starts, segment) then patch(Join(segment.body)) else Some(Patched("", false, false))
  }

  function Rewritten(starts: Starts, patch: Patch, segment: Segment): Segment {
    var p := Outcome(starts, patch, segment);
    if Concerned(starts, segment) && p.Some? && p.value.saw then Heredoc(segment.start, Lines(p.value.text), segment.end) else segment
  }

  function RewriteAll(starts: Starts, patch: Patch, segments: seq<Segment>): (r: seq<Segment>)
    ensures |r| == |segments|
    ensures forall i | 0 <= i < |r| :: r[i] == Rewritten(starts, patch, segments[i])
  {
    if segments == [] then [] else [Rewritten(starts, patch, segments[0])] + RewriteAll(starts, patch, segments[1..])
  }

  predicate AnyRejected(starts: Starts, patch: Patch, segments: seq<Segment>) {
    segments != [] && (Outcome(starts, patch, segments[0]).None? || AnyRejected(starts, patch, segments[1..]))
  }

  predicate AnySaw(starts: Starts, patch: Patch, segments: seq<Segment>) {
    segments != [] && ((Outcome(starts, patch, segments[0]).Some? && Outcome(starts, patch, segments[0]).value.saw) || AnySaw(starts, patch, segments[1..]))
  }

  predicate AnyChanged(starts: Starts, patch: Patch, segments: seq<Segment>) {
    segments != [] && ((Outcome(starts, patch, segments[0]).Some? && Outcome(starts, patch, segments[0]).value.changed) || AnyChanged(starts, patch, segments[1..]))
  }

  /** What the loop still has to do for the remaining lines. */
  datatype Rest = Rest(lines: seq<string>, rejected: bool, saw: bool, changed: bool)

  function Remaining(starts: Starts, patch: Patch, lines: seq<string>): Rest {
    var segments := Split(starts, lines);
    Rest(Flatten(RewriteAll(starts, patch, segments)), AnyRejected(starts, patch, segments),
         AnySaw(starts, patch, segments), AnyChanged(starts, patch, segments))
  }

  lemma RemainingStep(starts: Starts, patch: Patch, lines: seq<string>)
    requires lines != []
    ensures var (segment, rest) := First(starts, lines);
            var p := Outcome(starts, patch, segment);
            var r := Remaining(starts, patch, rest);
            Remaining(starts, patch, lines)
              == Rest(LinesOf(Rewritten(starts, patch, segment)) + r.lines, p.None? || r.rejected,
                      (p.Some? && p.value.saw) || r.saw, (p.Some? && p.value.changed) || r.changed)
  {
    var (segment, rest) := First(starts, lines);
    var segments := Split(starts, lines);
    assert segments[0] == segment && segments[1..] == Split(starts, rest);
    var all := RewriteAll(starts, patch, segments);
    assert all[1..] == RewriteAll(starts, patch, segments[1..]);
  }

  /**
    The index loop over the lines of a script, as both injectors run it: it equals splitting the
    script, rewriting the segments and putting them together again.
   */
  method RewriteLines(starts: Starts, patch: Patch, lines: seq<string>) returns (r: Rest)
    ensures r.rejected <==> Remaining(starts, patch, lines).rejected
    ensures !r.rejected ==> r == Remaining(starts, patch, lines)
  {
    var output: seq<string> := [];
    var idx := 0;
    var saw, changed := false, false;
    assert lines[0..] == lines;
    while idx < |lines|
      invariant idx <= |lines|
      invariant Remaining(starts, patch, lines) == After(output, saw, changed, Remaining(starts, patch, lines[idx..]))
    {
      var part, next := Rest([lines[idx]], false, false, false), idx + 1;
      if starts(lines[idx]).Some? { part, next := RewriteHeredoc(starts, patch, lines, idx); }
      assert starts(lines[idx]).None? ==> lines[idx..][1..] == lines[next..];
      PartDone(starts, patch, lines[idx..], output, saw, changed, part);
      if part.rejected { return part; }
      output, saw, changed, idx := output + part.lines, saw || part.saw, changed || part.changed, next;
    }
    assert lines[|lines|..] == [];
    return Rest(output, false, saw, changed);
  }

  /** `part` is what the loop produced for the first segment of `lines`. */
  predicate PartOf(starts: Starts, patch: Patch, segment: Segment, part: Rest) {
    var p := Outcome(starts, patch, segment);
    && (part.rejected <==> p.None?)
    && (p.Some? ==> part == Rest(LinesOf(Rewritten(starts, patch, segment)), false, p.value.saw, p.value.changed))
  }

  lemma PartDone(starts: Starts, patch: Patch, lines: seq<string>, output: seq<string>, saw: bool, changed: bool, part: Rest)
    requires lines != [] && PartOf(starts, patch, First(starts, lines).0, part)
    ensures part.rejected ==> Remaining(starts, patch, lines).rejected
    ensures !part.rejected ==>
              After(output, saw, changed, Remaining(starts, patch, lines))
              == After(output + part.lines, saw || part.saw, changed || part.changed, Remaining(starts, patch, First(starts, lines).1))
  {
    RemainingStep(starts, patch, lines);
    var r := Remaining(starts, patch, First(starts, lines).1);
    Assoc(output, part.lines, r.lines);
  }

  /** The heredoc that starts at line `idx`: its lines as they go to the output, and where the script goes on. */
  method RewriteHeredoc(starts: Starts, patch: Patch, lines: seq<string>, idx: nat) returns (part: Rest, next: nat)
    requires idx < |lines| && starts(lines[idx]).Some?
    ensures idx < next <= |lines| && lines[next..] == First(starts, lines[idx..]).1
    ensures PartOf(starts, patch, First(starts, lines[idx..]).0, part)
  {
    var start := starts(lines[idx]).value;
    var k := BodyFrom(lines, idx + 1, start.tag);
    var body := lines[idx + 1..k];
    Slices(lines, idx, k);
    if k == |lines| { return Rest([lines[idx]] + body, false, false, false), k; }
    var p := Some(Patched("", false, false));
    if KubeadmYaml(start.path) {
      p := patch(Join(body));
      if p.Some? && p.value.saw { body := Lines(p.value.text); }
    }
    if p.None? { return Rest([], true, false, false), k + 1; }
    return Rest([lines[idx]] + body + [lines[k]], false, p.value.saw, p.value.changed), k + 1;
  }

  lemma Slices(lines: seq<string>, idx: nat, k: nat)
    requires idx < k <= |lines|
    ensures var rest := lines[idx..][1..];
            && rest == lines[idx + 1..] && rest[..k - idx - 1] == lines[idx + 1..k]
            && (k < |lines| ==> rest[k - idx - 1] == lines[k] && rest[k - idx..] == lines[k + 1..])
            && (k == |lines| ==> rest == lines[idx + 1..k])
  {
  }

  function After(output: seq<string>, saw: bool, changed: bool, rest: Rest): Rest {
    Rest(output + rest.lines, rest.rejected, saw || rest.saw, changed || rest.changed)
  }

  /** The inner loop: collect lines up to the one that ends the heredoc. */
  method BodyFrom(lines: seq<string>, idx: nat, tag: string) returns (k: nat)
    requires idx <= |lines|
    ensures k == idx + BodyEnd(lines[idx..], tag)
  {
    k := idx;
    while k < |lines| && Strip(lines[k]) != tag
      invariant idx <= k <= |lines|
      invariant idx + BodyEnd(lines[idx..], tag) == k + BodyEnd(lines[k..], tag)
    {
      assert lines[k..][1..] == lines[k + 1..];
      k := k + 1;
    }
  }

  // ---------- the two injectors ----------

  function RewrittenText(patch: Patch, text: string): string {
    Join(Remaining(ParseStart, patch, Lines(text)).lines) + if EndsWithNewline(text) then "\n" else ""
  }

  /** Provider ID: without a change the script is returned as it is. */
  method InjectProviderId(patch: Patch, text: string) returns (r: Option<(string, bool)>)
    ensures var rest := Remaining(ParseStart, patch, Lines(text));
            && (r.None? <==> rest.rejected)
            && (r.Some? ==> r.value == (if rest.changed then RewrittenText(patch, text) else text, rest.changed))
  {
    var rest := RewriteLines(ParseStart, patch, Lines(text));
    if rest.rejected { return None; }
    if !rest.changed { return Some((text, false)); }
    return Some((Join(rest.lines) + if EndsWithNewline(text) then "\n" else "", true));
  }

  /** External etcd: a script without any document to wire is an error. */
  method InjectExternalEtcd(patch: Patch, text: string) returns (r: Option<(string, bool)>)
    ensures var rest := Remaining(ParseStart, patch, Lines(text));
            && (r.None? <==> rest.rejected || !rest.saw)
            && (r.Some? ==> r.value == (RewrittenText(patch, text), rest.changed))
  {
    var rest := RewriteLines(ParseStart, patch, Lines(text));
    if rest.rejected || !rest.saw { return None; }
    return Some((Join(rest.lines) + if EndsWithNewline(text) then "\n" else "", rest.changed));
  }

  // ---------- what a rewrite keeps ----------

  /** Segment by segment, only bodies of terminated kubeadm heredocs differ; if no document was seen, nothing does. */
  lemma {:induction false} OnlyBodies(starts: Starts, patch: Patch, segments: seq<Segment>)
    ensures var r := RewriteAll(starts, patch, segments);
            && (forall i | 0 <= i < |segments| ::
                  r[i] == segments[i]
                  || (Concerned(starts, segments[i]) && r[i].Heredoc? && r[i].start == segments[i].start && r[i].end == segments[i].end))
            && (!AnySaw(starts, patch, segments) ==> r == segments)
  {
    if segments != [] {
      OnlyBodies(starts, patch, segments[1..]);
    }
  }

  /** A script in which no document was seen is rendered as it was, to the character. */
  lemma NothingSeen(patch: Patch, text: string)
    requires !Remaining(ParseStart, patch, Lines(text)).saw
    ensures RewrittenText(patch, text) == text
  {
    OnlyBodies(ParseStart, patch, Split(ParseStart, Lines(text)));
    SplitFlatten(ParseStart, Lines(text));
    JoinLines(text);
  }

  /** A body whose document was seen and left alone is kept exactly if it does not end in an empty line. */
  lemma UnchangedBody(starts: Starts, patch: Patch, segment: Segment)
    requires Concerned(starts, segment) && forall line | line in segment.body :: '\n' !in line
    requires patch(Join(segment.body)).Some? && patch(Join(segment.body)).value.text == Join(segment.body)
    requires patch(Join(segment.body)).value.saw
    ensures Rewritten(starts, patch, segment) == segment <==> segment.body == [] || segment.body[|segment.body| - 1] != ""
  {
    LinesJoin(segment.body);
  }

  /** No line of the body ends its own heredoc. */
  predicate Closed(starts: Starts, segment: Segment) {
    segment.Heredoc? && starts(segment.start).Some? ==>
      forall line | line in segment.body :: Strip(line) != starts(segment.start).value.tag
  }

  /** The rewritten script has the rewritten segments exactly if no rewritten body contains its own terminator. */
  lemma FoundAgain(starts: Starts, patch: Patch, lines: seq<string>)
    ensures var r := RewriteAll(starts, patch, Split(starts, lines));
            Split(starts, Flatten(r)) == r <==> forall i | 0 <= i < |r| :: Closed(starts, r[i])
  {
    var segments := Split(starts, lines);
    var r := RewriteAll(starts, patch, segments);
    SplitFlatten(starts, lines);
    OnlyBodies(starts, patch, segments);
    FlattenSplit(starts, r);
    if forall i | 0 <= i < |r| :: Closed(starts, r[i]) {
      forall i | 0 <= i < |r| ensures SegmentOk(starts, r[i], i == |r| - 1) {
        assert SegmentOk(starts, segments[i], i == |segments| - 1);
        ClosedIsOk(starts, segments[i], r[i], i == |r| - 1);
      }
    }
    if WellFormed(starts, r) {
      forall i | 0 <= i < |r| ensures Closed(starts, r[i]) {
        assert SegmentOk(starts, r[i], i == |r| - 1);
      }
    }
  }

  /** A new body keeps a segment sound if it is closed. */
  lemma ClosedIsOk(starts: Starts, segment: Segment, segment': Segment, last: bool)
    requires SegmentOk(starts, segment, last) && Closed(starts, segment')
    requires segment' == segment || (segment.Heredoc? && segment'.Heredoc? && segment'.start == segment.start && segment'.end == segment.end)
    ensures SegmentOk(starts, segment', last)
  {
  }

  /** The patch finds nothing more to do in a text that it has produced. */
  predicate SettledOn(patch: Patch, text: string) {
    var p := patch(text);
    p.Some? && p.value.saw ==>
      var again := patch(Join(Lines(p.value.text)));
      again.Some? && !again.value.changed
  }

  /** A patch that saw no document changed none. */
  predicate Honest(patch: Patch, text: string) {
    patch(text).Some? && !patch(text).value.saw ==> !patch(text).value.changed
  }

  lemma {:induction false} AgainUnchanged(starts: Starts, patch: Patch, segments: seq<Segment>)
    requires forall i | 0 <= i < |segments| && Concerned(starts, segments[i]) ::
               SettledOn(patch, Join(segments[i].body)) && Honest(patch, Join(segments[i].body))
    requires !AnyRejected(starts, patch, segments)
    ensures var r := RewriteAll(starts, patch, segments); !AnyRejected(starts, patch, r) && !AnyChanged(starts, patch, r)
  {
    if segments != [] {
      AgainUnchanged(starts, patch, segments[1..]);
      var r := RewriteAll(starts, patch, segments);
      assert r[1..] == RewriteAll(starts, patch, segments[1..]);
      if Concerned(starts, segments[0]) { assert SettledOn(patch, Join(segments[0].body)) && Honest(patch, Join(segments[0].body)); }
    }
  }

  /** Repeating a rewrite that closed its heredocs, with a patch that settles, reports no change. */
  lemma RewriteTwice(starts: Starts, patch: Patch, lines: seq<string>)
    requires var segments := Split(starts, lines);
             && (forall i | 0 <= i < |segments| && Concerned(starts, segments[i]) ::
                   SettledOn(patch, Join(segments[i].body)) && Honest(patch, Join(segments[i].body)))
             && (forall i | 0 <= i < |segments| :: Closed(starts, RewriteAll(starts, patch, segments)[i]))
    requires !Remaining(starts, patch, lines).rejected
    ensures var again := Remaining(starts, patch, Remaining(starts, patch, lines).lines);
            !again.rejected && !again.changed
  {
    FoundAgain(starts, patch, lines);
    AgainUnchanged(starts, patch, Split(starts, lines));
  }
}
