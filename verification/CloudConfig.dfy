/**
  Rendering a cloud-config as a shell script, and finding its files again in the script
  (controllers/sshmachine.py). Contents are decoded, and a line is an element of the script's list.
 */
module CloudConfig {
  import opened Wrappers
  import opened Texts
  import opened Heredoc

  datatype Mode = Number(n: nat) | Words(text: string)

  /** A `write_files` entry. The parser admits only non-empty paths. */
  datatype File = File(path: string, content: string, permissions: Option<Mode>, owner: Option<string>)

  datatype RunCommand = Script(line: string) | Arguments(parts: seq<string>)

  datatype Config = Config(files: seq<File>, commands: seq<RunCommand>)

  // ---------- shell words ----------

  predicate IsSafe(c: char) {
    IsLetter(c) || IsDigit(c) || c in "@%_+=:,./-"
  }

  predicate NeedsNoQuotes(s: string) {
    s != [] && forall c | c in s :: IsSafe(c)
  }

  /** Each quote is closed, put in double quotes, and reopened. */
  function Escaped(s: string): (r: string)
    ensures |r| >= |s|
  {
    if s == [] then [] else (if s[0] == '\'' then "'\"'\"'" else [s[0]]) + Escaped(s[1..])
  }

  /** `shlex.quote` */
  function Quote(s: string): string {
    if NeedsNoQuotes(s) then s else "'" + Escaped(s) + "'"
  }

  function Octal(n: nat): string {
    if n < 8 then [DigitChar(n)] else Octal(n / 8) + [DigitChar(n % 8)]
  }

  function StripQuotes(s: string): string
    decreases |s|
  {
    if s != [] && s[0] in "'\"" then StripQuotes(s[1..])
    else if s != [] && s[|s| - 1] in "'\"" then StripQuotes(s[..|s| - 1])
    else s
  }

  /** `None` is a PermanentError. */
  function ModeText(mode: Mode): Option<string> {
    match mode
    case Number(n) => Some(Octal(n))
    case Words(text) =>
      var normalized := StripQuotes(Strip(text));
      if normalized == "" then None else Some(normalized)
  }

  /** `posixpath.dirname(path) or "/"` */
  function Directory(path: string): string {
    var head := UpToSlash(path);
    var trimmed := DropSlashes(head);
    if head == "" then "/" else if trimmed == "" then head else trimmed
  }

  function UpToSlash(s: string): string {
    if s == [] || s[|s| - 1] == '/' then s else UpToSlash(s[..|s| - 1])
  }

  function DropSlashes(s: string): string {
    if s != [] && s[|s| - 1] == '/' then DropSlashes(s[..|s| - 1]) else s
  }

  // ---------- the script ----------

  function Marker(i: nat): string {
    "__CAPI_BOOTSTRAP_FILE_" + PrintNat(i) + "__"
  }

  function StartLine(i: nat, path: string): string {
    "cat <<'" + Marker(i) + "' > " + Quote(path)
  }

  predicate Accepted(f: File) {
    && (f.permissions.Some? ==> ModeText(f.permissions.value).Some?)
    && (f.owner.Some? ==> f.owner.value != "")
  }

  predicate AllAccepted(files: seq<File>) {
    forall i | 0 <= i < |files| :: Accepted(files[i])
  }

  /** The permissions as they are written; only used for accepted files. */
  function Permissions(f: File): string {
    if f.permissions.Some? && ModeText(f.permissions.value).Some? then ModeText(f.permissions.value).value else ""
  }

  function AfterFile(f: File): seq<string> {
    (if f.permissions.Some? then ["chmod " + Quote(Permissions(f)) + " " + Quote(f.path)] else [])
    + (if f.owner.Some? then ["chown " + Quote(f.owner.value) + " " + Quote(f.path)] else [])
  }

  function InstallLine(f: File): string {
    "install -d -m 0755 " + Quote(Directory(f.path))
  }

  function FileLines(i: nat, f: File): seq<string> {
    [InstallLine(f), StartLine(i, f.path)] + Lines(f.content) + [Marker(i)] + AfterFile(f)
  }

  function Spaced(parts: seq<string>): string {
    if parts == [] then "" else if |parts| == 1 then Quote(parts[0]) else Quote(parts[0]) + " " + Spaced(parts[1..])
  }

  function CommandLines(command: RunCommand): seq<string> {
    match command
    case Script(line) => [line]
    case Arguments(parts) => if parts == [] then [] else [Spaced(parts)]
  }

  /** The lines of the files, numbered from 0. */
  function FilesLines(files: seq<File>): seq<string> {
    if files == [] then [] else FilesLines(files[..|files| - 1]) + FileLines(|files| - 1, files[|files| - 1])
  }

  function CommandsLines(commands: seq<RunCommand>): seq<string> {
    if commands == [] then [] else CommandsLines(commands[..|commands| - 1]) + CommandLines(commands[|commands| - 1])
  }

  const HEADER := ["#!/bin/bash", "set -euo pipefail"]

  function ScriptLines(config: Config): seq<string> {
    HEADER + FilesLines(config.files) + CommandsLines(config.commands)
  }

  lemma FilesMore(files: seq<File>, i: nat)
    requires i < |files|
    ensures FilesLines(files[..i + 1]) == FilesLines(files[..i]) + FileLines(i, files[i])
  {
    assert files[..i + 1][..i] == files[..i];
  }

  lemma AcceptedMore(files: seq<File>, i: nat)
    requires i < |files| && AllAccepted(files[..i])
    ensures if Accepted(files[i]) then AllAccepted(files[..i + 1]) else !AllAccepted(files)
  {
  }

  /** The first loop of the rendering; `None` is a PermanentError. */
  method RenderFiles(header: seq<string>, files: seq<File>) returns (lines: Option<seq<string>>)
    ensures lines.Some? <==> AllAccepted(files)
    ensures lines.Some? ==> lines.value == header + FilesLines(files)
  {
    var out := header;
    var i := 0;
    while i < |files|
      invariant i <= |files| && AllAccepted(files[..i])
      invariant out == header + FilesLines(files[..i])
    {
      var part := RenderFile(i, files[i]);
      AcceptedMore(files, i);
      if part.None? { return None; }
      FilesMore(files, i);
      Assoc(header, FilesLines(files[..i]), part.value);
      out := out + part.value;
      i := i + 1;
    }
    assert files[..i] == files;
    return Some(out);
  }

  method RenderFile(i: nat, f: File) returns (lines: Option<seq<string>>)
    ensures lines.Some? <==> Accepted(f)
    ensures lines.Some? ==> lines.value == FileLines(i, f)
  {
    var out := [InstallLine(f), StartLine(i, f.path)];
    if f.content != "" { out := out + Lines(f.content); }
    out := out + [Marker(i)];
    var after := RenderAfter(f);
    if after.None? { return None; }
    return Some(out + after.value);
  }

  /** Permissions and owner. */
  method RenderAfter(f: File) returns (lines: Option<seq<string>>)
    ensures lines.Some? <==> Accepted(f)
    ensures lines.Some? ==> lines.value == AfterFile(f)
  {
    var out := [];
    if f.permissions.Some? {
      var mode := ModeText(f.permissions.value);
      if mode.None? { return None; }
      out := ["chmod " + Quote(mode.value) + " " + Quote(f.path)];
    }
    if f.owner.Some? {
      if f.owner.value == "" { return None; }
      out := out + ["chown " + Quote(f.owner.value) + " " + Quote(f.path)];
    }
    return Some(out);
  }

  /** The second loop. */
  method RenderCommands(commands: seq<RunCommand>) returns (out: seq<string>)
    ensures out == CommandsLines(commands)
  {
    out := [];
    for j := 0 to |commands|
      invariant out == CommandsLines(commands[..j])
    {
      assert commands[..j + 1][..j] == commands[..j];
      match commands[j] {
        case Script(line) => out := out + [line];
        case Arguments(words) => if words != [] { out := out + [Spaced(words)]; }
      }
    }
    assert commands[..|commands|] == commands;
  }

  /** The script: all lines, without newlines at the end but one. */
  function ScriptText(config: Config): string {
    DropNewlines(Join(ScriptLines(config))) + "\n"
  }

  method Render(config: Config) returns (script: Option<string>)
    ensures script.Some? <==> AllAccepted(config.files)
    ensures script.Some? ==> script.value == ScriptText(config)
  {
    var lines := RenderFiles(HEADER, config.files);
    if lines.None? { return None; }
    var commands := RenderCommands(config.commands);
    return Some(DropNewlines(Join(lines.value + commands)) + "\n");
  }

  // ---------- finding the files again ----------

  predicate IsTag(m: string) {
    m != [] && !IsDigit(m[0]) && forall c | c in m :: IsTagChar(c)
  }

  lemma MarkerIsTag(i: nat)
    ensures IsTag(Marker(i)) && Strip(Marker(i)) == Marker(i)
  {
    var m := Marker(i);
    assert forall c | c in "__CAPI_BOOTSTRAP_FILE_" :: IsTagChar(c);
    assert m[0] == '_' && m[|m| - 1] == '_';
    NothingToTrim(m);
  }

  lemma {:induction false} AllTagChars(m: string, rest: string)
    requires (forall c | c in m :: IsTagChar(c)) && (rest == [] || !IsTagChar(rest[0]))
    ensures TagLength(m + rest) == |m|
  {
    if m == [] {
      assert m + rest == rest;
    } else {
      assert m[0] in m;
      assert (m + rest)[1..] == m[1..] + rest;
      AllTagChars(m[1..], rest);
    }
  }

  lemma {:induction false} WholeWord(s: string)
    requires forall c | c in s :: !IsSpace(c)
    ensures WordLength(s) == |s|
  {
    if s != [] {
      assert s[0] in s;
      WholeWord(s[1..]);
    }
  }

  lemma {:induction false} TrimsToNothing(s: string)
    requires TrimLeft(s) == []
    ensures forall c | c in s :: IsSpace(c)
  {
    if s != [] { TrimsToNothing(s[1..]); }
  }

  /** A line whose first word is not `cat` opens no heredoc. */
  lemma NoStart(line: string)
    requires line != [] && !IsSpace(line[0]) && !(|line| > 2 && line[0] == 'c' && line[1] == 'a' && line[2] == 't')
    ensures ParseStart(line).None?
  {
    assert TrimLeft(line) == line;
  }

  lemma ReadCat(s: string)
    requires s != [] && !IsSpace(s[0])
    ensures AfterCat("cat " + s) == Some(s)
  {
    var line := "cat " + s;
    assert TrimLeft(line) == line && line[3..] == " " + s && (" " + s)[1..] == s;
    assert TrimLeft(s) == s;
  }

  lemma ReadTag(m: string, rest: string)
    requires IsTag(m)
    ensures TakeTag("'" + (m + ("'" + rest))) == Some((m, rest))
  {
    var t := m + ("'" + rest);
    AllTagChars(m, "'" + rest);
    assert ("'" + t)[1..] == t && TrimLeft("'" + t) == "'" + t;
    assert t[..|m|] == m && t[|m|..] == "'" + rest && ("'" + rest)[1..] == rest;
    assert t[0] == m[0] && m[0] in m;
  }

  lemma ReadWord(word: string)
    requires word != [] && !IsSpace(word[0]) && !IsSpace(word[|word| - 1])
    ensures TakeWord(" " + word) == Some((word[..WordLength(word)], word[WordLength(word)..]))
    ensures TrimLeft(word[WordLength(word)..]) == [] <==> WordLength(word) == |word|
  {
    var t := " " + word;
    assert t[1..] == word && TrimLeft(word) == word;
    var k := WordLength(word);
    if k < |word| && TrimLeft(word[k..]) == [] {
      TrimsToNothing(word[k..]);
    }
  }

  /** What follows the tag. */
  function ToWord(word: string): string {
    " > " + word
  }

  /** What follows `cat `. */
  function Tail(m: string, word: string): string {
    "<<" + ("'" + (m + ("'" + ToWord(word))))
  }

  lemma TailShape(m: string, word: string)
    ensures "cat <<'" + m + "' > " + word == "cat " + Tail(m, word)
    ensures Tail(m, word)[2..] == "'" + (m + ("'" + ToWord(word)))
    ensures ToWord(word) != [] && IsSpace(ToWord(word)[0])
    ensures TrimLeft(ToWord(word)) == "> " + word && ("> " + word)[1..] == " " + word
  {
    assert ToWord(word)[1..] == "> " + word;
  }

  lemma NotDirect(line: string, s: string)
    requires AfterCat(line) == Some(s) && !IsTo(s)
    ensures Direct(line).None?
  {
  }

  lemma ReadReverse(line: string, s: string, tag: string, rest: string, target: string, path: string, after: string)
    requires AfterCat(line) == Some(s) && IsFrom(s) && TakeTag(s[2..]) == Some((tag, rest))
    requires rest != [] && IsSpace(rest[0]) && TrimLeft(rest) == target && IsTo(target)
    requires TakeWord(target[1..]) == Some((path, after))
    ensures Reverse(line) == if TrimLeft(after) == [] then Some(Start(path, tag)) else None
  {
  }

  lemma CatOfStart(m: string, word: string)
    requires IsTag(m)
    ensures AfterCat("cat " + Tail(m, word)) == Some(Tail(m, word)) && IsFrom(Tail(m, word))
    ensures TakeTag(Tail(m, word)[2..]) == Some((m, ToWord(word)))
  {
    TailShape(m, word);
    ReadCat(Tail(m, word));
    ReadTag(m, ToWord(word));
  }

  lemma WordOfStart(word: string)
    requires word != [] && !IsSpace(word[0]) && !IsSpace(word[|word| - 1])
    ensures ToWord(word) != [] && IsSpace(ToWord(word)[0]) && TrimLeft(ToWord(word)) == "> " + word
    ensures TakeWord(("> " + word)[1..]) == Some((word[..WordLength(word)], word[WordLength(word)..]))
    ensures WordLength(word) == |word| ==> word[..WordLength(word)] == word
    ensures TrimLeft(word[WordLength(word)..]) == [] <==> WordLength(word) == |word|
  {
    TailShape("", word);
    ReadWord(word);
  }

  lemma ReverseOfStart(m: string, word: string)
    requires IsTag(m) && word != [] && !IsSpace(word[0]) && !IsSpace(word[|word| - 1])
    ensures Reverse("cat " + Tail(m, word)) == if WordLength(word) == |word| then Some(Start(word, m)) else None
  {
    CatOfStart(m, word);
    WordOfStart(word);
    ReadReverse("cat " + Tail(m, word), Tail(m, word), m, ToWord(word), "> " + word, word[..WordLength(word)], word[WordLength(word)..]);
  }

  /** The start line as its reader takes it apart: the path is read back as the shell word that was written. */
  lemma ReadStart(m: string, word: string)
    requires IsTag(m) && word != [] && !IsSpace(word[0]) && !IsSpace(word[|word| - 1])
    ensures ParseStart("cat <<'" + m + "' > " + word)
            == if WordLength(word) == |word| then Some(Start(word, m)) else None
  {
    TailShape(m, word);
    CatOfStart(m, word);
    ReverseOfStart(m, word);
    NotDirect("cat " + Tail(m, word), Tail(m, word));
  }

  /** The path of a file is read back exactly if it needs no quotes. */
  lemma PathReadBack(i: nat, path: string)
    requires path != []
    ensures ParseStart(StartLine(i, path)) == Some(Start(path, Marker(i))) <==> NeedsNoQuotes(path)
  {
    var word := Quote(path);
    if NeedsNoQuotes(path) {
      assert path[0] in path && path[|path| - 1] in path;
      WholeWord(path);
    }
    assert !IsSpace(word[0]) && !IsSpace(word[|word| - 1]);
    MarkerIsTag(i);
    ReadStart(Marker(i), word);
  }

  /** No line of the content ends its own heredoc. */
  predicate KeepsMarker(i: nat, f: File) {
    forall line | line in Lines(f.content) :: Strip(line) != Marker(i)
  }

  /** A file as a reader of the script finds it. */
  datatype Found = Found(path: string, lines: seq<string>)

  /** The terminated heredocs among the segments. */
  function FilesIn(starts: Starts, segments: seq<Segment>): seq<Found> {
    if segments == [] then []
    else
      var head := segments[0];
      (if head.Heredoc? && starts(head.start).Some? then [Found(starts(head.start).value.path, head.body)] else [])
      + FilesIn(starts, segments[1..])
  }

  lemma {:induction false} FilesInConcat(starts: Starts, a: seq<Segment>, b: seq<Segment>)
    ensures FilesIn(starts, a + b) == FilesIn(starts, a) + FilesIn(starts, b)
  {
    if a == [] {
      assert a + b == b;
    } else {
      assert (a + b)[1..] == a[1..] + b;
      FilesInConcat(starts, a[1..], b);
    }
  }

  /** In front of this script, the lines add these files and disturb nothing that follows. */
  predicate AddsBefore(starts: Starts, lines: seq<string>, found: seq<Found>, rest: seq<string>) {
    FilesIn(starts, Split(starts, lines + rest)) == found + FilesIn(starts, Split(starts, rest))
  }

  ghost predicate Adds(starts: Starts, lines: seq<string>, found: seq<Found>) {
    forall rest: seq<string> {:trigger AddsBefore(starts, lines, found, rest)} :: AddsBefore(starts, lines, found, rest)
  }

  lemma AddsConcat(starts: Starts, a: seq<string>, x: seq<Found>, b: seq<string>, y: seq<Found>)
    requires Adds(starts, a, x) && Adds(starts, b, y)
    ensures Adds(starts, a + b, x + y)
  {
    var lines, found := a + b, x + y;
    forall rest: seq<string> ensures AddsBefore(starts, lines, found, rest) {
      assert AddsBefore(starts, a, x, b + rest) && AddsBefore(starts, b, y, rest);
      Assoc(a, b, rest);
      Assoc(x, y, FilesIn(starts, Split(starts, rest)));
    }
  }

  lemma AddsNothing(starts: Starts)
    ensures Adds(starts, [], [])
  {
    forall rest: seq<string> ensures AddsBefore(starts, [], [], rest) {
      assert [] + rest == rest;
    }
  }

  lemma OneSegment(starts: Starts, segment: Segment)
    requires SegmentOk(starts, segment, false)
    ensures Adds(starts, LinesOf(segment), FilesIn(starts, [segment]))
  {
    var lines, found := LinesOf(segment), FilesIn(starts, [segment]);
    forall rest: seq<string> ensures AddsBefore(starts, lines, found, rest) {
      SplitSegment(starts, segment, rest);
      FilesInConcat(starts, [segment], Split(starts, rest));
    }
  }

  lemma {:induction false} PlainLines(starts: Starts, lines: seq<string>)
    requires forall line | line in lines :: starts(line).None?
    ensures Adds(starts, lines, [])
  {
    if lines == [] {
      AddsNothing(starts);
    } else {
      assert lines[0] in lines;
      OneSegment(starts, Plain(lines[0]));
      PlainLines(starts, lines[1..]);
      var nothing: seq<Found> := [];
      AddsConcat(starts, LinesOf(Plain(lines[0])), nothing, lines[1..], nothing);
      assert LinesOf(Plain(lines[0])) + lines[1..] == lines && nothing + nothing == nothing;
    }
  }

  /** A tag opens nothing, and is not changed by stripping. */
  predicate PlainTag(starts: Starts, tag: string) {
    starts(tag).None? && Strip(tag) == tag
  }

  predicate Opens(starts: Starts, line: string) {
    starts(line).Some? && PlainTag(starts, starts(line).value.tag)
  }

  /**
    The exact condition: lines open no heredoc exactly if, whatever script follows them, they add no
    file to those of that script and hide none.
   */
  lemma PlainExactly(starts: Starts, lines: seq<string>)
    requires forall line | line in lines :: starts(line).None? || Opens(starts, line)
    ensures (forall line | line in lines :: starts(line).None?) <==> Adds(starts, lines, [])
  {
    if forall line | line in lines :: starts(line).None? {
      PlainLines(starts, lines);
    } else {
      var tag := OpenedIsFound(starts, lines);
      assert !AddsBefore(starts, lines, [], [tag]);
    }
  }

  /** With the tag of its first heredoc in the end, that heredoc is found. */
  lemma {:induction false} OpenedIsFound(starts: Starts, lines: seq<string>) returns (tag: string)
    requires exists line :: line in lines && starts(line).Some?
    requires forall line | line in lines :: starts(line).None? || Opens(starts, line)
    ensures FilesIn(starts, Split(starts, lines + [tag])) != [] && FilesIn(starts, Split(starts, [tag])) == []
  {
    assert lines[0] in lines;
    if starts(lines[0]).Some? {
      tag := starts(lines[0]).value.tag;
      var rest := lines[1..] + [tag];
      assert (lines + [tag])[1..] == rest && rest[|rest| - 1] == tag;
    } else {
      tag := OpenedIsFound(starts, lines[1..]);
      assert (lines + [tag])[1..] == lines[1..] + [tag];
    }
  }

  /** The tag of a heredoc is a word. */
  lemma TagIsPlain(line: string)
    requires ParseStart(line).Some?
    ensures Opens(ParseStart, line)
  {
    var tag := ParseStart(line).value.tag;
    TagOfStart(line);
    assert tag[0] in tag && tag[|tag| - 1] in tag;
    NothingToTrim(tag);
    WordOpensNothing(tag);
  }

  lemma WordOpensNothing(tag: string)
    requires tag != [] && forall c | c in tag :: IsTagChar(c)
    ensures ParseStart(tag).None?
  {
    assert tag[0] in tag;
    assert TrimLeft(tag) == tag;
    if |tag| > 3 { assert tag[3] in tag; }
    assert AfterCat(tag).None?;
  }

  lemma TagOfStart(line: string)
    requires ParseStart(line).Some?
    ensures var tag := ParseStart(line).value.tag; tag != [] && forall c | c in tag :: IsTagChar(c)
  {
    var s := AfterCat(line).value;
    if Direct(line).Some? {
      var word := TakeWord(s[1..]).value;
      TagIsWord(TrimLeft(word.1)[2..]);
    } else {
      TagIsWord(s[2..]);
    }
  }

  lemma TagIsWord(s: string)
    requires TakeTag(s).Some?
    ensures var tag := TakeTag(s).value.0; tag != [] && forall c | c in tag :: IsTagChar(c)
  {
    TagChars(Unquoted(TrimLeft(s)));
  }

  lemma {:induction false} TagChars(s: string)
    ensures forall c | c in s[..TagLength(s)] :: IsTagChar(c)
  {
    if s != [] && IsTagChar(s[0]) {
      TagChars(s[1..]);
      assert s[..TagLength(s)] == [s[0]] + s[1..][..TagLength(s[1..])];
    }
  }

  /** What is written behind a file disturbs nothing exactly if none of its lines opens a heredoc. */
  lemma OpensNothingExactly(f: File)
    ensures OpensNothing(f) <==> Adds(ParseStart, Physical(AfterFile(f)), [])
  {
    var lines := Physical(AfterFile(f));
    forall line | line in lines ensures ParseStart(line).None? || Opens(ParseStart, line) {
      if ParseStart(line).Some? { TagIsPlain(line); }
    }
    PlainExactly(ParseStart, lines);
  }

  /** The line that makes the directory opens no heredoc. */
  lemma InstallOpensNothing(f: File)
    ensures ParseStart(InstallLine(f)).None?
  {
    NoStart(InstallLine(f));
  }

  /** No line of what is written behind the content opens a heredoc; a newline in an owner makes several lines of it. */
  predicate OpensNothing(f: File) {
    forall line | line in Physical(AfterFile(f)) :: ParseStart(line).None?
  }

  /** It is so if permissions and owner are of one line. */
  lemma OneLineOpensNothing(f: File)
    requires NeedsNoQuotes(f.path) && OneLiner(f)
    ensures OpensNothing(f)
  {
    AfterIsPlain(f);
    PhysicalOneLines(AfterFile(f));
    forall line | line in AfterFile(f) ensures ParseStart(line).None? {
      NoStart(line);
    }
  }

  /** What reading back one file takes. */
  predicate FileOk(starts: Starts, i: nat, f: File) {
    && NeedsNoQuotes(f.path)
    && starts(InstallLine(f)).None?
    && (forall line | line in Physical(AfterFile(f)) :: starts(line).None?)
    && starts(StartLine(i, f.path)) == Some(Start(f.path, Marker(i)))
    && Strip(Marker(i)) == Marker(i)
    && KeepsMarker(i, f)
  }

  function FileSegment(i: nat, f: File): Segment {
    Heredoc(StartLine(i, f.path), Lines(f.content), Marker(i))
  }

  /** The lines of a file, as text. */
  lemma FileShape(i: nat, f: File)
    requires NeedsNoQuotes(f.path)
    ensures Physical(FileLines(i, f)) == [InstallLine(f)] + LinesOf(FileSegment(i, f)) + Physical(AfterFile(f))
  {
    var front := [InstallLine(f), StartLine(i, f.path)] + Lines(f.content) + [Marker(i)];
    InstallIsPlain(f);
    StartIsPlain(i, f.path);
    MarkerOneLine(i);
    LinesAreLines(f.content);
    PhysicalConcat(front, AfterFile(f));
    PhysicalOneLines(front);
    Regrouped(InstallLine(f), StartLine(i, f.path), Lines(f.content), Marker(i), Physical(AfterFile(f)));
  }

  lemma Regrouped(first: string, start: string, body: seq<string>, end: string, after: seq<string>)
    ensures [first, start] + body + [end] + after == [first] + ([start] + body + [end]) + after
  {
  }

  lemma OneFile(starts: Starts, i: nat, f: File)
    requires FileOk(starts, i, f)
    ensures Adds(starts, Physical(FileLines(i, f)), [Found(f.path, Lines(f.content))])
  {
    var found := [Found(f.path, Lines(f.content))];
    FileShape(i, f);
    OneSegment(starts, FileSegment(i, f));
    assert FilesIn(starts, [FileSegment(i, f)]) == found;
    PlainLines(starts, [InstallLine(f)]);
    PlainLines(starts, Physical(AfterFile(f)));
    AddsAround(starts, [InstallLine(f)], LinesOf(FileSegment(i, f)), Physical(AfterFile(f)), found);
  }

  lemma AddsAround(starts: Starts, a: seq<string>, b: seq<string>, c: seq<string>, found: seq<Found>)
    requires Adds(starts, a, []) && Adds(starts, b, found) && Adds(starts, c, [])
    ensures Adds(starts, a + b + c, found)
  {
    AddsConcat(starts, a, [], b, found);
    AddsConcat(starts, a + b, [] + found, c, []);
    assert [] + found + [] == found;
  }

  lemma ReadableFile(i: nat, f: File)
    requires NeedsNoQuotes(f.path) && KeepsMarker(i, f) && OpensNothing(f)
    ensures FileOk(ParseStart, i, f)
  {
    InstallOpensNothing(f);
    MarkerIsTag(i);
    PathReadBack(i, f.path);
  }

  /** What splitting the text of a cloud-config finds. */
  function FoundIn(config: Config): seq<Found> {
    FilesIn(ParseStart, Split(ParseStart, Lines(ScriptText(config))))
  }

  function Contents(files: seq<File>): seq<Found> {
    seq(|files|, i requires 0 <= i < |files| => Found(files[i].path, Lines(files[i].content)))
  }

  /** Every path needs no quotes, and no content line ends its own heredoc. */
  predicate PathsAndContentsOk(files: seq<File>) {
    forall i | 0 <= i < |files| :: NeedsNoQuotes(files[i].path) && KeepsMarker(i, files[i])
  }

  /** Besides, no line that is written behind a content opens a heredoc. */
  predicate Readable(files: seq<File>) {
    PathsAndContentsOk(files) && forall f | f in files :: OpensNothing(f)
  }

  predicate FilesOk(starts: Starts, files: seq<File>) {
    forall i | 0 <= i < |files| :: FileOk(starts, i, files[i])
  }

  lemma ContentsMore(files: seq<File>, n: nat)
    requires n < |files|
    ensures Contents(files[..n + 1]) == Contents(files[..n]) + [Found(files[n].path, Lines(files[n].content))]
  {
  }

  lemma {:induction false} FirstFiles(starts: Starts, files: seq<File>, n: nat)
    requires FilesOk(starts, files) && n <= |files|
    ensures Adds(starts, Physical(FilesLines(files[..n])), Contents(files[..n]))
  {
    if n == 0 {
      AddsNothing(starts);
    } else {
      var i := n - 1;
      FirstFiles(starts, files, i);
      OneFile(starts, i, files[i]);
      var file := [Found(files[i].path, Lines(files[i].content))];
      AddsConcat(starts, Physical(FilesLines(files[..i])), Contents(files[..i]), Physical(FileLines(i, files[i])), file);
      PhysicalConcat(FilesLines(files[..i]), FileLines(i, files[i]));
      FilesMore(files, i);
      ContentsMore(files, i);
    }
  }

  /** What is written on one line of the script stays on one line. */
  predicate OneLiner(f: File) {
    && (f.permissions.Some? ==> OneLine(Permissions(f)))
    && (f.owner.Some? ==> OneLine(f.owner.value))
  }

  /**
    Splitting a rendered cloud-config, as it is handed over as text, gives every file's path and
    content lines in entry order, before anything that the commands may write.
   */
  lemma FilesRecovered(config: Config)
    requires Readable(config.files)
    ensures Contents(config.files) <= FoundIn(config)
  {
    FrontEnds(config.files);
    var rest := TextAfterFront(HEADER + FilesLines(config.files), CommandsLines(config.commands));
    FrontRecovered(config.files, rest);
  }

  lemma FrontRecovered(files: seq<File>, rest: seq<string>)
    requires Readable(files)
    ensures Contents(files) <= FilesIn(ParseStart, Split(ParseStart, Physical(HEADER + FilesLines(files)) + rest))
  {
    ReadableFiles(files);
    HeaderIsPlain();
    HeaderFirst(FilesLines(files));
    AfterHeader(ParseStart, HEADER, Physical(FilesLines(files)), Contents(files), rest);
  }

  /** Whatever the commands are, the text begins with the lines of the front part. */
  lemma TextAfterFront(front: seq<string>, commands: seq<string>) returns (rest: seq<string>)
    requires front != [] && front[|front| - 1] != "" && !EndsWithNewline(front[|front| - 1])
    ensures Lines(DropNewlines(Join(front + commands)) + "\n") == Physical(front) + rest
    ensures commands == [] ==> rest == []
  {
    var joined := Join(front);
    JoinEnd(front);
    PhysicalAfter(front, "");
    assert joined + "\n" + "" == joined + "\n";
    rest := [];
    if commands == [] {
      assert front + commands == front;
    } else {
      JoinConcat(front, commands);
      DropBehind(joined, Join(commands));
      var dropped := DropNewlines(Join(front + commands));
      if dropped != joined {
        var t :| dropped == joined + "\n" + t;
        PhysicalAfter(front, t + "\n");
        assert dropped + "\n" == joined + "\n" + (t + "\n");
        rest := Lines(t + "\n");
      }
    }
  }

  lemma QuoteOneLine(s: string)
    requires OneLine(s)
    ensures OneLine(Quote(s))
  {
    EscapedOneLine(s);
  }

  lemma {:induction false} EscapedOneLine(s: string)
    requires OneLine(s)
    ensures OneLine(Escaped(s))
  {
    if s != [] {
      assert s[0] in s;
      EscapedOneLine(s[1..]);
    }
  }

  lemma SafeOneLine(s: string)
    requires forall c | c in s :: IsSafe(c)
    ensures OneLine(s)
  {
  }

  lemma {:induction false} UpToSlashChars(s: string)
    ensures forall c | c in UpToSlash(s) :: c in s
  {
    if s != [] && s[|s| - 1] != '/' { UpToSlashChars(s[..|s| - 1]); }
  }

  lemma {:induction false} DropSlashesChars(s: string)
    ensures forall c | c in DropSlashes(s) :: c in s
  {
    if s != [] && s[|s| - 1] == '/' { DropSlashesChars(s[..|s| - 1]); }
  }

  lemma DirectoryOneLine(path: string)
    requires NeedsNoQuotes(path)
    ensures OneLine(Directory(path))
  {
    UpToSlashChars(path);
    DropSlashesChars(UpToSlash(path));
    SafeOneLine(path);
  }

  lemma MarkerOneLine(i: nat)
    ensures OneLine(Marker(i)) && Marker(i) != ""
  {
    MarkerIsTag(i);
  }

  lemma InstallIsPlain(f: File)
    requires NeedsNoQuotes(f.path)
    ensures OneLine(InstallLine(f))
  {
    DirectoryOneLine(f.path);
    QuoteOneLine(Directory(f.path));
  }

  lemma StartIsPlain(i: nat, path: string)
    requires NeedsNoQuotes(path)
    ensures OneLine(StartLine(i, path))
  {
    MarkerOneLine(i);
    SafeOneLine(path);
  }

  lemma AfterIsPlain(f: File)
    requires NeedsNoQuotes(f.path) && OneLiner(f)
    ensures forall x | x in AfterFile(f) :: OneLine(x) && x != ""
  {
    SafeOneLine(f.path);
    if f.permissions.Some? { QuoteOneLine(Permissions(f)); }
    if f.owner.Some? { QuoteOneLine(f.owner.value); }
  }

  /** The front part does not end in a newline. */
  lemma FrontEnds(files: seq<File>)
    requires forall f | f in files :: NeedsNoQuotes(f.path)
    ensures var front := HEADER + FilesLines(files); front[|front| - 1] != "" && !EndsWithNewline(front[|front| - 1])
  {
    if files != [] {
      var n := |files| - 1;
      FileEnds(n, files[n]);
      Assoc(HEADER, FilesLines(files[..n]), FileLines(n, files[n]));
    }
  }

  lemma FileEnds(i: nat, f: File)
    requires NeedsNoQuotes(f.path)
    ensures var lines := FileLines(i, f); lines != [] && lines[|lines| - 1] != "" && !EndsWithNewline(lines[|lines| - 1])
  {
    var after, path := AfterFile(f), f.path;
    MarkerOneLine(i);
    assert path[|path| - 1] in path;
    if after == [] {
      var m := Marker(i);
      assert m[|m| - 1] in m;
    }
  }

  lemma ReadableFiles(files: seq<File>)
    requires Readable(files)
    ensures Adds(ParseStart, Physical(FilesLines(files)), Contents(files))
  {
    forall i | 0 <= i < |files| ensures FileOk(ParseStart, i, files[i]) {
      ReadableFile(i, files[i]);
    }
    FirstFiles(ParseStart, files, |files|);
    assert files[..|files|] == files;
  }

  lemma HeaderIsPlain()
    ensures Adds(ParseStart, HEADER, [])
  {
    NoStart(HEADER[0]);
    NoStart(HEADER[1]);
    PlainLines(ParseStart, HEADER);
  }

  lemma AfterHeader(starts: Starts, header: seq<string>, lines: seq<string>, found: seq<Found>, rest: seq<string>)
    requires Adds(starts, header, []) && Adds(starts, lines, found)
    ensures found <= FilesIn(starts, Split(starts, header + lines + rest))
  {
    AddsConcat(starts, header, [], lines, found);
    assert [] + found == found;
    assert AddsBefore(starts, header + lines, found, rest);
  }

  /** The condition is exact for each file: a content line that is the marker cuts the content short. */
  lemma ContentReadBack(i: nat, f: File, rest: seq<string>)
    ensures BodyEnd(Lines(f.content) + [Marker(i)] + rest, Marker(i)) == |Lines(f.content)| <==> KeepsMarker(i, f)
  {
    var body := Lines(f.content);
    var lines := body + [Marker(i)] + rest;
    MarkerIsTag(i);
    if KeepsMarker(i, f) {
      assert lines == body + ([Marker(i)] + rest);
      BodyEndAt(body, Marker(i), [Marker(i)] + rest);
    }
    if BodyEnd(lines, Marker(i)) == |body| {
      forall line | line in body ensures Strip(line) != Marker(i) {
        var k :| 0 <= k < |body| && body[k] == line;
        assert lines[k] == line;
      }
    }
  }

  // ---------- a file that is hidden ----------

  lemma {:induction false} WordThen(word: string, rest: string)
    requires (forall c | c in word :: !IsSpace(c)) && rest != [] && IsSpace(rest[0])
    ensures WordLength(word + rest) == |word|
  {
    if word == [] {
      assert word + rest == rest;
    } else {
      assert word[0] in word;
      assert (word + rest)[1..] == word[1..] + rest;
      WordThen(word[1..], rest);
    }
  }

  function FromTag(tag: string): string {
    " " + ("<<" + tag)
  }

  lemma ReadFrom(tag: string)
    requires IsTag(tag)
    ensures var s := FromTag(tag); IsSpace(s[0]) && TrimLeft(s) == "<<" + tag && IsFrom(TrimLeft(s)) && TrimLeft(s)[2..] == tag
    ensures TakeTag(tag) == Some((tag, []))
  {
    var s := FromTag(tag);
    assert s[1..] == "<<" + tag && TrimLeft("<<" + tag) == "<<" + tag;
    AllTagChars(tag, []);
    assert tag + [] == tag && tag[0] in tag && TrimLeft(tag) == tag;
    assert tag[..|tag|] == tag && tag[|tag|..] == [];
  }

  lemma ReadPath(path: string, rest: string)
    requires path != [] && (forall c | c in path :: !IsSpace(c)) && rest != [] && IsSpace(rest[0])
    ensures TakeWord(path + rest) == Some((path, rest))
  {
    var t := path + rest;
    assert path[0] in path && TrimLeft(t) == t;
    WordThen(path, rest);
    assert t[..|path|] == path && t[|path|..] == rest;
  }

  lemma ReadDirect(line: string, s: string, path: string, from: string, tag: string)
    requires AfterCat(line) == Some(s) && IsTo(s) && TakeWord(s[1..]) == Some((path, from))
    requires IsFrom(TrimLeft(from)) && TakeTag(TrimLeft(from)[2..]) == Some((tag, []))
    ensures ParseStart(line) == Some(Start(path, tag))
  {
  }

  /** The line `cat >path <<tag`. */
  function DirectLine(path: string, tag: string): string {
    "cat " + (">" + (path + FromTag(tag)))
  }

  lemma ReadDirectLine(path: string, tag: string)
    requires IsTag(tag) && path != [] && forall c | c in path :: !IsSpace(c)
    ensures ParseStart(DirectLine(path, tag)) == Some(Start(path, tag))
  {
    var s := ">" + (path + FromTag(tag));
    ReadCat(s);
    assert s[1..] == path + FromTag(tag);
    ReadFrom(tag);
    ReadPath(path, FromTag(tag));
    ReadDirect(DirectLine(path, tag), s, path, FromTag(tag), tag);
  }

  /** A heredoc that nothing ends hides whatever follows. */
  lemma HiddenBehind(starts: Starts, front: seq<string>, found: seq<Found>, opening: string, rest: seq<string>)
    requires Adds(starts, front, found) && starts(opening).Some?
    requires forall line | line in rest :: Strip(line) != starts(opening).value.tag
    ensures FilesIn(starts, Split(starts, front + ([opening] + rest))) == found
  {
    assert AddsBefore(starts, front, found, [opening] + rest);
    assert ([opening] + rest)[1..] == rest && BodyEnd(rest, starts(opening).value.tag) == |rest|;
    assert First(starts, [opening] + rest) == (Unclosed(opening, rest), []);
    assert FilesIn(starts, Split(starts, [opening] + rest)) == [];
    assert found + [] == found;
  }

  /** The first of two files is followed by a line that opens such a heredoc. */
  lemma SecondHidden(config: Config, head: string, opening: string, tail: string)
    requires |config.files| == 2 && config.commands == [] && forall f | f in config.files :: NeedsNoQuotes(f.path)
    requires KeepsMarker(0, config.files[0]) && Physical(AfterFile(config.files[0])) == [head, opening, tail]
    requires ParseStart(head).None? && ParseStart(opening).Some?
    requires forall line | line in [tail] + Physical(FileLines(1, config.files[1])) :: Strip(line) != ParseStart(opening).value.tag
    ensures FoundIn(config) == [Found(config.files[0].path, Lines(config.files[0].content))]
  {
    var f, g := config.files[0], config.files[1];
    var front, rest := HEADER + ([InstallLine(f)] + LinesOf(FileSegment(0, f)) + [head]), [tail] + Physical(FileLines(1, g));
    TwoFiles(config, head, opening, tail);
    FirstFound(f, head);
    HiddenBehind(ParseStart, front, [Found(f.path, Lines(f.content))], opening, rest);
  }

  /** The text of two files, line by line. */
  lemma TwoFiles(config: Config, head: string, opening: string, tail: string)
    requires |config.files| == 2 && config.commands == [] && forall f | f in config.files :: NeedsNoQuotes(f.path)
    requires Physical(AfterFile(config.files[0])) == [head, opening, tail]
    ensures var f := config.files[0];
            Lines(ScriptText(config))
            == HEADER + ([InstallLine(f)] + LinesOf(FileSegment(0, f)) + [head]) + ([opening] + ([tail] + Physical(FileLines(1, config.files[1]))))
  {
    var f, g := config.files[0], config.files[1];
    TextOfTwo(config);
    FileShape(0, f);
    Between(HEADER, [InstallLine(f)] + LinesOf(FileSegment(0, f)), head, opening, tail, Physical(FileLines(1, g)));
  }

  lemma TextOfTwo(config: Config)
    requires |config.files| == 2 && config.commands == [] && forall f | f in config.files :: NeedsNoQuotes(f.path)
    ensures Lines(ScriptText(config)) == HEADER + (Physical(FileLines(0, config.files[0])) + Physical(FileLines(1, config.files[1])))
  {
    TextWithoutCommands(config);
    LinesOfTwo(config.files);
    PhysicalConcat(FileLines(0, config.files[0]), FileLines(1, config.files[1]));
  }

  lemma TextWithoutCommands(config: Config)
    requires config.commands == [] && forall f | f in config.files :: NeedsNoQuotes(f.path)
    ensures Lines(ScriptText(config)) == HEADER + Physical(FilesLines(config.files))
  {
    FrontEnds(config.files);
    var rest := TextAfterFront(HEADER + FilesLines(config.files), CommandsLines(config.commands));
    HeaderFirst(FilesLines(config.files));
  }

  lemma HeaderFirst(lines: seq<string>)
    ensures Physical(HEADER + lines) == HEADER + Physical(lines)
  {
    PhysicalConcat(HEADER, lines);
    PhysicalOneLines(HEADER);
  }

  lemma LinesOfTwo(files: seq<File>)
    requires |files| == 2
    ensures FilesLines(files) == FileLines(0, files[0]) + FileLines(1, files[1])
  {
    assert files[..1][..0] == [] && files[..1] == files[..|files| - 1];
    var first := FileLines(0, files[0]);
    assert FilesLines(files[..1]) == [] + first;
    assert [] + first == first;
  }

  lemma Between(header: seq<string>, front: seq<string>, head: string, opening: string, tail: string, after: seq<string>)
    ensures header + (front + [head, opening, tail] + after) == header + (front + [head]) + ([opening] + ([tail] + after))
  {
  }

  /** Up to the line that opens the heredoc, the first file is found. */
  lemma FirstFound(f: File, head: string)
    requires NeedsNoQuotes(f.path) && KeepsMarker(0, f) && ParseStart(head).None?
    ensures Adds(ParseStart, HEADER + ([InstallLine(f)] + LinesOf(FileSegment(0, f)) + [head]), [Found(f.path, Lines(f.content))])
  {
    var found := [Found(f.path, Lines(f.content))];
    InstallOpensNothing(f);
    MarkerIsTag(0);
    PathReadBack(0, f.path);
    OneSegment(ParseStart, FileSegment(0, f));
    assert FilesIn(ParseStart, [FileSegment(0, f)]) == found;
    PlainLines(ParseStart, [InstallLine(f)]);
    PlainLines(ParseStart, [head]);
    AddsAround(ParseStart, [InstallLine(f)], LinesOf(FileSegment(0, f)), [head], found);
    HeaderIsPlain();
    AddsConcat(ParseStart, HEADER, [], [InstallLine(f)] + LinesOf(FileSegment(0, f)) + [head], found);
    assert [] + found == found;
  }
}
