/** Characters, numbers and lines of text, as Python's string methods treat them (ASCII only). */
module Texts {
  predicate IsDigit(c: char) {
    '0' <= c <= '9'
  }

  predicate IsLetter(c: char) {
    'a' <= c <= 'z' || 'A' <= c <= 'Z'
  }

  predicate IsSpace(c: char) {
    c in " \t\n\r" || c == 11 as char || c == 12 as char || 28 as char <= c <= 31 as char
  }

  function DigitChar(d: nat): char
    requires d < 10
  {
    ('0' as int + d) as char
  }

  function DigitValue(c: char): nat
    requires IsDigit(c)
  {
    (c as int) - ('0' as int)
  }

  function PrintNat(n: nat): (s: string)
    ensures s != [] && forall c | c in s :: IsDigit(c)
  {
    if n < 10 then [DigitChar(n)] else PrintNat(n / 10) + [DigitChar(n % 10)]
  }

  function TrimLeft(s: string): (t: string)
    ensures |t| <= |s| && (t != [] ==> !IsSpace(t[0]))
  {
    if s != [] && IsSpace(s[0]) then TrimLeft(s[1..]) else s
  }

  function TrimRight(s: string): (t: string)
    ensures |t| <= |s|
  {
    if s != [] && IsSpace(s[|s| - 1]) then TrimRight(s[..|s| - 1]) else s
  }

  function Strip(s: string): string {
    TrimRight(TrimLeft(s))
  }

  lemma NothingToTrim(s: string)
    requires s != [] && !IsSpace(s[0]) && !IsSpace(s[|s| - 1])
    ensures Strip(s) == s
  {
  }

  function IndexOf(s: string, c: char): (i: nat)
    ensures i <= |s| && c !in s[..i] && (i < |s| ==> s[i] == c)
  {
    if s == [] || s[0] == c then 0
    else
      assert s[..1 + IndexOf(s[1..], c)] == [s[0]] + s[1..][..IndexOf(s[1..], c)];
      1 + IndexOf(s[1..], c)
  }

  lemma {:induction false} IndexAfter(a: string, c: char, b: string)
    requires c !in a
    ensures IndexOf(a + [c] + b, c) == |a|
  {
    if a == [] {
      assert a + [c] + b == [c] + b;
    } else {
      assert a[0] in a;
      assert (a + [c] + b)[1..] == a[1..] + [c] + b;
      IndexAfter(a[1..], c, b);
    }
  }

  // ---------- lines ----------

  /** `splitlines` for text whose only line separator is the newline. */
  function Lines(text: string): seq<string>
    decreases |text|
  {
    if text == [] then []
    else
      var i := IndexOf(text, '\n');
      if i == |text| then [text] else [text[..i]] + Lines(text[i + 1..])
  }

  /** `"\n".join` */
  function Join(lines: seq<string>): string {
    if lines == [] then "" else if |lines| == 1 then lines[0] else lines[0] + "\n" + Join(lines[1..])
  }

  predicate EndsWithNewline(text: string) {
    text != [] && text[|text| - 1] == '\n'
  }

  lemma JoinMore(head: string, lines: seq<string>, tail: string)
    requires lines != []
    ensures Join([head] + lines) + tail == head + "\n" + (Join(lines) + tail)
  {
    assert ([head] + lines)[1..] == lines;
  }

  lemma {:induction false} LinesNonempty(text: string)
    requires text != []
    ensures Lines(text) != []
  {
  }

  /** Split, join and the final newline give the text back. */
  lemma {:induction false} JoinLines(text: string)
    ensures Join(Lines(text)) + (if EndsWithNewline(text) then "\n" else "") == text
    decreases |text|
  {
    var i := IndexOf(text, '\n');
    if i < |text| {
      var rest := text[i + 1..];
      assert text == text[..i] + "\n" + rest;
      if rest != [] {
        JoinLines(rest);
        LinesNonempty(rest);
        JoinMore(text[..i], Lines(rest), if EndsWithNewline(rest) then "\n" else "");
      }
    }
  }

  /** Joining and splitting drops one empty last line, and nothing else. */
  lemma {:induction false} LinesJoin(lines: seq<string>)
    requires forall x | x in lines :: OneLine(x)
    ensures Lines(Join(lines)) == if lines != [] && lines[|lines| - 1] == "" then lines[..|lines| - 1] else lines
  {
    if |lines| == 1 {
      assert lines[0] in lines;
      LinesOfOne(lines[0]);
    } else if lines != [] {
      var rest := lines[1..];
      assert lines[0] in lines;
      LinesJoin(rest);
      FirstLine(lines[0], Join(rest));
      HeadAndRest(lines);
    }
  }

  lemma LinesOfOne(x: string)
    requires OneLine(x)
    ensures Lines(x) == if x == "" then [] else [x]
  {
    if x != "" { assert IndexOf(x, '\n') == |x|; }
  }

  lemma HeadAndRest<T>(s: seq<T>)
    requires |s| > 1
    ensures s == [s[0]] + s[1..] && s[..|s| - 1] == [s[0]] + s[1..][..|s| - 2] && s[1..][|s| - 2] == s[|s| - 1]
  {
  }

  /** `rstrip("\n")` */
  function DropNewlines(s: string): (r: string)
    ensures !EndsWithNewline(r)
  {
    if EndsWithNewline(s) then DropNewlines(s[..|s| - 1]) else s
  }

  predicate OneLine(s: string) {
    '\n' !in s
  }

  /** Every line that splitting gives is one line. */
  lemma {:induction false} LinesAreLines(text: string)
    ensures forall x | x in Lines(text) :: OneLine(x)
    decreases |text|
  {
    if text != [] {
      var i := IndexOf(text, '\n');
      if i < |text| { LinesAreLines(text[i + 1..]); }
    }
  }

  lemma FirstLine(head: string, tail: string)
    requires OneLine(head)
    ensures Lines(head + ['\n'] + tail) == [head] + Lines(tail)
  {
    var text := head + ['\n'] + tail;
    IndexAfter(head, '\n', tail);
    assert text[..|head|] == head && text[|head| + 1..] == tail;
  }

  /** The text with these lines in front. */
  function Before(lines: seq<string>, text: string): string {
    if lines == [] then text else lines[0] + ['\n'] + Before(lines[1..], text)
  }

  lemma Assoc<T>(a: seq<T>, b: seq<T>, c: seq<T>)
    ensures a + (b + c) == a + b + c
  {
  }

  lemma {:induction false} BeforeIsJoin(lines: seq<string>, text: string)
    requires lines != []
    ensures Before(lines, text) == Join(lines) + "\n" + text
  {
    if |lines| > 1 {
      BeforeIsJoin(lines[1..], text);
      JoinMore(lines[0], lines[1..], "\n" + text);
      assert [lines[0]] + lines[1..] == lines;
      Assoc(Join(lines), "\n", text);
      Assoc(Join(lines[1..]), "\n", text);
    }
  }

  lemma {:induction false} JoinConcat(a: seq<string>, b: seq<string>)
    requires a != [] && b != []
    ensures Join(a + b) == Join(a) + "\n" + Join(b)
  {
    if |a| == 1 {
      assert (a + b)[1..] == b && (a + b)[0] == a[0];
    } else {
      assert (a + b)[1..] == a[1..] + b && (a + b)[0] == a[0];
      JoinConcat(a[1..], b);
    }
  }

  /** A text that does not end in a newline stays, whatever is dropped behind it. */
  lemma {:induction false} DropBehind(a: string, s: string)
    requires a != [] && !EndsWithNewline(a)
    ensures var dropped := DropNewlines(a + "\n" + s);
            dropped == a || exists t :: dropped == a + "\n" + t
    decreases |s|
  {
    var text := a + "\n" + s;
    if s == [] {
      assert text[..|text| - 1] == a;
    } else if EndsWithNewline(s) {
      assert text[..|text| - 1] == a + "\n" + s[..|s| - 1];
      DropBehind(a, s[..|s| - 1]);
    } else {
      assert !EndsWithNewline(text);
    }
  }

  /** Joined lines end as their last line does. */
  lemma {:induction false} JoinEnd(lines: seq<string>)
    requires lines != [] && lines[|lines| - 1] != "" && !EndsWithNewline(lines[|lines| - 1])
    ensures Join(lines) != [] && !EndsWithNewline(Join(lines))
  {
    if |lines| > 1 { JoinEnd(lines[1..]); }
  }

  /** The lines of the text that these texts become when each is ended by a newline. */
  function Physical(texts: seq<string>): seq<string> {
    if texts == [] then [] else Lines(texts[0] + ['\n']) + Physical(texts[1..])
  }

  /** A newline always ends a line. */
  lemma {:induction false} LinesSplit(a: string, b: string)
    ensures Lines(a + ['\n'] + b) == Lines(a + ['\n']) + Lines(b)
    decreases |a|
  {
    var i := IndexOf(a, '\n');
    if i == |a| {
      FirstLine(a, b);
      FirstLine(a, "");
      assert a + ['\n'] + "" == a + ['\n'];
    } else {
      var head, rest := a[..i], a[i + 1..];
      Broken(a, i, b);
      FirstLine(head, rest + ['\n'] + b);
      FirstLine(head, rest + ['\n']);
      LinesSplit(rest, b);
      Assoc([head], Lines(rest + ['\n']), Lines(b));
    }
  }

  lemma Broken(a: string, i: nat, b: string)
    requires i < |a| && a[i] == '\n'
    ensures a + ['\n'] + b == a[..i] + ['\n'] + (a[i + 1..] + ['\n'] + b)
    ensures a + ['\n'] == a[..i] + ['\n'] + (a[i + 1..] + ['\n'])
  {
    assert a == a[..i] + ['\n'] + a[i + 1..];
  }

  lemma {:induction false} PhysicalConcat(a: seq<string>, b: seq<string>)
    ensures Physical(a + b) == Physical(a) + Physical(b)
  {
    if a == [] {
      assert a + b == b;
    } else {
      assert (a + b)[1..] == a[1..] + b;
      PhysicalConcat(a[1..], b);
    }
  }

  lemma {:induction false} PhysicalOneLines(lines: seq<string>)
    requires forall x | x in lines :: OneLine(x)
    ensures Physical(lines) == lines
  {
    if lines != [] {
      assert lines[0] in lines;
      FirstLine(lines[0], "");
      assert lines[0] + ['\n'] + "" == lines[0] + ['\n'];
      PhysicalOneLines(lines[1..]);
      assert [lines[0]] + lines[1..] == lines;
    }
  }

  lemma {:induction false} PhysicalBefore(texts: seq<string>, text: string)
    ensures Lines(Before(texts, text)) == Physical(texts) + Lines(text)
  {
    if texts != [] {
      LinesSplit(texts[0], Before(texts[1..], text));
      PhysicalBefore(texts[1..], text);
    }
  }

  /** Joined texts in front of another are found again, line by line, in front of its lines. */
  lemma PhysicalAfter(texts: seq<string>, text: string)
    requires texts != []
    ensures Lines(Join(texts) + "\n" + text) == Physical(texts) + Lines(text)
  {
    BeforeIsJoin(texts, text);
    PhysicalBefore(texts, text);
  }
}
