/** Release versions as Python package versions, without loss (package_version.py). */
module Version {
  import opened Wrappers
  import opened Texts

  // ---------- characters ----------

  predicate IsLabelChar(c: char) {
    IsDigit(c) || IsLetter(c) || c == '.' || c == '-'
  }

  predicate AllDigits(s: string) {
    forall c | c in s :: IsDigit(c)
  }

  /** `0|[1-9][0-9]*` */
  predicate Numeric(s: string) {
    s != [] && AllDigits(s) && (s[0] == '0' ==> |s| == 1)
  }

  /** Python's `split`: there is always one part more than separators. */
  function Split(s: string, c: char): (parts: seq<string>)
    ensures parts != []
    decreases |s|
  {
    var i := IndexOf(s, c);
    if i == |s| then [s] else [s[..i]] + Split(s[i + 1..], c)
  }

  // ---------- the input ----------

  /** Core and prerelease of `v?core(-prerelease)?`. */
  datatype Release = Release(core: string, prerelease: Option<string>)

  predicate IsCore(core: string) {
    var parts := Split(core, '.');
    |parts| == 3 && Numeric(parts[0]) && Numeric(parts[1]) && Numeric(parts[2])
  }

  function WithoutV(s: string): string {
    if s != [] && s[0] == 'v' then s[1..] else s
  }

  /** The regular expression of the release workflow's versions. */
  function Match(value: string): Option<Release> {
    var s := WithoutV(value);
    var dash := IndexOf(s, '-');
    if !IsCore(s[..dash]) then None
    else if dash == |s| then Some(Release(s, None))
    else
      var pre := s[dash + 1..];
      if pre != [] && forall c | c in pre :: IsLabelChar(c) then Some(Release(s[..dash], Some(pre))) else None
  }

  /** No empty identifier, no numeric one with a leading zero (clause 9 of Semantic Versioning 2.0.0). */
  predicate GoodIdentifier(part: string) {
    part != [] && (AllDigits(part) && |part| > 1 ==> part[0] != '0')
  }

  predicate GoodLabel(pre: string) {
    forall part | part in Split(pre, '.') :: GoodIdentifier(part)
  }

  // ---------- the output ----------

  function HexDigit(n: nat): char
    requires n < 16
  {
    if n < 10 then ('0' as int + n) as char else ('a' as int + n - 10) as char
  }

  /** All of a label is ASCII. */
  function Code(c: char): (n: nat)
    requires IsLabelChar(c)
    ensures n < 128 && n as char == c
  {
    c as int
  }

  function Hex(s: string): string
    requires forall c | c in s :: IsLabelChar(c)
  {
    if s == [] then [] else
      assert s[0] in s;
      [HexDigit(Code(s[0]) / 16), HexDigit(Code(s[0]) % 16)] + Hex(s[1..])
  }

  predicate IsStage(short: string, long: string) {
    (short == "a" && long == "alpha") || (short == "b" && long == "beta") || (short == "rc" && long == "rc")
  }

  /** `(alpha|beta|rc)\.([0-9]+)`: the stage's short name and the number. */
  function Standard(pre: string): Option<(string, string)> {
    var dot := IndexOf(pre, '.');
    if dot == |pre| then None
    else
      var number := pre[dot + 1..];
      var short :=
        if pre[..dot] == "alpha" then "a" else if pre[..dot] == "beta" then "b" else if pre[..dot] == "rc" then "rc" else "";
      if short != "" && number != [] && AllDigits(number) then Some((short, number)) else None
  }

  const BRANCH := ".dev0+gitversion."

  function WithLabel(core: string, pre: string): string
    requires forall c | c in pre :: IsLabelChar(c)
  {
    if Standard(pre).Some? then core + Standard(pre).value.0 + Standard(pre).value.1 else core + BRANCH + Hex(pre)
  }

  /** `None` is the ValueError. */
  function Normalize(value: string): Option<string> {
    var m := Match(value);
    if m.None? || (m.value.prerelease.Some? && !GoodLabel(m.value.prerelease.value)) then None
    else
      MatchText(value);
      Some(Encode(m.value))
  }

  predicate WellFormed(r: Release) {
    IsCore(r.core) && (r.prerelease.Some? ==> forall c | c in r.prerelease.value :: IsLabelChar(c))
  }

  function Encode(r: Release): string
    requires WellFormed(r)
  {
    if r.prerelease.None? then r.core else WithLabel(r.core, r.prerelease.value)
  }

  /** The version without its leading `v`. */
  function Text(r: Release): string {
    if r.prerelease.None? then r.core else r.core + "-" + r.prerelease.value
  }

  // ---------- the way back ----------

  function HexValue(c: char): nat {
    if IsDigit(c) then c as nat - '0' as nat else if 'a' <= c <= 'f' then c as nat - 'a' as nat + 10 else 0
  }

  function UnHex(s: string): string {
    if |s| < 2 then [] else [(16 * HexValue(s[0]) + HexValue(s[1])) as char] + UnHex(s[2..])
  }

  /** Length of the leading digits and dots. */
  function NumberEnd(s: string): (i: nat)
    ensures i <= |s| && (forall c | c in s[..i] :: IsDigit(c) || c == '.') && (i < |s| ==> !IsDigit(s[i]) && s[i] != '.')
  {
    if s == [] || !(IsDigit(s[0]) || s[0] == '.') then 0
    else
      assert s[..1 + NumberEnd(s[1..])] == [s[0]] + s[1..][..NumberEnd(s[1..])];
      1 + NumberEnd(s[1..])
  }

  /** The stage whose short name begins with `c`. */
  function LongName(c: char): string {
    if c == 'a' then "alpha" else if c == 'b' then "beta" else if c == 'r' then "rc" else ""
  }

  /** The version that an output stands for. */
  function Decode(out: string): string {
    var i := NumberEnd(out);
    if i == |out| then out
    else if LongName(out[i]) != "" then
      var j := if out[i] == 'r' then i + 2 else i + 1;
      if j <= |out| then out[..i] + "-" + LongName(out[i]) + "." + out[j..] else out
    else if i > 0 && i + |BRANCH| - 1 <= |out| then out[..i - 1] + "-" + UnHex(out[i + |BRANCH| - 1..])
    else out
  }

  lemma {:induction false} UnHexHex(s: string)
    requires forall c | c in s :: IsLabelChar(c)
    ensures UnHex(Hex(s)) == s
  {
    if s != [] {
      var h := Hex(s);
      assert s[0] in s;
      assert HexValue(h[0]) == Code(s[0]) / 16 && HexValue(h[1]) == Code(s[0]) % 16;
      assert h[2..] == Hex(s[1..]);
      UnHexHex(s[1..]);
    }
  }

  lemma {:induction false} SplitChars(s: string, c: char)
    ensures forall x | x in s :: x == c || exists part :: part in Split(s, c) && x in part
    decreases |s|
  {
    var i := IndexOf(s, c);
    if i < |s| {
      SplitChars(s[i + 1..], c);
      forall x | x in s ensures x == c || exists part :: part in Split(s, c) && x in part {
        assert s == s[..i] + [s[i]] + s[i + 1..];
        if x in s[..i] {
          assert s[..i] in Split(s, c);
        } else if x in s[i + 1..] && x != c {
          var part :| part in Split(s[i + 1..], c) && x in part;
          assert part in Split(s, c);
        }
      }
    } else {
      assert s in Split(s, c);
    }
  }

  /** A core is digits and dots, and does not end in a dot. */
  lemma CoreChars(core: string)
    requires IsCore(core)
    ensures core != [] && forall c | c in core :: IsDigit(c) || c == '.'
  {
    SplitChars(core, '.');
    var parts := Split(core, '.');
    forall c | c in core ensures IsDigit(c) || c == '.' {
      if c != '.' {
        var part :| part in parts && c in part;
        assert part == parts[0] || part == parts[1] || part == parts[2];
      }
    }
  }

  /** Digits and dots before anything else are found whole. */
  lemma {:induction false} NumberEndAt(a: string, b: string)
    requires forall c | c in a :: IsDigit(c) || c == '.'
    requires b == [] || (!IsDigit(b[0]) && b[0] != '.')
    ensures NumberEnd(a + b) == |a|
  {
    if a == [] {
      assert a + b == b;
    } else {
      assert (a + b)[1..] == a[1..] + b;
      assert a[0] in a;
      NumberEndAt(a[1..], b);
    }
  }

  lemma DecodeStable(core: string)
    requires IsCore(core)
    ensures Decode(core) == core
  {
    CoreChars(core);
    NumberEndAt(core, []);
    assert core + [] == core;
  }

  /** Where a short stage name begins. */
  lemma StageAt(core: string, short: string, number: string)
    requires IsCore(core) && short != [] && IsLetter(short[0])
    ensures var out := core + short + number;
            && NumberEnd(out) == |core| < |out| && out[..|core|] == core
            && out[|core|] == short[0] && out[|core| + |short|..] == number
  {
    CoreChars(core);
    assert core + short + number == core + (short + number);
    NumberEndAt(core, short + number);
  }

  lemma DecodeShort(core: string, short: string, long: string, number: string)
    requires IsCore(core) && IsStage(short, long)
    ensures Decode(core + short + number) == core + "-" + long + "." + number
  {
    StageNames(short, long);
    StageAt(core, short, number);
  }

  lemma StageNames(short: string, long: string)
    requires IsStage(short, long)
    ensures short != [] && IsLetter(short[0]) && LongName(short[0]) == long != "" && |short| == if short[0] == 'r' then 2 else 1
  {
  }

  /** What `Standard` found is in the label. */
  lemma StandardText(pre: string)
    requires Standard(pre).Some?
    ensures exists long :: IsStage(Standard(pre).value.0, long)
                      && pre == long + "." + Standard(pre).value.1
  {
    var dot := IndexOf(pre, '.');
    assert pre == pre[..dot] + "." + pre[dot + 1..];
  }

  lemma DecodeStandard(core: string, pre: string)
    requires IsCore(core) && Standard(pre).Some?
    ensures Decode(core + Standard(pre).value.0 + Standard(pre).value.1) == core + "-" + pre
  {
    StandardText(pre);
    var short, number := Standard(pre).value.0, Standard(pre).value.1;
    var long :| IsStage(short, long) && pre == long + "." + number;
    DecodeShort(core, short, long, number);
    Grouped(core, "-", long, ".", number);
  }

  lemma Grouped(a: string, b: string, c: string, d: string, e: string)
    ensures a + b + (c + d + e) == a + b + c + d + e
  {
  }

  /** Where a branch label begins. */
  lemma BranchAt(core: string, hex: string)
    requires IsCore(core)
    ensures var out := core + BRANCH + hex;
            && NumberEnd(out) == |core| + 1 < |out| && out[..|core|] == core
            && out[|core| + 1] == 'd' && out[|core| + |BRANCH|..] == hex
  {
    CoreChars(core);
    var tail := BRANCH[1..] + hex;
    assert core + BRANCH + hex == core + "." + tail;
    NumberEndAt(core + ".", tail);
  }

  lemma DecodeBranch(core: string, pre: string)
    requires IsCore(core) && forall c | c in pre :: IsLabelChar(c)
    ensures Decode(core + BRANCH + Hex(pre)) == core + "-" + pre
  {
    var out := core + BRANCH + Hex(pre);
    BranchAt(core, Hex(pre));
    UnHexHex(pre);
    DecodeFrom(out, core, Hex(pre), |core| + |BRANCH|);
  }

  /** An output whose number ends one dot after the core, before no stage name. */
  lemma DecodeFrom(out: string, core: string, hex: string, k: nat)
    requires NumberEnd(out) == |core| + 1 < |out| && out[..|core|] == core && out[|core| + 1] == 'd'
    requires k == |core| + |BRANCH| <= |out| && out[k..] == hex
    ensures Decode(out) == core + "-" + UnHex(hex)
  {
  }

  /** What is accepted is the text of its match, up to a leading `v`. */
  lemma MatchText(value: string)
    requires Match(value).Some?
    ensures WellFormed(Match(value).value) && WithoutV(value) == Text(Match(value).value)
  {
    var s := WithoutV(value);
    var dash := IndexOf(s, '-');
    if dash < |s| {
      assert s == s[..dash] + "-" + s[dash + 1..];
    } else {
      assert s[..dash] == s;
    }
  }

  lemma DecodeLabelled(core: string, pre: string)
    requires IsCore(core) && forall c | c in pre :: IsLabelChar(c)
    ensures Decode(WithLabel(core, pre)) == core + "-" + pre
  {
    if Standard(pre).Some? { DecodeStandard(core, pre); } else { DecodeBranch(core, pre); }
  }

  lemma DecodeEncode(r: Release)
    requires WellFormed(r)
    ensures Decode(Encode(r)) == Text(r)
  {
    if r.prerelease.None? { DecodeStable(r.core); } else { DecodeLabelled(r.core, r.prerelease.value); }
  }

  /** Every accepted version is recovered from its output, up to a leading `v`. */
  lemma Lossless(value: string)
    requires Normalize(value).Some?
    ensures Decode(Normalize(value).value) == WithoutV(value)
  {
    MatchText(value);
    DecodeEncode(Match(value).value);
  }

  /** Two versions never share an output, and a prerelease never looks like a stable release. */
  lemma Injective(a: string, b: string)
    requires Normalize(a).Some? && Normalize(b).Some? && Normalize(a) == Normalize(b)
    ensures WithoutV(a) == WithoutV(b)
  {
    Lossless(a);
    Lossless(b);
  }

  lemma StableOutput(value: string)
    requires Normalize(value).Some?
    ensures IsCore(Normalize(value).value) <==> Match(value).value.prerelease.None?
  {
    MatchText(value);
    var r := Match(value).value;
    var out := Normalize(value).value;
    if r.prerelease.Some? && IsCore(out) {
      DecodeStable(out);
      Lossless(value);
      assert Text(r)[|r.core|] == '-';
      assert '-' in out;
      CoreChars(out);
    }
  }
}
