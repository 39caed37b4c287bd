/** Rewriting the server's .env text during a credential rotation. */
module EnvFile {
  import opened Wrappers
  import opened Text
  import opened Keys
  import opened EnvLines

  // ---------- Lines ----------

  /** The line boundaries of str.splitlines, among the characters up to U+2029. */
  predicate IsBreak(c: char) {
    var n := c as int;
    10 <= n <= 13 || 28 <= n <= 30 || n == 0x85 || n == 0x2028 || n == 0x2029
  }

  predicate OneLine(s: string) {
    forall i :: 0 <= i < |s| ==> !IsBreak(s[i])
  }

  ghost predicate AllOneLine(lines: seq<string>) {
    forall i :: 0 <= i < |lines| ==> OneLine(lines[i])
  }

  function FirstBreak(text: string): (i: nat)
    ensures i <= |text| && OneLine(text[..i])
    ensures i < |text| ==> IsBreak(text[i])
  {
    if text == "" || IsBreak(text[0]) then 0
    else
      var i := 1 + FirstBreak(text[1..]);
      assert text[..i] == [text[0]] + text[1..][..i - 1];
      i
  }

  /** str.splitlines() on text whose newlines have been translated to "\n". */
  function SplitLines(text: string): (lines: seq<string>)
    ensures AllOneLine(lines)
    decreases |text|
  {
    if text == "" then []
    else
      var i := FirstBreak(text);
      [text[..i]] + if i < |text| then SplitLines(text[i + 1..]) else []
  }

  lemma SplitFirstLine(line: string, rest: string)
    requires OneLine(line)
    ensures SplitLines(line + "\n" + rest) == [line] + SplitLines(rest)
  {
    var text := line + "\n" + rest;
    var i := FirstBreak(text);
    assert text[|line|] == '\n' && IsBreak('\n');
    forall j | 0 <= j < |line| ensures !IsBreak(text[j]) {
      assert text[j] == line[j];
    }
    forall j | 0 <= j < i ensures !IsBreak(text[j]) {
      assert text[..i][j] == text[j];
    }
    assert i == |line|;
    assert text[..i] == line && text[i + 1..] == rest;
  }

  lemma {:induction false} SplitJoined(lines: seq<string>)
    requires lines != [] && AllOneLine(lines)
    ensures SplitLines(Join(lines, "\n") + "\n") == lines
  {
    var first := lines[0];
    if |lines| == 1 {
      SplitFirstLine(first, "");
      assert first + "\n" + "" == Join(lines, "\n") + "\n";
      assert lines == [first];
    } else {
      var rest := Join(lines[1..], "\n") + "\n";
      SplitJoined(lines[1..]);
      SplitFirstLine(first, rest);
      assert Join(lines, "\n") + "\n" == first + "\n" + rest;
      assert lines == [first] + lines[1..];
    }
  }

  // ---------- Assignments ----------

  predicate IsNameChar(c: char) {
    'A' <= c <= 'Z' || 'a' <= c <= 'z' || c == '_' || IsDigit(c)
  }

  function NamePrefix(s: string): (name: string)
    ensures name <= s
  {
    if s != "" && IsNameChar(s[0]) then [s[0]] + NamePrefix(s[1..]) else ""
  }

  /** The name and the value of an assignment line; None when the pattern does not match. */
  function Assignment(line: string): Option<(string, string)> {
    var t := StripLeft(line);
    var name := NamePrefix(t);
    var rest := StripLeft(t[|name|..]);
    if name != "" && !IsDigit(name[0]) && rest != "" && rest[0] == '=' then
      Some((name, Strip(rest[1..])))
    else None
  }

  function Parse(text: string): Line {
    match Assignment(text)
    case None => Line(text, None, "")
    case Some((name, value)) => Line(text, Some(KeyOf(name)), value)
  }

  lemma ParseKeepsText(text: string)
    ensures Parse(text).text == text
  {
  }

  function ParseAll(texts: seq<string>): (lines: seq<Line>)
    ensures |lines| == |texts|
    ensures forall i :: 0 <= i < |lines| ==> lines[i] == Parse(texts[i])
  {
    seq(|texts|, i requires 0 <= i < |texts| => Parse(texts[i]))
  }

  function Texts(lines: seq<Line>): (texts: seq<string>)
    ensures |texts| == |lines|
    ensures forall i :: 0 <= i < |texts| ==> texts[i] == lines[i].text
  {
    seq(|lines|, i requires 0 <= i < |lines| => lines[i].text)
  }

  function AssignmentLine(r: RotationSecrets, k: Key): string
    requires Rotated(k)
  {
    NameOf(k) + "=" + Replacement(r, k)
  }

  lemma {:induction false} NamePrefixStops(name: string, c: char, rest: string)
    requires forall i :: 0 <= i < |name| ==> IsNameChar(name[i])
    requires !IsNameChar(c)
    ensures NamePrefix(name + [c] + rest) == name
  {
    var s := name + [c] + rest;
    if name == "" {
      assert s[0] == c;
    } else {
      assert s[0] == name[0] && s[1..] == name[1..] + [c] + rest;
      NamePrefixStops(name[1..], c, rest);
      assert [name[0]] + name[1..] == name;
    }
  }

  // ---------- What an assignment line is ----------

  /** A name that may be assigned. */
  predicate ProperName(name: string) {
    && name != "" && !('0' <= name[0] <= '9')
    && forall i :: 0 <= i < |name| ==>
         'A' <= name[i] <= 'Z' || 'a' <= name[i] <= 'z' || name[i] == '_' || '0' <= name[i] <= '9'
  }

  /** Blanks, a name, blanks, an equals sign and a value: the line assigns the stripped value to the name. */
  lemma AssignmentIsRead(before: string, name: string, between: string, value: string)
    requires AllSpace(before) && ProperName(name) && AllSpace(between)
    ensures Assignment(before + name + between + "=" + value) == Some((name, Strip(value)))
  {
    hide Strip, StripLeft;
    var line := before + name + between + "=" + value;
    var tail := between + "=" + value;
    assert line == before + (name + tail);
    assert !IsSpace(name[0]);
    BlanksAreStripped(before, name + tail);
    assert tail == [tail[0]] + tail[1..];
    assert !IsNameChar(tail[0]);
    NamePrefixStops(name, tail[0], tail[1..]);
    assert name + [tail[0]] + tail[1..] == name + tail;
    assert (name + tail)[|name|..] == tail;
    assert tail == between + ("=" + value);
    BlanksAreStripped(between, "=" + value);
    assert ("=" + value)[1..] == value;
  }

  lemma {:induction false} NamePrefixShape(s: string)
    ensures forall i :: 0 <= i < |NamePrefix(s)| ==> IsNameChar(NamePrefix(s)[i])
  {
    if s != "" && IsNameChar(s[0]) {
      NamePrefixShape(s[1..]);
    }
  }

  /** Only such lines are assignments. */
  lemma AssignmentShape(line: string) returns (before: string, between: string, value: string)
    requires Assignment(line).Some?
    ensures var name := Assignment(line).value.0;
      && AllSpace(before) && ProperName(name) && AllSpace(between)
      && line == before + name + between + "=" + value && Assignment(line).value.1 == Strip(value)
  {
    hide Strip, StripLeft;
    var i := StripLeftShape(line);
    before := line[..i];
    var t := line[i..];
    var name := NamePrefix(t);
    NamePrefixShape(t);
    var rest := t[|name|..];
    var j := StripLeftShape(rest);
    between := rest[..j];
    value := rest[j..][1..];
    assert rest == between + "=" + value;
    assert t == name + rest;
  }

  lemma NameShape(k: Key)
    requires Rotated(k)
    ensures var n := NameOf(k);
      n != "" && !IsDigit(n[0]) && forall i :: 0 <= i < |n| ==> IsNameChar(n[i])
  {
  }

  function WrittenLine(r: RotationSecrets, k: Key): Line
    requires Rotated(k)
  {
    Line(AssignmentLine(r, k), Some(k), Strip(Replacement(r, k)))
  }

  function ReplacementsOf(r: RotationSecrets): Replacements {
    map[DbPassword := WrittenLine(r, DbPassword),
        RootPassword := WrittenLine(r, RootPassword),
        JwtSecret := WrittenLine(r, JwtSecret)]
  }

  /** The written line assigns its key the replacement value. */
  lemma WrittenIsRead(r: RotationSecrets, k: Key)
    requires Rotated(k)
    ensures Parse(AssignmentLine(r, k)) == WrittenLine(r, k)
  {
    var n, v := NameOf(k), Replacement(r, k);
    NameShape(k);
    var line := AssignmentLine(r, k);
    assert line == n + ['='] + v;
    NamePrefixStops(n, '=', v);
    assert line[0] == n[0] && IsNameChar(n[0]) && !IsSpace(n[0]);
    assert StripLeft(line) == line;
    assert line[|n|..] == ['='] + v;
    assert StripLeft(['='] + v) == ['='] + v;
    assert (['='] + v)[1..] == v;
    NamesAreRead(k);
  }

  lemma BlankIsRead()
    ensures Parse("") == BLANK
  {
  }

  // ---------- The rewrite ----------

  function LinesOf(text: string): seq<Line> {
    ParseAll(SplitLines(text))
  }

  function DropTrailingNewlines(s: string): string {
    if s != "" && s[|s| - 1] == '\n' then DropTrailingNewlines(s[..|s| - 1]) else s
  }

  /** The rewritten text, by the new line of each key. */
  function RenderedWith(text: string, m: Replacements): string {
    DropTrailingNewlines(Join(Texts(Assembled(LinesOf(text), m)), "\n")) + "\n"
  }

  function Rendered(text: string, r: RotationSecrets): string {
    RenderedWith(text, ReplacementsOf(r))
  }

  /** Lines of a file: parsed from texts without line breaks. */
  ghost predicate FileLines(lines: seq<Line>) {
    forall i :: 0 <= i < |lines| ==> lines[i] == Parse(lines[i].text) && OneLine(lines[i].text)
  }

  ghost predicate Writable(m: Replacements) {
    forall k :: k in m ==> m[k] == Parse(m[k].text) && OneLine(m[k].text)
  }

  predicate SecretsOneLine(r: RotationSecrets) {
    OneLine(r.appPassword) && OneLine(r.rootPassword) && OneLine(r.jwtSecret)
  }

  lemma NameOneLine(k: Key)
    requires Rotated(k)
    ensures OneLine(NameOf(k))
  {
  }

  lemma WrittenIsFileLine(r: RotationSecrets, k: Key)
    requires Rotated(k) && OneLine(Replacement(r, k))
    ensures WrittenLine(r, k) == Parse(WrittenLine(r, k).text) && OneLine(WrittenLine(r, k).text)
  {
    hide Parse, NameOf;
    WrittenIsRead(r, k);
    NameOneLine(k);
  }

  lemma SecretsAreWritable(r: RotationSecrets)
    requires SecretsOneLine(r)
    ensures Writable(ReplacementsOf(r))
  {
    hide Parse, WrittenLine, OneLine;
    WrittenIsFileLine(r, DbPassword);
    WrittenIsFileLine(r, RootPassword);
    WrittenIsFileLine(r, JwtSecret);
  }

  lemma TextsConcat(a: seq<Line>, b: seq<Line>)
    ensures Texts(a + b) == Texts(a) + Texts(b)
  {
  }

  /** One turn of the loop; written collects the rotated keys met so far. */
  method RewriteLine(rendered: seq<string>, written: set<Key>, line: Line, ghost before: seq<Line>, m: Replacements)
    returns (rendered': seq<string>, written': set<Key>)
    requires written == AssignedKeys(before) * m.Keys
    ensures rendered' == rendered + Texts(Rewritten(before, line, m))
    ensures written' == (AssignedKeys(before) + KeysOf(line)) * m.Keys
  {
    rendered', written' := rendered, written;
    if line.key.None? {
      rendered' := rendered + [line.text];
    } else if Obsolete(line.key.value) {
    } else if line.key.value in m {
      if line.key.value !in written {
        rendered' := rendered + [m[line.key.value].text];
        written' := written + {line.key.value};
      }
    } else {
      rendered' := rendered + [line.text];
    }
  }

  method RewriteLines(texts: seq<string>, m: Replacements) returns (rendered: seq<string>, written: set<Key>)
    ensures rendered == Texts(Body(ParseAll(texts), m))
    ensures written == AssignedKeys(ParseAll(texts)) * m.Keys
  {
    hide Parse, Body, AssignedKeys, Rewritten;
    EmptyBody(m);
    rendered, written := [], {};
    for i := 0 to |texts|
      invariant rendered == Texts(Body(ParseAll(texts[..i]), m))
      invariant written == AssignedKeys(ParseAll(texts[..i])) * m.Keys
    {
      ghost var before := ParseAll(texts[..i]);
      var line := Parse(texts[i]);
      assert ParseAll(texts[..i + 1]) == before + [line];
      Extend(before, line);
      BodyStep(before, line, m);
      TextsConcat(Body(before, m), Rewritten(before, line, m));
      rendered, written := RewriteLine(rendered, written, line, before, m);
    }
    assert texts[..|texts|] == texts;
  }

  /** What the first j turns of the closing loop append. */
  ghost function MissingUpTo(lines: seq<Line>, m: Replacements, j: nat): seq<Line> {
    (if j > 0 then IfMissing(lines, DbPassword, m) else [])
    + (if j > 1 then IfMissing(lines, RootPassword, m) else [])
    + (if j > 2 then IfMissing(lines, JwtSecret, m) else [])
  }

  lemma MissingSteps(lines: seq<Line>, m: Replacements)
    ensures MissingUpTo(lines, m, 0) == []
    ensures MissingUpTo(lines, m, 1) == MissingUpTo(lines, m, 0) + IfMissing(lines, DbPassword, m)
    ensures MissingUpTo(lines, m, 2) == MissingUpTo(lines, m, 1) + IfMissing(lines, RootPassword, m)
    ensures MissingUpTo(lines, m, 3) == MissingUpTo(lines, m, 2) + IfMissing(lines, JwtSecret, m)
    ensures MissingUpTo(lines, m, 3) == Missing(lines, m)
  {
    hide IfMissing;
  }

  method AppendMissing(rendered: seq<string>, written: set<Key>, ghost lines: seq<Line>, m: Replacements)
    returns (extended: seq<string>)
    requires written == AssignedKeys(lines) * m.Keys
    ensures extended == rendered + Texts(Missing(lines, m))
  {
    hide MissingUpTo, AssignedKeys, Missing;
    extended := rendered;
    var keys := [DbPassword, RootPassword, JwtSecret];
    MissingSteps(lines, m);
    for j := 0 to |keys|
      invariant extended == rendered + Texts(MissingUpTo(lines, m, j))
    {
      var k := keys[j];
      assert MissingUpTo(lines, m, j + 1) == MissingUpTo(lines, m, j) + IfMissing(lines, k, m);
      TextsConcat(MissingUpTo(lines, m, j), IfMissing(lines, k, m));
      if k !in written {
        extended := extended + [m[k].text];
      }
    }
  }

  method RenderWith(content: string, m: Replacements) returns (text: string)
    ensures text == RenderedWith(content, m)
  {
    hide Parse, Body, AssignedKeys, IfMissing, OneLine;
    var lines := SplitLines(content);
    var rendered, written := RewriteLines(lines, m);
    ghost var parsed := ParseAll(lines);
    if rendered != [] && rendered[|rendered| - 1] != "" {
      rendered := rendered + [""];
    }
    ghost var body := Body(parsed, m);
    TextsConcat(body, Separator(body));
    TextsConcat(body + Separator(body), Missing(parsed, m));
    rendered := AppendMissing(rendered, written, parsed, m);
    assert rendered == Texts(Assembled(parsed, m));
    text := DropTrailingNewlines(Join(rendered, "\n")) + "\n";
  }

  method RenderRotatedEnv(content: string, r: RotationSecrets) returns (text: string)
    ensures text == Rendered(content, r)
  {
    text := RenderWith(content, ReplacementsOf(r));
  }

  lemma BlankIsOneLine()
    ensures OneLine(BLANK.text)
  {
  }

  lemma {:induction false} BodyFileLines(lines: seq<Line>, m: Replacements)
    requires FileLines(lines) && Writable(m)
    ensures FileLines(Body(lines, m))
  {
    hide Parse;
    if lines != [] {
      BodyFileLines(lines[..|lines| - 1], m);
    }
  }

  lemma AssembledFileLines(lines: seq<Line>, m: Replacements)
    requires FileLines(lines) && Writable(m)
    ensures FileLines(Assembled(lines, m))
  {
    hide Parse, Body, OneLine, AssignedKeys;
    BlankIsOneLine();
    BodyFileLines(lines, m);
    BlankIsRead();
  }

  lemma {:induction false} JoinLast(lines: seq<string>, last: string)
    ensures Join(lines + [last], "\n") == if lines == [] then last else Join(lines, "\n") + "\n" + last
  {
    if |lines| > 1 {
      JoinLast(lines[1..], last);
      assert (lines + [last])[1..] == lines[1..] + [last];
    } else if |lines| == 1 {
      assert (lines + [last])[1..] == [last];
    }
  }

  /** Dropping trailing newlines of the joined text drops the trailing blank lines. */
  lemma {:induction false} DropAfterJoin(lines: seq<Line>)
    requires FileLines(lines)
    ensures DropTrailingNewlines(Join(Texts(lines), "\n")) == Join(Texts(DropTrailingBlank(lines)), "\n")
  {
    hide Parse;
    if lines != [] {
      var init, last := lines[..|lines| - 1], lines[|lines| - 1].text;
      assert Texts(lines) == Texts(init) + [last];
      JoinLast(Texts(init), last);
      var text := Join(Texts(lines), "\n");
      if last == "" {
        DropAfterJoin(init);
        if init != [] {
          assert text[..|text| - 1] == Join(Texts(init), "\n");
        }
      } else {
        assert text[|text| - 1] == last[|last| - 1];
        assert !IsBreak(last[|last| - 1]);
      }
    }
  }

  // ---------- What the rewrite achieves ----------

  lemma LinesAreWellRead(lines: seq<Line>)
    requires FileLines(lines)
    ensures WellRead(lines)
  {
    BlankIsRead();
  }

  lemma LinesAreFileLines(text: string)
    ensures FileLines(LinesOf(text))
  {
    hide Parse;
    var texts := SplitLines(text);
    forall i | 0 <= i < |texts| ensures Parse(texts[i]).text == texts[i] {
      ParseKeepsText(texts[i]);
    }
  }

  /** The text is that of the rewritten lines without trailing blank ones. */
  lemma RenderedForm(text: string, m: Replacements)
    requires Writable(m)
    ensures RenderedWith(text, m) == Join(Texts(RenderedLines(LinesOf(text), m)), "\n") + "\n"
  {
    hide Parse, Assembled, OneLine, LinesOf;
    LinesAreFileLines(text);
    AssembledFileLines(LinesOf(text), m);
    DropAfterJoin(Assembled(LinesOf(text), m));
  }

  lemma LinesOfRendered(text: string, m: Replacements)
    requires Writable(m)
    ensures LinesOf(RenderedWith(text, m)) == RenderedLines(LinesOf(text), m)
    ensures WellRead(LinesOf(text))
  {
    hide Parse, Assembled, OneLine;
    var lines := LinesOf(text);
    var once := RenderedLines(lines, m);
    LinesAreFileLines(text);
    LinesAreWellRead(lines);
    RenderedSettled(lines, m);
    AssembledFileLines(lines, m);
    DroppedIsPrefix(Assembled(lines, m));
    RenderedForm(text, m);
    assert FileLines(once);
    SplitJoined(Texts(once));
    assert ParseAll(Texts(once)) == once;
  }

  /** Rewriting the rewritten text changes nothing. */
  lemma RenderIsIdempotent(text: string, r: RotationSecrets)
    requires SecretsOneLine(r)
    ensures Rendered(Rendered(text, r), r) == Rendered(text, r)
  {
    hide LinesOf, RenderedLines, RenderedWith, ReplacementsOf;
    var m := ReplacementsOf(r);
    SecretsAreWritable(r);
    LinesOfRendered(text, m);
    RenderedForm(text, m);
    RenderedForm(Rendered(text, r), m);
    RenderedSettled(LinesOf(text), m);
    RenderedLinesFixed(RenderedLines(LinesOf(text), m), m);
  }

  /**
   * The rewritten file holds each rotated key in exactly one line, with its new value, no pending
   * or legacy key, and every other line in its order up to trailing or separator blank lines.
   */
  lemma RenderIsExact(text: string, r: RotationSecrets)
    requires SecretsOneLine(r)
    ensures forall k :: Rotated(k) ==> Once(LinesOf(Rendered(text, r)), k, ReplacementsOf(r))
    ensures forall i :: 0 <= i < |LinesOf(Rendered(text, r))| && LinesOf(Rendered(text, r))[i].key.Some? ==>
      !Obsolete(LinesOf(Rendered(text, r))[i].key.value)
    ensures DropTrailingBlank(Others(LinesOf(Rendered(text, r)))) == DropTrailingBlank(Others(LinesOf(text)))
  {
    hide Parse, LinesOf, RenderedLines, ReplacementsOf, Once, Others, DropTrailingBlank, RenderedWith;
    var m := ReplacementsOf(r);
    SecretsAreWritable(r);
    LinesOfRendered(text, m);
    RenderedExactly(LinesOf(text), m);
    OthersSurvive(LinesOf(text), m);
  }

  /** No line of the rewritten file assigns a pending or a legacy name. */
  lemma RenderDropsNames(text: string, r: RotationSecrets, i: nat)
    requires SecretsOneLine(r) && i < |LinesOf(Rendered(text, r))|
    ensures var line := LinesOf(Rendered(text, r))[i].text;
      Assignment(line).Some? ==> Assignment(line).value.0 !in PENDING_NAMES + LEGACY_NAMES
  {
    hide Rendered, Once, Others, Assignment, KeyOf, PENDING_NAMES, LEGACY_NAMES;
    RenderIsExact(text, r);
    var line := LinesOf(Rendered(text, r))[i];
    LinesAreFileLines(Rendered(text, r));
    if Assignment(line.text).Some? {
      RemovedNames(Assignment(line.text).value.0);
    }
  }

  function EnvValue(text: string, k: Key): string {
    Lookup(LinesOf(text), k)
  }

  lemma UntouchedValueKept(lines: seq<Line>, m: Replacements, k: Key)
    requires WellRead(lines) && !Rotated(k) && !Obsolete(k)
    requires WellRead(RenderedLines(lines, m))
    ensures Lookup(RenderedLines(lines, m), k) == Lookup(lines, k)
  {
    OthersSurvive(lines, m);
    LookupSurviving(lines, k);
    LookupSurviving(RenderedLines(lines, m), k);
  }

  /** The new file gives each rotated key its new value and every untouched key its old one. */
  lemma RenderedValues(text: string, r: RotationSecrets, k: Key)
    requires SecretsOneLine(r)
    ensures Rotated(k) ==> EnvValue(Rendered(text, r), k) == Strip(Replacement(r, k))
    ensures !Rotated(k) && !Obsolete(k) ==> EnvValue(Rendered(text, r), k) == EnvValue(text, k)
  {
    hide Parse, AssignmentLine, RenderedLines, RenderedWith, LinesOf;
    var m, lines := ReplacementsOf(r), LinesOf(text);
    SecretsAreWritable(r);
    LinesOfRendered(text, m);
    LinesOfRendered(Rendered(text, r), m);
    RenderedSettled(lines, m);
    if Rotated(k) {
      LookupSettled(RenderedLines(lines, m), m, k);
    } else if !Obsolete(k) {
      UntouchedValueKept(lines, m, k);
    }
  }
}
