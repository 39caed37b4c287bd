/** The line-level rewrite of the .env file, on lines that have already been read. */
module EnvLines {
  import opened Wrappers
  import opened Keys

  /** A line of the file with the assignment it makes, if any. */
  datatype Line = Line(text: string, key: Option<Key>, value: string)

  const BLANK := Line("", None, "")

  /** The new assignment of every rotated key. */
  type Replacements = m: map<Key, Line> |
      && m.Keys == {DbPassword, RootPassword, JwtSecret}
      && forall k :: k in m ==> m[k].key == Some(k) && m[k].text != ""
    witness map[
      DbPassword := Line("=", Some(DbPassword), ""),
      RootPassword := Line("=", Some(RootPassword), ""),
      JwtSecret := Line("=", Some(JwtSecret), "")]

  /** Only an empty text is read as a blank line. */
  ghost predicate WellRead(lines: seq<Line>) {
    forall i :: 0 <= i < |lines| && lines[i].text == "" ==> lines[i] == BLANK
  }

  function KeysOf(line: Line): set<Key> {
    if line.key.Some? then {line.key.value} else {}
  }

  /** The keys that some line assigns. */
  function AssignedKeys(lines: seq<Line>): set<Key> {
    if lines == [] then {} else AssignedKeys(lines[..|lines| - 1]) + KeysOf(lines[|lines| - 1])
  }

  predicate Obsolete(k: Key) {
    Pending(k) || Legacy(k)
  }

  /** A line the rewrite leaves alone. */
  predicate Untouched(line: Line) {
    line.key.None? || !(Rotated(line.key.value) || Obsolete(line.key.value))
  }

  /** What the loop appends for one line, after the lines before it. */
  function Rewritten(before: seq<Line>, line: Line, m: Replacements): seq<Line> {
    if Untouched(line) then [line]
    else if Rotated(line.key.value) && line.key.value !in AssignedKeys(before) then [m[line.key.value]]
    else []
  }

  function Body(lines: seq<Line>, m: Replacements): seq<Line> {
    if lines == [] then []
    else
      var init := lines[..|lines| - 1];
      Body(init, m) + Rewritten(init, lines[|lines| - 1], m)
  }

  /** The assignment for a key that had no line to replace. */
  function IfMissing(lines: seq<Line>, k: Key, m: Replacements): seq<Line>
    requires Rotated(k)
  {
    if k in AssignedKeys(lines) then [] else [m[k]]
  }

  function Missing(lines: seq<Line>, m: Replacements): seq<Line> {
    IfMissing(lines, DbPassword, m) + IfMissing(lines, RootPassword, m) + IfMissing(lines, JwtSecret, m)
  }

  function Separator(body: seq<Line>): seq<Line> {
    if body != [] && body[|body| - 1].text != "" then [BLANK] else []
  }

  function DropTrailingBlank(lines: seq<Line>): seq<Line> {
    if lines != [] && lines[|lines| - 1].text == "" then DropTrailingBlank(lines[..|lines| - 1]) else lines
  }

  function Assembled(lines: seq<Line>, m: Replacements): seq<Line> {
    Body(lines, m) + Separator(Body(lines, m)) + Missing(lines, m)
  }

  function RenderedLines(lines: seq<Line>, m: Replacements): seq<Line> {
    DropTrailingBlank(Assembled(lines, m))
  }

  // ---------- What the rewritten file contains ----------

  /** No pending or legacy key, and each rotated key at most once, with its new value. */
  ghost predicate Settled(lines: seq<Line>, m: Replacements) {
    lines == [] ||
    var init, last := lines[..|lines| - 1], lines[|lines| - 1];
    && Settled(init, m)
    && (Untouched(last) ||
        (last.key.value in m && last == m[last.key.value] && last.key.value !in AssignedKeys(init)))
  }

  lemma Extend(lines: seq<Line>, last: Line)
    ensures AssignedKeys(lines + [last]) == AssignedKeys(lines) + KeysOf(last)
    ensures forall m: Replacements :: Settled(lines + [last], m) <==>
      Settled(lines, m) &&
      (Untouched(last) ||
       (last.key.value in m && last == m[last.key.value] && last.key.value !in AssignedKeys(lines)))
  {
    assert (lines + [last])[..|lines|] == lines;
  }

  lemma EmptyBody(m: Replacements)
    ensures Body([], m) == [] && AssignedKeys([]) == {}
  {
  }

  lemma BodyStep(lines: seq<Line>, last: Line, m: Replacements)
    ensures Body(lines + [last], m) == Body(lines, m) + Rewritten(lines, last, m)
  {
    assert (lines + [last])[..|lines|] == lines;
  }

  /** Two lists assign the same rotated keys. */
  ghost predicate SameRotated(a: seq<Line>, b: seq<Line>) {
    forall k :: Rotated(k) ==> (k in AssignedKeys(a) <==> k in AssignedKeys(b))
  }

  lemma {:induction false} BodySettled(lines: seq<Line>, m: Replacements)
    ensures Settled(Body(lines, m), m)
    ensures SameRotated(Body(lines, m), lines)
  {
    if lines != [] {
      var init, line := lines[..|lines| - 1], lines[|lines| - 1];
      BodySettled(init, m);
      var body, added := Body(init, m), Rewritten(init, line, m);
      if Untouched(line) {
        Extend(body, line);
      } else if added != [] {
        assert added == [m[line.key.value]];
        Extend(body, m[line.key.value]);
      } else {
        assert body + added == body;
      }
    }
  }

  lemma SettledIfMissing(lines: seq<Line>, k: Key, m: Replacements, known: seq<Line>)
    requires Settled(lines, m) && Rotated(k)
    requires k in AssignedKeys(known) <==> k in AssignedKeys(lines)
    ensures Settled(lines + IfMissing(known, k, m), m)
    ensures AssignedKeys(lines + IfMissing(known, k, m)) == AssignedKeys(lines) + {k}
  {
    if k in AssignedKeys(known) {
      assert lines + [] == lines;
    } else {
      Extend(lines, m[k]);
    }
  }

  lemma SettledMissing(base: seq<Line>, m: Replacements, known: seq<Line>)
    requires Settled(base, m) && SameRotated(base, known)
    ensures Settled(base + Missing(known, m), m)
    ensures m.Keys <= AssignedKeys(base + Missing(known, m))
  {
    hide Settled, IfMissing, AssignedKeys;
    var one := IfMissing(known, DbPassword, m);
    var two := IfMissing(known, RootPassword, m);
    var three := IfMissing(known, JwtSecret, m);
    SettledIfMissing(base, DbPassword, m, known);
    SettledIfMissing(base + one, RootPassword, m, known);
    SettledIfMissing(base + one + two, JwtSecret, m, known);
    assert base + one + two + three == base + Missing(known, m);
  }

  lemma AssembledSettled(lines: seq<Line>, m: Replacements)
    ensures Settled(Assembled(lines, m), m)
    ensures m.Keys <= AssignedKeys(Assembled(lines, m))
  {
    var body := Body(lines, m);
    BodySettled(lines, m);
    if Separator(body) != [] {
      Extend(body, BLANK);
    } else {
      assert body + Separator(body) == body;
    }
    SettledMissing(body + Separator(body), m, lines);
  }

  /** Dropping trailing blank lines keeps a prefix, drops only blanks, and leaves no blank at the end. */
  lemma {:induction false} DroppedIsPrefix(lines: seq<Line>)
    ensures var d := DropTrailingBlank(lines);
      && d <= lines
      && (forall i :: |d| <= i < |lines| ==> lines[i].text == "")
      && (d == [] || d[|d| - 1].text != "")
  {
    if lines != [] && lines[|lines| - 1].text == "" {
      DroppedIsPrefix(lines[..|lines| - 1]);
    }
  }

  lemma {:induction false} BodyWellRead(lines: seq<Line>, m: Replacements)
    requires WellRead(lines)
    ensures WellRead(Body(lines, m))
  {
    if lines != [] {
      BodyWellRead(lines[..|lines| - 1], m);
    }
  }

  lemma AssembledWellRead(lines: seq<Line>, m: Replacements)
    requires WellRead(lines)
    ensures WellRead(Assembled(lines, m))
  {
    BodyWellRead(lines, m);
  }

  lemma {:induction false} DropKeepsSettled(lines: seq<Line>, m: Replacements)
    requires Settled(lines, m) && WellRead(lines)
    ensures Settled(DropTrailingBlank(lines), m)
    ensures AssignedKeys(DropTrailingBlank(lines)) == AssignedKeys(lines)
  {
    if lines != [] && lines[|lines| - 1].text == "" {
      DropKeepsSettled(lines[..|lines| - 1], m);
    }
  }

  /** The rewritten lines are settled, cover every rotated key, and do not end with a blank line. */
  lemma RenderedSettled(lines: seq<Line>, m: Replacements)
    requires WellRead(lines)
    ensures Settled(RenderedLines(lines, m), m)
    ensures m.Keys <= AssignedKeys(RenderedLines(lines, m))
    ensures RenderedLines(lines, m) != []
    ensures RenderedLines(lines, m)[|RenderedLines(lines, m)| - 1].text != ""
  {
    AssembledSettled(lines, m);
    AssembledWellRead(lines, m);
    DropKeepsSettled(Assembled(lines, m), m);
    DroppedIsPrefix(Assembled(lines, m));
    assert DbPassword in AssignedKeys(RenderedLines(lines, m));
  }

  /** Exactly one line assigns the key, and it is the new one. */
  ghost predicate Once(lines: seq<Line>, k: Key, m: Replacements)
    requires k in m
  {
    exists i :: 0 <= i < |lines| && lines[i] == m[k] &&
      forall j :: 0 <= j < |lines| && j != i ==> lines[j].key != Some(k)
  }

  lemma {:induction false} NotAssigned(lines: seq<Line>, k: Key)
    requires k !in AssignedKeys(lines)
    ensures forall i :: 0 <= i < |lines| ==> lines[i].key != Some(k)
  {
    if lines != [] {
      NotAssigned(lines[..|lines| - 1], k);
    }
  }

  lemma {:induction false} SettledOnce(lines: seq<Line>, k: Key, m: Replacements) returns (i: nat)
    requires Settled(lines, m) && k in m && k in AssignedKeys(lines)
    ensures i < |lines| && lines[i] == m[k]
    ensures forall j :: 0 <= j < |lines| && j != i ==> lines[j].key != Some(k)
  {
    var n := |lines| - 1;
    if lines[n].key == Some(k) {
      NotAssigned(lines[..n], k);
      i := n;
    } else {
      i := SettledOnce(lines[..n], k, m);
    }
  }

  lemma {:induction false} SettledHasNoObsolete(lines: seq<Line>, m: Replacements)
    requires Settled(lines, m)
    ensures forall i :: 0 <= i < |lines| && lines[i].key.Some? ==> !Obsolete(lines[i].key.value)
  {
    if lines != [] {
      SettledHasNoObsolete(lines[..|lines| - 1], m);
    }
  }

  /** Every rotated key has exactly one line, with the new value, and no obsolete key is left. */
  lemma RenderedExactly(lines: seq<Line>, m: Replacements)
    requires WellRead(lines)
    ensures forall k :: k in m ==> Once(RenderedLines(lines, m), k, m)
    ensures forall i :: 0 <= i < |RenderedLines(lines, m)| && RenderedLines(lines, m)[i].key.Some? ==>
      !Obsolete(RenderedLines(lines, m)[i].key.value)
  {
    RenderedSettled(lines, m);
    SettledHasNoObsolete(RenderedLines(lines, m), m);
    forall k | k in m ensures Once(RenderedLines(lines, m), k, m) {
      var i := SettledOnce(RenderedLines(lines, m), k, m);
    }
  }

  // ---------- The other lines ----------

  function Others(lines: seq<Line>): seq<Line> {
    if lines == [] then []
    else
      var last := lines[|lines| - 1];
      Others(lines[..|lines| - 1]) + if Untouched(last) then [last] else []
  }

  lemma {:induction false} OthersSplit(a: seq<Line>, b: seq<Line>)
    ensures Others(a + b) == Others(a) + Others(b)
    decreases |b|
  {
    if b == [] {
      assert a + b == a;
    } else {
      OthersSplit(a, b[..|b| - 1]);
      assert (a + b)[..|a + b| - 1] == a + b[..|b| - 1];
    }
  }

  lemma {:induction false} NoOthers(lines: seq<Line>)
    requires forall i :: 0 <= i < |lines| ==> !Untouched(lines[i])
    ensures Others(lines) == []
  {
    if lines != [] {
      NoOthers(lines[..|lines| - 1]);
    }
  }

  lemma {:induction false} AllOthers(lines: seq<Line>)
    requires forall i :: 0 <= i < |lines| ==> Untouched(lines[i])
    ensures Others(lines) == lines
  {
    if lines != [] {
      AllOthers(lines[..|lines| - 1]);
    }
  }

  lemma {:induction false} BodyKeepsOthers(lines: seq<Line>, m: Replacements)
    ensures Others(Body(lines, m)) == Others(lines)
  {
    if lines != [] {
      var init, line := lines[..|lines| - 1], lines[|lines| - 1];
      BodyKeepsOthers(init, m);
      OthersSplit(Body(init, m), Rewritten(init, line, m));
      if Untouched(line) {
        AllOthers([line]);
      } else {
        NoOthers(Rewritten(init, line, m));
      }
    }
  }

  lemma {:induction false} DropIgnoresBlanks(lines: seq<Line>, blanks: seq<Line>)
    requires forall i :: 0 <= i < |blanks| ==> blanks[i].text == ""
    ensures DropTrailingBlank(lines + blanks) == DropTrailingBlank(lines)
    decreases |blanks|
  {
    if blanks == [] {
      assert lines + blanks == lines;
    } else {
      var init := blanks[..|blanks| - 1];
      assert (lines + blanks)[..|lines + blanks| - 1] == lines + init;
      DropIgnoresBlanks(lines, init);
    }
  }

  lemma MissingHasNoOthers(lines: seq<Line>, m: Replacements)
    ensures Others(Missing(lines, m)) == []
  {
    var missing := Missing(lines, m);
    forall i | 0 <= i < |missing| ensures !Untouched(missing[i]) {
      assert missing[i] in {m[DbPassword], m[RootPassword], m[JwtSecret]};
    }
    NoOthers(missing);
  }

  lemma OthersOfAssembled(lines: seq<Line>, m: Replacements)
    ensures Others(Assembled(lines, m)) == Others(lines) + Separator(Body(lines, m))
  {
    var body, missing := Body(lines, m), Missing(lines, m);
    var separator := Separator(body);
    BodyKeepsOthers(lines, m);
    OthersSplit(body, separator);
    AllOthers(separator);
    OthersSplit(body + separator, missing);
    MissingHasNoOthers(lines, m);
    assert Others(lines) + separator + [] == Others(lines) + separator;
  }

  lemma OthersWithoutBlanks(kept: seq<Line>, blanks: seq<Line>)
    requires forall i :: 0 <= i < |blanks| ==> blanks[i] == BLANK
    ensures DropTrailingBlank(Others(kept + blanks)) == DropTrailingBlank(Others(kept))
  {
    OthersSplit(kept, blanks);
    AllOthers(blanks);
    DropIgnoresBlanks(Others(kept), blanks);
  }

  /** All other lines survive in their order, up to blank lines at the end of them. */
  lemma OthersSurvive(lines: seq<Line>, m: Replacements)
    requires WellRead(lines)
    ensures DropTrailingBlank(Others(RenderedLines(lines, m))) == DropTrailingBlank(Others(lines))
  {
    hide Assembled, Settled;
    var all, kept := Assembled(lines, m), RenderedLines(lines, m);
    DroppedIsPrefix(all);
    AssembledWellRead(lines, m);
    assert all == kept + all[|kept|..];
    OthersWithoutBlanks(kept, all[|kept|..]);
    OthersOfAssembled(lines, m);
    DropIgnoresBlanks(Others(lines), Separator(Body(lines, m)));
  }

  // ---------- Where the new lines stand ----------

  /** What the rewrite makes of the lines b that follow the lines a. */
  function BodyAfter(a: seq<Line>, b: seq<Line>, m: Replacements): seq<Line> {
    if b == [] then []
    else
      var init := b[..|b| - 1];
      BodyAfter(a, init, m) + Rewritten(a + init, b[|b| - 1], m)
  }

  lemma {:induction false} BodySplit(a: seq<Line>, b: seq<Line>, m: Replacements)
    ensures Body(a + b, m) == Body(a, m) + BodyAfter(a, b, m)
    decreases |b|
  {
    hide Rewritten, Body;
    if b == [] {
      assert a + b == a;
    } else {
      var init, last := b[..|b| - 1], b[|b| - 1];
      BodySplit(a, init, m);
      assert a + b == (a + init) + [last];
      BodyStep(a + init, last, m);
      assert BodyAfter(a, b, m) == BodyAfter(a, init, m) + Rewritten(a + init, last, m);
    }
  }

  lemma {:induction false} AfterKeepsOthers(a: seq<Line>, b: seq<Line>, m: Replacements)
    ensures Others(BodyAfter(a, b, m)) == Others(b)
    decreases |b|
  {
    if b != [] {
      var init, line := b[..|b| - 1], b[|b| - 1];
      AfterKeepsOthers(a, init, m);
      OthersSplit(BodyAfter(a, init, m), Rewritten(a + init, line, m));
      if Untouched(line) {
        AllOthers([line]);
      } else {
        NoOthers(Rewritten(a + init, line, m));
      }
    }
  }

  lemma {:induction false} DropKeepsFront(front: seq<Line>, last: Line, tail: seq<Line>)
    requires last.text != ""
    ensures DropTrailingBlank(front + [last] + tail) == front + [last] + DropTrailingBlank(tail)
    decreases |tail|
  {
    var all := front + [last] + tail;
    if tail != [] && tail[|tail| - 1].text == "" {
      assert all[..|all| - 1] == front + [last] + tail[..|tail| - 1];
      DropKeepsFront(front, last, tail[..|tail| - 1]);
    } else if tail != [] {
      assert all[|all| - 1] == tail[|tail| - 1];
    }
  }

  /** What follows the new line of a key that is assigned first at this place. */
  function Tail(a: seq<Line>, line: Line, b: seq<Line>, m: Replacements): seq<Line> {
    var lines := a + [line] + b;
    BodyAfter(a + [line], b, m) + (Separator(Body(lines, m)) + Missing(lines, m))
  }

  lemma AssembledAround(a: seq<Line>, line: Line, b: seq<Line>, m: Replacements)
    requires line.key.Some? && line.key.value in m && line.key.value !in AssignedKeys(a)
    ensures Assembled(a + [line] + b, m) == Body(a, m) + [m[line.key.value]] + Tail(a, line, b, m)
  {
    hide Rewritten, Missing, Body, BodyAfter, Separator;
    BodySplit(a + [line], b, m);
    BodyStep(a, line, m);
    FirstIsReplaced(a, line, m);
  }

  lemma OthersOfTail(a: seq<Line>, line: Line, b: seq<Line>, m: Replacements)
    ensures Others(Tail(a, line, b, m)) == Others(b) + Separator(Body(a + [line] + b, m))
  {
    hide Missing, Body, BodyAfter, Others;
    var lines := a + [line] + b;
    var separator := Separator(Body(lines, m));
    AfterKeepsOthers(a + [line], b, m);
    MissingHasNoOthers(lines, m);
    OthersSplit(separator, Missing(lines, m));
    OthersSplit(BodyAfter(a + [line], b, m), separator + Missing(lines, m));
    AllOthers(separator);
  }

  lemma WellReadEnd(front: seq<Line>, tail: seq<Line>)
    requires WellRead(front + tail)
    ensures WellRead(tail)
  {
    forall i | 0 <= i < |tail| && tail[i].text == "" ensures tail[i] == BLANK {
      assert (front + tail)[|front| + i] == tail[i];
    }
  }

  lemma DroppedOthers(tail: seq<Line>)
    requires WellRead(tail)
    ensures DropTrailingBlank(Others(DropTrailingBlank(tail))) == DropTrailingBlank(Others(tail))
  {
    var q := DropTrailingBlank(tail);
    DroppedIsPrefix(tail);
    assert tail == q + tail[|q|..];
    OthersWithoutBlanks(q, tail[|q|..]);
  }

  /** The new line of an assigned key stands where the first assignment stood, among the untouched lines. */
  lemma ReplacedInPlace(a: seq<Line>, line: Line, b: seq<Line>, m: Replacements) returns (p: seq<Line>, q: seq<Line>)
    requires line.key.Some? && line.key.value in m && line.key.value !in AssignedKeys(a)
    requires WellRead(a + [line] + b)
    ensures RenderedLines(a + [line] + b, m) == p + [m[line.key.value]] + q
    ensures Others(p) == Others(a) && DropTrailingBlank(Others(q)) == DropTrailingBlank(Others(b))
  {
    hide Missing, Body, Assembled, Tail, Others, WellRead;
    var lines, k := a + [line] + b, line.key.value;
    p := Body(a, m);
    var tail := Tail(a, line, b, m);
    q := DropTrailingBlank(tail);
    AssembledAround(a, line, b, m);
    DropKeepsFront(p, m[k], tail);
    BodyKeepsOthers(a, m);
    AssembledWellRead(lines, m);
    WellReadEnd(p + [m[k]], tail);
    DroppedOthers(tail);
    OthersOfTail(a, line, b, m);
    DropIgnoresBlanks(Others(b), Separator(Body(lines, m)));
  }

  lemma FirstIsReplaced(a: seq<Line>, line: Line, m: Replacements)
    requires line.key.Some? && line.key.value in m && line.key.value !in AssignedKeys(a)
    ensures Rewritten(a, line, m) == [m[line.key.value]]
  {
  }

  lemma NothingDropped(lines: seq<Line>, last: Line)
    requires last.text != ""
    ensures DropTrailingBlank(lines + [last]) == lines + [last]
  {
  }

  lemma LastMissing(lines: seq<Line>, m: Replacements)
    requires exists k :: k in m && k !in AssignedKeys(lines)
    ensures Missing(lines, m) != [] && Missing(lines, m)[|Missing(lines, m)| - 1].text != ""
  {
    hide AssignedKeys;
  }

  lemma FrontOthers(lines: seq<Line>, m: Replacements)
    ensures var front := Body(lines, m) + Separator(Body(lines, m));
      && (front == [] || front[|front| - 1].text == "")
      && (Others(front) == Others(lines) || Others(front) == Others(lines) + [BLANK])
  {
    hide Body, Others;
    BodyKeepsOthers(lines, m);
    OthersSplit(Body(lines, m), Separator(Body(lines, m)));
    AllOthers(Separator(Body(lines, m)));
  }

  /** The lines for keys without an assignment come last, in order, after a blank line unless they come first. */
  lemma MissingComesLast(lines: seq<Line>, m: Replacements) returns (front: seq<Line>)
    requires exists k :: k in m && k !in AssignedKeys(lines)
    ensures var missing :=
        (if DbPassword in AssignedKeys(lines) then [] else [m[DbPassword]])
        + (if RootPassword in AssignedKeys(lines) then [] else [m[RootPassword]])
        + (if JwtSecret in AssignedKeys(lines) then [] else [m[JwtSecret]]);
      missing != [] && RenderedLines(lines, m) == front + missing
    ensures front == [] || front[|front| - 1].text == ""
    ensures Others(front) == Others(lines) || Others(front) == Others(lines) + [BLANK]
  {
    hide Body, Others, AssignedKeys, Separator, DropTrailingBlank;
    LastMissing(lines, m);
    FrontOthers(lines, m);
    front := Body(lines, m) + Separator(Body(lines, m));
    var missing := Missing(lines, m);
    var n := |missing| - 1;
    assert front + missing == (front + missing[..n]) + [missing[n]];
    NothingDropped(front + missing[..n], missing[n]);
  }

  // ---------- Idempotence ----------

  lemma {:induction false} SettledBodyIsFixed(lines: seq<Line>, m: Replacements)
    requires Settled(lines, m)
    ensures Body(lines, m) == lines
  {
    if lines != [] {
      var init, line := lines[..|lines| - 1], lines[|lines| - 1];
      SettledBodyIsFixed(init, m);
      assert lines == init + [line];
    }
  }

  lemma RenderedLinesFixed(lines: seq<Line>, m: Replacements)
    requires Settled(lines, m) && m.Keys <= AssignedKeys(lines)
    requires lines != [] && lines[|lines| - 1].text != ""
    ensures RenderedLines(lines, m) == lines
  {
    SettledBodyIsFixed(lines, m);
    assert Missing(lines, m) == [];
    assert Assembled(lines, m) == lines + [BLANK];
    DropIgnoresBlanks(lines, [BLANK]);
  }

  /** The value a key has in the file: that of its last assignment, "" without one. */
  function Lookup(lines: seq<Line>, k: Key): string {
    if lines == [] then ""
    else
      var last := lines[|lines| - 1];
      if last.key == Some(k) then last.value else Lookup(lines[..|lines| - 1], k)
  }

  /** The last assignment of a key decides its value. */
  lemma {:induction false} LookupExactly(lines: seq<Line>, k: Key, i: nat)
    requires i < |lines| && lines[i].key == Some(k) && forall j :: i < j < |lines| ==> lines[j].key != Some(k)
    ensures Lookup(lines, k) == lines[i].value
  {
    if i < |lines| - 1 {
      LookupExactly(lines[..|lines| - 1], k, i);
    }
  }

  lemma {:induction false} LookupNothing(lines: seq<Line>, k: Key)
    requires forall j :: 0 <= j < |lines| ==> lines[j].key != Some(k)
    ensures Lookup(lines, k) == ""
  {
    if lines != [] {
      LookupNothing(lines[..|lines| - 1], k);
    }
  }

  lemma {:induction false} LookupInOthers(lines: seq<Line>, k: Key)
    requires !Rotated(k) && !Obsolete(k)
    ensures Lookup(lines, k) == Lookup(Others(lines), k)
  {
    if lines != [] {
      var init, last := lines[..|lines| - 1], lines[|lines| - 1];
      LookupInOthers(init, k);
      if Untouched(last) {
        assert (Others(init) + [last])[..|Others(init)|] == Others(init);
      } else {
        assert Others(lines) == Others(init);
      }
    }
  }

  lemma {:induction false} LookupSkipsBlanks(lines: seq<Line>, k: Key)
    requires forall i :: 0 <= i < |lines| && lines[i].text == "" ==> lines[i].key.None?
    ensures Lookup(lines, k) == Lookup(DropTrailingBlank(lines), k)
  {
    if lines != [] && lines[|lines| - 1].text == "" {
      LookupSkipsBlanks(lines[..|lines| - 1], k);
    }
  }

  lemma {:induction false} OthersAmong(lines: seq<Line>)
    requires WellRead(lines)
    ensures WellRead(Others(lines))
  {
    if lines != [] {
      OthersAmong(lines[..|lines| - 1]);
    }
  }

  lemma LookupSurviving(lines: seq<Line>, k: Key)
    requires WellRead(lines) && !Rotated(k) && !Obsolete(k)
    ensures Lookup(lines, k) == Lookup(DropTrailingBlank(Others(lines)), k)
  {
    LookupInOthers(lines, k);
    OthersAmong(lines);
    LookupSkipsBlanks(Others(lines), k);
  }

  lemma {:induction false} LookupSettled(lines: seq<Line>, m: Replacements, k: Key)
    requires Settled(lines, m) && k in m && k in AssignedKeys(lines)
    ensures Lookup(lines, k) == m[k].value
  {
    if lines[|lines| - 1].key != Some(k) {
      LookupSettled(lines[..|lines| - 1], m, k);
    }
  }
}
