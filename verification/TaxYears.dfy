/** The tax-year list of the payment form: parser, printer and validator. */
module TaxYears {
  import opened Text

  // ---------- Specification ----------

  /** The two accepted separators are one. */
  function Commas(text: string): string {
    seq(|text|, i requires 0 <= i < |text| => if text[i] == ';' then ',' else text[i])
  }

  /** The stripped pieces that are not blank. */
  function NonBlank(pieces: seq<string>): seq<string> {
    if pieces == [] then []
    else
      var head := Strip(pieces[0]);
      (if head == "" then [] else [head]) + NonBlank(pieces[1..])
  }

  function Parts(text: string): seq<string> {
    NonBlank(Split(Commas(text), ','))
  }

  predicate IsYearText(s: string) {
    |s| == 4 && AllDigits(s)
  }

  function Bounds(part: string): seq<string> {
    NonBlank(Split(part, '-'))
  }

  /** A hyphenated part that the parser spells out year by year. */
  predicate Expandable(part: string) {
    var b := Bounds(part);
    && '-' in part
    && |b| == 2 && IsYearText(b[0]) && IsYearText(b[1])
    && Value(b[0]) <= Value(b[1]) <= Value(b[0]) + 15
  }

  function YearsFrom(first: nat, count: nat): (years: seq<string>)
    ensures |years| == count && forall i :: 0 <= i < count ==> years[i] == Decimal(first + i)
  {
    seq(count, i requires 0 <= i => Decimal(first + i))
  }

  function Expand(part: string): seq<string> {
    if Expandable(part) then
      var b := Bounds(part);
      YearsFrom(Value(b[0]), Value(b[1]) - Value(b[0]) + 1)
    else [part]
  }

  function ExpandAll(parts: seq<string>): seq<string> {
    if parts == [] then []
    else ExpandAll(parts[..|parts| - 1]) + Expand(parts[|parts| - 1])
  }

  /** Every item once, where it first appeared. */
  function Dedupe(items: seq<string>): seq<string> {
    if items == [] then []
    else
      var d := Dedupe(items[..|items| - 1]);
      var last := items[|items| - 1];
      if last in d then d else d + [last]
  }

  function Normalized(text: string): seq<string> {
    Dedupe(ExpandAll(Parts(text)))
  }

  function Formatted(text: string): string {
    Join(Normalized(text), ", ")
  }

  // ---------- The operations ----------

  /** The comprehension that strips the pieces of a split and drops the blank ones. */
  method CollectNonBlank(pieces: seq<string>) returns (parts: seq<string>)
    ensures parts == NonBlank(pieces)
  {
    parts := [];
    for i := 0 to |pieces|
      invariant parts + NonBlank(pieces[i..]) == NonBlank(pieces)
    {
      var stripped := Strip(pieces[i]);
      assert pieces[i..][1..] == pieces[i + 1..];
      if stripped != "" {
        parts := parts + [stripped];
      }
    }
  }

  /** One turn of the loop over the parts. */
  method AppendExpansion(normalized: seq<string>, part: string) returns (extended: seq<string>)
    ensures extended == normalized + Expand(part)
  {
    if '-' in part {
      var bounds := CollectNonBlank(Split(part, '-'));
      if |bounds| == 2 && IsYearText(bounds[0]) && IsYearText(bounds[1]) {
        var start, end := Value(bounds[0]), Value(bounds[1]);
        if end >= start && end - start <= 15 {
          extended := normalized;
          for year := start to end + 1
            invariant extended == normalized + YearsFrom(start, year - start)
          {
            extended := extended + [Decimal(year)];
          }
          return;
        }
      }
    }
    extended := normalized + [part];
  }

  method DropRepeats(items: seq<string>) returns (deduped: seq<string>)
    ensures deduped == Dedupe(items)
  {
    deduped := [];
    var seen: set<string> := {};
    for i := 0 to |items|
      invariant deduped == Dedupe(items[..i])
      invariant seen == set s | s in deduped
    {
      assert items[..i + 1][..i] == items[..i];
      if items[i] !in seen {
        deduped := deduped + [items[i]];
        seen := seen + {items[i]};
      }
    }
    assert items[..|items|] == items;
  }

  method NormalizeTaxYears(text: string) returns (deduped: seq<string>)
    ensures deduped == Normalized(text)
  {
    var parts := CollectNonBlank(Split(Commas(text), ','));
    var normalized: seq<string> := [];
    for i := 0 to |parts|
      invariant normalized == ExpandAll(parts[..i])
    {
      assert parts[..i + 1][..i] == parts[..i];
      normalized := AppendExpansion(normalized, parts[i]);
    }
    assert parts[..|parts|] == parts;
    deduped := DropRepeats(normalized);
  }

  // ---------- Parts ----------

  lemma {:induction false} NonBlankConcat(a: seq<string>, b: seq<string>)
    ensures NonBlank(a + b) == NonBlank(a) + NonBlank(b)
  {
    if a == [] {
      assert a + b == b;
    } else {
      assert (a + b)[0] == a[0] && (a + b)[1..] == a[1..] + b;
      NonBlankConcat(a[1..], b);
    }
  }

  /** Commas and semicolons separate parts, and nothing else does. */
  lemma PartsExactly(a: string, b: string)
    ensures Parts(a + "," + b) == Parts(a) + Parts(b)
    ensures Parts(a + ";" + b) == Parts(a) + Parts(b)
    ensures ',' !in a && ';' !in a ==> Parts(a) == if Strip(a) == "" then [] else [Strip(a)]
  {
    hide Strip;
    var x, y := Commas(a), Commas(b);
    assert Commas(a + "," + b) == x + [','] + y;
    assert Commas(a + ";" + b) == x + [','] + y;
    SplitConcat(x, ',', y);
    NonBlankConcat(Split(x, ','), Split(y, ','));
    if ',' !in a && ';' !in a {
      assert x == a;
      SplitWhole(a, ',');
      assert [a][1..] == [];
    }
  }

  // ---------- Dedupe ----------

  /** The position of the first occurrence. */
  function FirstIndex(items: seq<string>, item: string): (i: nat)
    requires item in items
    ensures i < |items| && items[i] == item && item !in items[..i]
  {
    if items[0] == item then 0 else 1 + FirstIndex(items[1..], item)
  }

  ghost predicate NoRepeats(items: seq<string>) {
    forall i, j :: 0 <= i < j < |items| ==> items[i] != items[j]
  }

  lemma {:induction false} DedupeMembers(items: seq<string>)
    ensures forall x :: x in Dedupe(items) <==> x in items
    ensures NoRepeats(Dedupe(items))
  {
    if items != [] {
      var init, last := items[..|items| - 1], items[|items| - 1];
      DedupeMembers(init);
      assert items == init + [last];
    }
  }

  /** d lists the items of a list in the order in which they first appear there. */
  ghost predicate InFirstOrder(items: seq<string>, d: seq<string>) {
    && (forall x :: x in d <==> x in items)
    && NoRepeats(d)
    && (forall i, j :: 0 <= i < j < |d| ==>
          d[i] in items && d[j] in items && FirstIndex(items, d[i]) < FirstIndex(items, d[j]))
  }

  lemma FirstIndexIs(items: seq<string>, item: string, i: nat)
    requires i < |items| && items[i] == item && item !in items[..i]
    ensures FirstIndex(items, item) == i
  {
    var k := FirstIndex(items, item);
    forall j | 0 <= j < i ensures items[j] != item {
      assert items[..i][j] == items[j];
    }
    forall j | 0 <= j < k ensures items[j] != item {
      assert items[..k][j] == items[j];
    }
  }

  lemma FirstIndexInPrefix(init: seq<string>, last: string, item: string)
    requires item in init
    ensures FirstIndex(init + [last], item) == FirstIndex(init, item)
  {
    var i := FirstIndex(init, item);
    assert (init + [last])[..i] == init[..i];
    FirstIndexIs(init + [last], item, i);
  }

  /** The result lists each distinct item in the order of first appearance. */
  lemma {:induction false} DedupeKeepsFirstAppearances(items: seq<string>)
    ensures InFirstOrder(items, Dedupe(items))
  {
    DedupeMembers(items);
    if items != [] {
      var init, last := items[..|items| - 1], items[|items| - 1];
      var d := Dedupe(init);
      DedupeKeepsFirstAppearances(init);
      assert items == init + [last];
      forall x | x in d ensures x in init && FirstIndex(items, x) == FirstIndex(init, x) < |init| {
        FirstIndexInPrefix(init, last, x);
      }
      if last !in d {
        FirstIndexIs(items, last, |init|);
      }
      var e := Dedupe(items);
      forall i, j | 0 <= i < j < |e|
        ensures e[i] in items && e[j] in items && FirstIndex(items, e[i]) < FirstIndex(items, e[j])
      {
        assert e[i] == d[i];
        assert j < |d| ==> e[j] == d[j];
      }
    }
  }

  lemma {:induction false} DedupeFixed(items: seq<string>)
    requires NoRepeats(items)
    ensures Dedupe(items) == items
  {
    if items != [] {
      var init := items[..|items| - 1];
      DedupeFixed(init);
      assert items == init + [items[|items| - 1]];
    }
  }

  // ---------- Round trip ----------

  /** A stripped piece without separators. */
  ghost predicate Clean(item: string) {
    item != "" && Stripped(item) && ',' !in item && ';' !in item
  }

  ghost predicate AllClean(items: seq<string>) {
    forall i :: 0 <= i < |items| ==> Clean(items[i])
  }

  /** A list whose items survive printing and parsing unchanged. */
  ghost predicate AllSettled(items: seq<string>) {
    forall i :: 0 <= i < |items| ==> Clean(items[i]) && !Expandable(items[i])
  }

  lemma {:induction false} NonBlankClean(pieces: seq<string>)
    requires forall i :: 0 <= i < |pieces| ==> ',' !in pieces[i] && ';' !in pieces[i]
    ensures AllClean(NonBlank(pieces))
  {
    if pieces != [] {
      NonBlankClean(pieces[1..]);
      StripFacts(pieces[0]);
    }
  }

  lemma PartsClean(text: string)
    ensures AllClean(Parts(text))
  {
    var pieces := Split(Commas(text), ',');
    assert ';' !in Commas(text);
    forall i | 0 <= i < |pieces| ensures ',' !in pieces[i] && ';' !in pieces[i] {
      assert pieces[i] in pieces;
    }
    NonBlankClean(pieces);
  }

  lemma DecimalSettled(n: nat)
    ensures Clean(Decimal(n)) && !Expandable(Decimal(n))
  {
    var s := Decimal(n);
    assert s[0] in s && s[|s| - 1] in s;
  }

  lemma {:induction false} ExpandAllSettled(parts: seq<string>)
    requires AllClean(parts)
    ensures AllSettled(ExpandAll(parts))
  {
    if parts != [] {
      ExpandAllSettled(parts[..|parts| - 1]);
      var last := parts[|parts| - 1];
      if Expandable(last) {
        var first := Value(Bounds(last)[0]);
        forall i | 0 <= i < |Expand(last)| ensures Clean(Expand(last)[i]) && !Expandable(Expand(last)[i]) {
          DecimalSettled(first + i);
        }
      }
    }
  }

  lemma NotExpanded(part: string)
    requires !Expandable(part)
    ensures Expand(part) == [part]
  {
    hide Expandable;
  }

  lemma {:induction false} ExpandAllFixed(items: seq<string>)
    requires AllSettled(items)
    ensures ExpandAll(items) == items
  {
    hide Expandable, Expand, Clean;
    if items != [] {
      var last := items[|items| - 1];
      ExpandAllFixed(items[..|items| - 1]);
      NotExpanded(last);
      assert items == items[..|items| - 1] + [last];
    }
  }

  lemma StripLead(lead: string, item: string)
    requires lead == "" || lead == " "
    requires Stripped(item)
    ensures Strip(lead + item) == item
  {
    StripFacts(item);
    if lead == " " {
      assert IsSpace((lead + item)[0]) && (lead + item)[1..] == item;
    } else {
      assert lead + item == item;
    }
  }

  /** Parsing the printed list gives the list back, also behind a leading blank. */
  lemma {:induction false} PiecesOfJoin(lead: string, items: seq<string>)
    requires lead == "" || lead == " "
    requires items != [] && AllClean(items)
    ensures NonBlank(Split(lead + Join(items, ", "), ',')) == items
    decreases |items|
  {
    hide Strip, IsSpace, Stripped;
    var first := items[0];
    assert Clean(first);
    StripLead(lead, first);
    assert ',' !in lead + first;
    if |items| == 1 {
      SplitWhole(lead + first, ',');
      assert items == [first];
      assert [lead + first][1..] == [];
    } else {
      var rest := " " + Join(items[1..], ", ");
      PiecesOfJoin(" ", items[1..]);
      assert ", " == "," + " ";
      assert lead + Join(items, ", ") == (lead + first) + "," + rest;
      SplitAtFirst(lead + first, ',', rest);
      var pieces := [lead + first] + Split(rest, ',');
      assert pieces[1..] == Split(rest, ',');
      assert items == [first] + items[1..];
    }
  }

  lemma {:induction false} JoinHasNoSemicolon(items: seq<string>)
    requires AllClean(items)
    ensures ';' !in Join(items, ", ")
  {
    if items != [] {
      assert Clean(items[0]);
      if |items| > 1 {
        JoinHasNoSemicolon(items[1..]);
      }
    }
  }

  lemma NormalizedSettled(text: string)
    ensures AllSettled(Normalized(text)) && NoRepeats(Normalized(text))
  {
    var all := ExpandAll(Parts(text));
    PartsClean(text);
    ExpandAllSettled(Parts(text));
    DedupeMembers(all);
    forall i | 0 <= i < |Normalized(text)|
      ensures Clean(Normalized(text)[i]) && !Expandable(Normalized(text)[i])
    {
      assert Normalized(text)[i] in all;
    }
  }

  /** Printing and parsing again changes nothing, for every text at all. */
  lemma RoundTrip(text: string)
    ensures Normalized(Formatted(text)) == Normalized(text)
  {
    var items := Normalized(text);
    NormalizedSettled(text);
    if items == [] {
      assert Commas("") == "";
      assert [""][1..] == [];
      assert Parts(Formatted(text)) == [];
    } else {
      JoinHasNoSemicolon(items);
      var printed := Formatted(text);
      assert Commas(printed) == printed;
      PiecesOfJoin("", items);
      assert "" + printed == printed;
      ExpandAllFixed(items);
      DedupeFixed(items);
    }
  }

  /** Each item after a comma and a blank. */
  function Continued(items: seq<string>): string {
    if items == [] then "" else Continued(items[..|items| - 1]) + ", " + items[|items| - 1]
  }

  lemma {:induction false} JoinContinues(first: string, items: seq<string>)
    ensures Join([first] + items, ", ") == first + Continued(items)
    decreases |items|
  {
    if items == [] {
      assert [first] + items == [first];
    } else {
      JoinContinues(items[0], items[1..]);
      assert ([first] + items)[1..] == [items[0]] + items[1..];
      ContinuedFront(items);
    }
  }

  lemma Regrouped(a: string, b: string, c: string, d: string)
    ensures (a + b) + c + d == a + (b + c + d)
  {
  }

  lemma ContinuedLast(items: seq<string>, last: string)
    ensures Continued(items + [last]) == Continued(items) + ", " + last
  {
    assert (items + [last])[..|items|] == items;
  }

  lemma {:induction false} ContinuedFront(items: seq<string>)
    requires items != []
    ensures Continued(items) == ", " + items[0] + Continued(items[1..])
  {
    hide Continued;
    var n := |items| - 1;
    var init, last := items[..n], items[n];
    assert items == init + [last];
    ContinuedLast(init, last);
    if n > 0 {
      ContinuedFront(init);
      assert items[1..] == init[1..] + [last];
      ContinuedLast(init[1..], last);
      Regrouped(", " + items[0], Continued(init[1..]), ", ", last);
    } else {
      assert init == [] && items[1..] == [];
      NothingContinued();
    }
  }

  lemma NothingContinued()
    ensures Continued([]) == ""
  {
  }

  /** The printed text is the items in order, with a comma and a blank between them. */
  lemma FormattedExactly(text: string)
    ensures Normalized(text) == [] ==> Formatted(text) == ""
    ensures Normalized(text) != [] ==> Formatted(text) == Normalized(text)[0] + Continued(Normalized(text)[1..])
  {
    var items := Normalized(text);
    if items != [] {
      JoinContinues(items[0], items[1..]);
      assert items == [items[0]] + items[1..];
    }
  }

  /** The parsed list repeats nothing and keeps the order in which the items first appear. */
  lemma NormalizedOrder(text: string)
    ensures InFirstOrder(ExpandAll(Parts(text)), Normalized(text))
  {
    DedupeKeepsFirstAppearances(ExpandAll(Parts(text)));
  }

  // ---------- Validation ----------

  predicate IsRangeText(part: string) {
    |part| == 9 && IsYearText(part[..4]) && part[4] == '-' && IsYearText(part[5..])
  }

  predicate AcceptedPart(part: string) {
    if '-' in part then IsRangeText(part) && Value(part[..4]) <= Value(part[5..])
    else IsYearText(part)
  }

  predicate AllAccepted(parts: seq<string>) {
    forall i :: 0 <= i < |parts| ==> AcceptedPart(parts[i])
  }

  datatype Verdict =
    | Accepted(years: seq<string>, text: string)
    | MissingYear
    | InvalidRange(range: string)
    | InvalidYear(year: string)

  /** Accepts exactly the lists of years and ascending ranges; otherwise names the first bad part. */
  method ValidateTaxYearText(value: string) returns (verdict: Verdict)
    ensures verdict.MissingYear? <==> Strip(value) == ""
    ensures verdict.Accepted? <==> Strip(value) != "" && AllAccepted(Parts(Strip(value)))
    ensures verdict.Accepted? ==>
      verdict == Accepted(Normalized(Strip(value)), Formatted(Strip(value)))
    ensures verdict.InvalidRange? || verdict.InvalidYear? ==>
      var parts := Parts(Strip(value));
      exists i :: 0 <= i < |parts| && !AcceptedPart(parts[i]) && AllAccepted(parts[..i]) &&
        verdict == if '-' in parts[i] then InvalidRange(parts[i]) else InvalidYear(parts[i])
  {
    var text := Strip(value);
    if text == "" {
      return MissingYear;
    }
    var parts := CollectNonBlank(Split(Commas(text), ','));
    for i := 0 to |parts|
      invariant AllAccepted(parts[..i])
    {
      if '-' in parts[i] {
        if !IsRangeText(parts[i]) {
          return InvalidRange(parts[i]);
        }
        var first, last := Value(parts[i][..4]), Value(parts[i][5..]);
        if last < first {
          return InvalidRange(parts[i]);
        }
      } else if !IsYearText(parts[i]) {
        return InvalidYear(parts[i]);
      }
    }
    assert parts[..|parts|] == parts;
    var years := NormalizeTaxYears(text);
    var printed := NormalizeTaxYears(text);
    verdict := Accepted(years, Join(printed, ", "));
  }

  /** Four digits from position i on. */
  predicate DigitsAt(part: string, i: nat) {
    i + 4 <= |part| && forall k :: i <= k < i + 4 ==> '0' <= part[k] <= '9'
  }

  function NumberAt(part: string, i: nat): int
    requires DigitsAt(part, i)
  {
    1000 * DigitValue(part[i]) + 100 * DigitValue(part[i + 1]) + 10 * DigitValue(part[i + 2]) + DigitValue(part[i + 3])
  }

  lemma DigitsAreYear(part: string, i: nat)
    requires i + 4 <= |part|
    ensures IsYearText(part[i..i + 4]) <==> DigitsAt(part, i)
    ensures DigitsAt(part, i) ==> Value(part[i..i + 4]) == NumberAt(part, i)
  {
    hide Value;
    var s := part[i..i + 4];
    if IsYearText(s) {
      forall k | i <= k < i + 4 ensures '0' <= part[k] <= '9' {
        assert s[k - i] in s;
      }
    }
    if DigitsAt(part, i) {
      assert forall c :: c in s ==> IsDigit(c);
      FourDigitValue(s);
    }
  }

  /** A part is accepted exactly when it is one year, or two with a hyphen between them, the second not the lower. */
  lemma AcceptedExactly(part: string)
    ensures AcceptedPart(part) <==>
      || (|part| == 4 && DigitsAt(part, 0))
      || (|part| == 9 && part[4] == '-' && DigitsAt(part, 0) && DigitsAt(part, 5)
          && NumberAt(part, 0) <= NumberAt(part, 5))
  {
    hide Value, NumberAt;
    if |part| == 4 {
      assert part[0..4] == part;
      DigitsAreYear(part, 0);
      if DigitsAt(part, 0) {
        assert '-' !in part;
      }
    } else if |part| == 9 {
      assert part[0..4] == part[..4] && part[5..9] == part[5..];
      DigitsAreYear(part, 0);
      DigitsAreYear(part, 5);
      assert part[4] == '-' ==> '-' in part;
    }
  }

  /** The years a validated part stands for. */
  ghost predicate Denotes(part: string, year: nat)
    requires AcceptedPart(part)
  {
    if '-' in part then Value(part[..4]) <= year <= Value(part[5..]) else Value(part) == year
  }

  /** A part whose years the parser writes out with four digits each. */
  predicate SpelledOut(part: string)
    requires AcceptedPart(part)
  {
    '-' in part ==> 1000 <= Value(part[..4]) && Value(part[5..]) - Value(part[..4]) <= 15
  }

  lemma DigitsAreStripped(s: string)
    requires AllDigits(s) && s != ""
    ensures Strip(s) == s
  {
    assert s[0] in s && s[|s| - 1] in s;
    StripFacts(s);
  }

  lemma NonBlankPair(a: string, b: string)
    requires a != "" && b != "" && Strip(a) == a && Strip(b) == b
    ensures NonBlank([a, b]) == [a, b]
  {
    hide Strip;
    assert [a, b][1..] == [b] && [b][1..] == [];
    assert NonBlank([b]) == [b];
  }

  lemma RangeBounds(part: string)
    requires IsRangeText(part)
    ensures Bounds(part) == [part[..4], part[5..]]
  {
    hide Value, Strip, NonBlank;
    var a, b := part[..4], part[5..];
    assert part == a + "-" + b;
    assert '-' !in a && '-' !in b;
    SplitAtFirst(a, '-', b);
    SplitWhole(b, '-');
    assert a + ['-'] + b == part;
    assert Split(part, '-') == [a, b];
    DigitsAreStripped(a);
    DigitsAreStripped(b);
    NonBlankPair(a, b);
  }

  lemma ExpandRange(part: string)
    requires AcceptedPart(part) && '-' in part
    ensures var first, last := Value(part[..4]), Value(part[5..]);
      && last < 10000
      && Expand(part) == if last - first <= 15 then YearsFrom(first, last - first + 1) else [part]
  {
    RangeBounds(part);
    FourDigitValue(part[5..]);
  }

  lemma YearWritten(year: nat)
    requires year < 10000
    ensures IsYearText(Decimal(year)) <==> 1000 <= year
    ensures Value(Decimal(year)) == year
  {
    FourDigits(year);
    ValueOfDecimal(year);
  }

  lemma ExpandYear(part: string)
    requires '-' !in part
    ensures Expand(part) == [part]
  {
  }

  /** All of these are four-digit years the part stands for. */
  ghost predicate YearsOf(part: string, years: seq<string>)
    requires AcceptedPart(part)
  {
    forall i :: 0 <= i < |years| ==> IsYearText(years[i]) && Denotes(part, Value(years[i]))
  }

  lemma ExpandAccepted(part: string)
    requires AcceptedPart(part)
    ensures SpelledOut(part) ==> YearsOf(part, Expand(part))
    ensures !SpelledOut(part) ==> Expand(part) != [] && !IsYearText(Expand(part)[0])
  {
    hide Expand;
    if '-' in part {
      ExpandRange(part);
      var first, last := Value(part[..4]), Value(part[5..]);
      if SpelledOut(part) {
        forall i | 0 <= i < last - first + 1
          ensures IsYearText(Expand(part)[i]) && Denotes(part, Value(Expand(part)[i]))
        {
          YearWritten(first + i);
        }
      } else if last - first <= 15 {
        YearWritten(first);
      }
    } else {
      ExpandYear(part);
    }
  }

  lemma ExpandCovers(part: string, year: nat) returns (x: string)
    requires AcceptedPart(part) && SpelledOut(part) && Denotes(part, year)
    ensures x in Expand(part) && IsYearText(x) && Value(x) == year
  {
    if '-' in part {
      ExpandRange(part);
      YearWritten(year);
      x := Decimal(year);
      assert Expand(part)[year - Value(part[..4])] == x;
    } else {
      x := part;
    }
  }

  lemma {:induction false} ExpandAllMembers(parts: seq<string>, x: string)
    ensures x in ExpandAll(parts) <==> exists i :: 0 <= i < |parts| && x in Expand(parts[i])
  {
    hide Expand;
    if parts != [] {
      ExpandAllMembers(parts[..|parts| - 1], x);
    }
  }

  /**
   * Validated text is parsed into nothing but four-digit years exactly when every range in it
   * starts at 1000 or later and spans at most fifteen years; any other range survives as raw
   * text or loses its leading zeros.
   */
  lemma ValidatedTextIsYears(text: string)
    requires AllAccepted(Parts(text))
    ensures (forall x :: x in Normalized(text) ==> IsYearText(x))
       <==> (forall i :: 0 <= i < |Parts(text)| ==> SpelledOut(Parts(text)[i]))
  {
    var parts := Parts(text);
    DedupeMembers(ExpandAll(parts));
    forall i | 0 <= i < |parts|
      ensures (forall x :: x in Expand(parts[i]) ==> x in Normalized(text))
      ensures (forall x :: x in Expand(parts[i]) ==> IsYearText(x)) <==> SpelledOut(parts[i])
    {
      ExpandAccepted(parts[i]);
      if !SpelledOut(parts[i]) {
        assert Expand(parts[i])[0] in Expand(parts[i]);
      }
      forall x | x in Expand(parts[i]) ensures x in Normalized(text) {
        ExpandAllMembers(parts, x);
      }
    }
    forall x | x in Normalized(text)
      ensures exists i :: 0 <= i < |parts| && x in Expand(parts[i])
    {
      ExpandAllMembers(parts, x);
    }
  }

  lemma {:induction false} ValueInjective(s: string, t: string)
    requires AllDigits(s) && AllDigits(t) && |s| == |t| && Value(s) == Value(t)
    ensures s == t
  {
    if s != "" {
      assert s[|s| - 1] in s && t[|t| - 1] in t;
      ValueInjective(s[..|s| - 1], t[..|t| - 1]);
      assert s == s[..|s| - 1] + [s[|s| - 1]] && t == t[..|t| - 1] + [t[|t| - 1]];
    }
  }

  /** The list contains the year. */
  ghost predicate Lists(years: seq<string>, year: nat) {
    exists x :: x in years && IsYearText(x) && Value(x) == year
  }

  /** Some part of the text stands for the year. */
  ghost predicate DenotedBy(parts: seq<string>, year: nat)
    requires AllAccepted(parts)
  {
    exists i :: 0 <= i < |parts| && Denotes(parts[i], year)
  }

  /** Then the list is exactly the set of denoted years, each listed once. */
  lemma ValidatedYearsExact(text: string)
    requires AllAccepted(Parts(text))
    requires forall i :: 0 <= i < |Parts(text)| ==> SpelledOut(Parts(text)[i])
    ensures var years := Normalized(text);
      && (forall i :: 0 <= i < |years| ==> IsYearText(years[i]))
      && (forall i, j :: 0 <= i < j < |years| ==> Value(years[i]) != Value(years[j]))
    ensures forall y: nat :: Lists(Normalized(text), y) <==> DenotedBy(Parts(text), y)
  {
    var parts, years := Parts(text), Normalized(text);
    ValidatedTextIsYears(text);
    DedupeMembers(ExpandAll(parts));
    forall i | 0 <= i < |years| ensures IsYearText(years[i]) {
      assert years[i] in years;
    }
    forall i, j | 0 <= i < j < |years| ensures Value(years[i]) != Value(years[j]) {
      if Value(years[i]) == Value(years[j]) {
        ValueInjective(years[i], years[j]);
      }
    }
    forall y: nat | Lists(years, y) ensures DenotedBy(parts, y) {
      var x :| x in years && IsYearText(x) && Value(x) == y;
      ExpandAllMembers(parts, x);
      var i :| 0 <= i < |parts| && x in Expand(parts[i]);
      ExpandAccepted(parts[i]);
    }
    forall y: nat | DenotedBy(parts, y) ensures Lists(years, y) {
      var i :| 0 <= i < |parts| && Denotes(parts[i], y);
      var x := ExpandCovers(parts[i], y);
      ExpandAllMembers(parts, x);
    }
  }

  // ---------- Inputs that are validated but not spelled out ----------

  lemma YearsDiffer(first: nat, count: nat)
    ensures NoRepeats(YearsFrom(first, count))
  {
    forall i, j | 0 <= i < j < count ensures YearsFrom(first, count)[i] != YearsFrom(first, count)[j] {
      if YearsFrom(first, count)[i] == YearsFrom(first, count)[j] {
        DecimalInjective(first + i, first + j);
      }
    }
  }

  lemma RangeIsOnePart(text: string)
    requires IsRangeText(text)
    ensures Strip(text) == text && Parts(text) == [text]
  {
    hide Strip;
    forall i | 0 <= i < |text| ensures IsDigit(text[i]) || text[i] == '-' {
      assert i < 4 ==> text[i] == text[..4][i];
      assert i > 4 ==> text[i] == text[5..][i - 5];
    }
    assert text[0] == text[..4][0] && text[8] == text[5..][3];
    assert Stripped(text);
    StripFacts(text);
    assert Commas(text) == text;
    SplitWhole(text, ',');
    assert [text][1..] == [] && NonBlank([]) == [];
    assert NonBlank([text]) == [text] + NonBlank([text][1..]);
  }

  lemma ExpandOne(part: string)
    ensures ExpandAll([part]) == Expand(part)
  {
    hide Expand;
    assert [part][..0] == [] && ExpandAll([]) == [];
    assert ExpandAll([part]) == ExpandAll([part][..0]) + Expand(part);
  }

  lemma RangeIsAccepted(text: string)
    requires IsRangeText(text) && Value(text[..4]) <= Value(text[5..])
    ensures AcceptedPart(text) && '-' in text
  {
    hide Value;
    assert text[4] in text;
  }

  /** The list of a text that is a single range. */
  lemma OneRange(text: string)
    requires IsRangeText(text) && Value(text[..4]) <= Value(text[5..])
    ensures Strip(text) == text && AllAccepted(Parts(text))
    ensures var first, last := Value(text[..4]), Value(text[5..]);
      Normalized(text) == if last - first <= 15 then YearsFrom(first, last - first + 1) else [text]
  {
    hide Strip, Expand, Value, Parts, Dedupe, ExpandAll;
    RangeIsOnePart(text);
    RangeIsAccepted(text);
    assert [text][0] == text;
    ExpandRange(text);
    ExpandOne(text);
    RangeHasNoRepeats(text);
  }

  lemma RangeHasNoRepeats(part: string)
    requires AcceptedPart(part) && '-' in part
    ensures Dedupe(Expand(part)) == Expand(part)
  {
    hide Expand, Dedupe, Value;
    ExpandRange(part);
    var first, last := Value(part[..4]), Value(part[5..]);
    if last - first <= 15 {
      YearsDiffer(first, last - first + 1);
    }
    DedupeFixed(Expand(part));
  }

  /** A range of more than fifteen years is validated but its list is the unexpanded text. */
  lemma LongRangeIsKept()
    ensures var text := "2000-2016";
      && Strip(text) == text && AllAccepted(Parts(text))
      && Normalized(text) == [text] && !IsYearText(text)
  {
    hide Strip, Parts, Normalized;
    var text := "2000-2016";
    assert text == "2000" + "-" + "2016";
    assert text[..4] == "2000" && text[5..] == "2016" && text[4] == '-';
    FourDigitValue("2000");
    FourDigitValue("2016");
    OneRange(text);
  }

  lemma Decimal990()
    ensures Decimal(990) == "990"
  {
    assert Decimal(9) == "9";
    assert Decimal(99) == Decimal(9) + [Digit(9)];
    assert Decimal(990) == Decimal(99) + [Digit(0)];
  }

  lemma EarlyRange()
    ensures var text := "0990-0995";
      && IsRangeText(text) && Value(text[..4]) == 990 && Value(text[5..]) == 995
  {
    hide Value;
    var text := "0990-0995";
    assert text[..4] == "0990" && text[5..] == "0995" && text[4] == '-';
    FourDigitValue("0990");
    FourDigitValue("0995");
  }

  /** A short range below the year 1000 is validated but its years come out with three digits. */
  lemma EarlyYearsLoseZeros()
    ensures var text := "0990-0995";
      && Strip(text) == text && AllAccepted(Parts(text))
      && Normalized(text) == YearsFrom(990, 6) && Normalized(text)[0] == "990"
      && forall i :: 0 <= i < 6 ==> !IsYearText(Normalized(text)[i])
  {
    hide Strip, Parts, Normalized, Value, Decimal, IsRangeText;
    EarlyRange();
    OneRange("0990-0995");
    forall i | 0 <= i < 6 ensures !IsYearText(YearsFrom(990, 6)[i]) {
      YearWritten(990 + i);
    }
    Decimal990();
  }
}
