/** The local alert state folded over a stream of operations health reports. */
module Alerts {
  import opened Wrappers
  import Text
  import opened Sorting

  // ---------- Data ----------

  datatype Status = PASS | WARN | FAIL

  /** One entry of a report's findings list; an absent or empty field is "". */
  datatype Finding = NotAnObject | Finding(component: string, code: string, severity: string)

  datatype Reference = Reference(component: string, code: string, severity: string)

  datatype Report = Report(name: string, status: Status, findings: seq<Finding>)

  /** Stands for the SHA-256 of the canonical JSON: equal exactly for equal contents. */
  datatype Fingerprint = Fingerprint(status: Status, references: seq<Reference>)

  datatype Action = NONE | SUPPRESSED | OPENED | CHANGED | REMINDER | RESOLVED

  datatype Event = Event(
    time: int, action: Action, status: Status, previousStatus: Option<Status>,
    reportName: string, references: seq<Reference>, fingerprint: Option<Fingerprint>)

  /** The state file; absent JSON values are None. Times are in microseconds. */
  datatype State = State(
    formatVersion: int, active: bool, status: Status, fingerprint: Option<Fingerprint>,
    firstSeen: Option<int>, lastSeen: Option<int>, lastEvent: Option<int>,
    occurrences: int, reportName: string, references: seq<Reference>)

  datatype Error = BadReminder | BadState

  const FORMAT_VERSION := 1
  const HOUR := 3600000000

  // ---------- References and their order ----------

  function OrElse(s: string, default: string): string {
    if s == "" then default else s
  }

  function ReferenceOf(f: Finding): seq<Reference> {
    match f
    case NotAnObject => []
    case Finding(component, code, severity) =>
      [Reference(OrElse(component, "operations"), OrElse(code, "OPERATIONS_FINDING"),
                 Text.Upper(OrElse(severity, "HIGH")))]
  }

  function Collected(findings: seq<Finding>): seq<Reference> {
    if findings == [] then []
    else Collected(findings[..|findings| - 1]) + ReferenceOf(findings[|findings| - 1])
  }

  /** Lexicographic string order. */
  predicate TextLeq(s: string, t: string) {
    s == "" || (t != "" && (s[0] < t[0] || (s[0] == t[0] && TextLeq(s[1..], t[1..]))))
  }

  lemma {:induction false} TextTotal(s: string, t: string)
    ensures TextLeq(s, t) || TextLeq(t, s)
    ensures TextLeq(s, t) && TextLeq(t, s) ==> s == t
  {
    if s != "" && t != "" {
      TextTotal(s[1..], t[1..]);
      assert s == [s[0]] + s[1..] && t == [t[0]] + t[1..];
    }
  }

  lemma {:induction false} TextTransitive(s: string, t: string, u: string)
    requires TextLeq(s, t) && TextLeq(t, u)
    ensures TextLeq(s, u)
  {
    if s != "" && s[0] == t[0] == u[0] {
      TextTransitive(s[1..], t[1..], u[1..]);
    }
  }

  /** By component, then code, then severity. */
  predicate ReferenceLeq(a: Reference, b: Reference) {
    if a.component != b.component then TextLeq(a.component, b.component)
    else if a.code != b.code then TextLeq(a.code, b.code)
    else TextLeq(a.severity, b.severity)
  }

  lemma ReferenceOrder()
    ensures TotalOrder(ReferenceLeq)
  {
    var leq := ReferenceLeq;
    forall a, b
      ensures leq(a, b) || leq(b, a)
      ensures leq(a, b) && leq(b, a) ==> a == b
    {
      TextTotal(a.component, b.component);
      TextTotal(a.code, b.code);
      TextTotal(a.severity, b.severity);
    }
    forall a, b, c | leq(a, b) && leq(b, c) ensures leq(a, c) {
      if a.component == b.component == c.component {
        if a.code == b.code == c.code {
          TextTransitive(a.severity, b.severity, c.severity);
        } else if a.code != b.code && b.code != c.code {
          TextTransitive(a.code, b.code, c.code);
          TextTotal(a.code, b.code);
        }
      } else if a.component != b.component && b.component != c.component {
        TextTransitive(a.component, b.component, c.component);
        TextTotal(a.component, b.component);
      }
    }
  }

  function References(r: Report): seq<Reference> {
    Sorted(Collected(r.findings), ReferenceLeq)
  }

  function PrintOf(r: Report): Option<Fingerprint> {
    if r.status == PASS then None else Some(Fingerprint(r.status, References(r)))
  }

  // ---------- One report ----------

  /** What load_alert_state accepts. */
  predicate Loadable(s: State) {
    && s.formatVersion == FORMAT_VERSION
    && s.lastSeen.Some?
    && (s.active ==> s.status != PASS && s.fingerprint.Some? && s.firstSeen.Some? && s.lastEvent.Some?)
  }

  predicate Emitting(a: Action) {
    a in {OPENED, CHANGED, REMINDER, RESOLVED}
  }

  /** The previous alert is active and has the report's fingerprint. */
  predicate Continues(previous: Option<State>, r: Report) {
    r.status != PASS && previous.Some? && previous.value.active && previous.value.fingerprint == PrintOf(r)
  }

  function ActionFor(previous: Option<State>, r: Report, now: int, hours: int): Action
    requires previous.Some? ==> Loadable(previous.value)
  {
    if r.status == PASS then
      if previous.Some? && previous.value.active then RESOLVED else NONE
    else if Continues(previous, r) then
      if now - previous.value.lastEvent.value >= hours * HOUR then REMINDER else SUPPRESSED
    else if previous.Some? && previous.value.active then CHANGED
    else OPENED
  }

  function EventFor(previous: Option<State>, r: Report, now: int, hours: int): seq<Event>
    requires previous.Some? ==> Loadable(previous.value)
  {
    var action := ActionFor(previous, r, now, hours);
    if Emitting(action) then
      [Event(now, action, r.status, if previous.Some? then Some(previous.value.status) else None,
             r.name, References(r), PrintOf(r))]
    else []
  }

  function StateFor(previous: Option<State>, r: Report, now: int, hours: int): State
    requires previous.Some? ==> Loadable(previous.value)
  {
    var again := Continues(previous, r);
    State(
      FORMAT_VERSION, r.status != PASS, r.status, PrintOf(r),
      if r.status == PASS then None else if again then previous.value.firstSeen else Some(now),
      Some(now),
      if Emitting(ActionFor(previous, r, now, hours)) then Some(now)
      else if again then previous.value.lastEvent else None,
      if r.status == PASS then 0 else if again then previous.value.occurrences + 1 else 1,
      r.name, References(r))
  }

  /** A state file is loaded exactly when it is whole; an active one also tells what it alerts to and since when. */
  lemma LoadableExactly(s: State)
    ensures Loadable(s) <==>
      && s.formatVersion == 1 && s.lastSeen != None
      && !(s.active && (s.status == PASS || None in {s.firstSeen, s.lastEvent} || s.fingerprint == None))
  {
  }

  /** Every state that is written can be loaded again. */
  lemma WrittenStateLoads(previous: Option<State>, r: Report, now: int, hours: int)
    requires previous.Some? ==> Loadable(previous.value)
    ensures Loadable(StateFor(previous, r, now, hours))
  {
  }

  /** The event files after a sequence of writes: a file is named by the time of its event. */
  function FilesOf(events: seq<Event>): map<int, Event> {
    if events == [] then map[]
    else
      var last := events[|events| - 1];
      FilesOf(events[..|events| - 1])[last.time := last]
  }

  /** The state file and the event files of the alert directory. */
  class AlertDirectory {
    var stateFile: Option<State>
    var files: map<int, Event>
    /** Every event that was written, in order. */
    ghost var events: seq<Event>

    ghost predicate Valid()
      reads this
    {
      files == FilesOf(events)
    }

    constructor ()
      ensures Valid() && stateFile == None && events == []
    {
      stateFile, files, events := None, map[], [];
    }

    method FindingReferences(report: Report) returns (references: seq<Reference>)
      ensures references == References(report)
    {
      references := [];
      for i := 0 to |report.findings|
        invariant references == Collected(report.findings[..i])
      {
        assert report.findings[..i + 1][..i] == report.findings[..i];
        if report.findings[i].Finding? {
          references := references + ReferenceOf(report.findings[i]);
        }
      }
      assert report.findings[..|report.findings|] == report.findings;
      references := Sorted(references, ReferenceLeq);
    }

    /** Writes the file named by the event's time, over one that is already there. */
    method WriteEvent(event: Event)
      requires Valid()
      modifies this`files, this`events
      ensures Valid() && files == old(files)[event.time := event] && events == old(events) + [event]
    {
      assert (events + [event])[..|events|] == events;
      files := files[event.time := event];
      events := events + [event];
    }

    /** Emits the transition event, if any, and then overwrites the state. */
    method ProcessHealthReport(report: Report, reminderHours: int, now: int)
      returns (result: Result<Action, Error>)
      requires Valid()
      modifies this
      ensures Valid()
      ensures reminderHours < 1 ==> result == Err(BadReminder)
      ensures reminderHours >= 1 && old(stateFile).Some? && !Loadable(old(stateFile).value) ==>
        result == Err(BadState)
      ensures result.Err? ==> stateFile == old(stateFile) && files == old(files) && events == old(events)
      ensures reminderHours >= 1 && (old(stateFile).Some? ==> Loadable(old(stateFile).value)) ==>
        && result == Ok(ActionFor(old(stateFile), report, now, reminderHours))
        && stateFile == Some(StateFor(old(stateFile), report, now, reminderHours))
        && events == old(events) + EventFor(old(stateFile), report, now, reminderHours)
    {
      hide Sorted, Collected, FilesOf;
      if reminderHours < 1 {
        return Err(BadReminder);
      }
      var previous := stateFile;
      if previous.Some? && !Loadable(previous.value) {
        return Err(BadState);
      }
      var references := FindingReferences(report);
      var fingerprint := if report.status != PASS then Some(Fingerprint(report.status, references)) else None;
      var action := NONE;
      var occurrences := 0;
      var firstSeen: Option<int> := None;
      var lastEvent: Option<int> := None;
      if report.status == PASS {
        if previous.Some? && previous.value.active {
          action := RESOLVED;
        }
      } else if previous.Some? && previous.value.active && previous.value.fingerprint == fingerprint {
        occurrences := previous.value.occurrences + 1;
        firstSeen := previous.value.firstSeen;
        lastEvent := previous.value.lastEvent;
        action := if now - lastEvent.value >= reminderHours * HOUR then REMINDER else SUPPRESSED;
      } else {
        occurrences := 1;
        firstSeen := Some(now);
        action := if previous.Some? && previous.value.active then CHANGED else OPENED;
      }
      if action in {OPENED, CHANGED, REMINDER, RESOLVED} {
        var previousStatus := if previous.Some? then Some(previous.value.status) else None;
        WriteEvent(Event(now, action, report.status, previousStatus, report.name, references, fingerprint));
        lastEvent := Some(now);
      }
      stateFile := Some(State(FORMAT_VERSION, report.status != PASS, report.status, fingerprint,
                              firstSeen, Some(now), lastEvent, occurrences, report.name, references));
      result := Ok(action);
    }
  }

  // ---------- A stream of reports ----------

  datatype Input = Input(report: Report, now: int)

  datatype World = World(state: Option<State>, events: seq<Event>)

  ghost predicate Sound(w: World) {
    w.state.Some? ==> Loadable(w.state.value)
  }

  function Next(w: World, i: Input, hours: int): (w': World)
    requires Sound(w)
    ensures Sound(w')
  {
    World(Some(StateFor(w.state, i.report, i.now, hours)),
          w.events + EventFor(w.state, i.report, i.now, hours))
  }

  /** The alert directory after an uninterrupted stream, starting empty. */
  function Run(inputs: seq<Input>, hours: int): (w: World)
    ensures Sound(w)
  {
    if inputs == [] then World(None, [])
    else Next(Run(inputs[..|inputs| - 1], hours), inputs[|inputs| - 1], hours)
  }

  function ActionAt(inputs: seq<Input>, i: nat, hours: int): Action
    requires i < |inputs|
  {
    ActionFor(Run(inputs[..i], hours).state, inputs[i].report, inputs[i].now, hours)
  }

  lemma RunStep(inputs: seq<Input>, i: nat, hours: int)
    requires i < |inputs|
    ensures Run(inputs[..i + 1], hours) == Next(Run(inputs[..i], hours), inputs[i], hours)
  {
    assert inputs[..i + 1][..i] == inputs[..i];
  }

  /**
   * A prefix of (OPENED (CHANGED or REMINDER)* RESOLVED)*: an alert is opened at the start and
   * after each resolution, and nowhere else.
   */
  ghost predicate WellFormedLog(events: seq<Event>) {
    && (forall i :: 0 <= i < |events| ==> Emitting(events[i].action))
    && (events != [] ==> events[0].action == OPENED)
    && (forall i, j :: 0 <= i < j < |events| && j == i + 1 ==>
          (events[j].action == OPENED <==> events[i].action == RESOLVED))
  }

  /** An alert is active when the last event is not its resolution. */
  ghost predicate LogAgrees(w: World) {
    (w.state.Some? && w.state.value.active) <==>
      (w.events != [] && w.events[|w.events| - 1].action != RESOLVED)
  }

  lemma LogStep(w: World, i: Input, hours: int)
    requires Sound(w) && WellFormedLog(w.events) && LogAgrees(w)
    ensures WellFormedLog(Next(w, i, hours).events) && LogAgrees(Next(w, i, hours))
  {
  }

  lemma {:induction false} EventLanguage(inputs: seq<Input>, hours: int)
    ensures WellFormedLog(Run(inputs, hours).events) && LogAgrees(Run(inputs, hours))
  {
    if inputs != [] {
      EventLanguage(inputs[..|inputs| - 1], hours);
      LogStep(Run(inputs[..|inputs| - 1], hours), inputs[|inputs| - 1], hours);
    }
  }

  // ---------- Order of findings ----------

  lemma {:induction false} CollectedSplit(a: seq<Finding>, b: seq<Finding>)
    ensures Collected(a + b) == Collected(a) + Collected(b)
  {
    hide ReferenceOf, OrElse;
    if b == [] {
      assert a + b == a;
    } else {
      var init, last := b[..|b| - 1], b[|b| - 1];
      CollectedSplit(a, init);
      assert (a + b)[..|a + b| - 1] == a + init;
      assert (a + b)[|a + b| - 1] == last;
      assert Collected(b) == Collected(init) + ReferenceOf(last);
      assert Collected(a + b) == Collected(a + init) + ReferenceOf(last);
    }
  }

  lemma CollectedAround(before: seq<Finding>, x: Finding, after: seq<Finding>)
    ensures multiset(Collected(before + [x] + after)) ==
      multiset(Collected(before + after)) + multiset(ReferenceOf(x))
  {
    hide ReferenceOf;
    CollectedSplit(before + [x], after);
    CollectedSplit(before, [x]);
    CollectedSplit(before, after);
    assert [x][..0] == [];
    assert Collected([x]) == ReferenceOf(x);
  }

  lemma {:induction false} CollectedIgnoresOrder(a: seq<Finding>, b: seq<Finding>)
    requires multiset(a) == multiset(b)
    ensures multiset(Collected(a)) == multiset(Collected(b))
    decreases |a|
  {
    hide ReferenceOf;
    assert |a| == |multiset(a)| == |multiset(b)| == |b|;
    if a != [] {
      var init, last := a[..|a| - 1], a[|a| - 1];
      assert a == init + [last];
      assert Collected(a) == Collected(init) + ReferenceOf(last);
      assert last in multiset(b);
      var k :| 0 <= k < |b| && b[k] == last;
      var before, after := b[..k], b[k + 1..];
      assert b == before + [last] + after;
      assert multiset(before + after) == multiset(b) - multiset{last} by {
        assert multiset(b) == multiset(before) + multiset{last} + multiset(after);
      }
      assert multiset(init) == multiset(a) - multiset{last} by {
        assert multiset(a) == multiset(init) + multiset{last};
      }
      CollectedIgnoresOrder(init, before + after);
      CollectedAround(before, last, after);
    }
  }

  /** Rearranging the findings of a report changes neither the event nor the state. */
  lemma FindingOrderIsIrrelevant(previous: Option<State>, r: Report, findings: seq<Finding>, now: int, hours: int)
    requires previous.Some? ==> Loadable(previous.value)
    requires multiset(findings) == multiset(r.findings)
    ensures var r' := r.(findings := findings);
      && ActionFor(previous, r', now, hours) == ActionFor(previous, r, now, hours)
      && EventFor(previous, r', now, hours) == EventFor(previous, r, now, hours)
      && StateFor(previous, r', now, hours) == StateFor(previous, r, now, hours)
  {
    hide Sorted, Collected;
    CollectedIgnoresOrder(findings, r.findings);
    ReferenceOrder();
    SortedIgnoresOrder(Collected(findings), Collected(r.findings), ReferenceLeq);
    assert References(r.(findings := findings)) == References(r);
  }

  // ---------- What a fingerprint tells ----------

  function OrDefault(s: string, default: string): string {
    if |s| > 0 then s else default
  }

  /** Two findings are reported alike: same component, code and severity, after defaults and capitals. */
  predicate ReportedAlike(a: Finding, b: Finding)
    requires a.Finding? && b.Finding?
  {
    && OrDefault(a.component, "operations") == OrDefault(b.component, "operations")
    && OrDefault(a.code, "OPERATIONS_FINDING") == OrDefault(b.code, "OPERATIONS_FINDING")
    && Text.Upper(OrDefault(a.severity, "HIGH")) == Text.Upper(OrDefault(b.severity, "HIGH"))
  }

  lemma AlikeReferences(a: Finding, b: Finding)
    requires a.Finding? && b.Finding?
    ensures |ReferenceOf(a)| == |ReferenceOf(b)| == 1
    ensures ReferenceOf(a) == ReferenceOf(b) <==> ReportedAlike(a, b)
  {
    hide Text.Upper;
    assert ReferenceOf(a) == ReferenceOf(b) ==> ReferenceOf(a)[0] == ReferenceOf(b)[0];
  }

  /** Two alerts that differ in one finding have one fingerprint exactly when that finding is reported alike. */
  lemma PrintsTellFindings(
    name: string, status: Status, before: seq<Finding>, a: Finding, b: Finding, after: seq<Finding>)
    requires status != PASS && a.Finding? && b.Finding?
    ensures var r, q := Report(name, status, before + [a] + after), Report(name, status, before + [b] + after);
      PrintOf(r) == PrintOf(q) <==> ReportedAlike(a, b)
  {
    hide ReferenceOf, Collected, Sorted, ReportedAlike;
    AlikeReferences(a, b);
    CollectedAround(before, a, after);
    CollectedAround(before, b, after);
    ReferenceOrder();
    var c, d := Collected(before + [a] + after), Collected(before + [b] + after);
    SortedFacts(c, ReferenceLeq);
    SortedFacts(d, ReferenceLeq);
    if multiset(c) == multiset(d) {
      SortedIgnoresOrder(c, d, ReferenceLeq);
      var x, y := ReferenceOf(a)[0], ReferenceOf(b)[0];
      assert ReferenceOf(a) == [x] && ReferenceOf(b) == [y];
      assert multiset(c)[x] == multiset(Collected(before + after))[x] + 1;
    }
  }

  /** Entries that are not objects do not count, and alerts of different status never have one fingerprint. */
  lemma PrintsIgnoreOthers(name: string, status: Status, before: seq<Finding>, after: seq<Finding>)
    ensures var r := Report(name, status, before + [NotAnObject] + after);
      PrintOf(r) == PrintOf(r.(findings := before + after))
    ensures PrintOf(Report(name, status, before)).None? <==> status == PASS
    ensures status == WARN ==> PrintOf(Report(name, FAIL, before)) != PrintOf(Report(name, status, after))
  {
    hide Collected, Sorted;
    CollectedAround(before, NotAnObject, after);
    ReferenceOrder();
    SortedIgnoresOrder(Collected(before + [NotAnObject] + after), Collected(before + after), ReferenceLeq);
  }

  // ---------- What each report does ----------

  predicate PassAt(inputs: seq<Input>, i: int) {
    i < 0 || i >= |inputs| || inputs[i].report.status == PASS
  }

  lemma StateAt(inputs: seq<Input>, i: nat, hours: int)
    requires 0 < i <= |inputs|
    ensures var s, last := Run(inputs[..i], hours).state, inputs[i - 1];
      && s.Some? && s.value.status == last.report.status && (s.value.active <==> !PassAt(inputs, i - 1))
      && s.value.fingerprint == PrintOf(last.report) && s.value.lastSeen == Some(last.now)
      && s.value.reportName == last.report.name && s.value.references == References(last.report)
      && s.value.formatVersion == 1
  {
    hide References, Run;
    RunStep(inputs, i - 1, hours);
  }

  /** The action on a report, by the report before it; inside a streak it is a reminder or nothing. */
  lemma ActionExactly(inputs: seq<Input>, i: nat, hours: int)
    requires i < |inputs|
    ensures var action := ActionAt(inputs, i, hours);
      && (action == NONE <==> PassAt(inputs, i) && PassAt(inputs, i - 1))
      && (action == RESOLVED <==> PassAt(inputs, i) && !PassAt(inputs, i - 1))
      && (action == OPENED <==> !PassAt(inputs, i) && PassAt(inputs, i - 1))
      && (action == CHANGED <==>
            !PassAt(inputs, i) && !PassAt(inputs, i - 1)
            && PrintOf(inputs[i].report) != PrintOf(inputs[i - 1].report))
  {
    hide References, Run;
    if i > 0 {
      StateAt(inputs, i, hours);
    } else {
      NothingYet(hours);
      assert inputs[..0] == [];
    }
  }

  lemma NothingYet(hours: int)
    ensures Run([], hours) == World(None, [])
  {
  }

  /** An event tells its report: time, action, status, name and findings, and the status before it. */
  lemma EventTellsReport(inputs: seq<Input>, i: nat, hours: int)
    requires i < |inputs|
    ensures var before, action := Run(inputs[..i], hours), ActionAt(inputs, i, hours);
      var r := inputs[i].report;
      Run(inputs[..i + 1], hours).events ==
        if action in {NONE, SUPPRESSED} then before.events
        else
          before.events
          + [Event(inputs[i].now, action, r.status, if i == 0 then None else Some(inputs[i - 1].report.status),
                   r.name, References(r), PrintOf(r))]
  {
    hide References, Run, PrintOf;
    RunStep(inputs, i, hours);
    if i > 0 {
      StateAt(inputs, i, hours);
    } else {
      NothingYet(hours);
      assert inputs[..0] == [];
    }
  }

  // ---------- Streaks ----------

  /** The fingerprints of a stream; None marks a PASS. */
  function Prints(inputs: seq<Input>): (prints: seq<Option<Fingerprint>>)
    ensures |prints| == |inputs|
    ensures forall i :: 0 <= i < |inputs| ==> prints[i] == PrintOf(inputs[i].report)
  {
    seq(|inputs|, i requires 0 <= i < |inputs| => PrintOf(inputs[i].report))
  }

  /** Reports i to j - 1 all raise the same alert. */
  ghost predicate SameAlert(prints: seq<Option<Fingerprint>>, i: nat, j: nat)
    requires i <= j <= |prints|
  {
    forall k :: i <= k < j ==> prints[k].Some? && prints[k] == prints[i]
  }

  /** The longest run of equal alerts that ends with the last report starts at i. */
  ghost predicate StreakStart(prints: seq<Option<Fingerprint>>, i: nat) {
    && i < |prints|
    && SameAlert(prints, i, |prints|)
    && (i > 0 ==> prints[i - 1] != prints[i])
  }

  lemma StepFacts(w: World, i: Input, hours: int)
    requires Sound(w) && PrintOf(i.report).Some?
    ensures var s, raised := Next(w, i, hours).state.value, PrintOf(i.report);
      && s.active && s.fingerprint == raised
      && if w.state.Some? && w.state.value.active && w.state.value.fingerprint == raised then
           s.occurrences == w.state.value.occurrences + 1 && s.firstSeen == w.state.value.firstSeen
         else
           s.occurrences == 1 && s.firstSeen == Some(i.now)
  {
  }

  lemma StreakExtends(prints: seq<Option<Fingerprint>>, i: nat)
    requires |prints| >= 2 && prints[|prints| - 1].Some?
    requires StreakStart(prints[..|prints| - 1], i)
    ensures prints[|prints| - 1] == prints[|prints| - 2] ==> StreakStart(prints, i)
  {
    var init := prints[..|prints| - 1];
    assert init[|init| - 1] == init[i];
  }

  /** The state counts the current streak of a stream that ends in an alert. */
  ghost predicate Counts(s: State, inputs: seq<Input>) {
    && s.active && 1 <= s.occurrences <= |inputs|
    && s.fingerprint == Prints(inputs)[|inputs| - 1]
    && StreakStart(Prints(inputs), |inputs| - s.occurrences)
    && s.firstSeen == Some(inputs[|inputs| - s.occurrences].now)
  }

  lemma CountsStep(inputs: seq<Input>, before: Option<State>, after: State)
    requires inputs != [] && Prints(inputs)[|inputs| - 1].Some?
    requires after.active && after.fingerprint == Prints(inputs)[|inputs| - 1]
    requires before.Some? && before.value.active ==> Counts(before.value, inputs[..|inputs| - 1])
    requires before.None? || !before.value.active ==>
      |inputs| == 1 || Prints(inputs)[|inputs| - 2].None?
    requires
      if before.Some? && before.value.active && before.value.fingerprint == after.fingerprint then
        after.occurrences == before.value.occurrences + 1 && after.firstSeen == before.value.firstSeen
      else
        after.occurrences == 1 && after.firstSeen == Some(inputs[|inputs| - 1].now)
    ensures Counts(after, inputs)
  {
    hide PrintOf;
    var n, prints := |inputs| - 1, Prints(inputs);
    if n > 0 && before.Some? && before.value.active {
      assert Prints(inputs[..n]) == prints[..n];
      StreakExtends(prints, n - before.value.occurrences);
    }
  }

  /** The occurrence count is the length of the current streak and first_seen is its start. */
  lemma {:induction false} StreakIsCounted(inputs: seq<Input>, hours: int)
    requires inputs != [] && Prints(inputs)[|inputs| - 1].Some?
    ensures Counts(Run(inputs, hours).state.value, inputs)
  {
    var n := |inputs| - 1;
    var init := inputs[..n];
    var w := Run(init, hours);
    StepFacts(w, inputs[n], hours);
    if n > 0 {
      assert Prints(init)[n - 1] == Prints(inputs)[n - 1];
      if Prints(init)[n - 1].Some? {
        StreakIsCounted(init, hours);
      } else {
        PassIsInactive(init, hours);
      }
    }
    CountsStep(inputs, w.state, Next(w, inputs[n], hours).state.value);
  }

  lemma PassIsInactive(inputs: seq<Input>, hours: int)
    requires inputs != [] && Prints(inputs)[|inputs| - 1].None?
    ensures var s := Run(inputs, hours).state.value;
      !s.active && s.occurrences == 0 && s.firstSeen == None
  {
    assert inputs[|inputs| - 1].report.status == PASS;
  }

  /** Emitting stores the time of the event; otherwise the alert in progress keeps its time. */
  lemma StepKeepsEventTime(w: World, i: Input, hours: int)
    requires Sound(w) && PrintOf(i.report).Some?
    ensures var s := Next(w, i, hours).state.value;
      && s.active && s.fingerprint == PrintOf(i.report)
      && s.lastEvent ==
           if Emitting(ActionFor(w.state, i.report, i.now, hours)) then Some(i.now)
           else w.state.value.lastEvent
  {
  }

  /** Until the next event the state remembers the time of the last one. */
  lemma {:induction false} LastEventRemembered(inputs: seq<Input>, i: nat, j: nat, hours: int)
    requires i < j <= |inputs| && SameAlert(Prints(inputs), i, j)
    requires Emitting(ActionAt(inputs, i, hours))
    requires forall k :: i < k < j ==> !Emitting(ActionAt(inputs, k, hours))
    ensures var s := Run(inputs[..j], hours).state;
      && s.Some? && s.value.active && s.value.fingerprint == Prints(inputs)[i]
      && s.value.lastEvent == Some(inputs[i].now)
  {
    hide References, EventFor, StateFor, ActionFor, Run, Emitting, Loadable;
    RunStep(inputs, j - 1, hours);
    assert Prints(inputs)[j - 1] == Prints(inputs)[i];
    StepKeepsEventTime(Run(inputs[..j - 1], hours), inputs[j - 1], hours);
    if i < j - 1 {
      LastEventRemembered(inputs, i, j - 1, hours);
      assert !Emitting(ActionAt(inputs, j - 1, hours));
    }
  }

  /** Inside a streak a report emits a reminder exactly when the last event is old enough. */
  lemma ReminderExactlyWhenDue(inputs: seq<Input>, i: nat, j: nat, hours: int)
    requires i < j < |inputs| && SameAlert(Prints(inputs), i, j + 1)
    requires Emitting(ActionAt(inputs, i, hours))
    requires forall k :: i < k < j ==> !Emitting(ActionAt(inputs, k, hours))
    ensures ActionAt(inputs, j, hours) ==
      if inputs[j].now - inputs[i].now >= hours * 60 * 60 * 1000000 then REMINDER else SUPPRESSED
  {
    LastEventRemembered(inputs, i, j, hours);
    assert Prints(inputs)[j] == Prints(inputs)[i];
  }

  /** The first report of a streak always emits. */
  lemma FirstReportEmits(inputs: seq<Input>, i: nat, hours: int)
    requires i < |inputs| && Prints(inputs)[i].Some? && (i > 0 ==> Prints(inputs)[i - 1] != Prints(inputs)[i])
    ensures ActionAt(inputs, i, hours) in {OPENED, CHANGED}
  {
    hide References;
    if i > 0 {
      RunStep(inputs, i - 1, hours);
    }
    assert inputs[..0] == [];
  }

  /** Any two events inside one streak are at least the reminder interval apart. */
  lemma {:induction false} EventsAreSpaced(inputs: seq<Input>, i: nat, j: nat, hours: int)
    requires hours >= 1
    requires i < j < |inputs| && SameAlert(Prints(inputs), i, j + 1)
    requires Emitting(ActionAt(inputs, i, hours)) && Emitting(ActionAt(inputs, j, hours))
    ensures inputs[j].now - inputs[i].now >= hours * 60 * 60 * 1000000
    decreases j - i
  {
    if m :| i < m < j && Emitting(ActionAt(inputs, m, hours)) {
      EventsAreSpaced(inputs, i, m, hours);
      EventsAreSpaced(inputs, m, j, hours);
    } else {
      ReminderExactlyWhenDue(inputs, i, j, hours);
    }
  }

  // ---------- Crashes ----------

  datatype Fate = Completed | CrashedBeforeEvent | CrashedAfterEvent

  datatype Attempt = Attempt(input: Input, fate: Fate)

  function Try(w: World, a: Attempt, hours: int): (w': World)
    requires Sound(w)
    ensures Sound(w')
  {
    match a.fate
    case Completed => Next(w, a.input, hours)
    case CrashedBeforeEvent => w
    case CrashedAfterEvent => w.(events := w.events + EventFor(w.state, a.input.report, a.input.now, hours))
  }

  function RunAttempts(attempts: seq<Attempt>, hours: int): (w: World)
    ensures Sound(w)
  {
    if attempts == [] then World(None, [])
    else Try(RunAttempts(attempts[..|attempts| - 1], hours), attempts[|attempts| - 1], hours)
  }

  function CompletedInputs(attempts: seq<Attempt>): seq<Input> {
    if attempts == [] then []
    else
      var last := attempts[|attempts| - 1];
      CompletedInputs(attempts[..|attempts| - 1]) + if last.fate == Completed then [last.input] else []
  }

  /** a is obtained from b by deleting events. */
  ghost predicate Subsequence(a: seq<Event>, b: seq<Event>) {
    if a == [] then true
    else if b == [] then false
    else if a[|a| - 1] == b[|b| - 1] then Subsequence(a[..|a| - 1], b[..|b| - 1])
    else Subsequence(a, b[..|b| - 1])
  }

  lemma {:induction false} SubsequenceGrows(a: seq<Event>, b: seq<Event>, tail: seq<Event>)
    requires Subsequence(a, b)
    ensures Subsequence(a + tail, b + tail)
    decreases |tail|
  {
    if tail == [] {
      assert a + tail == a && b + tail == b;
    } else {
      var init, last := tail[..|tail| - 1], tail[|tail| - 1];
      SubsequenceGrows(a, b, init);
      assert (a + tail)[..|a + tail| - 1] == a + init && (b + tail)[..|b + tail| - 1] == b + init;
    }
  }

  lemma {:induction false} SubsequenceDropsLast(a: seq<Event>, b: seq<Event>)
    requires a != [] && Subsequence(a, b)
    ensures Subsequence(a[..|a| - 1], b)
  {
    var init := a[..|a| - 1];
    if init != [] {
      if a[|a| - 1] == b[|b| - 1] {
        if init[|init| - 1] == b[|b| - 1] {
          SubsequenceDropsLast(init, b[..|b| - 1]);
        }
      } else {
        SubsequenceDropsLast(a, b[..|b| - 1]);
        if init[|init| - 1] == b[|b| - 1] {
          SubsequenceDropsLast(init, b[..|b| - 1]);
        }
      }
    }
  }

  lemma {:induction false} SubsequenceExtends(a: seq<Event>, b: seq<Event>, extra: seq<Event>)
    requires Subsequence(a, b)
    ensures Subsequence(a, b + extra)
    decreases |extra|
  {
    if extra == [] {
      assert b + extra == b;
    } else {
      var init, last := extra[..|extra| - 1], extra[|extra| - 1];
      SubsequenceExtends(a, b, init);
      assert (b + extra)[..|b + extra| - 1] == b + init;
      if a != [] && a[|a| - 1] == last {
        SubsequenceDropsLast(a, b + init);
      }
    }
  }

  /**
   * Crashes leave the state of the completed reports and lose none of their events; a crash
   * between the two writes can only add an event.
   */
  lemma {:induction false} CrashesLoseNoEvent(attempts: seq<Attempt>, hours: int)
    ensures var clean, w := Run(CompletedInputs(attempts), hours), RunAttempts(attempts, hours);
      w.state == clean.state && Subsequence(clean.events, w.events)
  {
    if attempts != [] {
      var init, last := attempts[..|attempts| - 1], attempts[|attempts| - 1];
      CrashesLoseNoEvent(init, hours);
      var before, done := RunAttempts(init, hours), CompletedInputs(init);
      var tail := EventFor(before.state, last.input.report, last.input.now, hours);
      if last.fate == Completed {
        assert CompletedInputs(attempts)[..|done|] == done;
        SubsequenceGrows(Run(done, hours).events, before.events, tail);
      } else {
        assert CompletedInputs(attempts) == done;
        SubsequenceExtends(Run(done, hours).events, before.events, tail);
      }
    }
  }

  // ---------- Event files ----------

  /** Whether every event that was written can still be read. */
  ghost predicate AllKept(events: seq<Event>) {
    forall i :: 0 <= i < |events| ==> events[i].time in FilesOf(events) && FilesOf(events)[events[i].time] == events[i]
  }

  lemma {:induction false} LastWriteStays(events: seq<Event>, i: nat)
    requires i < |events| && forall j :: i < j < |events| ==> events[j].time != events[i].time || events[j] == events[i]
    ensures events[i].time in FilesOf(events) && FilesOf(events)[events[i].time] == events[i]
  {
    if i < |events| - 1 {
      LastWriteStays(events[..|events| - 1], i);
    }
  }

  /** Every event keeps its file exactly when no two different events were written at one time. */
  lemma FilesKeepEvents(events: seq<Event>)
    ensures AllKept(events) <==>
      forall i, j :: 0 <= i < j < |events| && events[i].time == events[j].time ==> events[i] == events[j]
  {
    if forall i, j :: 0 <= i < j < |events| && events[i].time == events[j].time ==> events[i] == events[j] {
      forall i: nat | i < |events|
        ensures events[i].time in FilesOf(events) && FilesOf(events)[events[i].time] == events[i]
      {
        LastWriteStays(events, i);
      }
    }
  }

  /** What the k-th attempt writes, from the reports and times up to it. */
  function WrittenBy(attempts: seq<Attempt>, k: nat, hours: int): seq<Event>
    requires k < |attempts|
  {
    var a := attempts[k];
    if a.fate == CrashedBeforeEvent then []
    else EventFor(RunAttempts(attempts[..k], hours).state, a.input.report, a.input.now, hours)
  }

  ghost predicate Wrote(attempts: seq<Attempt>, k: nat, hours: int, e: Event) {
    k < |attempts| && WrittenBy(attempts, k, hours) == [e]
  }

  lemma AtMostOneEvent(attempts: seq<Attempt>, k: nat, hours: int)
    requires k < |attempts|
    ensures WrittenBy(attempts, k, hours) == [] ||
      (|WrittenBy(attempts, k, hours)| == 1 && WrittenBy(attempts, k, hours)[0].time == attempts[k].input.now)
  {
    hide ActionFor, References;
  }

  /** The events are what the attempts write. */
  lemma {:induction false} EventsAreWritten(attempts: seq<Attempt>, hours: int)
    ensures forall e :: e in RunAttempts(attempts, hours).events <==> exists k: nat :: Wrote(attempts, k, hours, e)
  {
    hide EventFor, StateFor;
    if attempts != [] {
      var n := |attempts| - 1;
      var init := attempts[..n];
      EventsAreWritten(init, hours);
      AtMostOneEvent(attempts, n, hours);
      assert RunAttempts(attempts, hours).events == RunAttempts(init, hours).events + WrittenBy(attempts, n, hours);
      forall k: nat, e | k < n ensures Wrote(init, k, hours, e) <==> Wrote(attempts, k, hours, e) {
        assert init[..k] == attempts[..k];
      }
      forall e | e in RunAttempts(attempts, hours).events ensures exists k: nat :: Wrote(attempts, k, hours, e) {
        if e in RunAttempts(init, hours).events {
          var k: nat :| Wrote(init, k, hours, e);
          assert Wrote(attempts, k, hours, e);
        } else {
          assert Wrote(attempts, n, hours, e);
        }
      }
      forall e, k: nat | Wrote(attempts, k, hours, e) ensures e in RunAttempts(attempts, hours).events {
        if k < n {
          assert Wrote(init, k, hours, e);
        }
      }
    }
  }

  /** Any two attempts at one time that both write, write the same event. */
  ghost predicate OneEventPerTime(attempts: seq<Attempt>, hours: int) {
    forall i: nat, j: nat, e, f | i < j && Wrote(attempts, i, hours, e) && Wrote(attempts, j, hours, f) ::
      attempts[i].input.now == attempts[j].input.now ==> e == f
  }

  /**
   * Over any attempts, crashed or not, every event keeps its file exactly when no two attempts at
   * one time write different events.
   */
  lemma FilesKeepAttempts(attempts: seq<Attempt>, hours: int)
    ensures AllKept(RunAttempts(attempts, hours).events) <==> OneEventPerTime(attempts, hours)
  {
    hide WrittenBy, AllKept, RunAttempts;
    var events := RunAttempts(attempts, hours).events;
    EventsAreWritten(attempts, hours);
    FilesKeepEvents(events);
    forall k: nat, e | Wrote(attempts, k, hours, e) ensures e.time == attempts[k].input.now && e in events {
      AtMostOneEvent(attempts, k, hours);
    }
    if OneEventPerTime(attempts, hours) {
      forall i: nat, j: nat | i < j < |events| && events[i].time == events[j].time ensures events[i] == events[j] {
        assert events[i] in events && events[j] in events;
        var k: nat :| Wrote(attempts, k, hours, events[i]);
        var l: nat :| Wrote(attempts, l, hours, events[j]);
      }
    }
    if forall i, j :: 0 <= i < j < |events| && events[i].time == events[j].time ==> events[i] == events[j] {
      forall i: nat, j: nat, e, f | i < j && Wrote(attempts, i, hours, e) && Wrote(attempts, j, hours, f)
          && attempts[i].input.now == attempts[j].input.now
        ensures e == f
      {
        var k :| 0 <= k < |events| && events[k] == e;
        var l :| 0 <= l < |events| && events[l] == f;
        assert k < l || k == l || l < k;
      }
    }
  }

  ghost predicate DistinctTimes(attempts: seq<Attempt>) {
    forall i, j :: 0 <= i < j < |attempts| ==> attempts[i].input.now != attempts[j].input.now
  }

  /** Each event has the time of the attempt that wrote it. */
  ghost predicate TimedBy(events: seq<Event>, attempts: seq<Attempt>) {
    && (forall i :: 0 <= i < |events| ==> WrittenAt(attempts, events[i].time))
    && forall i, j :: 0 <= i < j < |events| ==> events[i].time != events[j].time
  }

  predicate WrittenAt(attempts: seq<Attempt>, time: int) {
    exists k :: 0 <= k < |attempts| && attempts[k].input.now == time
  }

  lemma {:induction false} EventsAreTimed(attempts: seq<Attempt>, hours: int)
    requires DistinctTimes(attempts)
    ensures TimedBy(RunAttempts(attempts, hours).events, attempts)
  {
    if attempts != [] {
      var init, last := attempts[..|attempts| - 1], attempts[|attempts| - 1];
      EventsAreTimed(init, hours);
      var before := RunAttempts(init, hours).events;
      forall i | 0 <= i < |before|
        ensures WrittenAt(attempts, before[i].time) && before[i].time != last.input.now
      {
        var k :| 0 <= k < |init| && init[k].input.now == before[i].time;
        assert attempts[k] == init[k];
      }
      assert attempts[|attempts| - 1].input.now == last.input.now;
    }
  }

  lemma {:induction false} SubsequenceMember(a: seq<Event>, b: seq<Event>, e: Event)
    requires Subsequence(a, b) && e in a
    ensures e in b
  {
    if a[|a| - 1] == b[|b| - 1] && e != a[|a| - 1] {
      SubsequenceMember(a[..|a| - 1], b[..|b| - 1], e);
    } else if a[|a| - 1] != b[|b| - 1] {
      SubsequenceMember(a, b[..|b| - 1], e);
    }
  }

  /** When no two attempts share a time, the file of every event of a completed report is there. */
  lemma CrashesLoseNoFile(attempts: seq<Attempt>, hours: int, e: Event)
    requires DistinctTimes(attempts) && e in Run(CompletedInputs(attempts), hours).events
    ensures var files := FilesOf(RunAttempts(attempts, hours).events);
      e.time in files && files[e.time] == e
  {
    hide Subsequence;
    var events := RunAttempts(attempts, hours).events;
    CrashesLoseNoEvent(attempts, hours);
    SubsequenceMember(Run(CompletedInputs(attempts), hours).events, events, e);
    EventsAreTimed(attempts, hours);
    FilesKeepEvents(events);
    var i :| 0 <= i < |events| && events[i] == e;
  }

  /** Two reports at one time: the file of the second event replaces that of the first. */
  lemma EqualTimesOverwrite()
    ensures var inputs := [Input(Report("a", WARN, []), 0), Input(Report("b", FAIL, []), 0)];
      var events := Run(inputs, 1).events;
      && |events| == 2 && events[0].action == OPENED && events[1].action == CHANGED
      && FilesOf(events) == map[0 := events[1]] && !AllKept(events)
  {
    hide Run, References, FilesOf, AllKept;
    var inputs := [Input(Report("a", WARN, []), 0), Input(Report("b", FAIL, []), 0)];
    assert inputs[..0] == [] && inputs[..2] == inputs;
    NothingYet(1);
    ActionExactly(inputs, 0, 1);
    ActionExactly(inputs, 1, 1);
    EventTellsReport(inputs, 0, 1);
    EventTellsReport(inputs, 1, 1);
    var events := Run(inputs, 1).events;
    FilesKeepEvents(events);
    TwoAtOneTime(events);
  }

  lemma TwoAtOneTime(events: seq<Event>)
    requires |events| == 2 && events[0].time == events[1].time == 0
    ensures FilesOf(events) == map[0 := events[1]]
  {
    assert FilesOf(events[..0]) == map[];
    assert events[..1][..0] == [];
    assert FilesOf(events[..1]) == map[0 := events[0]];
  }

  /** After a crash the same alert, reported again no earlier, emits the same kind of event. */
  lemma RetryEmitsAgain(previous: Option<State>, r: Report, now: int, again: Report, later: int, hours: int)
    requires previous.Some? ==> Loadable(previous.value)
    requires again.status == r.status && PrintOf(again) == PrintOf(r) && later >= now
    requires Emitting(ActionFor(previous, r, now, hours))
    ensures ActionFor(previous, again, later, hours) == ActionFor(previous, r, now, hours)
  {
  }
}
