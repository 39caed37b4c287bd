/** The duplicate-TD rollout: vault writes with a compensating restore, and who may reach which state. */
module Rollout {
  import opened Wrappers
  import opened RolloutChecks
  import Text

  // ---------- State ----------

  datatype VaultKey = FEATURE | PILOT | EXPANDED_AT | OtherKey(name: string)

  type Vault = map<VaultKey, string>

  datatype Mode = Activate | Expand | Deactivate

  /** What the audit event of a change records. */
  datatype Setting = Setting(enabled: bool, pilot: Option<string>)

  datatype Event = Event(mode: Mode, before: Setting, after: Setting, expanded: bool)

  datatype Host = Host(vault: Vault, audit: seq<Event>)

  const TRUE_VALUES: set<string> := {"1", "true", "yes", "on"}

  function Stored(vault: Vault, key: VaultKey): string {
    if key in vault then vault[key] else ""
  }

  /** How the command reads the flag of the vault. */
  predicate Enabled(vault: Vault) {
    Text.Lower(Text.Strip(Stored(vault, FEATURE))) in TRUE_VALUES
  }

  /** Duplicate accounts may be created for any TD. */
  predicate Unrestricted(vault: Vault) {
    Enabled(vault) && Text.Strip(Stored(vault, PILOT)) == ""
  }

  function StoredPilot(vault: Vault): string {
    Text.Upper(Text.Strip(Stored(vault, PILOT)))
  }

  /** The recorded view of a vault: the flag unstripped, the pilot as it stands. */
  function SettingOf(vault: Vault): Setting {
    Setting(Text.Lower(if FEATURE in vault then vault[FEATURE] else "false") in TRUE_VALUES,
            if PILOT in vault then Some(vault[PILOT]) else None)
  }

  // ---------- The pilot TD ----------

  predicate ControlCharacter(c: char) {
    (c as int) < 32 && c != '\t'
  }

  function NormalizeTd(value: string): Result<string, ()> {
    var normalized := Text.Upper(Text.Strip(value));
    if (exists i :: 0 <= i < |value| && ControlCharacter(value[i])) || !(3 <= |normalized| <= 100) then Err(())
    else Ok(normalized)
  }

  // ---------- One write ----------

  /** pilot is None to remove the restriction. */
  datatype Change = Change(mode: Mode, enabled: bool, pilot: Option<string>, expanded: bool, now: string)

  datatype Crash = NoCrash | BeforeVaultWrite | AfterVaultWrite | AfterCommit

  /** A vault write: done, failed before the replacement, or failed after it, while protecting the new file. */
  datatype VaultWrite = Replaced | NotReplaced | Unprotected

  datatype Weather = Weather(
    elevated: bool, write: VaultWrite, readsBack: bool, auditLogs: bool, commits: bool, restore: VaultWrite,
    crash: Crash)

  datatype Outcome = Refused | NotWritten | LeftUnprotected | Committed | RolledBack | RestoreFailed | Crashed

  function Updated(vault: Vault, c: Change): Vault {
    var flagged := vault[FEATURE := if c.enabled then "true" else "false"];
    var restricted :=
      if c.pilot.Some? && c.pilot.value != "" then flagged[PILOT := c.pilot.value] else flagged - {PILOT};
    if c.expanded then restricted[EXPANDED_AT := c.now] else restricted
  }

  function EventOf(vault: Vault, c: Change): Event {
    Event(c.mode, SettingOf(vault), Setting(c.enabled, c.pilot), c.expanded)
  }

  predicate Succeeds(w: Weather) {
    w.readsBack && w.auditLogs && w.commits
  }

  /** What a write leaves, how it ends, and whether the vault stays changed. */
  datatype Written = Written(host: Host, outcome: Outcome, effective: bool)

  function Write(h: Host, c: Change, w: Weather): Written {
    var vault := Updated(h.vault, c);
    if !w.elevated then Written(h, Refused, false)
    else if w.crash.BeforeVaultWrite? then Written(h, Crashed, false)
    else if w.write.NotReplaced? then Written(h, NotWritten, false)
    else if w.crash.AfterVaultWrite? then Written(Host(vault, h.audit), Crashed, true)
    else if w.write.Unprotected? then Written(Host(vault, h.audit), LeftUnprotected, true)
    else if Succeeds(w) then
      Written(Host(vault, h.audit + [EventOf(h.vault, c)]), if w.crash.AfterCommit? then Crashed else Committed, true)
    else if w.restore.NotReplaced? then Written(Host(vault, h.audit), RestoreFailed, true)
    else Written(h, if w.restore.Replaced? then RolledBack else RestoreFailed, false)
  }

  // ---------- One attempt ----------

  datatype Attempt = Attempt(
    mode: Mode, pilotArgument: string, adminNamed: bool, adminActive: bool, confirmed: bool,
    preflight: Preflight, acceptance: Acceptance, maxHours: int, clock: int, now: string, weather: Weather)

  predicate Authorised(a: Attempt) {
    a.adminNamed && a.adminActive && a.confirmed
  }

  function PilotOf(vault: Vault, a: Attempt): Result<string, ()> {
    NormalizeTd(if a.pilotArgument != "" then a.pilotArgument else StoredPilot(vault))
  }

  /** The change that the gates of an attempt let through. */
  function Permitted(vault: Vault, a: Attempt): Option<Change> {
    match a.mode
    case Deactivate =>
      if Authorised(a) then Some(Change(Deactivate, false, None, false, a.now)) else None
    case Activate =>
      var pilot := PilotOf(vault, a);
      if pilot.Ok? && PreflightPasses(a.preflight.(pilotTd := pilot.value), false, a.maxHours, a.clock) && Authorised(a)
      then Some(Change(Activate, true, Some(pilot.value), false, a.now))
      else None
    case Expand =>
      var pilot := PilotOf(vault, a);
      if && pilot.Ok? && PreflightPasses(a.preflight.(pilotTd := pilot.value), true, a.maxHours, a.clock)
         && Enabled(vault) && AcceptancePasses(a.acceptance, true) && Authorised(a)
      then Some(Change(Expand, true, None, true, a.now))
      else None
  }

  function Try(h: Host, a: Attempt): Written {
    match Permitted(h.vault, a)
    case None => Written(h, Refused, false)
    case Some(change) => Write(h, change, a.weather)
  }

  function After(h: Host, attempts: seq<Attempt>): Host {
    if attempts == [] then h else Try(After(h, attempts[..|attempts| - 1]), attempts[|attempts| - 1]).host
  }

  /** The i-th attempt changed the vault for good. */
  predicate Effective(h: Host, attempts: seq<Attempt>, i: nat)
    requires i < |attempts|
  {
    Try(After(h, attempts[..i]), attempts[i]).effective
  }

  // ---------- The gates ----------

  /** The TD that an attempt names, or else the pilot of the vault. */
  function TdText(vault: Vault, a: Attempt): string {
    if a.pilotArgument != "" then a.pilotArgument
    else Text.Upper(Text.Strip(if PILOT in vault then vault[PILOT] else ""))
  }

  /** The TD, without outer blanks and in capitals, has 3 to 100 characters and no control character but tabs. */
  predicate ProperTd(value: string) {
    && 3 <= |Text.Upper(Text.Strip(value))| <= 100
    && forall i :: 0 <= i < |value| ==> value[i] == '\t' || (value[i] as int) >= 32
  }

  /** The newest backup is complete, in the cloud, restorable, there, and not too old. */
  predicate FreshBackup(b: Backup, maxHours: int, clock: int) {
    && Text.Upper(b.status) in {"SYNCED", "CLOUD_ONLY"} && Text.Upper(b.health) in {"SUCCESS", "OK"}
    && |b.checksum| == 64 && b.filePresent && b.timestamp.Some? && clock <= b.timestamp.value + 3600 * maxHours
  }

  /** The schema allows duplicates, the cloud backup is on and idle, and every duplicate group is resolved. */
  predicate InOrder(p: Preflight) {
    && p.dialect in {"mariadb", "mysql"} && p.migrationApplied && p.columnsPresent
    && |p.tdUniqueNames| == 0 && p.lookupIndex && |p.unresolvedGroups| == 0
    && p.cloudEnabled && p.cloudReady && !p.backupRunning
  }

  /** The pilot group has two or more properties that were created with authority under one reference. */
  predicate PilotProven(s: Acceptance) {
    && |s.properties| >= 2
    && (forall i :: 0 <= i < |s.properties| ==>
          var p := s.properties[i];
          && p.verified && p.reason != "" && p.approvedBy != "" && p.approvedAt.Some?
          && Text.Strip(p.reference) == Text.Strip(s.properties[0].reference) != "")
    && s.crossAllocations == 0 && s.auditActions >= {CreateVerifiedDuplicate, MarkVerifiedDuplicate}
    && s.latestApproval.Some? && s.backupAt.Some? && s.latestApproval.value < s.backupAt.value
  }

  /** What an attempt must meet, mode by mode. */
  predicate MeetsGates(vault: Vault, a: Attempt) {
    var td, p := Text.Upper(Text.Strip(TdText(vault, a))), a.preflight;
    && a.adminNamed && a.adminActive && a.confirmed
    && (!a.mode.Deactivate? ==>
          && ProperTd(TdText(vault, a)) && InOrder(p)
          && p.backup.Some? && FreshBackup(p.backup.value, a.maxHours, a.clock))
    && (a.mode.Activate? ==> |p.verifiedGroups| == 0 && p.pilotMatches == 1 && !p.pilotVerified)
    && (a.mode.Expand? ==>
          && (forall g :: g in p.verifiedGroups ==> g == td) && p.pilotMatches >= 2 && p.pilotVerified
          && Enabled(vault) && PilotProven(a.acceptance))
  }

  lemma ProperTds(value: string)
    ensures NormalizeTd(value) == if ProperTd(value) then Ok(Text.Upper(Text.Strip(value))) else Err(())
  {
    hide Text.Strip, Text.Upper;
    if ProperTd(value) {
      assert forall i :: 0 <= i < |value| ==> !ControlCharacter(value[i]);
    } else if i :| 0 <= i < |value| && value[i] != '\t' && (value[i] as int) < 32 {
      assert ControlCharacter(value[i]);
    }
  }

  lemma PilotIsProven(s: Acceptance)
    ensures AcceptancePasses(s, true) <==> PilotProven(s)
  {
    hide Text.Strip;
    StripsToBlank();
  }

  lemma StripsToBlank()
    ensures Text.Strip("") == ""
  {
    Text.StripFacts("");
  }

  lemma PreflightIs(p: Preflight, requireGroup: bool, maxHours: int, clock: int)
    ensures PreflightPasses(p, requireGroup, maxHours, clock) <==>
      && InOrder(p) && p.backup.Some? && FreshBackup(p.backup.value, maxHours, clock)
      && if requireGroup then
           (forall g :: g in p.verifiedGroups ==> g == p.pilotTd) && p.pilotMatches >= 2 && p.pilotVerified
         else |p.verifiedGroups| == 0 && p.pilotMatches == 1 && !p.pilotVerified
  {
    hide Text.Upper;
    if |p.verifiedGroups| != 0 {
      assert p.verifiedGroups[0] in p.verifiedGroups;
    }
  }

  /** An attempt is let through exactly when it meets the gates of its mode. */
  lemma GatesExactly(h: Host, a: Attempt)
    ensures Try(h, a).outcome.Refused? <==> !MeetsGates(h.vault, a) || !a.weather.elevated
    ensures Try(h, a).effective ==> MeetsGates(h.vault, a) && a.weather.elevated
  {
    hide InOrder, FreshBackup, PilotProven, ProperTd, PreflightPasses, AcceptancePasses, NormalizeTd, Enabled,
         Text.Upper, Text.Strip;
    var td := Text.Upper(Text.Strip(TdText(h.vault, a)));
    ProperTds(TdText(h.vault, a));
    PreflightIs(a.preflight.(pilotTd := td), a.mode.Expand?, a.maxHours, a.clock);
    PilotOnly(a.preflight, td);
    PilotIsProven(a.acceptance);
  }

  /** How an attempt ends, by what it meets, and when it changes the vault for good. */
  lemma OutcomeExactly(h: Host, a: Attempt)
    ensures var w, outcome := a.weather, Try(h, a).outcome;
      var goes, logged := MeetsGates(h.vault, a) && w.elevated, w.readsBack && w.auditLogs && w.commits;
      var runs := goes && w.crash in {NoCrash, AfterCommit};
      && (outcome == Refused <==> !goes)
      && (outcome == NotWritten <==> goes && w.crash != BeforeVaultWrite && w.write == NotReplaced)
      && (outcome == LeftUnprotected <==> runs && w.write == Unprotected)
      && (outcome == Committed <==> goes && w.crash == NoCrash && w.write == Replaced && logged)
      && (outcome == RolledBack <==> runs && w.write == Replaced && !logged && w.restore == Replaced)
      && (outcome == RestoreFailed <==> runs && w.write == Replaced && !logged && w.restore != Replaced)
      && (Try(h, a).effective <==>
            && goes && w.crash != BeforeVaultWrite && w.write != NotReplaced
            && (w.crash == AfterVaultWrite || w.write == Unprotected || logged || w.restore == NotReplaced))
  {
    hide MeetsGates, Permitted, Updated, EventOf;
    GatesExactly(h, a);
  }

  lemma PilotOnly(p: Preflight, td: string)
    ensures InOrder(p.(pilotTd := td)) <==> InOrder(p)
  {
  }

  // ---------- Compensation ----------

  /** The vault is replaced and nothing puts it back or logs it. */
  predicate Abandons(w: Weather) {
    && w.elevated && !w.crash.BeforeVaultWrite? && !w.write.NotReplaced?
    && (w.crash.AfterVaultWrite? || w.write.Unprotected? || (!Succeeds(w) && w.restore.NotReplaced?))
  }

  /** The attempt is let through, changes the vault, and its vault write is abandoned. */
  predicate Splits(h: Host, a: Attempt) {
    && Permitted(h.vault, a).Some? && Abandons(a.weather)
    && Updated(h.vault, Permitted(h.vault, a).value) != h.vault
  }

  ghost predicate Both(h: Host, a: Attempt, now: Host) {
    && Permitted(h.vault, a).Some? && now.vault == Updated(h.vault, Permitted(h.vault, a).value)
    && now.audit == h.audit + [EventOf(h.vault, Permitted(h.vault, a).value)]
  }

  /**
   * The vault changes together with the audit log, or neither does, exactly unless the write is
   * abandoned; an abandoned write changes the vault alone. Only a committed or crashed attempt
   * changes both.
   */
  lemma BothOrNeither(h: Host, a: Attempt)
    ensures var t := Try(h, a);
      && (Both(h, a, t.host) || t.host == h <==> !Splits(h, a))
      && (Splits(h, a) ==>
            t.host == Host(Updated(h.vault, Permitted(h.vault, a).value), h.audit) && !t.outcome.Committed?)
      && (t.outcome.Committed? ==> Both(h, a, t.host))
      && (Both(h, a, t.host) ==> t.outcome in {Committed, Crashed})
  {
    hide Permitted, Updated, EventOf;
  }

  /**
   * On an enabled vault, a deactivation whose vault write fails after the replacement disables
   * duplicates, and neither logs it nor restores the vault, without any crash.
   */
  lemma UnloggedDeactivation(a: Attempt)
    ensures var h, w := Host(map[FEATURE := "true"], []),
          Weather(true, Unprotected, true, true, true, Replaced, NoCrash);
      var t := Try(h, a.(mode := Deactivate, adminNamed := true, adminActive := true, confirmed := true, weather := w));
      Enabled(h.vault) && !Enabled(t.host.vault) && t.host.audit == [] && t.outcome == LeftUnprotected
  {
    hide Text.Strip, Text.Lower, TRUE_VALUES;
    Literals();
  }

  lemma Literals()
    ensures Text.Strip("true") == "true" && Text.Lower("true") == "true" && "true" in TRUE_VALUES
    ensures Text.Strip("false") == "false" && Text.Lower("false") == "false" && "false" !in TRUE_VALUES
    ensures Text.Strip("") == ""
  {
    Text.StripFacts("true");
    Text.StripFacts("false");
  }

  lemma NormalizedIsNotBlank(value: string)
    requires NormalizeTd(value).Ok?
    ensures NormalizeTd(value).value != "" && Text.Strip(NormalizeTd(value).value) != ""
  {
    hide Text.Strip;
    var s := Text.Strip(value);
    Text.StripFacts(value);
    assert Text.Stripped(Text.Upper(s));
    Text.StripFacts(Text.Upper(s));
  }

  /** What an effective attempt leaves in the vault. */
  lemma EffectiveSets(h: Host, a: Attempt)
    requires Try(h, a).effective
    ensures var vault := Try(h, a).host.vault;
      && (a.mode.Deactivate? ==> !Enabled(vault))
      && (a.mode.Activate? ==> Enabled(vault) && !Unrestricted(vault))
      && (a.mode.Expand? ==> Enabled(h.vault) && Unrestricted(vault))
  {
    hide Text.Strip, Text.Lower, Text.Upper, TRUE_VALUES, NormalizeTd, PreflightPasses, AcceptancePasses, StoredPilot;
    Literals();
    if a.mode.Activate? {
      NormalizedIsNotBlank(if a.pilotArgument != "" then a.pilotArgument else StoredPilot(h.vault));
    }
  }

  /** The flag, the pilot, the time of an expansion, and nothing else. */
  ghost predicate ChangesOnly(before: Vault, after: Vault, mode: Mode, td: string, now: string) {
    && FEATURE in after && after[FEATURE] == (if mode.Deactivate? then "false" else "true")
    && (if mode.Activate? then PILOT in after && after[PILOT] == td else PILOT !in after)
    && (if mode.Expand? then EXPANDED_AT in after && after[EXPANDED_AT] == now
        else
          && (EXPANDED_AT in after <==> EXPANDED_AT in before)
          && Stored(after, EXPANDED_AT) == Stored(before, EXPANDED_AT))
    && (forall name :: OtherKey(name) in after <==> OtherKey(name) in before)
    && (forall name :: OtherKey(name) in after ==> after[OtherKey(name)] == before[OtherKey(name)])
  }

  lemma PermittedChange(vault: Vault, a: Attempt)
    requires Permitted(vault, a).Some?
    ensures var td := Text.Upper(Text.Strip(TdText(vault, a)));
      && Permitted(vault, a).value ==
           Change(a.mode, !a.mode.Deactivate?, if a.mode.Activate? then Some(td) else None, a.mode.Expand?, a.now)
      && (a.mode.Activate? ==> td != "")
  {
    hide Text.Strip, Text.Upper, NormalizeTd, PreflightPasses, AcceptancePasses, ProperTd, Enabled;
    ProperTds(TdText(vault, a));
    if a.mode.Activate? {
      NormalizedIsNotBlank(TdText(vault, a));
    }
  }

  /** What an effective attempt changes in the vault. */
  lemma EffectiveChanges(h: Host, a: Attempt)
    requires Try(h, a).effective
    ensures ChangesOnly(h.vault, Try(h, a).host.vault, a.mode, Text.Upper(Text.Strip(TdText(h.vault, a))), a.now)
  {
    hide Text.Strip, Text.Upper, Permitted, EventOf;
    PermittedChange(h.vault, a);
    assert Try(h, a).host.vault == Updated(h.vault, Permitted(h.vault, a).value);
  }

  /** The event of a committed attempt names its mode and the settings before and after it. */
  lemma CommittedEvent(h: Host, a: Attempt)
    requires Try(h, a).outcome.Committed?
    ensures var now := Try(h, a).host;
      && |now.audit| == |h.audit| + 1
      && now.audit[|h.audit|] == Event(a.mode, SettingOf(h.vault), SettingOf(now.vault), a.mode.Expand?)
  {
    hide SettingOf, Permitted, EventOf, Updated;
    BothOrNeither(h, a);
    RecordedAsSet(h, a);
    PermittedMode(h.vault, a);
  }

  lemma PermittedMode(vault: Vault, a: Attempt)
    requires Permitted(vault, a).Some?
    ensures var c := Permitted(vault, a).value;
      EventOf(vault, c).mode == a.mode && EventOf(vault, c).expanded == a.mode.Expand?
  {
    hide SettingOf, Text.Strip, Text.Upper, NormalizeTd, PreflightPasses, AcceptancePasses, Enabled;
  }

  // ---------- The flag ----------

  /** The words that enable. */
  predicate Affirms(word: string) {
    word == "1" || word == "true" || word == "yes" || word == "on"
  }

  function FlagText(vault: Vault): string {
    if FEATURE in vault then vault[FEATURE] else ""
  }

  lemma AffirmingIsStripped(word: string)
    requires Affirms(Text.Lower(word))
    ensures Text.Stripped(word)
  {
    assert |Text.Lower(word)| == |word|;
    assert Text.Lower(word)[0] in "1tyo" && Text.Lower(word)[|word| - 1] in "1esn";
    assert Text.LowerChar(word[0]) == Text.Lower(word)[0];
    assert Text.LowerChar(word[|word| - 1]) == Text.Lower(word)[|word| - 1];
  }

  /** Duplicates are enabled exactly when the flag, between outer blanks and in any case, affirms. */
  lemma EnabledExactly(vault: Vault)
    ensures Enabled(vault) <==>
      exists i, j :: 0 <= i <= j <= |FlagText(vault)| && BlanksAround(FlagText(vault), i, j)
        && Affirms(Text.Lower(FlagText(vault)[i..j]))
  {
    hide Text.Strip, Text.Lower;
    var flag := FlagText(vault);
    var i, j := Text.StripShape(flag);
    if k, l :| 0 <= k <= l <= |flag| && BlanksAround(flag, k, l) && Affirms(Text.Lower(flag[k..l])) {
      AffirmingIsStripped(flag[k..l]);
      NothingAffirms();
      Text.StripBetween(flag, k, l);
    }
  }

  ghost predicate BlanksAround(s: string, i: nat, j: nat)
    requires i <= j <= |s|
  {
    Text.AllSpace(s[..i]) && Text.AllSpace(s[j..])
  }

  /**
   * The recorded setting is enabled exactly when the command takes the flag for enabled and the
   * flag has no outer blanks; the recorded pilot is the stored one.
   */
  lemma SettingExactly(vault: Vault)
    ensures SettingOf(vault).enabled <==> Enabled(vault) && Text.Stripped(FlagText(vault))
    ensures SettingOf(vault).pilot == if PILOT in vault then Some(vault[PILOT]) else None
  {
    hide Text.Strip, Text.Lower;
    Literals();
    NothingAffirms();
    Text.StripFacts(FlagText(vault));
    if Affirms(Text.Lower(FlagText(vault))) {
      AffirmingIsStripped(FlagText(vault));
    }
  }

  lemma NothingAffirms()
    ensures Text.Lower("") == "" && !Affirms(Text.Lower(""))
  {
  }

  /** A flag with a blank before it is taken for enabled and recorded as disabled. */
  lemma BlankFlagIsMisrecorded()
    ensures var vault := map[FEATURE := " true"]; Enabled(vault) && !SettingOf(vault).enabled
  {
    hide Text.Strip, Text.Lower, TRUE_VALUES;
    var vault := map[FEATURE := " true"];
    Literals();
    assert FlagText(vault)[1..5] == "true";
    assert BlanksAround(FlagText(vault), 1, 5);
    EnabledExactly(vault);
    SettingExactly(vault);
  }

  lemma IneffectiveKeeps(h: Host, a: Attempt)
    requires !Try(h, a).effective
    ensures Try(h, a).host.vault == h.vault
  {
    hide Permitted, Updated;
  }

  // ---------- Every sequence of attempts ----------

  /** An effective attempt of a mode, with no effective deactivation after it. */
  ghost predicate Standing(h: Host, attempts: seq<Attempt>, i: nat, mode: Mode) {
    && i < |attempts| && Effective(h, attempts, i) && attempts[i].mode == mode
    && forall k: nat :: i < k < |attempts| && Effective(h, attempts, k) ==> !attempts[k].mode.Deactivate?
  }

  lemma EarlierIsTheSame(h: Host, attempts: seq<Attempt>, n: nat, i: nat)
    requires i < n <= |attempts|
    ensures Effective(h, attempts[..n], i) <==> Effective(h, attempts, i)
  {
    assert attempts[..n][..i] == attempts[..i];
  }

  lemma StandingStays(h: Host, attempts: seq<Attempt>, i: nat, mode: Mode)
    requires attempts != [] && Standing(h, attempts[..|attempts| - 1], i, mode)
    requires Effective(h, attempts, |attempts| - 1) ==> !attempts[|attempts| - 1].mode.Deactivate?
    ensures Standing(h, attempts, i, mode)
  {
    hide Effective;
    var n := |attempts| - 1;
    forall k: nat | k < n ensures Effective(h, attempts[..n], k) <==> Effective(h, attempts, k) {
      EarlierIsTheSame(h, attempts, n, k);
    }
  }

  ghost predicate ActivationStands(h: Host, attempts: seq<Attempt>) {
    exists i: nat :: Standing(h, attempts, i, Activate)
  }

  /** An activation stands, and after it an expansion. */
  ghost predicate ExpansionStands(h: Host, attempts: seq<Attempt>) {
    exists i: nat, j: nat :: i < j && Standing(h, attempts, i, Activate) && Standing(h, attempts, j, Expand)
  }

  lemma {:induction false} EnabledByActivation(h: Host, attempts: seq<Attempt>)
    requires !Enabled(h.vault)
    ensures Enabled(After(h, attempts).vault) ==> ActivationStands(h, attempts)
  {
    hide Enabled, Unrestricted, Try, Standing;
    if attempts != [] {
      var n := |attempts| - 1;
      var before, last := After(h, attempts[..n]), attempts[n];
      EnabledByActivation(h, attempts[..n]);
      if Try(before, last).effective {
        EffectiveSets(before, last);
        if last.mode.Activate? {
          LastStands(h, attempts);
        } else if last.mode.Expand? {
          ActivationStays(h, attempts);
        }
      } else {
        IneffectiveKeeps(before, last);
        if Enabled(before.vault) {
          ActivationStays(h, attempts);
        }
      }
    }
  }

  lemma LastStands(h: Host, attempts: seq<Attempt>)
    requires attempts != [] && Effective(h, attempts, |attempts| - 1)
    ensures Standing(h, attempts, |attempts| - 1, attempts[|attempts| - 1].mode)
  {
    hide Effective;
  }

  lemma ActivationStays(h: Host, attempts: seq<Attempt>)
    requires attempts != [] && ActivationStands(h, attempts[..|attempts| - 1])
    requires Effective(h, attempts, |attempts| - 1) ==> !attempts[|attempts| - 1].mode.Deactivate?
    ensures ActivationStands(h, attempts)
  {
    hide Standing, Effective;
    var init := attempts[..|attempts| - 1];
    if i: nat :| Standing(h, init, i, Activate) {
      StandingStays(h, attempts, i, Activate);
    }
  }

  lemma ExpansionStays(h: Host, attempts: seq<Attempt>)
    requires attempts != [] && ExpansionStands(h, attempts[..|attempts| - 1])
    requires Effective(h, attempts, |attempts| - 1) ==> !attempts[|attempts| - 1].mode.Deactivate?
    ensures ExpansionStands(h, attempts)
  {
    hide Standing, Effective;
    var init := attempts[..|attempts| - 1];
    if i: nat, j: nat :| i < j && Standing(h, init, i, Activate) && Standing(h, init, j, Expand) {
      StandingStays(h, attempts, i, Activate);
      StandingStays(h, attempts, j, Expand);
    }
  }

  /** An effective expansion follows a standing activation. */
  lemma ExpansionFollows(h: Host, attempts: seq<Attempt>)
    requires attempts != [] && ActivationStands(h, attempts[..|attempts| - 1])
    requires Effective(h, attempts, |attempts| - 1) && attempts[|attempts| - 1].mode.Expand?
    ensures ExpansionStands(h, attempts)
  {
    hide Effective;
    var n := |attempts| - 1;
    var init := attempts[..n];
    if i: nat :| Standing(h, init, i, Activate) {
      assert i < n;
      StandingStays(h, attempts, i, Activate);
      LastStands(h, attempts);
      assert Standing(h, attempts, n, Expand);
    }
  }

  /**
   * From a disabled vault, duplicates are enabled without a pilot restriction only after an
   * effective activation and then an effective expansion, with no effective deactivation since the
   * activation, whatever crashes and failed restores happened on the way.
   */
  lemma {:induction false} UnrestrictedOnlyByExpansion(h: Host, attempts: seq<Attempt>)
    requires !Enabled(h.vault)
    ensures Unrestricted(After(h, attempts).vault) ==> ExpansionStands(h, attempts)
  {
    hide Enabled, Try, Standing;
    if attempts != [] {
      var n := |attempts| - 1;
      var before, last := After(h, attempts[..n]), attempts[n];
      UnrestrictedOnlyByExpansion(h, attempts[..n]);
      if Try(before, last).effective {
        EffectiveSets(before, last);
        if last.mode.Expand? {
          EnabledByActivation(h, attempts[..n]);
          ExpansionFollows(h, attempts);
        }
      } else {
        IneffectiveKeeps(before, last);
        if Unrestricted(before.vault) {
          ExpansionStays(h, attempts);
        }
      }
    }
  }

  // ---------- The audit trail ----------

  /** No attempt of the run changes the recorded setting without an event. */
  ghost predicate NothingUntold(h: Host, attempts: seq<Attempt>) {
    forall i :: 0 <= i < |attempts| ==> !Untold(After(h, attempts[..i]), attempts[i])
  }

  /** The write is abandoned and its setting differs from the one before. */
  predicate Untold(h: Host, a: Attempt) {
    && Permitted(h.vault, a).Some? && Abandons(a.weather)
    && SettingOf(Updated(h.vault, Permitted(h.vault, a).value)) != SettingOf(h.vault)
  }

  /** The setting that the trail tells. */
  function LastTold(start: Host, audit: seq<Event>): Setting {
    if |audit| > |start.audit| then audit[|audit| - 1].after else SettingOf(start.vault)
  }

  /** The vault is set as the latest new event says, and each event starts where the one before ended. */
  ghost predicate Told(start: Host, now: Host) {
    && start.audit <= now.audit && SettingOf(now.vault) == LastTold(start, now.audit)
    && forall k :: |start.audit| <= k < |now.audit| ==> now.audit[k].before == LastTold(start, now.audit[..k])
  }

  lemma RecordedAsSet(h: Host, a: Attempt)
    requires Permitted(h.vault, a).Some?
    ensures var c := Permitted(h.vault, a).value;
      SettingOf(Updated(h.vault, c)) == EventOf(h.vault, c).after && EventOf(h.vault, c).before == SettingOf(h.vault)
  {
    hide Text.Strip, Text.Lower, Text.Upper, TRUE_VALUES, NormalizeTd, PreflightPasses, AcceptancePasses, StoredPilot,
         Enabled;
    Literals();
    if a.mode.Activate? {
      NormalizedIsNotBlank(if a.pilotArgument != "" then a.pilotArgument else StoredPilot(h.vault));
    }
  }

  lemma ToldStep(start: Host, h: Host, a: Attempt)
    requires Told(start, h)
    ensures Told(start, Try(h, a).host) <==> !Untold(h, a)
  {
    hide Try, SettingOf, Permitted, EventOf, Updated, Abandons;
    var now := Try(h, a).host;
    BothOrNeither(h, a);
    if Permitted(h.vault, a).Some? {
      RecordedAsSet(h, a);
    }
    assert now.audit[..|h.audit|] == h.audit;
    assert forall k :: 0 <= k < |h.audit| ==> now.audit[..k] == h.audit[..k];
  }

  /** The trail tells the setting of the vault before and after each attempt. */
  ghost predicate ToldThroughout(h: Host, attempts: seq<Attempt>) {
    forall n :: 0 <= n <= |attempts| ==> Told(h, After(h, attempts[..n]))
  }

  lemma ToldOneMore(h: Host, attempts: seq<Attempt>)
    requires attempts != []
    ensures ToldThroughout(h, attempts) <==>
      ToldThroughout(h, attempts[..|attempts| - 1]) && Told(h, After(h, attempts))
  {
    hide Told, After;
    var n := |attempts| - 1;
    var init := attempts[..n];
    assert forall k :: 0 <= k <= n ==> attempts[..k] == init[..k];
    assert attempts[..n + 1] == attempts;
  }

  lemma UntoldOneMore(h: Host, attempts: seq<Attempt>)
    requires attempts != []
    ensures var n := |attempts| - 1;
      NothingUntold(h, attempts) <==>
      NothingUntold(h, attempts[..n]) && !Untold(After(h, attempts[..n]), attempts[n])
  {
    hide Untold, After;
    var n := |attempts| - 1;
    var init := attempts[..n];
    assert forall k :: 0 <= k < n ==> attempts[..k] == init[..k] && attempts[k] == init[k];
  }

  /** The audit trail tells the setting of the vault all the way exactly when no attempt changes it untold. */
  lemma {:induction false} TrailTellsVault(h: Host, attempts: seq<Attempt>)
    ensures ToldThroughout(h, attempts) <==> NothingUntold(h, attempts)
  {
    hide Try, SettingOf, Untold, Told;
    if attempts == [] {
      StartIsTold(h);
    } else {
      hide ToldThroughout, NothingUntold;
      var init := attempts[..|attempts| - 1];
      TrailTellsVault(h, init);
      ToldOneMore(h, attempts);
      UntoldOneMore(h, attempts);
      if ToldThroughout(h, init) {
        ThroughoutAtEnd(h, init);
        ToldStep(h, After(h, init), attempts[|attempts| - 1]);
      }
    }
  }

  lemma StartIsTold(h: Host)
    ensures Told(h, h)
  {
    hide SettingOf;
  }

  lemma ThroughoutAtEnd(h: Host, attempts: seq<Attempt>)
    requires ToldThroughout(h, attempts)
    ensures Told(h, After(h, attempts))
  {
    hide Told, After;
    assert attempts[..|attempts|] == attempts;
  }

  // ---------- The command over a live machine ----------

  class Machine {
    var vault: Vault
    var audit: seq<Event>

    function Here(): Host
      reads this
    {
      Host(vault, audit)
    }

    /** Writes the vault, then logs and commits, or puts the old vault back. */
    method WriteRolloutState(c: Change, w: Weather) returns (outcome: Outcome)
      modifies this
      ensures Here() == Write(old(Here()), c, w).host && outcome == Write(old(Here()), c, w).outcome
    {
      hide Updated, EventOf;
      if !w.elevated {
        return Refused;
      }
      var original := vault;
      var updated := Updated(original, c);
      if w.crash.BeforeVaultWrite? {
        return Crashed;
      }
      if w.write.NotReplaced? {
        return NotWritten;
      }
      vault := updated;
      if w.crash.AfterVaultWrite? {
        return Crashed;
      }
      if w.write.Unprotected? {
        return LeftUnprotected;
      }
      if w.readsBack && w.auditLogs {
        var pending := audit + [EventOf(original, c)];
        if w.commits {
          audit := pending;
          return if w.crash.AfterCommit? then Crashed else Committed;
        }
      }
      if w.restore.NotReplaced? {
        return RestoreFailed;
      }
      vault := original;
      return if w.restore.Replaced? then RolledBack else RestoreFailed;
    }

    /** The mode dispatch of the command. */
    method Run(a: Attempt) returns (outcome: Outcome)
      modifies this
      ensures Here() == Try(old(Here()), a).host && outcome == Try(old(Here()), a).outcome
    {
      hide Write, PreflightPasses, AcceptancePasses, NormalizeTd, StoredPilot, Enabled;
      var storedPilot := StoredPilot(vault);
      if a.mode.Deactivate? {
        if !a.adminNamed || !a.adminActive || !a.confirmed {
          return Refused;
        }
        outcome := WriteRolloutState(Change(Deactivate, false, None, false, a.now), a.weather);
        return;
      }
      var pilot := NormalizeTd(if a.pilotArgument != "" then a.pilotArgument else storedPilot);
      if pilot.Err? {
        return Refused;
      }
      var errors := EvaluatePreflight(a.preflight.(pilotTd := pilot.value), a.mode.Expand?, a.maxHours, a.clock);
      if errors != [] {
        return Refused;
      }
      if a.mode.Activate? {
        if !a.adminNamed || !a.adminActive || !a.confirmed {
          return Refused;
        }
        outcome := WriteRolloutState(Change(Activate, true, Some(pilot.value), false, a.now), a.weather);
      } else {
        if !Enabled(vault) || !a.adminNamed {
          return Refused;
        }
        var acceptanceErrors := EvaluateAcceptance(a.acceptance, true);
        if acceptanceErrors != [] || !a.adminActive || !a.confirmed {
          return Refused;
        }
        outcome := WriteRolloutState(Change(Expand, true, None, true, a.now), a.weather);
      }
    }
  }
}
