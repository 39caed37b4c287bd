/** The two gates of the duplicate-TD rollout: the preflight and the pilot acceptance. */
module RolloutChecks {
  import opened Wrappers
  import Text

  // ---------- Preflight ----------

  datatype Backup = Backup(status: string, health: string, checksum: string, filePresent: bool, timestamp: Option<int>)

  datatype Preflight = Preflight(
    dialect: string, migrationApplied: bool, columnsPresent: bool, tdUniqueNames: seq<string>, lookupIndex: bool,
    backupRunning: bool, cloudEnabled: bool, cloudReady: bool,
    unresolvedGroups: seq<string>, verifiedGroups: seq<string>, backup: Option<Backup>,
    pilotTd: string, pilotMatches: nat, pilotVerified: bool)

  const DIALECTS: set<string> := {"mysql", "mariadb"}
  const SUCCESS_BACKUP_STATUSES: set<string> := {"CLOUD_ONLY", "SYNCED"}
  const SUCCESS_BACKUP_HEALTH: set<string> := {"OK", "SUCCESS"}
  const CHECKSUM_LENGTH := 64
  const SECONDS_PER_HOUR := 3600

  datatype PreflightError =
    | WrongDialect | MigrationMissing | ColumnsMissing | UniquenessRemains | LookupIndexMissing
    | BackupRunning | CloudDisabled | CloudNotReady | UnresolvedGroups | GroupsOutsidePilot
    | NoBackup | BackupNotInCloud | BackupNotRestorable | ChecksumIncomplete | BackupFileMissing
    | TimestampMissing | BackupTooOld
    | PilotGroupTooSmall | PilotGroupUnverified | PilotNotSingle | PilotMarkerStale

  predicate InCloud(b: Backup) {
    Text.Upper(b.status) in SUCCESS_BACKUP_STATUSES
  }

  predicate Restorable(b: Backup) {
    Text.Upper(b.health) in SUCCESS_BACKUP_HEALTH
  }

  predicate TooOld(b: Backup, maxHours: int, now: int) {
    b.timestamp.Some? && now - b.timestamp.value > maxHours * SECONDS_PER_HOUR
  }

  /** Verified groups that the pilot does not account for. */
  function OutOfScope(s: Preflight, requireGroup: bool, groups: seq<string>): seq<string> {
    if groups == [] then []
    else
      var last := groups[|groups| - 1];
      OutOfScope(s, requireGroup, groups[..|groups| - 1])
      + if !requireGroup || last != s.pilotTd then [last] else []
  }

  /** What must hold before the rollout may move: everything current, and only the pilot duplicated. */
  predicate PreflightPasses(s: Preflight, requireGroup: bool, maxHours: int, now: int) {
    && s.dialect in DIALECTS && s.migrationApplied && s.columnsPresent && s.tdUniqueNames == [] && s.lookupIndex
    && !s.backupRunning && s.cloudEnabled && s.cloudReady && s.unresolvedGroups == []
    && (forall td :: td in s.verifiedGroups ==> requireGroup && td == s.pilotTd)
    && s.backup.Some? && BackupUsable(s.backup.value, maxHours, now)
    && if requireGroup then s.pilotMatches >= 2 && s.pilotVerified else s.pilotMatches == 1 && !s.pilotVerified
  }

  predicate BackupUsable(b: Backup, maxHours: int, now: int) {
    && InCloud(b) && Restorable(b) && |b.checksum| == CHECKSUM_LENGTH && b.filePresent
    && b.timestamp.Some? && now - b.timestamp.value <= maxHours * SECONDS_PER_HOUR
  }

  lemma {:induction false} OutOfScopeMeans(s: Preflight, requireGroup: bool, groups: seq<string>)
    ensures OutOfScope(s, requireGroup, groups) == [] <==>
      forall td :: td in groups ==> requireGroup && td == s.pilotTd
  {
    if groups != [] {
      var init, last := groups[..|groups| - 1], groups[|groups| - 1];
      OutOfScopeMeans(s, requireGroup, init);
      assert groups == init + [last];
      assert forall td :: td in groups <==> td in init || td == last;
      assert last in groups;
    }
  }

  method BackupErrors(b: Backup, maxHours: int, now: int) returns (errors: seq<PreflightError>)
    ensures errors == [] <==> BackupUsable(b, maxHours, now)
    ensures forall e :: e in errors <==> BackupFault(b, maxHours, now, e)
  {
    hide InCloud, Restorable;
    errors := [];
    if !InCloud(b) {
      errors := errors + [BackupNotInCloud];
    }
    if !Restorable(b) {
      errors := errors + [BackupNotRestorable];
    }
    if |b.checksum| != CHECKSUM_LENGTH {
      errors := errors + [ChecksumIncomplete];
    }
    if !b.filePresent {
      errors := errors + [BackupFileMissing];
    }
    if b.timestamp.None? {
      errors := errors + [TimestampMissing];
    } else if now - b.timestamp.value > maxHours * SECONDS_PER_HOUR {
      errors := errors + [BackupTooOld];
    }
  }

  /** Which fault of the server an error reports. */
  predicate SchemaFault(s: Preflight, e: PreflightError) {
    match e
    case WrongDialect => s.dialect !in DIALECTS
    case MigrationMissing => !s.migrationApplied
    case ColumnsMissing => !s.columnsPresent
    case UniquenessRemains => s.tdUniqueNames != []
    case LookupIndexMissing => !s.lookupIndex
    case BackupRunning => s.backupRunning
    case CloudDisabled => !s.cloudEnabled
    case CloudNotReady => !s.cloudReady
    case UnresolvedGroups => s.unresolvedGroups != []
    case _ => false
  }

  /** Which fault of the backup an error reports. */
  predicate BackupFault(b: Backup, maxHours: int, now: int, e: PreflightError) {
    match e
    case BackupNotInCloud => !InCloud(b)
    case BackupNotRestorable => !Restorable(b)
    case ChecksumIncomplete => |b.checksum| != CHECKSUM_LENGTH
    case BackupFileMissing => !b.filePresent
    case TimestampMissing => b.timestamp.None?
    case BackupTooOld => TooOld(b, maxHours, now)
    case _ => false
  }

  /** Which fault of the pilot group an error reports. */
  predicate PilotFault(s: Preflight, requireGroup: bool, e: PreflightError) {
    match e
    case PilotGroupTooSmall => requireGroup && s.pilotMatches < 2
    case PilotGroupUnverified => requireGroup && s.pilotMatches >= 2 && !s.pilotVerified
    case PilotNotSingle => !requireGroup && s.pilotMatches != 1
    case PilotMarkerStale => !requireGroup && s.pilotMatches == 1 && s.pilotVerified
    case _ => false
  }

  /** Which fault an error of the preflight reports. */
  predicate PreflightFault(s: Preflight, requireGroup: bool, maxHours: int, now: int, e: PreflightError) {
    || SchemaFault(s, e)
    || (e == GroupsOutsidePilot && exists td :: td in s.verifiedGroups && !(requireGroup && td == s.pilotTd))
    || (if s.backup.None? then e == NoBackup else BackupFault(s.backup.value, maxHours, now, e))
    || PilotFault(s, requireGroup, e)
  }

  /** The faults of the database, in the order of the list. */
  method DatabaseErrors(s: Preflight) returns (errors: seq<PreflightError>)
    ensures forall e :: e in errors <==>
      SchemaFault(s, e) && e in {WrongDialect, MigrationMissing, ColumnsMissing, UniquenessRemains, LookupIndexMissing}
  {
    hide DIALECTS;
    errors := [];
    if s.dialect !in DIALECTS {
      errors := errors + [WrongDialect];
    }
    if !s.migrationApplied {
      errors := errors + [MigrationMissing];
    }
    if !s.columnsPresent {
      errors := errors + [ColumnsMissing];
    }
    if s.tdUniqueNames != [] {
      errors := errors + [UniquenessRemains];
    }
    if !s.lookupIndex {
      errors := errors + [LookupIndexMissing];
    }
  }

  method SchemaErrors(s: Preflight) returns (errors: seq<PreflightError>)
    ensures errors == [] <==>
      s.dialect in DIALECTS && s.migrationApplied && s.columnsPresent && s.tdUniqueNames == [] && s.lookupIndex
      && !s.backupRunning && s.cloudEnabled && s.cloudReady && s.unresolvedGroups == []
    ensures forall e :: e in errors <==> SchemaFault(s, e)
  {
    hide DIALECTS;
    errors := DatabaseErrors(s);
    if s.backupRunning {
      errors := errors + [BackupRunning];
    }
    if !s.cloudEnabled {
      errors := errors + [CloudDisabled];
    }
    if !s.cloudReady {
      errors := errors + [CloudNotReady];
    }
    if s.unresolvedGroups != [] {
      errors := errors + [UnresolvedGroups];
    }
    NoSchemaFault(s);
    assert errors != [] ==> errors[0] in errors;
    hide SchemaFault;
  }

  lemma NoSchemaFault(s: Preflight)
    ensures (forall e :: !SchemaFault(s, e)) <==>
      s.dialect in DIALECTS && s.migrationApplied && s.columnsPresent && s.tdUniqueNames == [] && s.lookupIndex
      && !s.backupRunning && s.cloudEnabled && s.cloudReady && s.unresolvedGroups == []
  {
    hide DIALECTS;
    if forall e :: !SchemaFault(s, e) {
      assert !SchemaFault(s, WrongDialect) && !SchemaFault(s, MigrationMissing) && !SchemaFault(s, ColumnsMissing);
      assert !SchemaFault(s, UniquenessRemains) && !SchemaFault(s, LookupIndexMissing);
      assert !SchemaFault(s, BackupRunning) && !SchemaFault(s, CloudDisabled) && !SchemaFault(s, CloudNotReady);
      assert !SchemaFault(s, UnresolvedGroups);
    }
  }

  method PilotErrors(s: Preflight, requireGroup: bool) returns (errors: seq<PreflightError>)
    ensures errors == [] <==>
      if requireGroup then s.pilotMatches >= 2 && s.pilotVerified else s.pilotMatches == 1 && !s.pilotVerified
    ensures |errors| <= 1
    ensures forall e :: e in errors <==> PilotFault(s, requireGroup, e)
  {
    errors := [];
    if requireGroup {
      if s.pilotMatches < 2 {
        errors := [PilotGroupTooSmall];
      } else if !s.pilotVerified {
        errors := [PilotGroupUnverified];
      }
    } else if s.pilotMatches != 1 {
      errors := [PilotNotSingle];
    } else if s.pilotVerified {
      errors := [PilotMarkerStale];
    }
  }

  /** The preflight has no error exactly when it passes. */
  method EvaluatePreflight(s: Preflight, requireGroup: bool, maxHours: int, now: int)
    returns (errors: seq<PreflightError>)
    ensures errors == [] <==> PreflightPasses(s, requireGroup, maxHours, now)
    ensures forall e :: e in errors <==> PreflightFault(s, requireGroup, maxHours, now, e)
  {
    hide BackupUsable, DIALECTS, SchemaFault, BackupFault, PilotFault;
    errors := SchemaErrors(s);
    var outside := OutOfScope(s, requireGroup, s.verifiedGroups);
    OutOfScopeMeans(s, requireGroup, s.verifiedGroups);
    if outside != [] {
      errors := errors + [GroupsOutsidePilot];
    }
    if s.backup.None? {
      errors := errors + [NoBackup];
    } else {
      var backupErrors := BackupErrors(s.backup.value, maxHours, now);
      errors := errors + backupErrors;
    }
    var pilotErrors := PilotErrors(s, requireGroup);
    errors := errors + pilotErrors;
  }

  // ---------- Acceptance ----------

  /** Absent text is "". */
  datatype PilotProperty = PilotProperty(
    id: int, verified: bool, reference: string, reason: string, approvedBy: string, approvedAt: Option<int>)

  datatype AuditAction = CreateVerifiedDuplicate | MarkVerifiedDuplicate

  datatype Acceptance = Acceptance(
    properties: seq<PilotProperty>, crossAllocations: nat, auditActions: set<AuditAction>,
    latestApproval: Option<int>, backupAt: Option<int>)

  datatype AcceptanceError =
    | TooFewProperties | NotAllVerified | MetadataMissing(propertyId: int) | ReferencesDiffer
    | CrossPropertyAllocation | CreationEventMissing | MarkEventMissing | BackupNotAfterApproval

  predicate Authorised(p: PilotProperty) {
    p.reference != "" && p.reason != "" && p.approvedBy != "" && p.approvedAt.Some?
  }

  /** The properties share one reference that is not blank. */
  predicate SameReference(properties: seq<PilotProperty>) {
    && properties != [] && Text.Strip(properties[0].reference) != ""
    && forall i :: 0 <= i < |properties| ==> Text.Strip(properties[i].reference) == Text.Strip(properties[0].reference)
  }

  predicate BackupFollowsApproval(s: Acceptance) {
    s.latestApproval.Some? && s.backupAt.Some? && s.backupAt.value > s.latestApproval.value
  }

  predicate AcceptancePasses(s: Acceptance, requireBackup: bool) {
    && |s.properties| >= 2
    && (forall i :: 0 <= i < |s.properties| ==> s.properties[i].verified && Authorised(s.properties[i]))
    && SameReference(s.properties)
    && s.crossAllocations == 0 && CreateVerifiedDuplicate in s.auditActions && MarkVerifiedDuplicate in s.auditActions
    && (requireBackup ==> BackupFollowsApproval(s))
  }

  function References(properties: seq<PilotProperty>): set<string> {
    set i | 0 <= i < |properties| :: Text.Strip(properties[i].reference)
  }

  lemma OneElement<T>(s: set<T>, x: T)
    requires x in s && |s| == 1
    ensures s == {x}
  {
    var rest := s - {x};
    assert s == rest + {x};
    assert |rest| == 0;
  }

  /** A single reference in the set is the same as one shared reference. */
  lemma OneReference(properties: seq<PilotProperty>)
    ensures SameReference(properties) <==> |References(properties)| == 1 && "" !in References(properties)
  {
    hide Text.Strip;
    var references := References(properties);
    if properties == [] {
      assert references == {};
    } else {
      var first := Text.Strip(properties[0].reference);
      assert first in references;
      if SameReference(properties) {
        assert references == {first};
      }
      if |references| == 1 {
        OneElement(references, first);
        forall i | 0 <= i < |properties| ensures Text.Strip(properties[i].reference) == first {
          assert Text.Strip(properties[i].reference) in references;
        }
      }
    }
  }

  method MetadataErrors(properties: seq<PilotProperty>) returns (errors: seq<AcceptanceError>)
    ensures errors == [] <==> forall i :: 0 <= i < |properties| ==> Authorised(properties[i])
    ensures forall e :: e in errors <==>
      exists i :: 0 <= i < |properties| && !Authorised(properties[i]) && e == MetadataMissing(properties[i].id)
  {
    hide Authorised;
    errors := [];
    for i := 0 to |properties|
      invariant errors == [] <==> forall k :: 0 <= k < i ==> Authorised(properties[k])
      invariant forall e :: e in errors <==>
        exists k :: 0 <= k < i && !Authorised(properties[k]) && e == MetadataMissing(properties[k].id)
    {
      if !Authorised(properties[i]) {
        errors := errors + [MetadataMissing(properties[i].id)];
      }
    }
  }

  /** Which fault an error of the acceptance reports; with fewer than two properties there is no other. */
  predicate AcceptanceFault(s: Acceptance, requireBackup: bool, e: AcceptanceError) {
    if |s.properties| < 2 then e == TooFewProperties
    else
      match e
      case TooFewProperties => false
      case NotAllVerified => exists i :: 0 <= i < |s.properties| && !s.properties[i].verified
      case MetadataMissing(id) =>
        exists i :: 0 <= i < |s.properties| && s.properties[i].id == id && !Authorised(s.properties[i])
      case ReferencesDiffer => !SameReference(s.properties)
      case CrossPropertyAllocation => s.crossAllocations != 0
      case CreationEventMissing => CreateVerifiedDuplicate !in s.auditActions
      case MarkEventMissing => MarkVerifiedDuplicate !in s.auditActions
      case BackupNotAfterApproval => requireBackup && !BackupFollowsApproval(s)
  }

  /** The acceptance has no error exactly when it passes. */
  method EvaluateAcceptance(s: Acceptance, requireBackup: bool) returns (errors: seq<AcceptanceError>)
    ensures errors == [] <==> AcceptancePasses(s, requireBackup)
    ensures forall e :: e in errors <==> AcceptanceFault(s, requireBackup, e)
  {
    hide Authorised, SameReference, References, BackupFollowsApproval;
    if |s.properties| < 2 {
      return [TooFewProperties];
    }
    errors := [];
    if !(forall i :: 0 <= i < |s.properties| ==> s.properties[i].verified) {
      errors := errors + [NotAllVerified];
    }
    var missing := MetadataErrors(s.properties);
    errors := errors + missing;
    OneReference(s.properties);
    if |References(s.properties)| != 1 || "" in References(s.properties) {
      errors := errors + [ReferencesDiffer];
    }
    if s.crossAllocations != 0 {
      errors := errors + [CrossPropertyAllocation];
    }
    if CreateVerifiedDuplicate !in s.auditActions {
      errors := errors + [CreationEventMissing];
    }
    if MarkVerifiedDuplicate !in s.auditActions {
      errors := errors + [MarkEventMissing];
    }
    if requireBackup && !BackupFollowsApproval(s) {
      errors := errors + [BackupNotAfterApproval];
    }
  }
}
