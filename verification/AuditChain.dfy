/** The append-only, hash-chained audit log and its verifier. */
module AuditChain {
  import opened Wrappers

  // ---------- Data ----------

  datatype Origin = LEGACY_BACKFILL | LIVE | UnknownOrigin

  datatype Action = Phase1CredentialRotation | Phase6Reconciliation | OtherAction(code: int)

  datatype Table = SystemSecurity | PropertyBillings | Payments | ReceiptHistory | OtherTable(code: int)

  /** The canonical JSON of the recorded values, kept in structured form. */
  datatype Details =
    | NoDetails
    | Rotation(rotationId: string, sessionsRevoked: nat)
    | Charges(penalty: int, discount: int)
    | TaxYear(year: Option<string>)
    | PaymentReference(paymentId: Option<int>)
    | OtherDetails(code: int)

  /** Everything the hash of an event covers besides the previous hash. */
  datatype Payload = Payload(
    uuid: nat, action: Action, table: Table, record: Option<int>,
    oldValues: Details, newValues: Details, time: int, origin: Origin)

  /** SHA-256 as a free hash: injective, and never the genesis value. */
  datatype Hash = Genesis | Digest(previous: Hash, payload: Payload)

  datatype Row = Row(id: int, payload: Payload, previous: Option<Hash>, current: Option<Hash>)

  datatype Head = Head(
    id: Option<int>, hash: Hash, version: int,
    legacyCount: nat, legacyId: Option<int>, legacyHash: Option<Hash>)

  /** audit_logs in id order, the head record, and the next automatic id. */
  datatype Log = Log(rows: seq<Row>, head: Option<Head>, nextId: int)

  datatype ChainError = NotInitialized | HeadMismatch

  const CHAIN_VERSION := 1

  /** SELECT MAX(id) */
  function LatestId(rows: seq<Row>): Option<int> {
    if rows == [] then None else Some(rows[|rows| - 1].id)
  }

  /** The head record exists and names the latest row. */
  predicate Ready(log: Log) {
    log.head.Some? && log.head.value.id == LatestId(log.rows)
  }

  /** Appends one event and advances the head, or refuses a log that is not at its head. */
  function Append(log: Log, payload: Payload): Result<Log, ChainError> {
    if log.head.None? then Err(NotInitialized)
    else if LatestId(log.rows) != log.head.value.id then Err(HeadMismatch)
    else
      var previous := log.head.value.hash;
      var current := Digest(previous, payload);
      var row := Row(log.nextId, payload, Some(previous), Some(current));
      Ok(Log(log.rows + [row],
             Some(log.head.value.(id := Some(row.id), hash := current)),
             log.nextId + 1))
  }

  // ---------- What a verified log is ----------

  function TipHash(rows: seq<Row>): Hash {
    if rows == [] then Genesis else rows[|rows| - 1].current.GetOr(Genesis)
  }

  /** Every row names its predecessor's hash and carries its own. */
  ghost predicate Linked(rows: seq<Row>) {
    rows == [] ||
    var init, last := rows[..|rows| - 1], rows[|rows| - 1];
    && Linked(init)
    && last.previous == Some(TipHash(init))
    && last.current == Some(Digest(TipHash(init), last.payload))
  }

  ghost predicate DistinctEvents(rows: seq<Row>) {
    forall i, j :: 0 <= i < j < |rows| ==> rows[i].payload.uuid != rows[j].payload.uuid
  }

  /** No legacy event follows a live one. */
  ghost predicate LegacyFirst(rows: seq<Row>) {
    forall i, j :: 0 <= i < j < |rows| && rows[i].payload.origin == LIVE ==>
      rows[j].payload.origin != LEGACY_BACKFILL
  }

  function LegacyRows(rows: seq<Row>): seq<Row> {
    if rows == [] then []
    else
      var last := rows[|rows| - 1];
      LegacyRows(rows[..|rows| - 1]) + if last.payload.origin == LEGACY_BACKFILL then [last] else []
  }

  ghost predicate SoundRows(rows: seq<Row>) {
    Linked(rows) && DistinctEvents(rows) && LegacyFirst(rows)
  }

  ghost predicate HeadMatches(head: Head, rows: seq<Row>) {
    var legacy := LegacyRows(rows);
    && head.id == LatestId(rows)
    && head.hash == TipHash(rows)
    && head.version == CHAIN_VERSION
    && head.legacyCount == |legacy|
    && head.legacyId == LatestId(legacy)
    && head.legacyHash == if legacy == [] then None else legacy[|legacy| - 1].current
  }

  ghost predicate Verified(log: Log) {
    SoundRows(log.rows) && log.head.Some? && HeadMatches(log.head.value, log.rows)
  }

  lemma DistinctExtends(rows: seq<Row>, last: Row)
    ensures DistinctEvents(rows + [last]) <==>
      DistinctEvents(rows) && forall i :: 0 <= i < |rows| ==> rows[i].payload.uuid != last.payload.uuid
  {
    var all := rows + [last];
    assert all[|rows|] == last && forall i :: 0 <= i < |rows| ==> all[i] == rows[i];
  }

  lemma LegacyFirstExtends(rows: seq<Row>, last: Row)
    ensures LegacyFirst(rows + [last]) <==>
      LegacyFirst(rows) &&
      (last.payload.origin == LEGACY_BACKFILL ==> forall i :: 0 <= i < |rows| ==> rows[i].payload.origin != LIVE)
  {
    var all := rows + [last];
    assert all[|rows|] == last && forall i :: 0 <= i < |rows| ==> all[i] == rows[i];
  }

  lemma SoundExtends(rows: seq<Row>, last: Row)
    ensures LegacyRows(rows + [last]) ==
      LegacyRows(rows) + if last.payload.origin == LEGACY_BACKFILL then [last] else []
    ensures SoundRows(rows + [last]) <==>
      && SoundRows(rows)
      && last.previous == Some(TipHash(rows))
      && last.current == Some(Digest(TipHash(rows), last.payload))
      && (forall i :: 0 <= i < |rows| ==> rows[i].payload.uuid != last.payload.uuid)
      && (last.payload.origin == LEGACY_BACKFILL ==> forall i :: 0 <= i < |rows| ==> rows[i].payload.origin != LIVE)
  {
    hide DistinctEvents, LegacyFirst;
    assert (rows + [last])[..|rows|] == rows;
    DistinctExtends(rows, last);
    LegacyFirstExtends(rows, last);
  }

  /** One row of the verification loop. */
  datatype Scan = Scan(
    failures: nat, expected: Hash, legacyCount: nat, seen: set<nat>, seenLive: bool,
    legacyHead: Option<Row>)

  ghost predicate ScanInvariant(s: Scan, rows: seq<Row>) {
    && (s.failures == 0 <==> SoundRows(rows))
    && s.legacyCount == |LegacyRows(rows)|
    && (s.seenLive <==> exists i :: 0 <= i < |rows| && rows[i].payload.origin == LIVE)
    && (s.failures == 0 ==>
          && s.expected == TipHash(rows)
          && (forall i :: 0 <= i < |rows| ==> rows[i].payload.uuid in s.seen)
          && (forall u :: u in s.seen ==> exists i :: 0 <= i < |rows| && rows[i].payload.uuid == u)
          && s.legacyHead == if LegacyRows(rows) == [] then None else Some(LegacyRows(rows)[|LegacyRows(rows)| - 1]))
  }

  method ScanRow(s: Scan, row: Row, ghost before: seq<Row>) returns (s': Scan)
    requires ScanInvariant(s, before)
    ensures ScanInvariant(s', before + [row])
  {
    SoundExtends(before, row);
    var failures, legacyCount, seenLive := s.failures, s.legacyCount, s.seenLive;
    if row.payload.origin == LEGACY_BACKFILL {
      legacyCount := legacyCount + 1;
      if seenLive {
        failures := failures + 1;
      }
    } else if row.payload.origin == LIVE {
      seenLive := true;
      assert (before + [row])[|before|].payload.origin == LIVE;
    }
    assert forall i :: 0 <= i < |before| ==> (before + [row])[i] == before[i];
    if row.previous.None? || row.current.None? {
      s' := Scan(failures + 1, row.current.GetOr(s.expected), legacyCount, s.seen, seenLive, s.legacyHead);
      return;
    }
    if row.payload.uuid in s.seen {
      failures := failures + 1;
    }
    if row.previous.value != s.expected {
      failures := failures + 1;
    }
    if Digest(row.previous.value, row.payload) != row.current.value {
      failures := failures + 1;
    }
    s' := Scan(failures, row.current.value, legacyCount, s.seen + {row.payload.uuid}, seenLive,
               if row.payload.origin == LEGACY_BACKFILL then Some(row) else s.legacyHead);
    assert (before + [row])[|before|] == row;
  }

  /** Counts the failures of a log; there are none exactly when it is verified. */
  method VerifyAuditChain(log: Log) returns (failures: nat)
    ensures failures == 0 <==> Verified(log)
  {
    var s := Scan(0, Genesis, 0, {}, false, None);
    for i := 0 to |log.rows|
      invariant ScanInvariant(s, log.rows[..i])
    {
      assert log.rows[..i + 1] == log.rows[..i] + [log.rows[i]];
      s := ScanRow(s, log.rows[i], log.rows[..i]);
    }
    assert log.rows[..|log.rows|] == log.rows;
    failures := s.failures;
    if log.head.None? {
      failures := failures + 1;
    } else {
      var head := log.head.value;
      if head.id != LatestId(log.rows) {
        failures := failures + 1;
      }
      if head.hash != (if log.rows == [] then Genesis else s.expected) {
        failures := failures + 1;
      }
      if head.legacyCount != s.legacyCount {
        failures := failures + 1;
      }
      if head.legacyId != (if s.legacyHead.Some? then Some(s.legacyHead.value.id) else None) {
        failures := failures + 1;
      }
      if head.legacyHash != (if s.legacyHead.Some? then s.legacyHead.value.current else None) {
        failures := failures + 1;
      }
      if head.version != CHAIN_VERSION {
        failures := failures + 1;
      }
    }
  }

  // ---------- Theorems ----------

  /** A live event with a new identifier is accepted by a verified log and leaves it verified. */
  lemma AppendKeepsVerified(log: Log, payload: Payload)
    requires Verified(log) && payload.origin != LEGACY_BACKFILL
    requires forall i :: 0 <= i < |log.rows| ==> log.rows[i].payload.uuid != payload.uuid
    ensures Append(log, payload).Ok? && Verified(Append(log, payload).value)
  {
    var after := Append(log, payload).value;
    SoundExtends(log.rows, after.rows[|log.rows|]);
  }

  /** The event is not a legacy one, and its identifier is new. */
  predicate FitFor(rows: seq<Row>, payload: Payload) {
    payload.origin != LEGACY_BACKFILL && forall i :: 0 <= i < |rows| ==> rows[i].payload.uuid != payload.uuid
  }

  lemma FitIsAppended(log: Log, payload: Payload)
    requires Verified(log) && FitFor(log.rows, payload)
    ensures Append(log, payload).Ok? && Verified(Append(log, payload).value)
  {
    hide Append, Verified;
    AppendKeepsVerified(log, payload);
  }

  /** A verified log stays verified with exactly the events that are fit for it. */
  lemma AppendVerifiedExactly(log: Log, payload: Payload)
    requires Verified(log)
    ensures Append(log, payload).Ok?
    ensures Verified(Append(log, payload).value) <==> FitFor(log.rows, payload)
  {
    if Verified(Append(log, payload).value) {
      hide LegacyFirst, DistinctEvents, Linked, TipHash;
      SoundExtends(log.rows, Append(log, payload).value.rows[|log.rows|]);
    } else {
      hide Append, Verified, FitFor;
      if FitFor(log.rows, payload) {
        FitIsAppended(log, payload);
      }
    }
  }

  // ---------- A verified log, row by row ----------

  function HashBefore(rows: seq<Row>, i: nat): Option<Hash>
    requires i <= |rows|
  {
    if i == 0 then Some(Genesis) else rows[i - 1].current
  }

  /** Row i is chained to the row before it. */
  predicate Chained(rows: seq<Row>, i: nat)
    requires i < |rows|
  {
    && rows[i].previous.Some? && rows[i].previous == HashBefore(rows, i)
    && rows[i].current == Some(Digest(rows[i].previous.value, rows[i].payload))
  }

  /** The hash that the next row must name, once the rows so far are chained. */
  lemma ChainedTip(rows: seq<Row>, n: nat)
    requires n <= |rows| && (n > 0 ==> Chained(rows, n - 1))
    ensures HashBefore(rows, n) == Some(TipHash(rows[..n]))
  {
  }

  lemma {:induction false} LinkedExactly(rows: seq<Row>)
    ensures Linked(rows) <==> forall i :: 0 <= i < |rows| ==> Chained(rows, i)
  {
    hide TipHash, HashBefore;
    if rows != [] {
      var n := |rows| - 1;
      var init := rows[..n];
      LinkedExactly(init);
      forall i | 0 <= i < n ensures Chained(rows, i) <==> Chained(init, i) {
        SameBefore(rows, n, i);
      }
      if n == 0 || Chained(rows, n - 1) {
        ChainedTip(rows, n);
        assert Chained(rows, n) ==> rows[n].previous == Some(TipHash(init));
      }
      if Linked(rows) {
        assert n > 0 ==> Chained(init, n - 1);
      }
    }
  }

  lemma SameBefore(rows: seq<Row>, n: nat, i: nat)
    requires i < n <= |rows|
    ensures HashBefore(rows[..n], i) == HashBefore(rows, i)
  {
  }

  /** The positions of the legacy rows. */
  function LegacyAt(rows: seq<Row>): set<int> {
    set i | 0 <= i < |rows| && rows[i].payload.origin == LEGACY_BACKFILL
  }

  predicate IsLastLegacy(rows: seq<Row>, i: int) {
    0 <= i < |rows| && i in LegacyAt(rows) && forall j :: j in LegacyAt(rows) ==> j <= i
  }

  lemma LegacyStep(rows: seq<Row>)
    requires rows != []
    ensures var n := |rows| - 1;
      LegacyAt(rows) == LegacyAt(rows[..n]) + if rows[n].payload.origin == LEGACY_BACKFILL then {n} else {}
  {
  }

  lemma {:induction false} LegacyCounted(rows: seq<Row>)
    ensures |LegacyRows(rows)| == |LegacyAt(rows)|
  {
    if rows != [] {
      LegacyCounted(rows[..|rows| - 1]);
      LegacyStep(rows);
    }
  }

  lemma {:induction false} LastLegacy(rows: seq<Row>) returns (i: nat)
    requires LegacyRows(rows) != []
    ensures IsLastLegacy(rows, i) && rows[i] == LegacyRows(rows)[|LegacyRows(rows)| - 1]
  {
    var n := |rows| - 1;
    if rows[n].payload.origin == LEGACY_BACKFILL {
      i := n;
    } else {
      i := LastLegacy(rows[..n]);
      LegacyStep(rows);
    }
  }

  /** The head record of the latest row, and of the legacy rows. */
  ghost predicate HeadNames(head: Head, rows: seq<Row>) {
    && head.version == 1 && head.legacyCount == |LegacyAt(rows)|
    && (if rows == [] then head.id == None && head.hash == Genesis
        else head.id == Some(rows[|rows| - 1].id) && Some(head.hash) == rows[|rows| - 1].current)
    && (LegacyAt(rows) == {} ==> head.legacyId == None && head.legacyHash == None)
    && forall i :: IsLastLegacy(rows, i) ==> head.legacyId == Some(rows[i].id) && head.legacyHash == rows[i].current
  }

  lemma LegacyHeadExactly(head: Head, rows: seq<Row>)
    ensures var legacy := LegacyRows(rows);
      (&& head.legacyId == LatestId(legacy)
       && head.legacyHash == (if legacy == [] then None else legacy[|legacy| - 1].current)) <==>
      (&& (LegacyAt(rows) == {} ==> head.legacyId == None && head.legacyHash == None)
       && forall i :: IsLastLegacy(rows, i) ==> head.legacyId == Some(rows[i].id) && head.legacyHash == rows[i].current)
  {
    hide LegacyAt, LegacyRows;
    LegacyCounted(rows);
    var legacy := LegacyRows(rows);
    if legacy != [] {
      var i := LastLegacy(rows);
      forall k | IsLastLegacy(rows, k) ensures k == i {
      }
    }
  }

  /**
   * A log is verified exactly when every row is chained to the one before it, event identifiers
   * differ, legacy rows come before live ones, and the head record names the last rows.
   */
  lemma VerifiedExactly(log: Log)
    ensures Verified(log) <==>
      && (forall i :: 0 <= i < |log.rows| ==> Chained(log.rows, i))
      && (forall i, j :: 0 <= i < |log.rows| && 0 <= j < |log.rows| && i != j ==>
            log.rows[i].payload.uuid != log.rows[j].payload.uuid)
      && (forall i, j | 0 <= i < |log.rows| && 0 <= j < |log.rows| ::
            log.rows[i].payload.origin == LIVE && log.rows[j].payload.origin == LEGACY_BACKFILL ==> j < i)
      && log.head.Some? && HeadNames(log.head.value, log.rows)
  {
    hide LegacyAt, LegacyRows, Linked, Chained;
    LinkedExactly(log.rows);
    LegacyCounted(log.rows);
    TipIsLast(log.rows);
    if log.head.Some? {
      LegacyHeadExactly(log.head.value, log.rows);
    }
  }

  lemma TipIsLast(rows: seq<Row>)
    ensures Linked(rows) && rows != [] ==> Some(TipHash(rows)) == rows[|rows| - 1].current
  {
  }

  /** Two verified logs with the same rows have the same head record. */
  lemma HeadIsDetermined(a: Log, b: Log)
    requires Verified(a) && Verified(b) && a.rows == b.rows
    ensures a.head == b.head
  {
  }

  /** The new row names the old head's hash, and the new head names the new row. */
  lemma AppendLinksToHead(log: Log, payload: Payload)
    ensures Append(log, payload).Ok? <==> Ready(log)
    ensures Append(log, payload) == Err(NotInitialized) <==> log.head.None?
    ensures Append(log, payload).Ok? ==> Ready(Append(log, payload).value)
    ensures Append(log, payload).Ok? ==>
      var after := Append(log, payload).value;
      var row := after.rows[|after.rows| - 1];
      && after.rows[..|after.rows| - 1] == log.rows
      && row.payload == payload && row.previous == Some(log.head.value.hash)
      && row.id == log.nextId && after.nextId == log.nextId + 1
      && after.head.value.id == LatestId(after.rows) && Some(after.head.value.hash) == row.current
  {
  }

  function Payloads(rows: seq<Row>): (payloads: seq<Payload>)
    ensures |payloads| == |rows| && forall i :: 0 <= i < |rows| ==> payloads[i] == rows[i].payload
  {
    seq(|rows|, i requires 0 <= i < |rows| => rows[i].payload)
  }

  lemma {:induction false} TipDeterminesRows(a: seq<Row>, b: seq<Row>)
    requires Linked(a) && Linked(b) && TipHash(a) == TipHash(b)
    ensures Payloads(a) == Payloads(b)
  {
    if a != [] && b != [] {
      TipDeterminesRows(a[..|a| - 1], b[..|b| - 1]);
      var n := |a| - 1;
      assert Payloads(a) == Payloads(a[..n]) + [a[n].payload];
      assert Payloads(b) == Payloads(b[..n]) + [b[n].payload];
    }
  }

  /** Two verified logs with the same head hash record the same events in the same order. */
  lemma HeadDeterminesEvents(a: Log, b: Log)
    requires Verified(a) && Verified(b) && a.head.value.hash == b.head.value.hash
    ensures Payloads(a.rows) == Payloads(b.rows)
  {
    TipDeterminesRows(a.rows, b.rows);
  }
}
