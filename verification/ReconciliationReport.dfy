/** The read-only reconciliation report: what it evaluates, what it finds, and its gate status. */
module ReconciliationReport {
  import opened Wrappers
  import opened Sums
  import opened Ledger

  // ---------- The catalogue of the database ----------

  datatype TableName =
    | PROPERTIES | PAYMENTS | PROPERTY_BILLINGS | PAYMENT_BILLINGS | PROPERTY_ASSESSMENT_HISTORY | RECEIPT_HISTORY
    | SYSTEM_MIGRATIONS

  datatype Column =
    | ID | TD_NUMBER | DELETED_AT | PREVIOUS_PROPERTY_ID | DUPLICATE_TD_VERIFIED | DUPLICATE_TD_REASON
    | DUPLICATE_TD_REFERENCE | DUPLICATE_TD_APPROVED_BY | DUPLICATE_TD_APPROVED_AT
    | PROPERTY_ID | PAYMENT_ID | BILLING_ID | AMOUNT | PENALTY | DISCOUNT | OR_NUMBER | TAX_YEAR | DATE_PAID
    | ASSESSED_VALUE | AMOUNT_PAID

  datatype ForeignKey = ForeignKey(table: TableName, column: Column, referred: TableName)

  /** What the inspector reports; every foreign key refers to an id column. */
  datatype Catalog = Catalog(
    tables: set<TableName>, columns: map<TableName, set<Column>>, decimals: set<(TableName, Column)>,
    uniqueIndexes: set<(TableName, seq<Column>)>, foreignKeys: set<ForeignKey>,
    receiptPaymentSetNull: bool, phase3Recorded: bool)
  {
    function ColumnsOf(t: TableName): set<Column> {
      if t in columns then columns[t] else {}
    }
  }

  datatype Database = Database(catalog: Catalog, store: Store)

  const REQUIRED_TABLES: set<TableName> :=
    {PROPERTIES, PAYMENTS, PROPERTY_BILLINGS, PAYMENT_BILLINGS, PROPERTY_ASSESSMENT_HISTORY, RECEIPT_HISTORY,
     SYSTEM_MIGRATIONS}

  function RequiredColumns(t: TableName): set<Column> {
    match t
    case PROPERTIES =>
      {ID, TD_NUMBER, DELETED_AT, PREVIOUS_PROPERTY_ID, DUPLICATE_TD_VERIFIED, DUPLICATE_TD_REASON,
       DUPLICATE_TD_REFERENCE, DUPLICATE_TD_APPROVED_BY, DUPLICATE_TD_APPROVED_AT}
    case PAYMENTS => {ID, PROPERTY_ID, AMOUNT, PENALTY, DISCOUNT, OR_NUMBER, TAX_YEAR, DATE_PAID}
    case PROPERTY_BILLINGS => {ID, PROPERTY_ID, TAX_YEAR, ASSESSED_VALUE, PENALTY, DISCOUNT, AMOUNT_PAID}
    case PAYMENT_BILLINGS => {ID, PAYMENT_ID, BILLING_ID, TAX_YEAR, AMOUNT_PAID}
    case PROPERTY_ASSESSMENT_HISTORY => {ID, PROPERTY_ID}
    case RECEIPT_HISTORY => {ID, PROPERTY_ID, PAYMENT_ID, AMOUNT}
    case SYSTEM_MIGRATIONS => {ID}
  }

  /** The tables in the order in which they are visited. */
  const SORTED_TABLES: seq<TableName> :=
    [PAYMENT_BILLINGS, PAYMENTS, PROPERTIES, PROPERTY_ASSESSMENT_HISTORY, PROPERTY_BILLINGS, RECEIPT_HISTORY,
     SYSTEM_MIGRATIONS]

  const REQUIRED_UNIQUE_INDEXES: seq<(TableName, seq<Column>)> :=
    [(PAYMENT_BILLINGS, [PAYMENT_ID, BILLING_ID]),
     (PAYMENTS, [PROPERTY_ID, OR_NUMBER, TAX_YEAR, DATE_PAID]),
     (PROPERTY_BILLINGS, [PROPERTY_ID, TAX_YEAR])]

  const REQUIRED_FOREIGN_KEYS: set<ForeignKey> :=
    {ForeignKey(PAYMENTS, PROPERTY_ID, PROPERTIES), ForeignKey(PROPERTY_BILLINGS, PROPERTY_ID, PROPERTIES),
     ForeignKey(PAYMENT_BILLINGS, PAYMENT_ID, PAYMENTS), ForeignKey(PAYMENT_BILLINGS, BILLING_ID, PROPERTY_BILLINGS),
     ForeignKey(RECEIPT_HISTORY, PROPERTY_ID, PROPERTIES),
     ForeignKey(PROPERTY_ASSESSMENT_HISTORY, PROPERTY_ID, PROPERTIES)}

  /** The monetary columns, table by table. */
  const MONEY_COLUMNS: seq<(TableName, Column)> :=
    [(PAYMENT_BILLINGS, AMOUNT_PAID),
     (PAYMENTS, AMOUNT), (PAYMENTS, DISCOUNT), (PAYMENTS, PENALTY),
     (PROPERTY_BILLINGS, AMOUNT_PAID), (PROPERTY_BILLINGS, ASSESSED_VALUE), (PROPERTY_BILLINGS, DISCOUNT),
     (PROPERTY_BILLINGS, PENALTY),
     (RECEIPT_HISTORY, AMOUNT)]

  datatype SchemaStatus = SchemaStatus(
    missingTables: set<TableName>, missingColumns: set<(TableName, Column)>,
    missingIndexes: set<(TableName, seq<Column>)>, missingForeignKeys: set<ForeignKey>,
    missingMoneyColumns: seq<(TableName, Column)>, nonDecimalMoneyColumns: seq<(TableName, Column)>,
    receiptPaymentForeignKey: bool, migrationApplied: bool)

  function MissingColumns(catalog: Catalog): set<(TableName, Column)> {
    set t, c | t in catalog.tables && c in RequiredColumns(t) - catalog.ColumnsOf(t) :: (t, c)
  }

  predicate HasColumn(catalog: Catalog, money: (TableName, Column)) {
    money.0 in catalog.tables && money.1 in catalog.ColumnsOf(money.0)
  }

  function MissingMoney(catalog: Catalog, n: nat): seq<(TableName, Column)>
    requires n <= |MONEY_COLUMNS|
  {
    if n == 0 then []
    else
      MissingMoney(catalog, n - 1) + if !HasColumn(catalog, MONEY_COLUMNS[n - 1]) then [MONEY_COLUMNS[n - 1]] else []
  }

  function NonDecimalMoney(catalog: Catalog, n: nat): seq<(TableName, Column)>
    requires n <= |MONEY_COLUMNS|
  {
    if n == 0 then []
    else
      var money := MONEY_COLUMNS[n - 1];
      NonDecimalMoney(catalog, n - 1)
      + if HasColumn(catalog, money) && money !in catalog.decimals then [money] else []
  }

  function SchemaOf(catalog: Catalog): SchemaStatus {
    SchemaStatus(
      REQUIRED_TABLES - catalog.tables,
      MissingColumns(catalog),
      set x | x in REQUIRED_UNIQUE_INDEXES && (x.0 !in catalog.tables || x !in catalog.uniqueIndexes) :: x,
      set k | k in REQUIRED_FOREIGN_KEYS && (k.table !in catalog.tables || k !in catalog.foreignKeys) :: k,
      MissingMoney(catalog, |MONEY_COLUMNS|),
      NonDecimalMoney(catalog, |MONEY_COLUMNS|),
      RECEIPT_HISTORY in catalog.tables && catalog.receiptPaymentSetNull,
      SYSTEM_MIGRATIONS in catalog.tables && ID in catalog.ColumnsOf(SYSTEM_MIGRATIONS) && catalog.phase3Recorded)
  }

  lemma EveryTableSorted(t: TableName)
    ensures t in SORTED_TABLES
  {
    assert SORTED_TABLES[0] == PAYMENT_BILLINGS && SORTED_TABLES[1] == PAYMENTS && SORTED_TABLES[2] == PROPERTIES;
    assert SORTED_TABLES[3] == PROPERTY_ASSESSMENT_HISTORY && SORTED_TABLES[4] == PROPERTY_BILLINGS;
    assert SORTED_TABLES[5] == RECEIPT_HISTORY && SORTED_TABLES[6] == SYSTEM_MIGRATIONS;
  }

  method ListMissingColumns(catalog: Catalog) returns (missing: set<(TableName, Column)>)
    ensures missing == MissingColumns(catalog)
  {
    hide RequiredColumns, SORTED_TABLES;
    missing := {};
    for i := 0 to |SORTED_TABLES|
      invariant forall t, c :: (t, c) in missing <==>
        t in SORTED_TABLES[..i] && t in catalog.tables && c in RequiredColumns(t) - catalog.ColumnsOf(t)
    {
      var table := SORTED_TABLES[i];
      if table in catalog.tables {
        missing := missing + set c | c in RequiredColumns(table) - catalog.ColumnsOf(table) :: (table, c);
      }
    }
    forall t: TableName ensures t in SORTED_TABLES[..|SORTED_TABLES|] {
      EveryTableSorted(t);
    }
    forall x ensures x in missing <==> x in MissingColumns(catalog) {
      assert x == (x.0, x.1);
    }
  }

  method ListMissingIndexes(catalog: Catalog) returns (missing: set<(TableName, seq<Column>)>)
    ensures missing == SchemaOf(catalog).missingIndexes
  {
    hide REQUIRED_UNIQUE_INDEXES, MissingMoney, NonDecimalMoney, MissingColumns;
    missing := {};
    for i := 0 to |REQUIRED_UNIQUE_INDEXES|
      invariant forall x :: x in missing <==>
        x in REQUIRED_UNIQUE_INDEXES[..i] && (x.0 !in catalog.tables || x !in catalog.uniqueIndexes)
    {
      var index := REQUIRED_UNIQUE_INDEXES[i];
      if index.0 !in catalog.tables || index !in catalog.uniqueIndexes {
        missing := missing + {index};
      }
    }
    assert REQUIRED_UNIQUE_INDEXES[..|REQUIRED_UNIQUE_INDEXES|] == REQUIRED_UNIQUE_INDEXES;
  }

  /** Collects the foreign keys of the tables that need one, and compares. */
  method ListMissingForeignKeys(catalog: Catalog) returns (missing: set<ForeignKey>)
    ensures missing == SchemaOf(catalog).missingForeignKeys
  {
    hide REQUIRED_FOREIGN_KEYS, SORTED_TABLES, MissingMoney, NonDecimalMoney, MissingColumns;
    var keyed := set k | k in REQUIRED_FOREIGN_KEYS :: k.table;
    var actual: set<ForeignKey> := {};
    for i := 0 to |SORTED_TABLES|
      invariant forall k :: k in actual <==>
        k in catalog.foreignKeys && k.table in SORTED_TABLES[..i] && k.table in catalog.tables * keyed
    {
      var table := SORTED_TABLES[i];
      if table in catalog.tables * keyed {
        actual := actual + set k | k in catalog.foreignKeys && k.table == table :: k;
      }
    }
    forall t: TableName ensures t in SORTED_TABLES[..|SORTED_TABLES|] {
      EveryTableSorted(t);
    }
    missing := REQUIRED_FOREIGN_KEYS - actual;
  }

  method ListMoneyColumns(catalog: Catalog)
    returns (missing: seq<(TableName, Column)>, nonDecimal: seq<(TableName, Column)>)
    ensures missing == MissingMoney(catalog, |MONEY_COLUMNS|)
    ensures nonDecimal == NonDecimalMoney(catalog, |MONEY_COLUMNS|)
  {
    missing, nonDecimal := [], [];
    for i := 0 to |MONEY_COLUMNS|
      invariant missing == MissingMoney(catalog, i) && nonDecimal == NonDecimalMoney(catalog, i)
    {
      var money := MONEY_COLUMNS[i];
      if money.0 !in catalog.tables {
        missing := missing + [money];
      } else if money.1 !in catalog.ColumnsOf(money.0) {
        missing := missing + [money];
      } else if money !in catalog.decimals {
        nonDecimal := nonDecimal + [money];
      }
    }
  }

  method CaptureSchemaStatus(catalog: Catalog) returns (status: SchemaStatus)
    ensures status == SchemaOf(catalog)
  {
    hide MissingColumns, MissingMoney, NonDecimalMoney, REQUIRED_TABLES, REQUIRED_UNIQUE_INDEXES,
         REQUIRED_FOREIGN_KEYS, MONEY_COLUMNS;
    var missingColumns := ListMissingColumns(catalog);
    var missingIndexes := ListMissingIndexes(catalog);
    var missingForeignKeys := ListMissingForeignKeys(catalog);
    var receiptPayment := false;
    if RECEIPT_HISTORY in catalog.tables {
      receiptPayment := catalog.receiptPaymentSetNull;
    }
    var missingMoney, nonDecimal := ListMoneyColumns(catalog);
    var migrationApplied := false;
    if SYSTEM_MIGRATIONS in catalog.tables && ID in catalog.ColumnsOf(SYSTEM_MIGRATIONS) {
      migrationApplied := catalog.phase3Recorded;
    }
    status := SchemaStatus(REQUIRED_TABLES - catalog.tables, missingColumns, missingIndexes, missingForeignKeys,
                           missingMoney, nonDecimal, receiptPayment, migrationApplied);
  }

  // ---------- The snapshot ----------

  datatype FinancialInvariant =
    | DuplicatePaymentIdentity | DuplicatePaymentAllocations | CrossPropertyAllocations | UnbalancedPaymentAllocations

  const INVARIANTS: seq<FinancialInvariant> :=
    [DuplicatePaymentIdentity, DuplicatePaymentAllocations, CrossPropertyAllocations, UnbalancedPaymentAllocations]

  /** The (payment, billing) pairs that more than one allocation has. */
  function DuplicateAllocations(allocations: seq<Allocation>): set<(int, int)> {
    set i, j | 0 <= i < |allocations| && 0 <= j < |allocations| && i != j
        && allocations[i].paymentId == allocations[j].paymentId && allocations[i].billingId == allocations[j].billingId
      :: (allocations[i].paymentId, allocations[i].billingId)
  }

  predicate CrossesProperties(s: Store, a: Allocation) {
    exists i, j :: 0 <= i < |s.payments| && 0 <= j < |s.billings|
      && s.payments[i].id == a.paymentId && s.billings[j].id == a.billingId
      && s.payments[i].propertyId != s.billings[j].propertyId
  }

  function AllocatedFrom(s: Store, paymentId: int): int {
    SumBy(s.allocations, (a: Allocation) => if a.paymentId == paymentId then a.amountPaid else 0)
  }

  function InvariantCount(s: Store, v: FinancialInvariant): nat {
    match v
    case DuplicatePaymentIdentity => |DuplicateIdentities(s.payments)|
    case DuplicatePaymentAllocations => |DuplicateAllocations(s.allocations)|
    case CrossPropertyAllocations => CountBy(s.allocations, (a: Allocation) => CrossesProperties(s, a))
    case UnbalancedPaymentAllocations => CountBy(s.payments, (p: Payment) => p.amount != AllocatedFrom(s, p.id))
  }

  /** The tables that a count check reads. */
  function TablesOf(c: Check): set<TableName> {
    match c
    case OrphanPayments => {PAYMENTS, PROPERTIES}
    case OrphanBillings => {PROPERTY_BILLINGS, PROPERTIES}
    case OrphanAllocationsPayment => {PAYMENT_BILLINGS, PAYMENTS}
    case OrphanAllocationsBilling => {PAYMENT_BILLINGS, PROPERTY_BILLINGS}
    case AllocationTaxYearMismatch => {PAYMENT_BILLINGS, PROPERTY_BILLINGS}
    case DuplicateBillingIdentity => {PROPERTY_BILLINGS}
    case InvalidPaymentAmount => {PAYMENTS}
    case InvalidAllocationAmount => {PAYMENT_BILLINGS}
    case InvalidBillingAmount => {PROPERTY_BILLINGS}
    case BillingPaidMismatch => {PROPERTY_BILLINGS, PAYMENT_BILLINGS}
    case BillingChargeSummaryMismatch => {PROPERTY_BILLINGS, PAYMENT_BILLINGS, PAYMENTS}
    case ReceiptMissingPayment => {RECEIPT_HISTORY, PAYMENTS}
    case ReceiptCrossProperty => {RECEIPT_HISTORY, PAYMENTS}
    case AssessmentHistoryMissingProperty => {PROPERTY_ASSESSMENT_HISTORY, PROPERTIES}
    case SelfReferentialPropertyLineage => {PROPERTIES}
    case IncompletePaymentIdentity => {PAYMENTS}
  }

  const CORE_TABLES: set<TableName> := {PAYMENTS, PROPERTY_BILLINGS, PAYMENT_BILLINGS}

  function InvalidTables(catalog: Catalog): set<TableName> {
    set m | m in MissingColumns(catalog) :: m.0
  }

  predicate Usable(catalog: Catalog, tables: set<TableName>) {
    tables <= catalog.tables && tables * InvalidTables(catalog) == {}
  }

  lemma UsableOne(catalog: Catalog, t: TableName)
    ensures Usable(catalog, {t}) <==> t in catalog.tables && t !in InvalidTables(catalog)
  {
    hide InvalidTables;
    if t !in InvalidTables(catalog) {
      assert {t} * InvalidTables(catalog) == {};
    } else {
      assert t in {t} * InvalidTables(catalog);
    }
  }

  datatype Totals = Totals(payments: int, allocations: int, billings: int) {
    function PaymentVariance(): int {
      payments - allocations
    }

    function BillingVariance(): int {
      billings - allocations
    }
  }

  function PaymentTotal(s: Store): int {
    SumBy(s.payments, (p: Payment) => p.amount)
  }

  function AllocationTotal(s: Store): int {
    SumBy(s.allocations, (a: Allocation) => a.amountPaid)
  }

  function BillingTotal(s: Store): int {
    SumBy(s.billings, (b: Billing) => b.amountPaid)
  }

  method FinancialTotals(db: Database) returns (totals: Totals)
    ensures totals.payments == if Usable(db.catalog, {PAYMENTS}) then PaymentTotal(db.store) else 0
    ensures totals.allocations == if Usable(db.catalog, {PAYMENT_BILLINGS}) then AllocationTotal(db.store) else 0
    ensures totals.billings == if Usable(db.catalog, {PROPERTY_BILLINGS}) then BillingTotal(db.store) else 0
  {
    hide InvalidTables, Usable;
    UsableOne(db.catalog, PAYMENTS);
    UsableOne(db.catalog, PAYMENT_BILLINGS);
    UsableOne(db.catalog, PROPERTY_BILLINGS);
    var payments, allocations, billings := 0, 0, 0;
    var invalid := InvalidTables(db.catalog);
    if PAYMENTS in db.catalog.tables && PAYMENTS !in invalid {
      payments := PaymentTotal(db.store);
    }
    if PAYMENT_BILLINGS in db.catalog.tables && PAYMENT_BILLINGS !in invalid {
      allocations := AllocationTotal(db.store);
    }
    if PROPERTY_BILLINGS in db.catalog.tables && PROPERTY_BILLINGS !in invalid {
      billings := BillingTotal(db.store);
    }
    totals := Totals(payments, allocations, billings);
  }

  /** None stands for a count that was not evaluated. */
  datatype Snapshot = Snapshot(
    schema: SchemaStatus, invariants: map<FinancialInvariant, Option<nat>>, counts: map<Check, Option<nat>>,
    totals: Totals, unverifiedGroups: nat)

  function TotalsOf(db: Database): Totals {
    Totals(if Usable(db.catalog, {PAYMENTS}) then PaymentTotal(db.store) else 0,
           if Usable(db.catalog, {PAYMENT_BILLINGS}) then AllocationTotal(db.store) else 0,
           if Usable(db.catalog, {PROPERTY_BILLINGS}) then BillingTotal(db.store) else 0)
  }

  function InvariantsOf(db: Database): map<FinancialInvariant, Option<nat>> {
    map v: FinancialInvariant | true ::
      if Usable(db.catalog, CORE_TABLES) then Some(InvariantCount(db.store, v)) else None
  }

  function CountsOf(db: Database): map<Check, Option<nat>> {
    map c: Check | true :: if Usable(db.catalog, TablesOf(c)) then Some(CheckCount(db.store, c)) else None
  }

  function SnapshotOf(db: Database, unverifiedGroups: nat): Snapshot {
    Snapshot(SchemaOf(db.catalog), InvariantsOf(db), CountsOf(db), TotalsOf(db), unverifiedGroups)
  }

  method CollectReconciliationSnapshot(db: Database, unverifiedGroups: nat) returns (snapshot: Snapshot)
    ensures snapshot == SnapshotOf(db, unverifiedGroups)
  {
    hide SchemaOf, Usable, InvariantCount, CheckCount;
    var schema := CaptureSchemaStatus(db.catalog);
    var totals := FinancialTotals(db);
    snapshot := Snapshot(schema, InvariantsOf(db), CountsOf(db), totals, unverifiedGroups);
  }

  // ---------- Findings ----------

  datatype Severity = CRITICAL | HIGH | MEDIUM

  datatype Code =
    | FinancialTableMissing | FinancialColumnMissing | FinancialUniqueIndexMissing | FinancialForeignKeyMissing
    | FinancialMoneyColumnMissing | FinancialMoneyTypeUnsafe
    | Phase3FinancialSchemaInactive | ReceiptPaymentForeignKeyMissing
    | InvariantViolated(violated: FinancialInvariant) | CheckFailed(check: Check) | UnverifiedDuplicateTdGroup
    | PaymentAllocationVariance | BillingAllocationVariance | AuditChainNotVerified | ReadinessBlocked(issue: string)

  datatype Finding = Finding(code: Code, severity: Severity, blocking: bool, count: Option<nat>)

  /** The integrity checks that block, in the order they are reported. */
  const BLOCKING_CHECKS: seq<Check> :=
    [OrphanPayments, OrphanBillings, OrphanAllocationsPayment, OrphanAllocationsBilling, AllocationTaxYearMismatch,
     DuplicateBillingIdentity, InvalidPaymentAmount, InvalidAllocationAmount, InvalidBillingAmount,
     BillingPaidMismatch, BillingChargeSummaryMismatch, ReceiptMissingPayment, ReceiptCrossProperty,
     AssessmentHistoryMissingProperty, SelfReferentialPropertyLineage]

  predicate Critical(c: Check) {
    c in {OrphanPayments, OrphanBillings, OrphanAllocationsPayment, OrphanAllocationsBilling, DuplicateBillingIdentity}
  }

  function SchemaLists(status: SchemaStatus): seq<(Code, Severity, nat)> {
    [(FinancialTableMissing, CRITICAL, |status.missingTables|),
     (FinancialColumnMissing, CRITICAL, |status.missingColumns|),
     (FinancialUniqueIndexMissing, HIGH, |status.missingIndexes|),
     (FinancialForeignKeyMissing, HIGH, |status.missingForeignKeys|),
     (FinancialMoneyColumnMissing, CRITICAL, |status.missingMoneyColumns|),
     (FinancialMoneyTypeUnsafe, HIGH, |status.nonDecimalMoneyColumns|)]
  }

  function ListFindings(lists: seq<(Code, Severity, nat)>): seq<Finding> {
    if lists == [] then []
    else
      var last := lists[|lists| - 1];
      ListFindings(lists[..|lists| - 1]) + if last.2 > 0 then [Finding(last.0, last.1, true, Some(last.2))] else []
  }

  function Positive(count: Option<nat>): bool {
    count.Some? && count.value > 0
  }

  function CountAt<K>(counts: map<K, Option<nat>>, k: K): Option<nat> {
    if k in counts then counts[k] else None
  }

  function InvariantFindings(counts: map<FinancialInvariant, Option<nat>>, vs: seq<FinancialInvariant>): seq<Finding> {
    if vs == [] then []
    else
      var last := vs[|vs| - 1];
      InvariantFindings(counts, vs[..|vs| - 1])
      + if Positive(CountAt(counts, last)) then
          [Finding(InvariantViolated(last), CRITICAL, true, CountAt(counts, last))]
        else []
  }

  function CheckFindings(counts: map<Check, Option<nat>>, cs: seq<Check>): seq<Finding> {
    if cs == [] then []
    else
      var last := cs[|cs| - 1];
      CheckFindings(counts, cs[..|cs| - 1])
      + if Positive(CountAt(counts, last)) then
          [Finding(CheckFailed(last), if Critical(last) then CRITICAL else HIGH, true, CountAt(counts, last))]
        else []
  }

  function ReadinessFindings(issues: seq<string>): seq<Finding> {
    if issues == [] then []
    else
      ReadinessFindings(issues[..|issues| - 1])
      + [Finding(ReadinessBlocked(issues[|issues| - 1]), HIGH, true, None)]
  }

  /** A single finding, when its condition holds. */
  function When(condition: bool, finding: Finding): seq<Finding> {
    if condition then [finding] else []
  }

  function SchemaFindings(status: SchemaStatus): seq<Finding> {
    ListFindings(SchemaLists(status))
    + When(!status.migrationApplied, Finding(Phase3FinancialSchemaInactive, HIGH, true, None))
  }

  function IntegrityFindings(s: Snapshot): seq<Finding> {
    InvariantFindings(s.invariants, INVARIANTS) + CheckFindings(s.counts, BLOCKING_CHECKS)
  }

  function TotalFindings(s: Snapshot): seq<Finding> {
    When(s.unverifiedGroups > 0, Finding(UnverifiedDuplicateTdGroup, HIGH, true, Some(s.unverifiedGroups)))
    + When(s.totals.PaymentVariance() != 0, Finding(PaymentAllocationVariance, HIGH, true, None))
    + When(s.totals.BillingVariance() != 0, Finding(BillingAllocationVariance, HIGH, true, None))
  }

  function ReadinessPart(auditVerified: bool, issues: seq<string>): seq<Finding> {
    When(!auditVerified, Finding(AuditChainNotVerified, HIGH, true, None)) + ReadinessFindings(issues)
  }

  function Findings(s: Snapshot, auditVerified: bool, issues: seq<string>): seq<Finding> {
    var incomplete := CountAt(s.counts, IncompletePaymentIdentity);
    SchemaFindings(s.schema)
    + When(!s.schema.receiptPaymentForeignKey, Finding(ReceiptPaymentForeignKeyMissing, MEDIUM, false, None))
    + IntegrityFindings(s)
    + When(Positive(incomplete), Finding(CheckFailed(IncompletePaymentIdentity), MEDIUM, false, incomplete))
    + TotalFindings(s)
    + ReadinessPart(auditVerified, issues)
  }

  method ReportSchema(status: SchemaStatus) returns (findings: seq<Finding>)
    ensures findings == SchemaFindings(status)
  {
    hide SchemaLists;
    findings := [];
    var lists := SchemaLists(status);
    for i := 0 to |lists|
      invariant findings == ListFindings(lists[..i])
    {
      assert lists[..i + 1][..i] == lists[..i];
      if lists[i].2 > 0 {
        findings := findings + [Finding(lists[i].0, lists[i].1, true, Some(lists[i].2))];
      }
    }
    assert lists[..|lists|] == lists;
    if !status.migrationApplied {
      findings := findings + [Finding(Phase3FinancialSchemaInactive, HIGH, true, None)];
    }
  }

  method ReportInvariants(counts: map<FinancialInvariant, Option<nat>>) returns (findings: seq<Finding>)
    ensures findings == InvariantFindings(counts, INVARIANTS)
  {
    hide INVARIANTS;
    findings := [];
    for i := 0 to |INVARIANTS|
      invariant findings == InvariantFindings(counts, INVARIANTS[..i])
    {
      assert INVARIANTS[..i + 1][..i] == INVARIANTS[..i];
      var count := CountAt(counts, INVARIANTS[i]);
      if count.Some? && count.value != 0 {
        findings := findings + [Finding(InvariantViolated(INVARIANTS[i]), CRITICAL, true, count)];
      }
    }
    assert INVARIANTS[..|INVARIANTS|] == INVARIANTS;
  }

  method ReportChecks(counts: map<Check, Option<nat>>) returns (findings: seq<Finding>)
    ensures findings == CheckFindings(counts, BLOCKING_CHECKS)
  {
    hide BLOCKING_CHECKS, Critical;
    findings := [];
    for i := 0 to |BLOCKING_CHECKS|
      invariant findings == CheckFindings(counts, BLOCKING_CHECKS[..i])
    {
      assert BLOCKING_CHECKS[..i + 1][..i] == BLOCKING_CHECKS[..i];
      var count := CountAt(counts, BLOCKING_CHECKS[i]);
      if count.Some? && count.value > 0 {
        var severity := if Critical(BLOCKING_CHECKS[i]) then CRITICAL else HIGH;
        findings := findings + [Finding(CheckFailed(BLOCKING_CHECKS[i]), severity, true, count)];
      }
    }
    assert BLOCKING_CHECKS[..|BLOCKING_CHECKS|] == BLOCKING_CHECKS;
  }

  method ReportReadiness(auditVerified: bool, issues: seq<string>) returns (findings: seq<Finding>)
    ensures findings == ReadinessPart(auditVerified, issues)
  {
    var blocked := [];
    for i := 0 to |issues|
      invariant blocked == ReadinessFindings(issues[..i])
    {
      assert issues[..i + 1][..i] == issues[..i];
      blocked := blocked + [Finding(ReadinessBlocked(issues[i]), HIGH, true, None)];
    }
    assert issues[..|issues|] == issues;
    findings := if auditVerified then blocked else [Finding(AuditChainNotVerified, HIGH, true, None)] + blocked;
  }

  method ReportTotals(s: Snapshot) returns (findings: seq<Finding>)
    ensures findings == TotalFindings(s)
  {
    findings := [];
    if s.unverifiedGroups > 0 {
      findings := findings + [Finding(UnverifiedDuplicateTdGroup, HIGH, true, Some(s.unverifiedGroups))];
    }
    if s.totals.PaymentVariance() != 0 {
      findings := findings + [Finding(PaymentAllocationVariance, HIGH, true, None)];
    }
    if s.totals.BillingVariance() != 0 {
      findings := findings + [Finding(BillingAllocationVariance, HIGH, true, None)];
    }
  }

  method BuildFindings(s: Snapshot, auditVerified: bool, issues: seq<string>) returns (findings: seq<Finding>)
    ensures findings == Findings(s, auditVerified, issues)
  {
    hide SchemaFindings, InvariantFindings, CheckFindings, TotalFindings, ReadinessPart, INVARIANTS, BLOCKING_CHECKS,
         Positive;
    findings := ReportSchema(s.schema);
    var review := [];
    if !s.schema.receiptPaymentForeignKey {
      review := [Finding(ReceiptPaymentForeignKeyMissing, MEDIUM, false, None)];
    }
    findings := findings + review;
    var invariants := ReportInvariants(s.invariants);
    var checks := ReportChecks(s.counts);
    findings := findings + (invariants + checks);
    review := [];
    var incomplete := CountAt(s.counts, IncompletePaymentIdentity);
    if Positive(incomplete) {
      review := [Finding(CheckFailed(IncompletePaymentIdentity), MEDIUM, false, incomplete)];
    }
    findings := findings + review;
    var totals := ReportTotals(s);
    var readiness := ReportReadiness(auditVerified, issues);
    findings := findings + totals + readiness;
  }

  // ---------- The gate ----------

  datatype Gate = PASS | REVIEW | FAIL

  datatype Report = Report(status: Gate, blockingCount: nat, reviewCount: nat, findings: seq<Finding>)

  function BlockingCount(findings: seq<Finding>): nat {
    CountBy(findings, (f: Finding) => f.blocking)
  }

  function GateOf(findings: seq<Finding>): Gate {
    if BlockingCount(findings) > 0 then FAIL else if findings != [] then REVIEW else PASS
  }

  // ---------- What the gate status means ----------

  /** Nothing that the report requires of the schema is missing; the receipt key is only reviewed. */
  ghost predicate CompleteSchema(catalog: Catalog) {
    && (forall t: TableName :: t in catalog.tables && RequiredColumns(t) <= catalog.ColumnsOf(t))
    && (forall x :: x in REQUIRED_UNIQUE_INDEXES ==> x in catalog.uniqueIndexes)
    && REQUIRED_FOREIGN_KEYS <= catalog.foreignKeys
    && (forall i :: 0 <= i < |MONEY_COLUMNS| ==> MONEY_COLUMNS[i] in catalog.decimals)
    && catalog.phase3Recorded
  }

  /** The schema is complete and every blocking check holds of the data. */
  ghost predicate Acceptable(db: Database, unverifiedGroups: nat, auditVerified: bool, issues: seq<string>) {
    && CompleteSchema(db.catalog)
    && (forall v: FinancialInvariant :: InvariantCount(db.store, v) == 0)
    && (forall c: Check :: c != IncompletePaymentIdentity ==> CheckCount(db.store, c) == 0)
    && unverifiedGroups == 0
    && PaymentTotal(db.store) == AllocationTotal(db.store) == BillingTotal(db.store)
    && auditVerified && issues == []
  }

  /** Also the receipt key exists, and no payment identity is incomplete. */
  ghost predicate Clean(db: Database, unverifiedGroups: nat, auditVerified: bool, issues: seq<string>) {
    && Acceptable(db, unverifiedGroups, auditVerified, issues)
    && db.catalog.receiptPaymentSetNull && CheckCount(db.store, IncompletePaymentIdentity) == 0
  }

  ghost predicate AllBlocking(findings: seq<Finding>) {
    forall i :: 0 <= i < |findings| ==> findings[i].blocking
  }

  lemma {:induction false} ListFindingsMean(lists: seq<(Code, Severity, nat)>)
    ensures ListFindings(lists) == [] <==> forall i :: 0 <= i < |lists| ==> lists[i].2 == 0
    ensures AllBlocking(ListFindings(lists))
  {
    if lists != [] {
      ListFindingsMean(lists[..|lists| - 1]);
    }
  }

  lemma {:induction false} InvariantFindingsMean(
      counts: map<FinancialInvariant, Option<nat>>, vs: seq<FinancialInvariant>)
    ensures InvariantFindings(counts, vs) == [] <==> forall v :: v in vs ==> !Positive(CountAt(counts, v))
    ensures AllBlocking(InvariantFindings(counts, vs))
  {
    hide Positive, CountAt;
    if vs != [] {
      InvariantFindingsMean(counts, vs[..|vs| - 1]);
    }
  }

  lemma {:induction false} CheckFindingsMean(counts: map<Check, Option<nat>>, cs: seq<Check>)
    ensures CheckFindings(counts, cs) == [] <==> forall c :: c in cs ==> !Positive(CountAt(counts, c))
    ensures AllBlocking(CheckFindings(counts, cs))
  {
    hide Positive, CountAt, Critical;
    if cs != [] {
      CheckFindingsMean(counts, cs[..|cs| - 1]);
    }
  }

  lemma {:induction false} ReadinessFindingsMean(issues: seq<string>)
    ensures |ReadinessFindings(issues)| == |issues| && AllBlocking(ReadinessFindings(issues))
  {
    if issues != [] {
      ReadinessFindingsMean(issues[..|issues| - 1]);
    }
  }

  lemma {:induction false} MoneyMeans(catalog: Catalog, n: nat)
    requires n <= |MONEY_COLUMNS|
    ensures MissingMoney(catalog, n) == [] <==> forall i :: 0 <= i < n ==> HasColumn(catalog, MONEY_COLUMNS[i])
    ensures NonDecimalMoney(catalog, n) == [] <==>
      forall i :: 0 <= i < n ==> HasColumn(catalog, MONEY_COLUMNS[i]) ==> MONEY_COLUMNS[i] in catalog.decimals
  {
    hide HasColumn;
    if n > 0 {
      MoneyMeans(catalog, n - 1);
    }
  }

  lemma EmptySet<T>(s: set<T>)
    ensures |s| == 0 <==> s == {}
  {
  }

  lemma NoColumnMissing(catalog: Catalog)
    requires forall t: TableName :: t in catalog.tables
    ensures MissingColumns(catalog) == {} <==> forall t: TableName :: RequiredColumns(t) <= catalog.ColumnsOf(t)
  {
    hide RequiredColumns;
    if MissingColumns(catalog) == {} {
      forall t: TableName, c | c in RequiredColumns(t) ensures c in catalog.ColumnsOf(t) {
        assert (t, c) !in MissingColumns(catalog);
      }
    }
  }

  lemma MoneyIsRequired(i: nat)
    requires i < |MONEY_COLUMNS|
    ensures MONEY_COLUMNS[i].1 in RequiredColumns(MONEY_COLUMNS[i].0)
  {
  }

  /** The schema has no blocking finding exactly when it is complete. */
  lemma SchemaMeans(catalog: Catalog)
    ensures SchemaFindings(SchemaOf(catalog)) == [] <==> CompleteSchema(catalog)
    ensures AllBlocking(SchemaFindings(SchemaOf(catalog)))
    ensures CompleteSchema(catalog) ==> SchemaOf(catalog).receiptPaymentForeignKey == catalog.receiptPaymentSetNull
  {
    hide RequiredColumns, MissingMoney, NonDecimalMoney, MissingColumns, MONEY_COLUMNS, ListFindings,
         REQUIRED_UNIQUE_INDEXES, REQUIRED_FOREIGN_KEYS;
    var status, lists := SchemaOf(catalog), SchemaLists(SchemaOf(catalog));
    ListFindingsMean(lists);
    EmptySet(status.missingTables);
    EmptySet(status.missingColumns);
    EmptySet(status.missingIndexes);
    EmptySet(status.missingForeignKeys);
    MoneyMeans(catalog, |MONEY_COLUMNS|);
    SchemaListsEmpty(status);
    CompleteMeans(catalog);
  }

  predicate NothingMissing(status: SchemaStatus) {
    && status.missingTables == {} && status.missingColumns == {} && status.missingIndexes == {}
    && status.missingForeignKeys == {} && status.missingMoneyColumns == [] && status.nonDecimalMoneyColumns == []
  }

  lemma SchemaListsEmpty(status: SchemaStatus)
    ensures (forall i :: 0 <= i < |SchemaLists(status)| ==> SchemaLists(status)[i].2 == 0) <==> NothingMissing(status)
  {
    var lists := SchemaLists(status);
    if forall i :: 0 <= i < |lists| ==> lists[i].2 == 0 {
      assert lists[0].2 == 0 && lists[1].2 == 0 && lists[2].2 == 0 && lists[3].2 == 0;
      assert lists[4].2 == 0 && lists[5].2 == 0;
    }
  }

  lemma TableIsRequired(t: TableName)
    ensures t in REQUIRED_TABLES
  {
  }

  lemma CompleteMeans(catalog: Catalog)
    ensures NothingMissing(SchemaOf(catalog)) && SchemaOf(catalog).migrationApplied <==> CompleteSchema(catalog)
  {
    hide MissingMoney, NonDecimalMoney, MissingColumns, MONEY_COLUMNS, RequiredColumns,
         REQUIRED_UNIQUE_INDEXES, REQUIRED_FOREIGN_KEYS;
    var status := SchemaOf(catalog);
    MoneyMeans(catalog, |MONEY_COLUMNS|);
    if NothingMissing(status) && status.migrationApplied {
      forall t: TableName ensures t in catalog.tables {
        TableIsRequired(t);
        assert t !in status.missingTables;
      }
      NoColumnMissing(catalog);
      forall x | x in REQUIRED_UNIQUE_INDEXES ensures x in catalog.uniqueIndexes {
        assert x !in status.missingIndexes;
      }
      forall k | k in REQUIRED_FOREIGN_KEYS ensures k in catalog.foreignKeys {
        assert k !in status.missingForeignKeys;
      }
    }
    if CompleteSchema(catalog) {
      NoColumnMissing(catalog);
      MigrationColumn();
      forall i: nat | i < |MONEY_COLUMNS| ensures HasColumn(catalog, MONEY_COLUMNS[i]) {
        MoneyIsRequired(i);
      }
    }
  }

  lemma MigrationColumn()
    ensures ID in RequiredColumns(SYSTEM_MIGRATIONS)
  {
  }

  /** Over a complete schema nothing is skipped. */
  lemma NothingSkipped(db: Database)
    requires CompleteSchema(db.catalog)
    ensures forall v: FinancialInvariant :: CountAt(InvariantsOf(db), v) == Some(InvariantCount(db.store, v))
    ensures forall c: Check :: CountAt(CountsOf(db), c) == Some(CheckCount(db.store, c))
    ensures TotalsOf(db) == Totals(PaymentTotal(db.store), AllocationTotal(db.store), BillingTotal(db.store))
  {
    hide RequiredColumns, MissingColumns, InvariantCount, CheckCount, TablesOf, PaymentTotal, AllocationTotal,
         BillingTotal;
    NoColumnMissing(db.catalog);
    assert InvalidTables(db.catalog) == {};
  }

  lemma EveryBlockingCheckListed(c: Check)
    ensures c in BLOCKING_CHECKS <==> c != IncompletePaymentIdentity
  {
    assert forall i :: 0 <= i < |BLOCKING_CHECKS| ==> BLOCKING_CHECKS[i] != IncompletePaymentIdentity;
    assert BLOCKING_CHECKS[0] == OrphanPayments && BLOCKING_CHECKS[1] == OrphanBillings;
    assert BLOCKING_CHECKS[2] == OrphanAllocationsPayment && BLOCKING_CHECKS[3] == OrphanAllocationsBilling;
    assert BLOCKING_CHECKS[4] == AllocationTaxYearMismatch && BLOCKING_CHECKS[5] == DuplicateBillingIdentity;
    assert BLOCKING_CHECKS[6] == InvalidPaymentAmount && BLOCKING_CHECKS[7] == InvalidAllocationAmount;
    assert BLOCKING_CHECKS[8] == InvalidBillingAmount && BLOCKING_CHECKS[9] == BillingPaidMismatch;
    assert BLOCKING_CHECKS[10] == BillingChargeSummaryMismatch && BLOCKING_CHECKS[11] == ReceiptMissingPayment;
    assert BLOCKING_CHECKS[12] == ReceiptCrossProperty;
    assert BLOCKING_CHECKS[13] == AssessmentHistoryMissingProperty;
    assert BLOCKING_CHECKS[14] == SelfReferentialPropertyLineage;
  }

  lemma EveryInvariantListed(v: FinancialInvariant)
    ensures v in INVARIANTS
  {
    assert INVARIANTS[0] == DuplicatePaymentIdentity && INVARIANTS[1] == DuplicatePaymentAllocations;
    assert INVARIANTS[2] == CrossPropertyAllocations && INVARIANTS[3] == UnbalancedPaymentAllocations;
  }

  lemma IntegrityMeans(db: Database, unverifiedGroups: nat)
    requires CompleteSchema(db.catalog)
    ensures IntegrityFindings(SnapshotOf(db, unverifiedGroups)) == [] <==>
      && (forall v: FinancialInvariant :: InvariantCount(db.store, v) == 0)
      && (forall c: Check :: c != IncompletePaymentIdentity ==> CheckCount(db.store, c) == 0)
  {
    hide InvariantCount, CheckCount, CompleteSchema, BLOCKING_CHECKS, INVARIANTS, InvariantFindings, CheckFindings,
         InvariantsOf, CountsOf, SchemaOf, TotalsOf;
    NothingSkipped(db);
    var s := SnapshotOf(db, unverifiedGroups);
    InvariantFindingsMean(s.invariants, INVARIANTS);
    CheckFindingsMean(s.counts, BLOCKING_CHECKS);
    forall v: FinancialInvariant ensures v in INVARIANTS {
      EveryInvariantListed(v);
    }
    forall c: Check ensures c in BLOCKING_CHECKS <==> c != IncompletePaymentIdentity {
      EveryBlockingCheckListed(c);
    }
  }

  lemma BlockingBounded(findings: seq<Finding>)
    ensures BlockingCount(findings) <= |findings|
    ensures BlockingCount(findings) == 0 <==> forall i :: 0 <= i < |findings| ==> !findings[i].blocking
  {
    CountZero(findings, (f: Finding) => f.blocking);
    CountBounded(findings, (f: Finding) => f.blocking);
  }

  lemma {:induction false} CountBounded<T>(s: seq<T>, p: T -> bool)
    ensures CountBy(s, p) <= |s|
  {
    if s != [] {
      CountBounded(s[..|s| - 1], p);
    }
  }

  /** Blocking parts around two parts that only ask for review. */
  lemma BlockingParts(a: seq<Finding>, x: seq<Finding>, b: seq<Finding>, y: seq<Finding>, c: seq<Finding>,
                      d: seq<Finding>)
    requires AllBlocking(a) && AllBlocking(b) && AllBlocking(c) && AllBlocking(d)
    requires forall i :: 0 <= i < |x| ==> !x[i].blocking
    requires forall i :: 0 <= i < |y| ==> !y[i].blocking
    ensures BlockingCount(a + x + b + y + c + d) == 0 <==> a == [] && b == [] && c == [] && d == []
  {
    hide BlockingCount;
    var all := a + x + b + y + c + d;
    BlockingBounded(all);
    assert a != [] ==> all[0] == a[0];
    assert b != [] ==> all[|a + x|] == b[0];
    assert c != [] ==> all[|a + x + b + y|] == c[0];
    assert d != [] ==> all[|a + x + b + y + c|] == d[0];
  }

  lemma PartsBlocking(s: Snapshot, auditVerified: bool, issues: seq<string>)
    ensures AllBlocking(IntegrityFindings(s)) && AllBlocking(TotalFindings(s))
    ensures AllBlocking(ReadinessPart(auditVerified, issues))
    ensures ReadinessPart(auditVerified, issues) == [] <==> auditVerified && issues == []
  {
    hide INVARIANTS, BLOCKING_CHECKS, InvariantFindings, CheckFindings, ReadinessFindings;
    InvariantFindingsMean(s.invariants, INVARIANTS);
    CheckFindingsMean(s.counts, BLOCKING_CHECKS);
    ReadinessFindingsMean(issues);
  }

  /** The gate fails exactly when the schema is incomplete or a blocking check does not hold. */
  lemma FailMeansBlocked(db: Database, unverifiedGroups: nat, auditVerified: bool, issues: seq<string>)
    ensures GateOf(Findings(SnapshotOf(db, unverifiedGroups), auditVerified, issues)) != FAIL <==>
      Acceptable(db, unverifiedGroups, auditVerified, issues)
  {
    hide SchemaFindings, IntegrityFindings, ReadinessPart, BlockingCount, CompleteSchema, InvariantCount, CheckCount,
         SchemaOf, InvariantsOf, CountsOf, TotalsOf, PaymentTotal, AllocationTotal, BillingTotal;
    var s := SnapshotOf(db, unverifiedGroups);
    SchemaMeans(db.catalog);
    PartsBlocking(s, auditVerified, issues);
    BlockingParts(
      SchemaFindings(s.schema),
      When(!s.schema.receiptPaymentForeignKey, Finding(ReceiptPaymentForeignKeyMissing, MEDIUM, false, None)),
      IntegrityFindings(s),
      When(Positive(CountAt(s.counts, IncompletePaymentIdentity)),
           Finding(CheckFailed(IncompletePaymentIdentity), MEDIUM, false,
                   CountAt(s.counts, IncompletePaymentIdentity))),
      TotalFindings(s), ReadinessPart(auditVerified, issues));
    if CompleteSchema(db.catalog) {
      IntegrityMeans(db, unverifiedGroups);
      NothingSkipped(db);
    }
  }

  /** The gate passes exactly when nothing was skipped, every count is zero and the totals agree. */
  lemma PassMeansClean(db: Database, unverifiedGroups: nat, auditVerified: bool, issues: seq<string>)
    ensures GateOf(Findings(SnapshotOf(db, unverifiedGroups), auditVerified, issues)) == PASS <==>
      Clean(db, unverifiedGroups, auditVerified, issues)
    ensures Clean(db, unverifiedGroups, auditVerified, issues) ==>
      && (forall c: Check :: CountAt(CountsOf(db), c) == Some(0))
      && (forall v: FinancialInvariant :: CountAt(InvariantsOf(db), v) == Some(0))
  {
    hide SchemaFindings, IntegrityFindings, ReadinessPart, BlockingCount, CompleteSchema, InvariantCount, CheckCount,
         SchemaOf, InvariantsOf, CountsOf, TotalsOf, PaymentTotal, AllocationTotal, BillingTotal;
    FailMeansBlocked(db, unverifiedGroups, auditVerified, issues);
    var s := SnapshotOf(db, unverifiedGroups);
    var findings := Findings(s, auditVerified, issues);
    BlockingBounded(findings);
    SchemaMeans(db.catalog);
    PartsBlocking(s, auditVerified, issues);
    if CompleteSchema(db.catalog) {
      NothingSkipped(db);
      IntegrityMeans(db, unverifiedGroups);
    }
  }

  lemma {:induction false} BlockingRows(findings: seq<Finding>)
    ensures BlockingCount(findings) == |set i | 0 <= i < |findings| && findings[i].blocking|
  {
    var blocking := set i | 0 <= i < |findings| && findings[i].blocking;
    if findings == [] {
      assert blocking == {};
    } else {
      var n := |findings| - 1;
      var init := findings[..n];
      BlockingRows(init);
      var before := set i | 0 <= i < |init| && init[i].blocking;
      assert blocking == before + if findings[n].blocking then {n} else {};
    }
  }

  method AssembleReport(db: Database, unverifiedGroups: nat, auditVerified: bool, issues: seq<string>)
    returns (report: Report)
    ensures report.findings == Findings(SnapshotOf(db, unverifiedGroups), auditVerified, issues)
    ensures report.status == GateOf(report.findings)
    ensures report.blockingCount + report.reviewCount == |report.findings|
    ensures report.blockingCount == |set i | 0 <= i < |report.findings| && report.findings[i].blocking|
    ensures report.status == PASS <==> Clean(db, unverifiedGroups, auditVerified, issues)
    ensures report.status != FAIL <==> Acceptable(db, unverifiedGroups, auditVerified, issues)
  {
    hide SnapshotOf, Findings, Clean, Acceptable, BlockingCount;
    var snapshot := CollectReconciliationSnapshot(db, unverifiedGroups);
    var findings := BuildFindings(snapshot, auditVerified, issues);
    var blocking := BlockingCount(findings);
    BlockingBounded(findings);
    BlockingRows(findings);
    PassMeansClean(db, unverifiedGroups, auditVerified, issues);
    FailMeansBlocked(db, unverifiedGroups, auditVerified, issues);
    report := Report(GateOf(findings), blocking, |findings| - blocking, findings);
  }
}
