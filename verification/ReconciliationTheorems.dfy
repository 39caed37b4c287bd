/** What a passing report says about the money, and how the repair changes the report. */
module ReconciliationTheorems {
  import opened Wrappers
  import opened Sums
  import opened Ledger
  import opened RepairPlan
  import opened RepairTheorems
  import opened RepairGuarantees
  import Report = ReconciliationReport

  // ---------- Totals ----------

  /** What the allocations give to each row, row by row and allocation by allocation. */
  function Share<T>(id: T -> int, ref: Allocation -> int): (T, Allocation) -> int {
    (t: T, a: Allocation) => if ref(a) == id(t) then a.amountPaid else 0
  }

  function Received<T>(allocations: seq<Allocation>, id: T -> int, ref: Allocation -> int): T -> int {
    (t: T) => SumBy(allocations, (a: Allocation) => if ref(a) == id(t) then a.amountPaid else 0)
  }

  predicate Owned<T>(rows: seq<T>, id: T -> int, key: int) {
    exists i :: 0 <= i < |rows| && id(rows[i]) == key
  }

  function OwnedAmount<T>(rows: seq<T>, id: T -> int, ref: Allocation -> int): Allocation -> int {
    (a: Allocation) => if Owned(rows, id, ref(a)) then a.amountPaid else 0
  }

  /** Every allocation that refers to a row is given to exactly one row. */
  lemma AllocationsAreShared<T(!new)>(rows: seq<T>, id: T -> int, allocations: seq<Allocation>, ref: Allocation -> int)
    requires UniqueIds(rows, id)
    ensures SumBy(rows, Received(allocations, id, ref)) == SumBy(allocations, OwnedAmount(rows, id, ref))
  {
    var share := Share(id, ref);
    SumExchange(rows, allocations, share);
    forall i | 0 <= i < |rows| ensures RowSum(allocations, share)(rows[i]) == Received(allocations, id, ref)(rows[i]) {
      RowSumIs(allocations, share, rows[i], (a: Allocation) => if ref(a) == id(rows[i]) then a.amountPaid else 0);
    }
    SumAgrees(rows, RowSum(allocations, share), rows, Received(allocations, id, ref));
    forall k | 0 <= k < |allocations|
      ensures ColumnSum(rows, share)(allocations[k]) == OwnedAmount(rows, id, ref)(allocations[k])
    {
      SharedOnce(rows, id, allocations[k], ref);
    }
    SumAgrees(allocations, ColumnSum(rows, share), allocations, OwnedAmount(rows, id, ref));
  }

  lemma SharedOnce<T(!new)>(rows: seq<T>, id: T -> int, a: Allocation, ref: Allocation -> int)
    requires UniqueIds(rows, id)
    ensures ColumnSum(rows, Share(id, ref))(a) == OwnedAmount(rows, id, ref)(a)
  {
    var given := (t: T) => if ref(a) == id(t) then a.amountPaid else 0;
    ColumnSumIs(rows, Share(id, ref), a, given);
    if Owned(rows, id, ref(a)) {
      var i :| 0 <= i < |rows| && id(rows[i]) == ref(a);
      forall j | 0 <= j < |rows| && j != i ensures given(rows[j]) == 0 {
        assert if i < j then id(rows[i]) != id(rows[j]) else id(rows[j]) != id(rows[i]);
      }
      SumSingle(rows, given, i);
    } else {
      SumZero(rows, given);
    }
  }

  /** Rows that agree with their allocations one by one agree in total, once no allocation is an orphan. */
  lemma TotalsAgree<T(!new)>(rows: seq<T>, id: T -> int, amount: T -> int, allocations: seq<Allocation>,
                             ref: Allocation -> int)
    requires UniqueIds(rows, id)
    requires forall i :: 0 <= i < |rows| ==> amount(rows[i]) == Received(allocations, id, ref)(rows[i])
    requires forall k :: 0 <= k < |allocations| ==> Owned(rows, id, ref(allocations[k]))
    ensures SumBy(rows, amount) == SumBy(allocations, (a: Allocation) => a.amountPaid)
  {
    hide Received, Owned;
    AllocationsAreShared(rows, id, allocations, ref);
    SumAgrees(rows, amount, rows, Received(allocations, id, ref));
    SumAgrees(allocations, OwnedAmount(rows, id, ref), allocations, (a: Allocation) => a.amountPaid);
  }

  /** Per-billing agreement without orphans leaves no aggregate billing variance. */
  lemma BillingVarianceFollows(s: Store)
    requires UniqueIds(s.billings, (b: Billing) => b.id)
    requires CheckCount(s, BillingPaidMismatch) == 0 && CheckCount(s, OrphanAllocationsBilling) == 0
    ensures Report.BillingTotal(s) == Report.AllocationTotal(s)
  {
    var id, ref, amount := (b: Billing) => b.id, (a: Allocation) => a.billingId, (b: Billing) => b.amountPaid;
    CountZero(s.billings, (b: Billing) => b.amountPaid != AllocatedTo(s, b.id));
    CountZero(s.allocations, (a: Allocation) => !HasBilling(s.billings, a.billingId));
    forall i | 0 <= i < |s.billings| ensures amount(s.billings[i]) == Received(s.allocations, id, ref)(s.billings[i]) {
      SumAgrees(s.allocations, (a: Allocation) => if a.billingId == s.billings[i].id then a.amountPaid else 0,
                s.allocations, (a: Allocation) => if ref(a) == id(s.billings[i]) then a.amountPaid else 0);
    }
    forall k | 0 <= k < |s.allocations| ensures Owned(s.billings, id, ref(s.allocations[k])) {
      var i :| 0 <= i < |s.billings| && s.billings[i].id == s.allocations[k].billingId;
      assert id(s.billings[i]) == ref(s.allocations[k]);
    }
    TotalsAgree(s.billings, id, amount, s.allocations, ref);
  }

  /** Balanced payments without orphans leave no aggregate payment variance. */
  lemma PaymentVarianceFollows(s: Store)
    requires UniqueIds(s.payments, (p: Payment) => p.id)
    requires Report.InvariantCount(s, Report.UnbalancedPaymentAllocations) == 0
    requires CheckCount(s, OrphanAllocationsPayment) == 0
    ensures Report.PaymentTotal(s) == Report.AllocationTotal(s)
  {
    var id, ref, amount := (p: Payment) => p.id, (a: Allocation) => a.paymentId, (p: Payment) => p.amount;
    CountZero(s.payments, (p: Payment) => p.amount != Report.AllocatedFrom(s, p.id));
    CountZero(s.allocations, (a: Allocation) => !HasPayment(s.payments, a.paymentId));
    forall i | 0 <= i < |s.payments| ensures amount(s.payments[i]) == Received(s.allocations, id, ref)(s.payments[i]) {
      SumAgrees(s.allocations, (a: Allocation) => if a.paymentId == s.payments[i].id then a.amountPaid else 0,
                s.allocations, (a: Allocation) => if ref(a) == id(s.payments[i]) then a.amountPaid else 0);
    }
    forall k | 0 <= k < |s.allocations| ensures Owned(s.payments, id, ref(s.allocations[k])) {
      var i :| 0 <= i < |s.payments| && s.payments[i].id == s.allocations[k].paymentId;
      assert id(s.payments[i]) == ref(s.allocations[k]);
    }
    TotalsAgree(s.payments, id, amount, s.allocations, ref);
  }

  /** Every count that the report makes is zero. */
  ghost predicate CountsZero(s: Store) {
    && (forall v: Report.FinancialInvariant :: Report.InvariantCount(s, v) == 0)
    && (forall c: Check :: CheckCount(s, c) == 0)
  }

  /** On keyed tables the variance findings never stand alone: zero counts already make the gate pass. */
  lemma ZeroCountsPass(db: Report.Database)
    requires ValidStore(db.store) && Report.CompleteSchema(db.catalog) && db.catalog.receiptPaymentSetNull
    ensures Report.GateOf(Report.Findings(Report.SnapshotOf(db, 0), true, [])) == Report.PASS <==> CountsZero(db.store)
  {
    hide CheckCount, Report.InvariantCount, Report.CompleteSchema, Report.BillingTotal, Report.PaymentTotal,
         Report.AllocationTotal, UniqueIdentity, Report.GateOf, Report.Findings, Report.SnapshotOf;
    Report.PassMeansClean(db, 0, true, []);
    if CountsZero(db.store) {
      BillingVarianceFollows(db.store);
      PaymentVarianceFollows(db.store);
    }
  }

  // ---------- The report after the repair ----------

  lemma TotalsKept(s: Store)
    ensures Report.PaymentTotal(Repaired(s)) == Report.PaymentTotal(s)
    ensures Report.BillingTotal(Repaired(s)) == Report.BillingTotal(s)
    ensures Report.AllocationTotal(Repaired(s)) == Report.AllocationTotal(s)
  {
    hide Repaired;
    var s' := Repaired(s);
    SizesKept(s);
    AllocationRowsKept(s);
    forall i | 0 <= i < |s.billings| {
      BillingsKeepIdentity(s, i);
    }
    forall i | 0 <= i < |s.payments| {
      PaymentsKeepMoney(s, i);
    }
    SumAgrees(s'.payments, (p: Payment) => p.amount, s.payments, (p: Payment) => p.amount);
    SumAgrees(s'.billings, (b: Billing) => b.amountPaid, s.billings, (b: Billing) => b.amountPaid);
  }

  lemma AllocationRowsKept(s: Store)
    ensures Repaired(s).allocations == s.allocations
  {
  }

  lemma CrossingKept(s: Store, a: Allocation)
    ensures Report.CrossesProperties(Repaired(s), a) <==> Report.CrossesProperties(s, a)
  {
    hide Repaired;
    var s' := Repaired(s);
    SizesKept(s);
    forall i | 0 <= i < |s.billings| {
      BillingsKeepIdentity(s, i);
    }
    forall i | 0 <= i < |s.payments| {
      PaymentsKeepMoney(s, i);
    }
  }

  /** Only duplicate payment identities can appear. */
  lemma InvariantsKept(s: Store, v: Report.FinancialInvariant)
    requires v != Report.DuplicatePaymentIdentity
    ensures Report.InvariantCount(Repaired(s), v) == Report.InvariantCount(s, v)
  {
    hide Repaired, Report.CrossesProperties, Report.AllocatedFrom;
    var s' := Repaired(s);
    SizesKept(s);
    AllocationRowsKept(s);
    match v
    case DuplicatePaymentAllocations =>
    case CrossPropertyAllocations =>
      forall a {
        CrossingKept(s, a);
      }
      CountAgrees(s'.allocations, (a: Allocation) => Report.CrossesProperties(s', a),
                  s.allocations, (a: Allocation) => Report.CrossesProperties(s, a));
    case UnbalancedPaymentAllocations =>
      forall i | 0 <= i < |s.payments|
        ensures s'.payments[i].id == s.payments[i].id && s'.payments[i].amount == s.payments[i].amount
        ensures Report.AllocatedFrom(s', s.payments[i].id) == Report.AllocatedFrom(s, s.payments[i].id)
      {
        PaymentsKeepMoney(s, i);
        AllocatedFromKept(s, s.payments[i].id);
      }
      CountAgrees(s'.payments, (p: Payment) => p.amount != Report.AllocatedFrom(s', p.id),
                  s.payments, (p: Payment) => p.amount != Report.AllocatedFrom(s, p.id));
  }

  lemma AllocatedFromKept(s: Store, id: int)
    ensures Report.AllocatedFrom(Repaired(s), id) == Report.AllocatedFrom(s, id)
  {
  }

  /** Every count is zero except those that the repair clears. */
  ghost predicate OnlyRepairable(s: Store) {
    && (forall v: Report.FinancialInvariant :: Report.InvariantCount(s, v) == 0)
    && (forall c: Check ::
          c !in {BillingChargeSummaryMismatch, ReceiptMissingPayment, IncompletePaymentIdentity} ==>
          CheckCount(s, c) == 0)
  }

  lemma ChargesAreNonNegative(s: Store)
    requires CheckCount(s, InvalidPaymentAmount) == 0
    ensures NonNegativeCharges(s)
  {
    CountZero(s.payments, (p: Payment) => p.amount <= 0 || p.penalty.GetOr(0) < 0 || p.discount.GetOr(0) < 0);
  }

  lemma ChecksCleared(s: Store)
    requires BuildPlan(s).Ready() && OnlyRepairable(s)
    ensures forall c: Check :: CheckCount(Repaired(s), c) == 0
  {
    hide CheckCount, Repaired, BuildPlan, Report.InvariantCount;
    ChargesAreNonNegative(s);
    RecoveryReachesFixpoint(s);
    forall c: Check ensures CheckCount(Repaired(s), c) == 0 {
      NoCheckGetsWorse(s, c);
    }
  }

  lemma DuplicatesAfter(s: Store)
    requires ValidStore(s) && BuildPlan(s).Ready() && DuplicateIdentities(s.payments) == {}
    ensures DuplicateIdentities(Repaired(s).payments) == {} <==> !exists i: nat, j: nat :: Twins(s, i, j)
  {
    hide Repaired, DuplicateIdentities, BuildPlan, Twins, ValidStore;
    NewDuplicatesAreTwins(s);
  }

  lemma NoDuplicates(s: Store)
    ensures Report.InvariantCount(s, Report.DuplicatePaymentIdentity) == 0 <==> DuplicateIdentities(s.payments) == {}
  {
  }

  lemma CountsAfter(s: Store)
    requires ValidStore(s) && BuildPlan(s).Ready() && OnlyRepairable(s)
    ensures CountsZero(Repaired(s)) <==> !exists i: nat, j: nat :: Twins(s, i, j)
  {
    hide CheckCount, Repaired, BuildPlan, Report.InvariantCount, ValidStore, Twins, DuplicateIdentities;
    ChecksCleared(s);
    NoDuplicates(s);
    NoDuplicates(Repaired(s));
    DuplicatesAfter(s);
    forall v: Report.FinancialInvariant | v != Report.DuplicatePaymentIdentity
      ensures Report.InvariantCount(Repaired(s), v) == 0
    {
      InvariantsKept(s, v);
    }
  }

  lemma TotalsStillAgree(s: Store)
    requires ValidStore(s) && OnlyRepairable(s)
    ensures Report.PaymentTotal(Repaired(s)) == Report.AllocationTotal(Repaired(s)) == Report.BillingTotal(Repaired(s))
  {
    hide CheckCount, Repaired, Report.InvariantCount, UniqueIdentity, Report.BillingTotal, Report.PaymentTotal,
         Report.AllocationTotal;
    BillingVarianceFollows(s);
    PaymentVarianceFollows(s);
    TotalsKept(s);
  }

  /**
   * When the repairable checks are all that is wrong and the plan has no blockers, the report
   * of the repaired data passes exactly when no two planned payments are twins; otherwise it
   * fails on the duplicates that the repair itself created.
   */
  lemma ReportAfterRecovery(db: Report.Database)
    requires ValidStore(db.store) && BuildPlan(db.store).Ready() && OnlyRepairable(db.store)
    requires Report.CompleteSchema(db.catalog) && db.catalog.receiptPaymentSetNull
    ensures var after := db.(store := Repaired(db.store));
      Report.GateOf(Report.Findings(Report.SnapshotOf(after, 0), true, []))
        == if exists i: nat, j: nat :: Twins(db.store, i, j) then Report.FAIL else Report.PASS
  {
    hide CheckCount, Report.InvariantCount, Report.CompleteSchema, Report.BillingTotal, Report.PaymentTotal,
         Report.AllocationTotal, ValidStore, OnlyRepairable, BuildPlan, Repaired, Twins, Report.GateOf, Report.Findings,
         Report.SnapshotOf;
    var after := db.(store := Repaired(db.store));
    Report.PassMeansClean(after, 0, true, []);
    Report.FailMeansBlocked(after, 0, true, []);
    ChecksCleared(db.store);
    CountsAfter(db.store);
    TotalsStillAgree(db.store);
  }

  // ---------- Such a recovery exists ----------

  lemma TwinBillings(s: Store)
    requires s == TwinStore(1)
    ensures CheckCount(s, BillingPaidMismatch) == 0 && CheckCount(s, DuplicateBillingIdentity) == 0
  {
    var paid := (a: Allocation) => if a.billingId == 1 then a.amountPaid else 0;
    assert s.allocations[..1][..0] == [] && s.allocations[..1][0] == s.allocations[0];
    assert SumBy(s.allocations[..1], paid) == SumBy(s.allocations[..1][..0], paid) + 100;
    assert SumBy(s.allocations, paid) == SumBy(s.allocations[..1], paid) + 100;
    CountZero(s.billings, (b: Billing) => b.amountPaid != AllocatedTo(s, b.id));
    assert DuplicateBillings(s.billings) == {};
  }

  lemma TwinChecks(s: Store, c: Check)
    requires s == TwinStore(1)
    requires c !in {BillingChargeSummaryMismatch, ReceiptMissingPayment, IncompletePaymentIdentity}
    ensures CheckCount(s, c) == 0
  {
    assert s.properties[0].id == 7 && s.payments[0].id == 1 && s.payments[1].id == 2 && s.billings[0].id == 1;
    match c
    case OrphanPayments => CountZero(s.payments, (p: Payment) => !HasProperty(s.properties, p.propertyId));
    case OrphanBillings => CountZero(s.billings, (b: Billing) => !HasProperty(s.properties, b.propertyId));
    case OrphanAllocationsPayment =>
      CountZero(s.allocations, (a: Allocation) => !HasPayment(s.payments, a.paymentId));
    case OrphanAllocationsBilling =>
      CountZero(s.allocations, (a: Allocation) => !HasBilling(s.billings, a.billingId));
    case AllocationTaxYearMismatch => CountZero(s.allocations, (a: Allocation) => YearMismatch(s, a));
    case DuplicateBillingIdentity => TwinBillings(s);
    case InvalidPaymentAmount =>
      CountZero(s.payments, (p: Payment) => p.amount <= 0 || p.penalty.GetOr(0) < 0 || p.discount.GetOr(0) < 0);
    case InvalidAllocationAmount => CountZero(s.allocations, (a: Allocation) => a.amountPaid <= 0);
    case InvalidBillingAmount =>
      CountZero(s.billings,
                (b: Billing) => b.assessedValue < 0 || b.penalty < 0 || b.discount < 0 || b.amountPaid < 0);
    case BillingPaidMismatch => TwinBillings(s);
    case ReceiptCrossProperty =>
    case AssessmentHistoryMissingProperty =>
    case SelfReferentialPropertyLineage => CountZero(s.properties, (p: Property) => p.previousId == Some(p.id));
  }

  lemma TwinInvariants(s: Store, v: Report.FinancialInvariant)
    requires s == TwinStore(1)
    ensures Report.InvariantCount(s, v) == 0
  {
    match v
    case DuplicatePaymentIdentity =>
      NoDuplicates(s);
    case DuplicatePaymentAllocations =>
      assert Report.DuplicateAllocations(s.allocations) == {};
    case CrossPropertyAllocations =>
      CountZero(s.allocations, (a: Allocation) => Report.CrossesProperties(s, a));
    case UnbalancedPaymentAllocations =>
      SumSingle(s.allocations, (a: Allocation) => if a.paymentId == 1 then a.amountPaid else 0, 0);
      SumSingle(s.allocations, (a: Allocation) => if a.paymentId == 2 then a.amountPaid else 0, 1);
      CountZero(s.payments, (p: Payment) => p.amount != Report.AllocatedFrom(s, p.id));
  }

  /**
   * Two payments of one receipt, a second apart: only repairable checks fail before the repair, and
   * the report on the repaired data fails.
   */
  lemma RepairCanFailReport(catalog: Report.Catalog)
    requires Report.CompleteSchema(catalog) && catalog.receiptPaymentSetNull
    ensures OnlyRepairable(TwinStore(1)) && BuildPlan(TwinStore(1)).Ready()
    ensures var after := Report.Database(catalog, Repaired(TwinStore(1)));
      Report.GateOf(Report.Findings(Report.SnapshotOf(after, 0), true, [])) == Report.FAIL
  {
    hide CheckCount, Report.InvariantCount, Report.CompleteSchema, TwinStore, ValidStore, BuildPlan, Repaired, Twins,
         Report.GateOf, Report.Findings, Report.SnapshotOf, DuplicateIdentities;
    var s := TwinStore(1);
    TwinPlanIsReady(1);
    forall c: Check | c !in {BillingChargeSummaryMismatch, ReceiptMissingPayment, IncompletePaymentIdentity}
      ensures CheckCount(s, c) == 0
    {
      TwinChecks(s, c);
    }
    forall v: Report.FinancialInvariant ensures Report.InvariantCount(s, v) == 0 {
      TwinInvariants(s, v);
    }
    ReportAfterRecovery(Report.Database(catalog, s));
  }
}
