/** What the checks of the reconciliation report say about the rows, one by one. */
module ReconciliationMeaning {
  import opened Wrappers
  import opened Sums
  import opened Ledger
  import opened ReconciliationReport
  import RepairPlan
  import RepairMeaning
  import ReconciliationTheorems

  // ---------- Each check on the rows ----------

  predicate PropertyExists(s: Store, id: int) {
    exists j :: 0 <= j < |s.properties| && s.properties[j].id == id
  }

  predicate PaymentExists(s: Store, id: int) {
    exists j :: 0 <= j < |s.payments| && s.payments[j].id == id
  }

  predicate BillingExists(s: Store, id: int) {
    exists j :: 0 <= j < |s.billings| && s.billings[j].id == id
  }

  predicate NotNegative(amount: Option<int>) {
    amount.None? || amount.value >= 0
  }

  /** The penalty of a payment, as one allocation row joins it. */
  function JoinedPenalty(s: Store, paymentId: int): int {
    SumBy(s.payments, (p: Payment) => if p.id == paymentId && p.penalty.Some? then p.penalty.value else 0)
  }

  function JoinedDiscount(s: Store, paymentId: int): int {
    SumBy(s.payments, (p: Payment) => if p.id == paymentId && p.discount.Some? then p.discount.value else 0)
  }

  predicate ChargesMatch(s: Store, b: Billing) {
    && b.penalty == SumBy(s.allocations,
                          (a: Allocation) => if a.billingId == b.id then JoinedPenalty(s, a.paymentId) else 0)
    && b.discount == SumBy(s.allocations,
                           (a: Allocation) => if a.billingId == b.id then JoinedDiscount(s, a.paymentId) else 0)
  }

  /** What a check asks of the rows. */
  ghost predicate HoldsOfRows(s: Store, c: Check) {
    match c
    case OrphanPayments => forall i :: 0 <= i < |s.payments| ==> PropertyExists(s, s.payments[i].propertyId)
    case OrphanBillings => forall i :: 0 <= i < |s.billings| ==> PropertyExists(s, s.billings[i].propertyId)
    case OrphanAllocationsPayment =>
      forall i :: 0 <= i < |s.allocations| ==> PaymentExists(s, s.allocations[i].paymentId)
    case OrphanAllocationsBilling =>
      forall i :: 0 <= i < |s.allocations| ==> BillingExists(s, s.allocations[i].billingId)
    case AllocationTaxYearMismatch =>
      forall i, j | 0 <= i < |s.allocations| && 0 <= j < |s.billings| ::
        s.allocations[i].billingId == s.billings[j].id ==> s.allocations[i].taxYear == s.billings[j].taxYear
    case DuplicateBillingIdentity =>
      forall i, j :: 0 <= i < j < |s.billings| ==>
        s.billings[i].propertyId != s.billings[j].propertyId || s.billings[i].taxYear != s.billings[j].taxYear
    case InvalidPaymentAmount =>
      forall i :: 0 <= i < |s.payments| ==>
        s.payments[i].amount > 0 && NotNegative(s.payments[i].penalty) && NotNegative(s.payments[i].discount)
    case InvalidAllocationAmount => forall i :: 0 <= i < |s.allocations| ==> s.allocations[i].amountPaid > 0
    case InvalidBillingAmount =>
      forall i :: 0 <= i < |s.billings| ==>
        && s.billings[i].assessedValue >= 0 && s.billings[i].amountPaid >= 0
        && s.billings[i].penalty >= 0 && s.billings[i].discount >= 0
    case BillingPaidMismatch =>
      forall i :: 0 <= i < |s.billings| ==>
        s.billings[i].amountPaid ==
        SumBy(s.allocations, (a: Allocation) => if a.billingId == s.billings[i].id then a.amountPaid else 0)
    case BillingChargeSummaryMismatch =>
      forall i :: 0 <= i < |s.billings| && RepairMeaning.IsPaid(s, s.billings[i].id) ==> ChargesMatch(s, s.billings[i])
    case ReceiptMissingPayment =>
      forall i :: 0 <= i < |s.receipts| && s.receipts[i].paymentId.Some? ==>
        PaymentExists(s, s.receipts[i].paymentId.value)
    case ReceiptCrossProperty =>
      forall i, j | 0 <= i < |s.receipts| && 0 <= j < |s.payments| ::
        s.receipts[i].paymentId == Some(s.payments[j].id) ==> s.receipts[i].propertyId == s.payments[j].propertyId
    case AssessmentHistoryMissingProperty =>
      forall i :: 0 <= i < |s.history| ==> PropertyExists(s, s.history[i].propertyId)
    case SelfReferentialPropertyLineage =>
      forall i :: 0 <= i < |s.properties| && s.properties[i].previousId.Some? ==>
        s.properties[i].previousId.value != s.properties[i].id
    case IncompletePaymentIdentity =>
      forall i :: 0 <= i < |s.payments| ==> !RepairMeaning.LacksSomething(s.payments[i])
  }

  lemma JoinedCharge(s: Store, id: int, charge: Payment -> int, f: Payment -> int)
    requires forall p :: f(p) == if p.id == id then charge(p) else 0
    ensures ChargeOf(s.payments, id, charge) == SumBy(s.payments, f)
  {
    SumAgrees(s.payments, (p: Payment) => if p.id == id then charge(p) else 0, s.payments, f);
  }

  lemma LinkedSums(s: Store, billingId: int)
    ensures LinkedPenalty(s, billingId) ==
      SumBy(s.allocations, (a: Allocation) => if a.billingId == billingId then JoinedPenalty(s, a.paymentId) else 0)
    ensures LinkedDiscount(s, billingId) ==
      SumBy(s.allocations, (a: Allocation) => if a.billingId == billingId then JoinedDiscount(s, a.paymentId) else 0)
  {
    forall id: int ensures ChargeOf(s.payments, id, Penalty) == JoinedPenalty(s, id) {
      JoinedCharge(s, id, Penalty, (p: Payment) => if p.id == id && p.penalty.Some? then p.penalty.value else 0);
    }
    forall id: int ensures ChargeOf(s.payments, id, Discount) == JoinedDiscount(s, id) {
      JoinedCharge(s, id, Discount, (p: Payment) => if p.id == id && p.discount.Some? then p.discount.value else 0);
    }
    hide JoinedPenalty, JoinedDiscount, ChargeOf;
    SumAgrees(s.allocations,
              (a: Allocation) => if a.billingId == billingId then ChargeOf(s.payments, a.paymentId, Penalty) else 0,
              s.allocations,
              (a: Allocation) => if a.billingId == billingId then JoinedPenalty(s, a.paymentId) else 0);
    SumAgrees(s.allocations,
              (a: Allocation) => if a.billingId == billingId then ChargeOf(s.payments, a.paymentId, Discount) else 0,
              s.allocations,
              (a: Allocation) => if a.billingId == billingId then JoinedDiscount(s, a.paymentId) else 0);
  }

  lemma ChargesExactly(s: Store, b: Billing)
    ensures !ChargeMismatch(s, b) <==> (RepairMeaning.IsPaid(s, b.id) ==> ChargesMatch(s, b))
  {
    hide Linked, RepairMeaning.IsPaid, LinkedPenalty, LinkedDiscount, JoinedPenalty, JoinedDiscount;
    RepairMeaning.PaidIsLinked(s, b.id);
    LinkedSums(s, b.id);
  }

  predicate BlocksBilling(s: Store, i: nat, b: RepairPlan.Blocker)
    requires i < |s.billings|
  {
    && ChargeMismatch(s, s.billings[i]) && RepairPlan.Ambiguous(s, s.billings[i].id)
    && b == RepairPlan.AmbiguousBillingChargeSummary(s.billings[i].id)
  }

  lemma {:induction false} InBillingBlockers(s: Store, n: nat, b: RepairPlan.Blocker)
    requires n <= |s.billings|
    ensures b in RepairPlan.BillingBlockers(s, n) <==> exists i: nat :: i < n && BlocksBilling(s, i, b)
  {
    hide ChargeMismatch, RepairPlan.Ambiguous;
    if n > 0 {
      InBillingBlockers(s, n - 1, b);
      if BlocksBilling(s, n - 1, b) {
        assert b in RepairPlan.BillingBlockers(s, n);
      }
    }
  }

  lemma {:induction false} PaymentBlockersOnly(s: Store, n: nat)
    requires n <= |s.payments|
    ensures forall b :: b in RepairPlan.PaymentBlockers(s, n) ==> !b.AmbiguousBillingChargeSummary?
  {
    hide Incomplete, RepairPlan.Deterministic, RepairPlan.CollisionCount;
    if n > 0 {
      PaymentBlockersOnly(s, n - 1);
    }
  }

  /**
   * A billing blocks the plan exactly when it is paid, one of its payments has a second allocation,
   * and its charges are not those that the allocation rows join.
   */
  lemma BillingBlockedExactly(s: Store, i: nat)
    requires ValidStore(s) && i < |s.billings|
    ensures var b := s.billings[i];
      RepairPlan.AmbiguousBillingChargeSummary(b.id) in RepairPlan.BuildPlan(s).blockers <==>
      RepairMeaning.IsPaid(s, b.id) && !RepairMeaning.SingleLinks(s, b.id) && !ChargesMatch(s, b)
  {
    hide ValidStore, RepairPlan.Ambiguous, RepairMeaning.IsPaid, RepairMeaning.SingleLinks, ChargesMatch,
         ChargeMismatch, Linked;
    var b := s.billings[i];
    var blocker := RepairPlan.AmbiguousBillingChargeSummary(b.id);
    InBillingBlockers(s, |s.billings|, blocker);
    PaymentBlockersOnly(s, |s.payments|);
    forall j: nat | j < |s.billings| && BlocksBilling(s, j, blocker) ensures j == i {
      if j != i {
        RepairMeaning.OtherBilling(s, i, j);
      }
    }
    assert blocker in RepairPlan.BuildPlan(s).blockers <==> BlocksBilling(s, i, blocker);
    ChargesExactly(s, b);
    RepairMeaning.PaidIsLinked(s, b.id);
    if Linked(s, b.id) {
      RepairMeaning.UnambiguousExactly(s, b.id);
    } else {
      UnlinkedMatches(s, b);
    }
  }

  lemma UnlinkedMatches(s: Store, b: Billing)
    requires !Linked(s, b.id)
    ensures !ChargeMismatch(s, b)
  {
  }

  lemma IncompleteExactly(p: Payment)
    ensures Incomplete(p) <==> RepairMeaning.LacksSomething(p)
  {
    hide Blank;
    RepairMeaning.BlankExactly(p.orNumber);
    RepairMeaning.BlankExactly(p.taxYear);
  }

  lemma PaymentRows(s: Store, c: Check)
    requires c in {OrphanPayments, InvalidPaymentAmount, IncompletePaymentIdentity}
    ensures CheckCount(s, c) == 0 <==> HoldsOfRows(s, c)
  {
    hide Incomplete, RepairMeaning.LacksSomething;
    match c
    case OrphanPayments => CountZero(s.payments, (p: Payment) => !HasProperty(s.properties, p.propertyId));
    case InvalidPaymentAmount =>
      CountZero(s.payments, (p: Payment) => p.amount <= 0 || p.penalty.GetOr(0) < 0 || p.discount.GetOr(0) < 0);
    case IncompletePaymentIdentity =>
      CountZero(s.payments, (p: Payment) => Incomplete(p));
      forall i | 0 <= i < |s.payments| {
        IncompleteExactly(s.payments[i]);
      }
  }

  lemma AllocationRows(s: Store, c: Check)
    requires c in {OrphanAllocationsPayment, OrphanAllocationsBilling, AllocationTaxYearMismatch,
                   InvalidAllocationAmount}
    ensures CheckCount(s, c) == 0 <==> HoldsOfRows(s, c)
  {
    match c
    case OrphanAllocationsPayment => CountZero(s.allocations, (a: Allocation) => !HasPayment(s.payments, a.paymentId));
    case OrphanAllocationsBilling => CountZero(s.allocations, (a: Allocation) => !HasBilling(s.billings, a.billingId));
    case AllocationTaxYearMismatch => CountZero(s.allocations, (a: Allocation) => YearMismatch(s, a));
    case InvalidAllocationAmount => CountZero(s.allocations, (a: Allocation) => a.amountPaid <= 0);
  }

  lemma BillingRows(s: Store, c: Check)
    requires c in {OrphanBillings, InvalidBillingAmount, BillingPaidMismatch, BillingChargeSummaryMismatch}
    ensures CheckCount(s, c) == 0 <==> HoldsOfRows(s, c)
  {
    hide ChargeMismatch, ChargesMatch, RepairMeaning.IsPaid;
    match c
    case OrphanBillings => CountZero(s.billings, (b: Billing) => !HasProperty(s.properties, b.propertyId));
    case InvalidBillingAmount =>
      CountZero(s.billings,
                (b: Billing) => b.assessedValue < 0 || b.penalty < 0 || b.discount < 0 || b.amountPaid < 0);
    case BillingPaidMismatch => CountZero(s.billings, (b: Billing) => b.amountPaid != AllocatedTo(s, b.id));
    case BillingChargeSummaryMismatch =>
      CountZero(s.billings, (b: Billing) => ChargeMismatch(s, b));
      forall i | 0 <= i < |s.billings| {
        ChargesExactly(s, s.billings[i]);
      }
  }

  lemma OtherRows(s: Store, c: Check)
    requires c in {ReceiptMissingPayment, ReceiptCrossProperty, AssessmentHistoryMissingProperty,
                   SelfReferentialPropertyLineage}
    ensures CheckCount(s, c) == 0 <==> HoldsOfRows(s, c)
  {
    match c
    case ReceiptMissingPayment => CountZero(s.receipts, (r: Receipt) => Dangling(s, r));
    case ReceiptCrossProperty => CountZero(s.receipts, (r: Receipt) => CrossProperty(s, r));
    case AssessmentHistoryMissingProperty =>
      CountZero(s.history, (h: HistoryEntry) => !HasProperty(s.properties, h.propertyId));
    case SelfReferentialPropertyLineage =>
      CountZero(s.properties, (p: Property) => p.previousId == Some(p.id));
  }

  lemma DuplicateRows(s: Store)
    ensures CheckCount(s, DuplicateBillingIdentity) == 0 <==> HoldsOfRows(s, DuplicateBillingIdentity)
  {
    var duplicates := DuplicateBillings(s.billings);
    if |duplicates| == 0 {
      forall i, j | 0 <= i < j < |s.billings|
        ensures s.billings[i].propertyId != s.billings[j].propertyId || s.billings[i].taxYear != s.billings[j].taxYear
      {
        assert (s.billings[i].propertyId, s.billings[i].taxYear) !in duplicates;
      }
    }
    if HoldsOfRows(s, DuplicateBillingIdentity) {
      assert duplicates == {};
    }
  }

  /** A check counts nothing exactly when every row is as it asks. */
  lemma ChecksExactly(s: Store, c: Check)
    ensures CheckCount(s, c) == 0 <==> HoldsOfRows(s, c)
  {
    hide CheckCount, HoldsOfRows;
    match c
    case OrphanPayments => PaymentRows(s, c);
    case InvalidPaymentAmount => PaymentRows(s, c);
    case IncompletePaymentIdentity => PaymentRows(s, c);
    case OrphanAllocationsPayment => AllocationRows(s, c);
    case OrphanAllocationsBilling => AllocationRows(s, c);
    case AllocationTaxYearMismatch => AllocationRows(s, c);
    case InvalidAllocationAmount => AllocationRows(s, c);
    case OrphanBillings => BillingRows(s, c);
    case InvalidBillingAmount => BillingRows(s, c);
    case BillingPaidMismatch => BillingRows(s, c);
    case BillingChargeSummaryMismatch => BillingRows(s, c);
    case DuplicateBillingIdentity => DuplicateRows(s);
    case ReceiptMissingPayment => OtherRows(s, c);
    case ReceiptCrossProperty => OtherRows(s, c);
    case AssessmentHistoryMissingProperty => OtherRows(s, c);
    case SelfReferentialPropertyLineage => OtherRows(s, c);
  }

  // ---------- Each invariant on the rows ----------

  predicate SameIdentity(p: Payment, q: Payment) {
    && p.orNumber.Some? && q.orNumber.Some? && Key(p.orNumber.value) == Key(q.orNumber.value)
    && p.taxYear.Some? && q.taxYear.Some? && Key(p.taxYear.value) == Key(q.taxYear.value)
    && p.datePaid.Some? && q.datePaid.Some? && p.datePaid.value.day == q.datePaid.value.day
    && p.propertyId == q.propertyId
  }

  ghost predicate InvariantOfRows(s: Store, v: FinancialInvariant) {
    match v
    case DuplicatePaymentIdentity =>
      forall i, j :: 0 <= i < j < |s.payments| ==> !SameIdentity(s.payments[i], s.payments[j])
    case DuplicatePaymentAllocations =>
      forall i, j :: 0 <= i < j < |s.allocations| ==>
        || s.allocations[i].paymentId != s.allocations[j].paymentId
        || s.allocations[i].billingId != s.allocations[j].billingId
    case CrossPropertyAllocations =>
      forall k, i, j | 0 <= k < |s.allocations| && 0 <= i < |s.payments| && 0 <= j < |s.billings| ::
        s.allocations[k].paymentId == s.payments[i].id && s.allocations[k].billingId == s.billings[j].id ==>
        s.payments[i].propertyId == s.billings[j].propertyId
    case UnbalancedPaymentAllocations =>
      forall i :: 0 <= i < |s.payments| ==>
        s.payments[i].amount ==
        SumBy(s.allocations, (a: Allocation) => if a.paymentId == s.payments[i].id then a.amountPaid else 0)
  }

  lemma IdentityRows(s: Store)
    ensures InvariantCount(s, DuplicatePaymentIdentity) == 0 <==> InvariantOfRows(s, DuplicatePaymentIdentity)
  {
    hide Key;
    var duplicates := DuplicateIdentities(s.payments);
    if |duplicates| == 0 {
      forall i, j | 0 <= i < j < |s.payments| ensures !SameIdentity(s.payments[i], s.payments[j]) {
        if Identifiable(s.payments[i]) {
          assert IdentityOf(s.payments[i]) !in duplicates;
        }
      }
    }
    if InvariantOfRows(s, DuplicatePaymentIdentity) {
      assert duplicates == {};
    }
  }

  lemma AllocationPairs(s: Store)
    ensures InvariantCount(s, DuplicatePaymentAllocations) == 0 <==> InvariantOfRows(s, DuplicatePaymentAllocations)
  {
    var duplicates := DuplicateAllocations(s.allocations);
    if |duplicates| == 0 {
      forall i, j | 0 <= i < j < |s.allocations|
        ensures s.allocations[i].paymentId != s.allocations[j].paymentId
          || s.allocations[i].billingId != s.allocations[j].billingId
      {
        assert (s.allocations[i].paymentId, s.allocations[i].billingId) !in duplicates;
      }
    }
    if InvariantOfRows(s, DuplicatePaymentAllocations) {
      assert duplicates == {};
    }
  }

  /** An invariant counts nothing exactly when the rows keep it. */
  lemma InvariantsExactly(s: Store, v: FinancialInvariant)
    ensures InvariantCount(s, v) == 0 <==> InvariantOfRows(s, v)
  {
    match v
    case DuplicatePaymentIdentity => IdentityRows(s);
    case DuplicatePaymentAllocations => AllocationPairs(s);
    case CrossPropertyAllocations => CountZero(s.allocations, (a: Allocation) => CrossesProperties(s, a));
    case UnbalancedPaymentAllocations =>
      CountZero(s.payments, (p: Payment) => p.amount != AllocatedFrom(s, p.id));
  }

  // ---------- The report on the rows ----------

  ghost predicate CleanRows(s: Store) {
    && (forall c: Check :: HoldsOfRows(s, c))
    && (forall v: FinancialInvariant :: InvariantOfRows(s, v))
  }

  /** On keyed tables of a complete schema the report passes exactly when every row is as all checks ask. */
  lemma PassMeansCleanRows(db: Database)
    requires ValidStore(db.store) && CompleteSchema(db.catalog) && db.catalog.receiptPaymentSetNull
    ensures GateOf(Findings(SnapshotOf(db, 0), true, [])) == PASS <==> CleanRows(db.store)
  {
    hide HoldsOfRows, InvariantOfRows, CheckCount, InvariantCount, GateOf, Findings, SnapshotOf, CompleteSchema;
    ReconciliationTheorems.ZeroCountsPass(db);
    forall c: Check ensures CheckCount(db.store, c) == 0 <==> HoldsOfRows(db.store, c) {
      ChecksExactly(db.store, c);
    }
    forall v: FinancialInvariant ensures InvariantCount(db.store, v) == 0 <==> InvariantOfRows(db.store, v) {
      InvariantsExactly(db.store, v);
    }
  }

  // ---------- What a finding tells ----------

  /** The severity of a failed check. */
  function SeverityOf(c: Check): Severity {
    match c
    case OrphanPayments => CRITICAL
    case OrphanBillings => CRITICAL
    case OrphanAllocationsPayment => CRITICAL
    case OrphanAllocationsBilling => CRITICAL
    case DuplicateBillingIdentity => CRITICAL
    case IncompletePaymentIdentity => MEDIUM
    case _ => HIGH
  }

  predicate TellsCheck(f: Finding, c: Check, count: nat) {
    f == Finding(CheckFailed(c), SeverityOf(c), c != IncompletePaymentIdentity, Some(count))
  }

  lemma {:induction false} CheckFindingsTell(counts: map<Check, Option<nat>>, cs: seq<Check>, f: Finding)
    requires IncompletePaymentIdentity !in cs
    ensures f in CheckFindings(counts, cs) <==>
      f.code.CheckFailed? && f.code.check in cs && Positive(CountAt(counts, f.code.check))
      && TellsCheck(f, f.code.check, CountAt(counts, f.code.check).value)
  {
    hide CountAt;
    if cs != [] {
      var init, last := cs[..|cs| - 1], cs[|cs| - 1];
      CheckFindingsTell(counts, init, f);
      assert cs == init + [last];
      assert last != IncompletePaymentIdentity;
    }
  }

  lemma {:induction false} InvariantFindingsTell(
      counts: map<FinancialInvariant, Option<nat>>, vs: seq<FinancialInvariant>, f: Finding)
    ensures f in InvariantFindings(counts, vs) <==>
      f.code.InvariantViolated? && f.code.violated in vs && Positive(CountAt(counts, f.code.violated))
      && f == Finding(f.code, CRITICAL, true, CountAt(counts, f.code.violated))
  {
    hide CountAt;
    if vs != [] {
      var init, last := vs[..|vs| - 1], vs[|vs| - 1];
      InvariantFindingsTell(counts, init, f);
      assert vs == init + [last];
    }
  }

  lemma {:induction false} ListFindingsTell(lists: seq<(Code, Severity, nat)>, f: Finding)
    requires forall i :: 0 <= i < |lists| ==> !lists[i].0.CheckFailed? && !lists[i].0.InvariantViolated?
    ensures f in ListFindings(lists) ==> !f.code.CheckFailed? && !f.code.InvariantViolated?
  {
    if lists != [] {
      ListFindingsTell(lists[..|lists| - 1], f);
    }
  }

  lemma {:induction false} ReadinessTells(issues: seq<string>, f: Finding)
    ensures f in ReadinessFindings(issues) ==> f.code.ReadinessBlocked?
  {
    if issues != [] {
      ReadinessTells(issues[..|issues| - 1], f);
    }
  }

  lemma NoOtherFindings(s: Snapshot, auditVerified: bool, issues: seq<string>, f: Finding)
    requires f.code.CheckFailed? || f.code.InvariantViolated?
    ensures f in Findings(s, auditVerified, issues) <==>
      || f in InvariantFindings(s.invariants, INVARIANTS) || f in CheckFindings(s.counts, BLOCKING_CHECKS)
      || f in When(Positive(CountAt(s.counts, IncompletePaymentIdentity)),
                   Finding(CheckFailed(IncompletePaymentIdentity), MEDIUM, false,
                           CountAt(s.counts, IncompletePaymentIdentity)))
  {
    hide CountAt, INVARIANTS, BLOCKING_CHECKS, CheckFindings, InvariantFindings, ListFindings, ReadinessFindings;
    ListFindingsTell(SchemaLists(s.schema), f);
    ReadinessTells(issues, f);
  }

  /** Over a complete schema the report has one finding for each check that fails, with its count, and no other. */
  lemma FindingsTellChecks(db: Database, unverifiedGroups: nat, auditVerified: bool, issues: seq<string>, f: Finding)
    requires CompleteSchema(db.catalog) && f.code.CheckFailed?
    ensures f in Findings(SnapshotOf(db, unverifiedGroups), auditVerified, issues) <==>
      CheckCount(db.store, f.code.check) > 0 && TellsCheck(f, f.code.check, CheckCount(db.store, f.code.check))
  {
    hide INVARIANTS, BLOCKING_CHECKS, CheckFindings, InvariantFindings, CheckCount, InvariantCount, CountsOf,
         InvariantsOf, SchemaOf, TotalsOf, CompleteSchema, Findings;
    var s := SnapshotOf(db, unverifiedGroups);
    NothingSkipped(db);
    NoOtherFindings(s, auditVerified, issues, f);
    EveryBlockingCheckListed(IncompletePaymentIdentity);
    EveryBlockingCheckListed(f.code.check);
    CheckFindingsTell(s.counts, BLOCKING_CHECKS, f);
    InvariantFindingsTell(s.invariants, INVARIANTS, f);
  }

  /** And one for each invariant that is violated. */
  lemma FindingsTellInvariants(
      db: Database, unverifiedGroups: nat, auditVerified: bool, issues: seq<string>, f: Finding)
    requires CompleteSchema(db.catalog) && f.code.InvariantViolated?
    ensures f in Findings(SnapshotOf(db, unverifiedGroups), auditVerified, issues) <==>
      && InvariantCount(db.store, f.code.violated) > 0
      && f == Finding(f.code, CRITICAL, true, Some(InvariantCount(db.store, f.code.violated)))
  {
    hide INVARIANTS, BLOCKING_CHECKS, CheckFindings, InvariantFindings, CheckCount, InvariantCount, CountsOf,
         InvariantsOf, SchemaOf, TotalsOf, CompleteSchema, Findings;
    var s := SnapshotOf(db, unverifiedGroups);
    NothingSkipped(db);
    NoOtherFindings(s, auditVerified, issues, f);
    EveryBlockingCheckListed(IncompletePaymentIdentity);
    EveryInvariantListed(f.code.violated);
    CheckFindingsTell(s.counts, BLOCKING_CHECKS, f);
    InvariantFindingsTell(s.invariants, INVARIANTS, f);
  }

  /** What the findings beside checks and invariants tell of the schema, the totals and the surroundings. */
  predicate TellsRest(s: Snapshot, auditVerified: bool, issues: seq<string>, f: Finding) {
    match f.code
    case FinancialTableMissing => TellsList(f, CRITICAL, |s.schema.missingTables|)
    case FinancialColumnMissing => TellsList(f, CRITICAL, |s.schema.missingColumns|)
    case FinancialUniqueIndexMissing => TellsList(f, HIGH, |s.schema.missingIndexes|)
    case FinancialForeignKeyMissing => TellsList(f, HIGH, |s.schema.missingForeignKeys|)
    case FinancialMoneyColumnMissing => TellsList(f, CRITICAL, |s.schema.missingMoneyColumns|)
    case FinancialMoneyTypeUnsafe => TellsList(f, HIGH, |s.schema.nonDecimalMoneyColumns|)
    case Phase3FinancialSchemaInactive => !s.schema.migrationApplied && f == Finding(f.code, HIGH, true, None)
    case ReceiptPaymentForeignKeyMissing =>
      !s.schema.receiptPaymentForeignKey && f == Finding(f.code, MEDIUM, false, None)
    case UnverifiedDuplicateTdGroup => TellsList(f, HIGH, s.unverifiedGroups)
    case PaymentAllocationVariance =>
      s.totals.payments != s.totals.allocations && f == Finding(f.code, HIGH, true, None)
    case BillingAllocationVariance =>
      s.totals.billings != s.totals.allocations && f == Finding(f.code, HIGH, true, None)
    case AuditChainNotVerified => !auditVerified && f == Finding(f.code, HIGH, true, None)
    case ReadinessBlocked(issue) => issue in issues && f == Finding(f.code, HIGH, true, None)
    case _ => false
  }

  predicate TellsList(f: Finding, severity: Severity, count: nat) {
    count > 0 && f == Finding(f.code, severity, true, Some(count))
  }

  lemma {:induction false} ListFindingsExactly(lists: seq<(Code, Severity, nat)>, f: Finding)
    ensures f in ListFindings(lists) <==>
      exists i :: 0 <= i < |lists| && lists[i].2 > 0 && f == Finding(lists[i].0, lists[i].1, true, Some(lists[i].2))
  {
    if lists != [] {
      ListFindingsExactly(lists[..|lists| - 1], f);
    }
  }

  lemma {:induction false} ReadinessExactly(issues: seq<string>, f: Finding)
    ensures f in ReadinessFindings(issues) <==>
      f.code.ReadinessBlocked? && f.code.issue in issues && f == Finding(f.code, HIGH, true, None)
  {
    if issues != [] {
      var init, last := issues[..|issues| - 1], issues[|issues| - 1];
      ReadinessExactly(init, f);
      assert issues == init + [last];
    }
  }

  lemma SchemaListsTell(status: SchemaStatus, f: Finding)
    ensures f in ListFindings(SchemaLists(status)) ==>
      !f.code.CheckFailed? && !f.code.InvariantViolated? && !f.code.ReadinessBlocked?
    ensures f in ListFindings(SchemaLists(status)) <==>
      || (f.code.FinancialTableMissing? && TellsList(f, CRITICAL, |status.missingTables|))
      || (f.code.FinancialColumnMissing? && TellsList(f, CRITICAL, |status.missingColumns|))
      || (f.code.FinancialUniqueIndexMissing? && TellsList(f, HIGH, |status.missingIndexes|))
      || (f.code.FinancialForeignKeyMissing? && TellsList(f, HIGH, |status.missingForeignKeys|))
      || (f.code.FinancialMoneyColumnMissing? && TellsList(f, CRITICAL, |status.missingMoneyColumns|))
      || (f.code.FinancialMoneyTypeUnsafe? && TellsList(f, HIGH, |status.nonDecimalMoneyColumns|))
  {
    var lists := SchemaLists(status);
    ListFindingsExactly(lists, f);
    assert lists[0].0 == FinancialTableMissing && lists[1].0 == FinancialColumnMissing;
    assert lists[2].0 == FinancialUniqueIndexMissing && lists[3].0 == FinancialForeignKeyMissing;
    assert lists[4].0 == FinancialMoneyColumnMissing && lists[5].0 == FinancialMoneyTypeUnsafe;
  }

  lemma InFindings(s: Snapshot, auditVerified: bool, issues: seq<string>, f: Finding)
    ensures f in Findings(s, auditVerified, issues) <==>
      || f in SchemaFindings(s.schema)
      || (!s.schema.receiptPaymentForeignKey && f == Finding(ReceiptPaymentForeignKeyMissing, MEDIUM, false, None))
      || f in IntegrityFindings(s)
      || (Positive(CountAt(s.counts, IncompletePaymentIdentity))
          && f == Finding(CheckFailed(IncompletePaymentIdentity), MEDIUM, false,
                          CountAt(s.counts, IncompletePaymentIdentity)))
      || f in TotalFindings(s) || f in ReadinessPart(auditVerified, issues)
  {
    hide SchemaFindings, IntegrityFindings, TotalFindings, ReadinessPart, Positive, CountAt;
  }

  lemma TotalsTell(s: Snapshot, f: Finding)
    ensures f in TotalFindings(s) <==>
      || (f.code.UnverifiedDuplicateTdGroup? && TellsList(f, HIGH, s.unverifiedGroups))
      || (f == Finding(PaymentAllocationVariance, HIGH, true, None) && s.totals.payments != s.totals.allocations)
      || (f == Finding(BillingAllocationVariance, HIGH, true, None) && s.totals.billings != s.totals.allocations)
  {
  }

  lemma IntegrityTells(s: Snapshot, f: Finding)
    ensures f in IntegrityFindings(s) ==> f.code.CheckFailed? || f.code.InvariantViolated?
  {
    hide INVARIANTS, BLOCKING_CHECKS, CheckFindings, InvariantFindings, CountAt, Positive;
    EveryBlockingCheckListed(IncompletePaymentIdentity);
    CheckFindingsTell(s.counts, BLOCKING_CHECKS, f);
    InvariantFindingsTell(s.invariants, INVARIANTS, f);
  }

  lemma SchemaTells(status: SchemaStatus, f: Finding)
    ensures f in SchemaFindings(status) <==>
      f in ListFindings(SchemaLists(status))
      || (f == Finding(Phase3FinancialSchemaInactive, HIGH, true, None) && !status.migrationApplied)
  {
    hide ListFindings, SchemaLists;
  }

  lemma ReadinessPartTells(auditVerified: bool, issues: seq<string>, f: Finding)
    ensures f in ReadinessPart(auditVerified, issues) <==>
      || (f == Finding(AuditChainNotVerified, HIGH, true, None) && !auditVerified)
      || (f.code.ReadinessBlocked? && f.code.issue in issues && f == Finding(f.code, HIGH, true, None))
  {
    hide ReadinessFindings;
    ReadinessExactly(issues, f);
  }

  /** The other findings of a report, one by one. */
  lemma FindingsTellRest(s: Snapshot, auditVerified: bool, issues: seq<string>, f: Finding)
    requires !f.code.CheckFailed? && !f.code.InvariantViolated?
    ensures f in Findings(s, auditVerified, issues) <==> TellsRest(s, auditVerified, issues, f)
  {
    hide Findings, SchemaFindings, IntegrityFindings, TotalFindings, ReadinessPart, Positive, CountAt, ListFindings,
         SchemaLists;
    InFindings(s, auditVerified, issues, f);
    SchemaTells(s.schema, f);
    SchemaListsTell(s.schema, f);
    IntegrityTells(s, f);
    TotalsTell(s, f);
    ReadinessPartTells(auditVerified, issues, f);
  }

  lemma {:induction false} MoneyExactly(catalog: Catalog, n: nat, m: (TableName, Column))
    requires n <= |MONEY_COLUMNS|
    ensures m in MissingMoney(catalog, n) <==>
      m in MONEY_COLUMNS[..n] && (m.0 !in catalog.tables || m.1 !in catalog.ColumnsOf(m.0))
    ensures m in NonDecimalMoney(catalog, n) <==>
      m in MONEY_COLUMNS[..n] && m.0 in catalog.tables && m.1 in catalog.ColumnsOf(m.0) && m !in catalog.decimals
  {
    hide MONEY_COLUMNS;
    if n > 0 {
      MoneyExactly(catalog, n - 1, m);
      assert MONEY_COLUMNS[..n] == MONEY_COLUMNS[..n - 1] + [MONEY_COLUMNS[n - 1]];
    }
  }

  /** What each list of the schema status holds. */
  lemma SchemaExactly(catalog: Catalog)
    ensures var s := SchemaOf(catalog);
      && (forall t: TableName :: t in s.missingTables <==> t !in catalog.tables)
      && (forall t, c :: (t, c) in s.missingColumns <==>
            t in catalog.tables && c in RequiredColumns(t) && c !in catalog.ColumnsOf(t))
      && (forall x :: x in s.missingIndexes <==>
            x in REQUIRED_UNIQUE_INDEXES && !(x.0 in catalog.tables && x in catalog.uniqueIndexes))
      && (forall k :: k in s.missingForeignKeys <==>
            k in REQUIRED_FOREIGN_KEYS && !(k.table in catalog.tables && k in catalog.foreignKeys))
      && (forall m :: m in s.missingMoneyColumns <==>
            m in MONEY_COLUMNS && (m.0 !in catalog.tables || m.1 !in catalog.ColumnsOf(m.0)))
      && (forall m :: m in s.nonDecimalMoneyColumns <==>
            m in MONEY_COLUMNS && m.0 in catalog.tables && m.1 in catalog.ColumnsOf(m.0) && m !in catalog.decimals)
      && (s.receiptPaymentForeignKey <==> RECEIPT_HISTORY in catalog.tables && catalog.receiptPaymentSetNull)
      && (s.migrationApplied <==>
            SYSTEM_MIGRATIONS in catalog.tables && ID in catalog.ColumnsOf(SYSTEM_MIGRATIONS) && catalog.phase3Recorded)
  {
    hide REQUIRED_UNIQUE_INDEXES, REQUIRED_FOREIGN_KEYS, MONEY_COLUMNS, RequiredColumns, MissingMoney, NonDecimalMoney;
    forall t: TableName ensures t in REQUIRED_TABLES {
      TableIsRequired(t);
    }
    forall m {
      MoneyExactly(catalog, |MONEY_COLUMNS|, m);
    }
    assert MONEY_COLUMNS[..|MONEY_COLUMNS|] == MONEY_COLUMNS;
  }

  // ---------- What is evaluated ----------

  /** The table is there with every column that the report needs of it. */
  predicate Whole(catalog: Catalog, t: TableName) {
    t in catalog.tables && RequiredColumns(t) <= catalog.ColumnsOf(t)
  }

  lemma UsableExactly(catalog: Catalog, tables: set<TableName>)
    ensures Usable(catalog, tables) <==> forall t :: t in tables ==> Whole(catalog, t)
  {
    hide RequiredColumns;
    forall t: TableName | t in catalog.tables
      ensures t in InvalidTables(catalog) <==> !(RequiredColumns(t) <= catalog.ColumnsOf(t))
    {
      if c :| c in RequiredColumns(t) && c !in catalog.ColumnsOf(t) {
        assert (t, c) in MissingColumns(catalog);
      }
    }
    if t :| t in tables && t in InvalidTables(catalog) {
      assert t in tables * InvalidTables(catalog);
    }
  }

  /** A check is evaluated exactly when every table that it reads is whole. */
  lemma CountsEvaluatedExactly(db: Database, c: Check)
    ensures CountAt(CountsOf(db), c) ==
      if forall t :: t in TablesOf(c) ==> Whole(db.catalog, t) then Some(CheckCount(db.store, c)) else None
  {
    hide CheckCount, TablesOf, Usable, Whole;
    UsableExactly(db.catalog, TablesOf(c));
  }

  /** An invariant is evaluated exactly when the three financial tables are whole. */
  lemma InvariantsEvaluatedExactly(db: Database, v: FinancialInvariant)
    ensures CountAt(InvariantsOf(db), v) ==
      if Whole(db.catalog, PAYMENTS) && Whole(db.catalog, PROPERTY_BILLINGS) && Whole(db.catalog, PAYMENT_BILLINGS) then
        Some(InvariantCount(db.store, v))
      else None
  {
    hide InvariantCount, Usable, Whole;
    UsableExactly(db.catalog, CORE_TABLES);
  }

  /** A total is taken exactly when its table is whole, and is zero otherwise. */
  lemma TotalsTakenExactly(db: Database)
    ensures TotalsOf(db).payments == if Whole(db.catalog, PAYMENTS) then PaymentTotal(db.store) else 0
    ensures TotalsOf(db).allocations == if Whole(db.catalog, PAYMENT_BILLINGS) then AllocationTotal(db.store) else 0
    ensures TotalsOf(db).billings == if Whole(db.catalog, PROPERTY_BILLINGS) then BillingTotal(db.store) else 0
  {
    hide Usable, Whole, PaymentTotal, AllocationTotal, BillingTotal;
    UsableExactly(db.catalog, {PAYMENTS});
    UsableExactly(db.catalog, {PAYMENT_BILLINGS});
    UsableExactly(db.catalog, {PROPERTY_BILLINGS});
  }

  predicate SameTable(a: Store, b: Store, t: TableName) {
    match t
    case PROPERTIES => a.properties == b.properties
    case PAYMENTS => a.payments == b.payments
    case PROPERTY_BILLINGS => a.billings == b.billings
    case PAYMENT_BILLINGS => a.allocations == b.allocations
    case RECEIPT_HISTORY => a.receipts == b.receipts
    case PROPERTY_ASSESSMENT_HISTORY => a.history == b.history
    case SYSTEM_MIGRATIONS => true
  }

  lemma SameLinkedCharge(a: Store, b: Store, id: int, charge: Payment -> int)
    requires a.payments == b.payments && a.allocations == b.allocations
    ensures LinkedCharge(a, id, charge) == LinkedCharge(b, id, charge)
  {
    hide ChargeOf;
    SumAgrees(
      a.allocations, (r: Allocation) => if r.billingId == id then ChargeOf(a.payments, r.paymentId, charge) else 0,
      b.allocations, (r: Allocation) => if r.billingId == id then ChargeOf(b.payments, r.paymentId, charge) else 0);
  }

  lemma SameCharges(a: Store, b: Store, x: Billing)
    requires a.payments == b.payments && a.allocations == b.allocations
    ensures ChargeMismatch(a, x) <==> ChargeMismatch(b, x)
  {
    hide LinkedCharge;
    SameLinkedCharge(a, b, x.id, Penalty);
    SameLinkedCharge(a, b, x.id, Discount);
    forall k | 0 <= k < |a.allocations| ensures Links(a, a.allocations[k], x.id) <==> Links(b, b.allocations[k], x.id) {
    }
  }

  /** A check depends on no table beside those that it is said to read. */
  lemma CountReadsTables(a: Store, b: Store, c: Check)
    requires forall t :: t in TablesOf(c) ==> SameTable(a, b, t)
    ensures CheckCount(a, c) == CheckCount(b, c)
  {
    hide ChargeMismatch;
    assert PROPERTIES in TablesOf(c) ==> SameTable(a, b, PROPERTIES);
    assert PAYMENTS in TablesOf(c) ==> SameTable(a, b, PAYMENTS);
    assert PROPERTY_BILLINGS in TablesOf(c) ==> SameTable(a, b, PROPERTY_BILLINGS);
    assert PAYMENT_BILLINGS in TablesOf(c) ==> SameTable(a, b, PAYMENT_BILLINGS);
    assert RECEIPT_HISTORY in TablesOf(c) ==> SameTable(a, b, RECEIPT_HISTORY);
    assert PROPERTY_ASSESSMENT_HISTORY in TablesOf(c) ==> SameTable(a, b, PROPERTY_ASSESSMENT_HISTORY);
    match c
    case OrphanPayments =>
      CountAgrees(a.payments, (p: Payment) => !HasProperty(a.properties, p.propertyId),
                  b.payments, (p: Payment) => !HasProperty(b.properties, p.propertyId));
    case OrphanBillings =>
      CountAgrees(a.billings, (x: Billing) => !HasProperty(a.properties, x.propertyId),
                  b.billings, (x: Billing) => !HasProperty(b.properties, x.propertyId));
    case OrphanAllocationsPayment =>
      CountAgrees(a.allocations, (r: Allocation) => !HasPayment(a.payments, r.paymentId),
                  b.allocations, (r: Allocation) => !HasPayment(b.payments, r.paymentId));
    case OrphanAllocationsBilling =>
      CountAgrees(a.allocations, (r: Allocation) => !HasBilling(a.billings, r.billingId),
                  b.allocations, (r: Allocation) => !HasBilling(b.billings, r.billingId));
    case AllocationTaxYearMismatch =>
      CountAgrees(a.allocations, (r: Allocation) => YearMismatch(a, r),
                  b.allocations, (r: Allocation) => YearMismatch(b, r));
    case BillingPaidMismatch =>
      CountAgrees(a.billings, (x: Billing) => x.amountPaid != AllocatedTo(a, x.id),
                  b.billings, (x: Billing) => x.amountPaid != AllocatedTo(b, x.id));
    case BillingChargeSummaryMismatch =>
      forall i | 0 <= i < |a.billings| {
        SameCharges(a, b, a.billings[i]);
      }
      CountAgrees(a.billings, (x: Billing) => ChargeMismatch(a, x), b.billings, (x: Billing) => ChargeMismatch(b, x));
    case ReceiptMissingPayment =>
      CountAgrees(a.receipts, (r: Receipt) => Dangling(a, r), b.receipts, (r: Receipt) => Dangling(b, r));
    case ReceiptCrossProperty =>
      CountAgrees(a.receipts, (r: Receipt) => CrossProperty(a, r), b.receipts, (r: Receipt) => CrossProperty(b, r));
    case AssessmentHistoryMissingProperty =>
      CountAgrees(a.history, (h: HistoryEntry) => !HasProperty(a.properties, h.propertyId),
                  b.history, (h: HistoryEntry) => !HasProperty(b.properties, h.propertyId));
    case _ =>
  }
}
