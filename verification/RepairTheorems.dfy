/** What a committed recovery achieves, as far as the planner and the count checks can tell. */
module RepairTheorems {
  import opened Wrappers
  import opened Sums
  import opened Ledger
  import opened RepairPlan
  import Text

  // ---------- New tax years ----------

  lemma {:induction false} NoSpacesNoTrim(s: string)
    requires ' ' !in s
    ensures Trim(s) == s
  {
  }

  lemma YearTextIsNotBlank(year: int)
    ensures Trim(YearText(year)) == YearText(year) && YearText(year) != ""
    ensures !Blank(Some(YearText(year)))
  {
    var digits := Text.Decimal(if year >= 0 then year else -year);
    assert ' ' !in digits;
    NoSpacesNoTrim(YearText(year));
  }

  lemma RepairedIsComplete(s: Store, p: Payment)
    requires Incomplete(p) ==> Repairable(s, p)
    ensures !Incomplete(RepairedPayment(s, p))
  {
    hide MinimumYear, LinkCount, AllocationYears, CollisionCount, Trim, YearText;
    if Incomplete(p) {
      YearTextIsNotBlank(MinimumYear(s, p.id, |s.allocations|).value);
    }
  }

  // ---------- Joins are unchanged ----------

  /** A column that the repair leaves alone. */
  ghost predicate Untouched(charge: Payment -> int) {
    forall p: Payment, year: Option<string> :: charge(p.(taxYear := year)) == charge(p)
  }

  lemma PaymentsKeepMoney(s: Store, i: nat)
    requires i < |s.payments|
    ensures var p, p' := s.payments[i], Repaired(s).payments[i];
      p' == p.(taxYear := p'.taxYear)
  {
    hide Incomplete, Repairable, NewTaxYear;
    assert Repaired(s).payments[i] == RepairedPayment(s, s.payments[i]);
  }

  lemma PaymentsKeepJoins(s: Store, id: int)
    ensures HasPayment(Repaired(s).payments, id) <==> HasPayment(s.payments, id)
  {
    hide RepairedBilling, RepairedReceipt, RepairedPayment;
    forall i | 0 <= i < |s.payments| {
      PaymentsKeepMoney(s, i);
    }
    var s' := Repaired(s);
    if HasPayment(s.payments, id) {
      var i :| 0 <= i < |s.payments| && s.payments[i].id == id;
      assert s'.payments[i].id == id;
    }
  }

  lemma PaymentsKeepCharges(s: Store, id: int, charge: Payment -> int)
    requires Untouched(charge)
    ensures ChargeOf(Repaired(s).payments, id, charge) == ChargeOf(s.payments, id, charge)
  {
    hide RepairedBilling, RepairedReceipt, RepairedPayment;
    var before, after := s.payments, Repaired(s).payments;
    forall i | 0 <= i < |after| ensures after[i].id == before[i].id && charge(after[i]) == charge(before[i]) {
      PaymentsKeepMoney(s, i);
    }
    SumAgrees(after, (p: Payment) => if p.id == id then charge(p) else 0,
              before, (p: Payment) => if p.id == id then charge(p) else 0);
  }

  lemma LinkedChargesKept(s: Store, billingId: int, charge: Payment -> int)
    requires Untouched(charge)
    ensures LinkedCharge(Repaired(s), billingId, charge) == LinkedCharge(s, billingId, charge)
  {
    hide ChargeOf, Untouched, RepairedBilling, RepairedReceipt, RepairedPayment;
    var s' := Repaired(s);
    forall i | 0 <= i < |s.allocations|
      ensures ChargeOf(s'.payments, s.allocations[i].paymentId, charge)
           == ChargeOf(s.payments, s.allocations[i].paymentId, charge)
    {
      PaymentsKeepCharges(s, s.allocations[i].paymentId, charge);
    }
    SumAgrees(
      s'.allocations,
      (a: Allocation) => if a.billingId == billingId then ChargeOf(s'.payments, a.paymentId, charge) else 0,
      s.allocations,
      (a: Allocation) => if a.billingId == billingId then ChargeOf(s.payments, a.paymentId, charge) else 0);
  }

  lemma LinksAreKept(s: Store, billingId: int)
    ensures Linked(Repaired(s), billingId) <==> Linked(s, billingId)
    ensures LinkedPenalty(Repaired(s), billingId) == LinkedPenalty(s, billingId)
    ensures LinkedDiscount(Repaired(s), billingId) == LinkedDiscount(s, billingId)
  {
    hide HasPayment, LinkedCharge, RepairedBilling, RepairedReceipt, RepairedPayment;
    var s' := Repaired(s);
    forall i | 0 <= i < |s.allocations|
      ensures Links(s', s.allocations[i], billingId) <==> Links(s, s.allocations[i], billingId)
    {
      PaymentsKeepJoins(s, s.allocations[i].paymentId);
    }
    LinkedChargesKept(s, billingId, Penalty);
    LinkedChargesKept(s, billingId, Discount);
  }

  // ---------- Nothing is left to repair ----------

  lemma NoMismatchLeft(s: Store, i: nat)
    requires Unblocked(s) && i < |s.billings|
    ensures !ChargeMismatch(Repaired(s), Repaired(s).billings[i])
  {
    hide Ambiguous, Linked, LinkedPenalty, LinkedDiscount, Repairable, Incomplete;
    LinksAreKept(s, s.billings[i].id);
    assert Repaired(s).billings[i] == RepairedBilling(s, s.billings[i]);
  }

  lemma NoIncompleteLeft(s: Store, i: nat)
    requires Unblocked(s) && i < |s.payments|
    ensures !Incomplete(Repaired(s).payments[i])
  {
    hide Incomplete, Repairable, NewTaxYear, ChargeMismatch, Ambiguous;
    RepairedIsComplete(s, s.payments[i]);
    assert Repaired(s).payments[i] == RepairedPayment(s, s.payments[i]);
  }

  lemma NoDanglingLeft(s: Store, i: nat)
    requires i < |s.receipts|
    ensures !Dangling(Repaired(s), Repaired(s).receipts[i])
  {
    hide HasPayment, RepairedBilling, RepairedPayment;
    assert Repaired(s).receipts[i] == RepairedReceipt(s, s.receipts[i]);
    if s.receipts[i].paymentId.Some? {
      PaymentsKeepJoins(s, s.receipts[i].paymentId.value);
    }
  }

  lemma {:induction false} BillingsCounted(s: Store, n: nat)
    requires n <= |s.billings|
    ensures |BillingChanges(s, n)| + |BillingBlockers(s, n)|
         == CountBy(s.billings[..n], (b: Billing) => ChargeMismatch(s, b))
  {
    hide ChargeMismatch, Ambiguous, ChangeOfBilling;
    if n > 0 {
      BillingsCounted(s, n - 1);
      assert s.billings[..n][..n - 1] == s.billings[..n - 1];
    }
  }

  lemma {:induction false} PaymentsCounted(s: Store, n: nat)
    requires n <= |s.payments|
    ensures |PaymentChanges(s, n)| + |PaymentBlockers(s, n)|
         == CountBy(s.payments[..n], (p: Payment) => Incomplete(p))
  {
    hide Incomplete, Deterministic, CollisionCount, NewTaxYear;
    if n > 0 {
      PaymentsCounted(s, n - 1);
      assert s.payments[..n][..n - 1] == s.payments[..n - 1];
    }
  }

  lemma {:induction false} ReceiptsCounted(s: Store, n: nat)
    requires n <= |s.receipts|
    ensures |ReceiptChanges(s, n)| == CountBy(s.receipts[..n], (r: Receipt) => Dangling(s, r))
  {
    hide HasPayment;
    if n > 0 {
      ReceiptsCounted(s, n - 1);
      assert s.receipts[..n][..n - 1] == s.receipts[..n - 1];
    }
  }

  /** The planner's changes and blockers together are exactly the rows that the checker counts. */
  lemma PlannerAgreesWithChecker(s: Store)
    ensures |BillingChanges(s, |s.billings|)| + |BillingBlockers(s, |s.billings|)|
         == CheckCount(s, BillingChargeSummaryMismatch)
    ensures |PaymentChanges(s, |s.payments|)| + |PaymentBlockers(s, |s.payments|)|
         == CheckCount(s, IncompletePaymentIdentity)
    ensures |ReceiptChanges(s, |s.receipts|)| == CheckCount(s, ReceiptMissingPayment)
    ensures BuildPlan(s).Complete() <==>
      && CheckCount(s, BillingChargeSummaryMismatch) == 0
      && CheckCount(s, ReceiptMissingPayment) == 0
      && CheckCount(s, IncompletePaymentIdentity) == 0
  {
    hide ChargeMismatch, Incomplete, Dangling, CountBy, BillingChanges, BillingBlockers, PaymentChanges,
         PaymentBlockers, ReceiptChanges;
    BillingsCounted(s, |s.billings|);
    PaymentsCounted(s, |s.payments|);
    ReceiptsCounted(s, |s.receipts|);
    assert s.billings[..|s.billings|] == s.billings;
    assert s.payments[..|s.payments|] == s.payments;
    assert s.receipts[..|s.receipts|] == s.receipts;
  }

  /** After an unblocked recovery the planner finds the data complete, and the checker agrees. */
  lemma RecoveryReachesFixpoint(s: Store)
    requires BuildPlan(s).Ready()
    ensures BuildPlan(Repaired(s)).Complete()
    ensures CheckCount(Repaired(s), BillingChargeSummaryMismatch) == 0
    ensures CheckCount(Repaired(s), ReceiptMissingPayment) == 0
    ensures CheckCount(Repaired(s), IncompletePaymentIdentity) == 0
  {
    hide ChargeMismatch, Incomplete, Dangling, Unblocked, Repaired, BuildPlan;
    ReadyMeansUnblocked(s);
    var s' := Repaired(s);
    SizesKept(s);
    forall i | 0 <= i < |s'.billings| ensures !ChargeMismatch(s', s'.billings[i]) {
      NoMismatchLeft(s, i);
    }
    forall i | 0 <= i < |s'.payments| ensures !Incomplete(s'.payments[i]) {
      NoIncompleteLeft(s, i);
    }
    forall i | 0 <= i < |s'.receipts| ensures !Dangling(s', s'.receipts[i]) {
      NoDanglingLeft(s, i);
    }
    CountZero(s'.billings, (b: Billing) => ChargeMismatch(s', b));
    CountZero(s'.receipts, (r: Receipt) => Dangling(s', r));
    CountZero(s'.payments, (p: Payment) => Incomplete(p));
    PlannerAgreesWithChecker(s');
  }

  lemma SizesKept(s: Store)
    ensures |Repaired(s).billings| == |s.billings|
    ensures |Repaired(s).payments| == |s.payments|
    ensures |Repaired(s).receipts| == |s.receipts|
  {
  }

  // ---------- No other check gets worse ----------

  ghost predicate NonNegativeCharges(s: Store) {
    forall i :: 0 <= i < |s.payments| ==> s.payments[i].penalty.GetOr(0) >= 0 && s.payments[i].discount.GetOr(0) >= 0
  }

  lemma LinkedChargeNonNegative(s: Store, billingId: int, charge: Payment -> int)
    requires forall i :: 0 <= i < |s.payments| ==> charge(s.payments[i]) >= 0
    ensures LinkedCharge(s, billingId, charge) >= 0
  {
    forall id ensures ChargeOf(s.payments, id, charge) >= 0 {
      SumNonNegative(s.payments, (p: Payment) => if p.id == id then charge(p) else 0);
    }
    SumNonNegative(s.allocations,
      (a: Allocation) => if a.billingId == billingId then ChargeOf(s.payments, a.paymentId, charge) else 0);
  }

  lemma LinkedChargesNonNegative(s: Store, billingId: int)
    requires NonNegativeCharges(s)
    ensures LinkedPenalty(s, billingId) >= 0 && LinkedDiscount(s, billingId) >= 0
  {
    hide LinkedCharge;
    LinkedChargeNonNegative(s, billingId, Penalty);
    LinkedChargeNonNegative(s, billingId, Discount);
  }

  predicate InvalidBilling(b: Billing) {
    b.assessedValue < 0 || b.penalty < 0 || b.discount < 0 || b.amountPaid < 0
  }

  /** A valid billing whose payments have a negative penalty or discount in all. */
  predicate TurnsInvalid(s: Store, b: Billing) {
    && !InvalidBilling(b) && ChargeMismatch(s, b)
    && (LinkedPenalty(s, b.id) < 0 || LinkedDiscount(s, b.id) < 0)
  }

  /** A billing that is invalid for its stored charges alone, and whose payments have none below zero in all. */
  predicate TurnsValid(s: Store, b: Billing) {
    && InvalidBilling(b) && ChargeMismatch(s, b) && b.assessedValue >= 0 && b.amountPaid >= 0
    && LinkedPenalty(s, b.id) >= 0 && LinkedDiscount(s, b.id) >= 0
  }

  lemma RepairedByMismatch(s: Store, i: nat)
    requires Unblocked(s) && i < |s.billings|
    ensures var b := s.billings[i];
      Repaired(s).billings[i] ==
        if ChargeMismatch(s, b) then b.(penalty := LinkedPenalty(s, b.id), discount := LinkedDiscount(s, b.id)) else b
  {
    hide ChargeMismatch, Ambiguous, LinkedPenalty, LinkedDiscount, Incomplete, Repairable;
    assert Repaired(s).billings[i] == RepairedBilling(s, s.billings[i]);
  }

  /** The invalid billings after the repair, counted on the planned rows. */
  lemma InvalidBillingsBalance(s: Store)
    requires Unblocked(s)
    ensures CheckCount(Repaired(s), InvalidBillingAmount) + CountBy(s.billings, (b: Billing) => TurnsValid(s, b))
         == CheckCount(s, InvalidBillingAmount) + CountBy(s.billings, (b: Billing) => TurnsInvalid(s, b))
  {
    hide LinkedPenalty, LinkedDiscount, ChargeMismatch, Repaired, Unblocked;
    SizesKept(s);
    var after := Repaired(s).billings;
    forall i | 0 <= i < |s.billings|
      ensures TurnsInvalid(s, s.billings[i]) <==> !InvalidBilling(s.billings[i]) && InvalidBilling(after[i])
      ensures TurnsValid(s, s.billings[i]) <==> InvalidBilling(s.billings[i]) && !InvalidBilling(after[i])
    {
      RepairedByMismatch(s, i);
    }
    var invalid := (b: Billing) => b.assessedValue < 0 || b.penalty < 0 || b.discount < 0 || b.amountPaid < 0;
    CountChanges(s.billings, invalid, after, invalid,
                 (b: Billing) => TurnsInvalid(s, b), (b: Billing) => TurnsValid(s, b));
    CountAgrees(s.billings, invalid, s.billings,
                (b: Billing) => b.assessedValue < 0 || b.penalty < 0 || b.discount < 0 || b.amountPaid < 0);
    CountAgrees(after, invalid, after,
                (b: Billing) => b.assessedValue < 0 || b.penalty < 0 || b.discount < 0 || b.amountPaid < 0);
  }

  lemma BillingsKeepIdentity(s: Store, i: nat)
    requires i < |s.billings|
    ensures var b, b' := s.billings[i], Repaired(s).billings[i];
      b'.id == b.id && b'.propertyId == b.propertyId && b'.taxYear == b.taxYear && b'.amountPaid == b.amountPaid
  {
    hide ChargeMismatch, Ambiguous, LinkedPenalty, LinkedDiscount;
    assert Repaired(s).billings[i] == RepairedBilling(s, s.billings[i]);
  }

  lemma BillingChecksKept(s: Store, c: Check)
    requires c in {OrphanBillings, OrphanAllocationsBilling, AllocationTaxYearMismatch, DuplicateBillingIdentity,
                   BillingPaidMismatch}
    ensures CheckCount(Repaired(s), c) == CheckCount(s, c)
  {
    hide RepairedBilling, RepairedPayment, RepairedReceipt;
    var s' := Repaired(s);
    forall i | 0 <= i < |s.billings| {
      BillingsKeepIdentity(s, i);
    }
    match c
    case OrphanBillings =>
      CountAgrees(s'.billings, (b: Billing) => !HasProperty(s'.properties, b.propertyId),
                  s.billings, (b: Billing) => !HasProperty(s.properties, b.propertyId));
    case OrphanAllocationsBilling =>
      CountAgrees(s'.allocations, (a: Allocation) => !HasBilling(s'.billings, a.billingId),
                  s.allocations, (a: Allocation) => !HasBilling(s.billings, a.billingId));
    case AllocationTaxYearMismatch =>
      CountAgrees(s'.allocations, (a: Allocation) => YearMismatch(s', a),
                  s.allocations, (a: Allocation) => YearMismatch(s, a));
    case DuplicateBillingIdentity =>
      assert DuplicateBillings(s'.billings) == DuplicateBillings(s.billings);
    case BillingPaidMismatch =>
      AllocationsKept(s);
      CountAgrees(s'.billings, (b: Billing) => b.amountPaid != AllocatedTo(s', b.id),
                  s.billings, (b: Billing) => b.amountPaid != AllocatedTo(s, b.id));
  }

  lemma AllocationsKept(s: Store)
    ensures forall id :: AllocatedTo(Repaired(s), id) == AllocatedTo(s, id)
  {
  }

  lemma PaymentChecksKept(s: Store, c: Check)
    requires c in {OrphanPayments, OrphanAllocationsPayment, InvalidPaymentAmount}
    ensures CheckCount(Repaired(s), c) == CheckCount(s, c)
  {
    hide RepairedBilling, RepairedPayment, RepairedReceipt, HasPayment;
    var s' := Repaired(s);
    forall i | 0 <= i < |s.payments| {
      PaymentsKeepMoney(s, i);
    }
    match c
    case OrphanPayments =>
      CountAgrees(s'.payments, (p: Payment) => !HasProperty(s'.properties, p.propertyId),
                  s.payments, (p: Payment) => !HasProperty(s.properties, p.propertyId));
    case OrphanAllocationsPayment =>
      forall id {
        PaymentsKeepJoins(s, id);
      }
      CountAgrees(s'.allocations, (a: Allocation) => !HasPayment(s'.payments, a.paymentId),
                  s.allocations, (a: Allocation) => !HasPayment(s.payments, a.paymentId));
    case InvalidPaymentAmount =>
      CountAgrees(
        s'.payments, (p: Payment) => p.amount <= 0 || p.penalty.GetOr(0) < 0 || p.discount.GetOr(0) < 0,
        s.payments, (p: Payment) => p.amount <= 0 || p.penalty.GetOr(0) < 0 || p.discount.GetOr(0) < 0);
  }

  lemma CrossPropertyNoWorse(s: Store)
    ensures CheckCount(Repaired(s), ReceiptCrossProperty) <= CheckCount(s, ReceiptCrossProperty)
  {
    hide RepairedBilling, RepairedPayment, Dangling;
    var s' := Repaired(s);
    forall i | 0 <= i < |s.payments| {
      PaymentsKeepMoney(s, i);
    }
    forall i | 0 <= i < |s.receipts| ensures CrossProperty(s', s'.receipts[i]) ==> CrossProperty(s, s.receipts[i]) {
      assert s'.receipts[i] == RepairedReceipt(s, s.receipts[i]);
      if CrossProperty(s', s'.receipts[i]) {
        var k :| 0 <= k < |s'.payments| && s'.payments[k].id == s'.receipts[i].paymentId.value
          && s'.payments[k].propertyId != s'.receipts[i].propertyId;
        assert s.payments[k].id == s.receipts[i].paymentId.value;
      }
    }
    CountAtMost(s'.receipts, (r: Receipt) => CrossProperty(s', r), s.receipts, (r: Receipt) => CrossProperty(s, r));
  }

  lemma UntouchedChecks(s: Store, c: Check)
    requires c in {InvalidAllocationAmount, AssessmentHistoryMissingProperty, SelfReferentialPropertyLineage}
    ensures CheckCount(Repaired(s), c) == CheckCount(s, c)
  {
    hide RepairedBillings, RepairedPayments, RepairedReceipts;
    var s' := Repaired(s);
    CountAgrees(s'.history, (h: HistoryEntry) => !HasProperty(s'.properties, h.propertyId),
                s.history, (h: HistoryEntry) => !HasProperty(s.properties, h.propertyId));
  }

  lemma OtherChecksNoWorse(s: Store, c: Check)
    requires BuildPlan(s).Ready() && c != InvalidBillingAmount
    ensures CheckCount(Repaired(s), c) <= CheckCount(s, c)
  {
    hide CheckCount, Repaired, BuildPlan;
    match c
    case OrphanBillings => BillingChecksKept(s, c);
    case OrphanAllocationsBilling => BillingChecksKept(s, c);
    case AllocationTaxYearMismatch => BillingChecksKept(s, c);
    case DuplicateBillingIdentity => BillingChecksKept(s, c);
    case BillingPaidMismatch => BillingChecksKept(s, c);
    case OrphanPayments => PaymentChecksKept(s, c);
    case OrphanAllocationsPayment => PaymentChecksKept(s, c);
    case InvalidPaymentAmount => PaymentChecksKept(s, c);
    case ReceiptCrossProperty => CrossPropertyNoWorse(s);
    case BillingChargeSummaryMismatch => RecoveryReachesFixpoint(s);
    case ReceiptMissingPayment => RecoveryReachesFixpoint(s);
    case IncompletePaymentIdentity => RecoveryReachesFixpoint(s);
    case InvalidAllocationAmount => UntouchedChecks(s, c);
    case AssessmentHistoryMissingProperty => UntouchedChecks(s, c);
    case SelfReferentialPropertyLineage => UntouchedChecks(s, c);
  }

  /**
   * A count check of the report gets worse exactly when it is the one of invalid billing amounts
   * and more billings turn invalid than valid, by the linked charges that the plan copies.
   */
  lemma ChecksGrowExactly(s: Store, c: Check)
    requires BuildPlan(s).Ready()
    ensures CheckCount(Repaired(s), c) > CheckCount(s, c) <==>
      && c == InvalidBillingAmount
      && CountBy(s.billings, (b: Billing) => TurnsInvalid(s, b)) > CountBy(s.billings, (b: Billing) => TurnsValid(s, b))
  {
    hide CheckCount, Repaired, BuildPlan, TurnsValid, TurnsInvalid, Unblocked;
    ReadyMeansUnblocked(s);
    InvalidBillingsBalance(s);
    if c != InvalidBillingAmount {
      OtherChecksNoWorse(s, c);
    }
  }

  /** With non-negative payment charges no count check of the report gets worse. */
  lemma NoCheckGetsWorse(s: Store, c: Check)
    requires BuildPlan(s).Ready() && NonNegativeCharges(s)
    ensures CheckCount(Repaired(s), c) <= CheckCount(s, c)
  {
    hide CheckCount, Repaired, BuildPlan, LinkedPenalty, LinkedDiscount, NonNegativeCharges, ChargeMismatch;
    forall i | 0 <= i < |s.billings| ensures !TurnsInvalid(s, s.billings[i]) {
      LinkedChargesNonNegative(s, s.billings[i].id);
    }
    CountZero(s.billings, (b: Billing) => TurnsInvalid(s, b));
    ChecksGrowExactly(s, c);
  }

  // ---------- A negative charge makes a check worse ----------

  /** One billing whose only payment has a penalty of one cent below zero. */
  function NegativeStore(): Store {
    var payment := Payment(1, 7, 100, Some(-1), None, Some("A"), Some("B"), Some(DateTime(5, 0)));
    Store([Property(7, None)], [payment], [Billing(1, 7, 2020, 0, 0, 0, 100)], [Allocation(1, 1, 1, 2020, 100)], [], [])
  }

  lemma NegativeCharges()
    ensures var s := NegativeStore();
      && Linked(s, 1) && LinkedPenalty(s, 1) == -1 && LinkedDiscount(s, 1) == 0 && LinkCount(s, 1) == 1
  {
    var s := NegativeStore();
    assert s.payments[0].id == 1;
    assert Links(s, s.allocations[0], 1);
    CountSingle(s.allocations, (a: Allocation) => a.paymentId == 1, 0);
    SumSingle(s.payments, (p: Payment) => if p.id == 1 then Penalty(p) else 0, 0);
    SumSingle(s.payments, (p: Payment) => if p.id == 1 then Discount(p) else 0, 0);
    SumSingle(s.allocations,
              (a: Allocation) => if a.billingId == 1 then ChargeOf(s.payments, a.paymentId, Penalty) else 0, 0);
    SumSingle(s.allocations,
              (a: Allocation) => if a.billingId == 1 then ChargeOf(s.payments, a.paymentId, Discount) else 0, 0);
  }

  /** The ready plan of that store stores the negative penalty, which the report then counts. */
  lemma NegativeChargeIsCopied()
    ensures var s := NegativeStore();
      && BuildPlan(s).Ready()
      && CheckCount(Repaired(s), InvalidBillingAmount) > CheckCount(s, InvalidBillingAmount)
  {
    hide Linked, LinkedPenalty, LinkedDiscount, LinkCount, Ambiguous, Repaired, CheckCount, BuildPlan;
    var s := NegativeStore();
    NegativeCharges();
    UnambiguousMeansSingleLinks(s, 1);
    assert Trim("A") == "A" && Trim("B") == "B";
    ReadyMeansUnblocked(s);
    assert TurnsInvalid(s, s.billings[0]);
    CountSingle(s.billings, (b: Billing) => TurnsInvalid(s, b), 0);
    CountZero(s.billings, (b: Billing) => TurnsValid(s, b));
    ChecksGrowExactly(s, InvalidBillingAmount);
  }
}
