/** Repaired charges count every payment once, and repaired identities stay clear of complete ones. */
module RepairGuarantees {
  import opened Wrappers
  import opened Sums
  import opened Ledger
  import opened RepairPlan
  import opened RepairTheorems

  // ---------- Each payment is counted once ----------

  /** The i-th billing gets new charges. */
  predicate RepairedAt(s: Store, i: nat)
    requires i < |s.billings|
  {
    ChargeMismatch(s, s.billings[i])
  }

  /** The allocation row contributes to a repaired billing. */
  predicate Contributes(s: Store, a: Allocation) {
    HasPayment(s.payments, a.paymentId) &&
    exists b :: 0 <= b < |s.billings| && RepairedAt(s, b) && s.billings[b].id == a.billingId
  }

  /** The payment is linked to a repaired billing. */
  predicate PaysRepaired(s: Store, p: Payment) {
    exists i :: 0 <= i < |s.allocations| && s.allocations[i].paymentId == p.id && Contributes(s, s.allocations[i])
  }

  lemma SingleLink(s: Store, i: nat)
    requires Unblocked(s) && i < |s.allocations| && Contributes(s, s.allocations[i])
    ensures LinkCount(s, s.allocations[i].paymentId) == 1
  {
    hide HasPayment, Ambiguous, LinkCount, LinkedPenalty, LinkedDiscount;
    var a := s.allocations[i];
    var b :| 0 <= b < |s.billings| && RepairedAt(s, b) && s.billings[b].id == a.billingId;
    UnambiguousMeansSingleLinks(s, a.billingId);
  }

  /** Payments that are linked to different repaired billings are different. */
  lemma RepairedBillingsShareNoPayment(s: Store, i: nat, j: nat)
    requires BuildPlan(s).Ready()
    requires i < |s.allocations| && j < |s.allocations|
    requires Contributes(s, s.allocations[i]) && Contributes(s, s.allocations[j])
    requires s.allocations[i].billingId != s.allocations[j].billingId
    ensures s.allocations[i].paymentId != s.allocations[j].paymentId
  {
    hide Contributes, Unblocked, BuildPlan;
    ReadyMeansUnblocked(s);
    SingleLink(s, i);
    if s.allocations[i].paymentId == s.allocations[j].paymentId {
      CountOneIsUnique(s.allocations, (a: Allocation) => a.paymentId == s.allocations[i].paymentId, i, j);
    }
  }

  /** What one allocation row adds to one billing. */
  function BillingCell(s: Store, charge: Payment -> int): (Billing, Allocation) -> int {
    (b: Billing, a: Allocation) =>
      if ChargeMismatch(s, b) && a.billingId == b.id then ChargeOf(s.payments, a.paymentId, charge) else 0
  }

  /** What one allocation row takes from one payment. */
  function PaymentCell(s: Store, charge: Payment -> int): (Allocation, Payment) -> int {
    (a: Allocation, p: Payment) => if Contributes(s, a) && p.id == a.paymentId then charge(p) else 0
  }

  /** The new charges of all repaired billings. */
  function NewCharges(s: Store, charge: Payment -> int): int {
    SumBy(s.billings, (b: Billing) => if ChargeMismatch(s, b) then LinkedCharge(s, b.id, charge) else 0)
  }

  /** The charges of the payments linked to repaired billings, each payment once. */
  function PaidCharges(s: Store, charge: Payment -> int): int {
    SumBy(s.payments, (p: Payment) => if PaysRepaired(s, p) then charge(p) else 0)
  }

  lemma BillingRow(s: Store, b: Billing, charge: Payment -> int)
    ensures RowSum(s.allocations, BillingCell(s, charge))(b)
         == if ChargeMismatch(s, b) then LinkedCharge(s, b.id, charge) else 0
  {
    hide ChargeMismatch, ChargeOf;
    var f := BillingCell(s, charge);
    if ChargeMismatch(s, b) {
      RowSumIs(s.allocations, f, b,
               (a: Allocation) => if a.billingId == b.id then ChargeOf(s.payments, a.paymentId, charge) else 0);
    } else {
      RowSumIs(s.allocations, f, b, (a: Allocation) => 0);
      SumZero(s.allocations, (a: Allocation) => 0);
    }
  }

  lemma NoPaymentNoCharge(s: Store, id: int, charge: Payment -> int)
    requires !HasPayment(s.payments, id)
    ensures ChargeOf(s.payments, id, charge) == 0
  {
    SumZero(s.payments, (p: Payment) => if p.id == id then charge(p) else 0);
  }

  lemma AllocationColumn(s: Store, a: Allocation, charge: Payment -> int)
    requires UniqueIds(s.billings, (b: Billing) => b.id)
    ensures ColumnSum(s.billings, BillingCell(s, charge))(a)
         == RowSum(s.payments, PaymentCell(s, charge))(a)
  {
    hide ChargeMismatch, HasPayment;
    var f, g := BillingCell(s, charge), PaymentCell(s, charge);
    if Contributes(s, a) {
      var k :| 0 <= k < |s.billings| && RepairedAt(s, k) && s.billings[k].id == a.billingId;
      forall j | 0 <= j < |s.billings| && j != k ensures f(s.billings[j], a) == 0 {
        assert s.billings[j].id != s.billings[k].id;
      }
      ColumnSumIs(s.billings, f, a, (b: Billing) => f(b, a));
      SumSingle(s.billings, (b: Billing) => f(b, a), k);
      RowSumIs(s.payments, g, a, (p: Payment) => if p.id == a.paymentId then charge(p) else 0);
    } else {
      forall j | 0 <= j < |s.billings| ensures f(s.billings[j], a) == 0 {
        if ChargeMismatch(s, s.billings[j]) && a.billingId == s.billings[j].id {
          assert RepairedAt(s, j);
          NoPaymentNoCharge(s, a.paymentId, charge);
        }
      }
      ColumnSumIs(s.billings, f, a, (b: Billing) => 0);
      SumZero(s.billings, (b: Billing) => 0);
      RowSumIs(s.payments, g, a, (p: Payment) => 0);
      SumZero(s.payments, (p: Payment) => 0);
    }
  }

  lemma PaymentColumn(s: Store, p: Payment, charge: Payment -> int)
    requires Unblocked(s)
    ensures ColumnSum(s.allocations, PaymentCell(s, charge))(p) == if PaysRepaired(s, p) then charge(p) else 0
  {
    hide Contributes, Unblocked;
    var g := PaymentCell(s, charge);
    if PaysRepaired(s, p) {
      var k :| 0 <= k < |s.allocations| && s.allocations[k].paymentId == p.id && Contributes(s, s.allocations[k]);
      SingleLink(s, k);
      forall j | 0 <= j < |s.allocations| && j != k ensures g(s.allocations[j], p) == 0 {
        if s.allocations[j].paymentId == p.id {
          CountOneIsUnique(s.allocations, (a: Allocation) => a.paymentId == p.id, j, k);
        }
      }
      ColumnSumIs(s.allocations, g, p, (a: Allocation) => g(a, p));
      SumSingle(s.allocations, (a: Allocation) => g(a, p), k);
    } else {
      ColumnSumIs(s.allocations, g, p, (a: Allocation) => 0);
      SumZero(s.allocations, (a: Allocation) => 0);
    }
  }

  /**
   * The total of a new charge over the repaired billings is the total of that charge over the
   * payments linked to them, each payment counted once.
   */
  lemma ChargesCountEachPaymentOnce(s: Store, charge: Payment -> int)
    requires ValidStore(s) && BuildPlan(s).Ready()
    ensures NewCharges(s, charge) == PaidCharges(s, charge)
  {
    hide ChargeMismatch, Contributes, PaysRepaired, LinkedCharge, BillingCell, PaymentCell, Unblocked, BuildPlan,
         RowSum, ColumnSum;
    ReadyMeansUnblocked(s);
    var f, g := BillingCell(s, charge), PaymentCell(s, charge);
    forall i | 0 <= i < |s.billings| {
      BillingRow(s, s.billings[i], charge);
    }
    SumAgrees(s.billings, (b: Billing) => if ChargeMismatch(s, b) then LinkedCharge(s, b.id, charge) else 0,
              s.billings, RowSum(s.allocations, f));
    SumExchange(s.billings, s.allocations, f);
    forall i | 0 <= i < |s.allocations| {
      AllocationColumn(s, s.allocations[i], charge);
    }
    SumAgrees(s.allocations, ColumnSum(s.billings, f), s.allocations, RowSum(s.payments, g));
    SumExchange(s.allocations, s.payments, g);
    forall i | 0 <= i < |s.payments| {
      PaymentColumn(s, s.payments[i], charge);
    }
    SumAgrees(s.payments, ColumnSum(s.allocations, g),
              s.payments, (p: Payment) => if PaysRepaired(s, p) then charge(p) else 0);
  }

  // ---------- Identities ----------

  lemma KeyBlank(s: string)
    ensures Key(s) == "" <==> Trim(s) == ""
  {
  }

  lemma IncompleteIsRepaired(s: Store, i: nat)
    requires Unblocked(s) && i < |s.payments| && Incomplete(s.payments[i])
    ensures var p, p' := s.payments[i], Repaired(s).payments[i];
      && Repairable(s, p) && Deterministic(s, p) && p' == p.(taxYear := Some(NewTaxYear(s, p)))
      && Identifiable(p') && !Blank(p.orNumber) && !Blank(p'.taxYear)
      && IdentityOf(p') == Identity(p.propertyId, Key(p.orNumber.value), Key(NewTaxYear(s, p)), p.datePaid.value.day)
  {
    hide MinimumYear, LinkCount, AllocationYears, CollisionCount, ChargeMismatch, Ambiguous, Trim, YearText, Key;
    var p := s.payments[i];
    assert Repaired(s).payments[i] == RepairedPayment(s, p);
    YearTextIsNotBlank(MinimumYear(s, p.id, |s.allocations|).value);
  }

  lemma CompleteIsKept(s: Store, j: nat)
    requires j < |s.payments| && !Incomplete(s.payments[j])
    ensures Repaired(s).payments[j] == s.payments[j] && Identifiable(s.payments[j])
  {
    hide Repairable, ChargeMismatch, Ambiguous;
    assert Repaired(s).payments[j] == RepairedPayment(s, s.payments[j]);
  }

  /** A repaired payment never takes the identity of a payment that was complete before. */
  lemma RepairedDiffersFromComplete(s: Store, i: nat, j: nat)
    requires ValidStore(s) && Unblocked(s) && i < |s.payments| && j < |s.payments|
    requires Incomplete(s.payments[i]) && !Incomplete(s.payments[j])
    ensures Identifiable(Repaired(s).payments[i]) && Identifiable(s.payments[j])
    ensures IdentityOf(Repaired(s).payments[i]) != IdentityOf(s.payments[j])
  {
    hide Incomplete, Unblocked, Deterministic, NewTaxYear, Repaired, Key, UniqueIdentity;
    IncompleteIsRepaired(s, i);
    CompleteIsKept(s, j);
    var p := s.payments[i];
    CountZero(s.payments, (other: Payment) => CollidesWith(s, p, NewTaxYear(s, p), other));
    assert !CollidesWith(s, p, NewTaxYear(s, p), s.payments[j]);
    assert if i < j then p.id != s.payments[j].id else s.payments[j].id != p.id;
  }

  /** Both payments lack only their tax year, and their allocations prove the same one. */
  predicate SameProvenYear(s: Store, p: Payment, q: Payment) {
    && Deterministic(s, p) && Deterministic(s, q)
    && MinimumYear(s, p.id, |s.allocations|) == MinimumYear(s, q.id, |s.allocations|)
  }

  /**
   * Two planned payments of one property on one day, with equal OR numbers up to case and outer
   * blanks and the same proven year; the planner does not look for this.
   */
  predicate Twins(s: Store, i: nat, j: nat) {
    && i < j < |s.payments| && Incomplete(s.payments[i]) && Incomplete(s.payments[j])
    && var p, q := s.payments[i], s.payments[j];
    && SameProvenYear(s, p, q)
    && p.propertyId == q.propertyId && Key(p.orNumber.value) == Key(q.orNumber.value)
    && p.datePaid.value.day == q.datePaid.value.day
  }

  lemma YearTextInjective(a: int, b: int)
    requires YearText(a) == YearText(b)
    ensures a == b
  {
    var x, y := Text.Decimal(if a >= 0 then a else -a), Text.Decimal(if b >= 0 then b else -b);
    assert x[0] in x && y[0] in y;
    if a < 0 && b < 0 {
      assert x == ("-" + x)[1..] && y == ("-" + y)[1..];
    }
    Text.DecimalInjective(if a >= 0 then a else -a, if b >= 0 then b else -b);
  }

  /** A printed year is its own key. */
  lemma YearIsItsKey(year: int)
    ensures Key(YearText(year)) == YearText(year)
  {
    hide Trim;
    YearTextIsNotBlank(year);
    var digits := Text.Decimal(if year >= 0 then year else -year);
    forall i | 0 <= i < |YearText(year)| ensures Text.UpperChar(YearText(year)[i]) == YearText(year)[i] {
      assert YearText(year)[i] == '-' || YearText(year)[i] in digits;
    }
  }

  lemma SameYearText(s: Store, p: Payment, q: Payment)
    requires Deterministic(s, p) && Deterministic(s, q)
    ensures NewTaxYear(s, p) == NewTaxYear(s, q) <==> SameProvenYear(s, p, q)
    ensures Key(NewTaxYear(s, p)) == NewTaxYear(s, p)
  {
    hide MinimumYear, YearText, Key, LinkCount, AllocationYears, Trim;
    YearIsItsKey(MinimumYear(s, p.id, |s.allocations|).value);
    if NewTaxYear(s, p) == NewTaxYear(s, q) {
      YearTextInjective(MinimumYear(s, p.id, |s.allocations|).value, MinimumYear(s, q.id, |s.allocations|).value);
    }
  }

  /** Planned payments are twins exactly when their repaired rows take one normalised identity. */
  lemma TwinsTakeOneIdentity(s: Store, i: nat, j: nat)
    requires Unblocked(s) && i < j < |s.payments| && Incomplete(s.payments[i]) && Incomplete(s.payments[j])
    ensures var after := Repaired(s).payments;
      && Identifiable(after[i]) && Identifiable(after[j])
      && (Twins(s, i, j) <==> IdentityOf(after[i]) == IdentityOf(after[j]))
  {
    hide Unblocked, Repaired, Incomplete, Deterministic, Key, NewTaxYear, Blank, SameProvenYear;
    SizesKept(s);
    IncompleteIsRepaired(s, i);
    IncompleteIsRepaired(s, j);
    SameYearText(s, s.payments[i], s.payments[j]);
    SameYearText(s, s.payments[j], s.payments[i]);
  }

  lemma NewDuplicateIsTwin(s: Store, i: nat, j: nat)
    requires ValidStore(s) && Unblocked(s) && i < |s.payments| && j < |s.payments| && i != j
    requires var after := Repaired(s).payments;
      Identifiable(after[i]) && Identifiable(after[j]) && IdentityOf(after[i]) == IdentityOf(after[j])
    ensures Twins(s, i, j) || Twins(s, j, i) || IdentityOf(Repaired(s).payments[i]) in DuplicateIdentities(s.payments)
  {
    hide Incomplete, Unblocked, Repaired, Key, ValidStore, Twins;
    if !Incomplete(s.payments[i]) {
      CompleteIsKept(s, i);
    }
    if !Incomplete(s.payments[j]) {
      CompleteIsKept(s, j);
    }
    if Incomplete(s.payments[i]) && !Incomplete(s.payments[j]) {
      RepairedDiffersFromComplete(s, i, j);
    }
    if !Incomplete(s.payments[i]) && Incomplete(s.payments[j]) {
      RepairedDiffersFromComplete(s, j, i);
    }
    if Incomplete(s.payments[i]) && Incomplete(s.payments[j]) {
      TwinsTakeOneIdentity(s, if i < j then i else j, if i < j then j else i);
    }
  }

  /** A payment with the identity of a repaired one was complete, or is that one. */
  lemma TwinIdentityIsNew(s: Store, i: nat)
    requires ValidStore(s) && Unblocked(s) && i < |s.payments| && Incomplete(s.payments[i])
    ensures Identifiable(Repaired(s).payments[i])
    ensures IdentityOf(Repaired(s).payments[i]) !in DuplicateIdentities(s.payments)
  {
    hide Unblocked, Repaired, ValidStore, Key, Trim;
    SizesKept(s);
    IncompleteIsRepaired(s, i);
    var p' := Repaired(s).payments[i];
    forall m | 0 <= m < |s.payments| && m != i && Identifiable(s.payments[m])
      ensures IdentityOf(s.payments[m]) != IdentityOf(p')
    {
      if IdentityOf(s.payments[m]) == IdentityOf(p') {
        KeyBlank(s.payments[m].orNumber.value);
        KeyBlank(s.payments[m].taxYear.value);
        KeyBlank(p'.orNumber.value);
        KeyBlank(p'.taxYear.value);
        RepairedDiffersFromComplete(s, i, m);
      }
    }
  }

  lemma TwinsAreIncomplete(s: Store, i: nat, j: nat)
    requires Twins(s, i, j)
    ensures i < j < |s.payments| && Incomplete(s.payments[i]) && Incomplete(s.payments[j])
  {
  }

  /**
   * The repair creates no duplicate payment identity exactly when no two planned payments are
   * twins.
   */
  lemma NewDuplicatesAreTwins(s: Store)
    requires ValidStore(s) && BuildPlan(s).Ready()
    ensures DuplicateIdentities(Repaired(s).payments) <= DuplicateIdentities(s.payments)
       <==> !exists i: nat, j: nat :: Twins(s, i, j)
  {
    hide Unblocked, Repaired, ValidStore, Key, Incomplete, BuildPlan, UniqueIdentity, Twins;
    ReadyMeansUnblocked(s);
    SizesKept(s);
    var after := Repaired(s).payments;
    forall k | k in DuplicateIdentities(after)
      ensures k in DuplicateIdentities(s.payments) || exists i: nat, j: nat :: Twins(s, i, j)
    {
      var i, j :| 0 <= i < |after| && 0 <= j < |after| && i != j && Identifiable(after[i]) && Identifiable(after[j])
        && IdentityOf(after[i]) == IdentityOf(after[j]) && k == IdentityOf(after[i]);
      NewDuplicateIsTwin(s, i, j);
    }
    if i: nat, j: nat :| Twins(s, i, j) {
      TwinsAreIncomplete(s, i, j);
      TwinsTakeOneIdentity(s, i, j);
      TwinIdentityIsNew(s, i);
      assert IdentityOf(after[i]) in DuplicateIdentities(after);
    }
  }

  // ---------- Twins do occur ----------

  /** Two payments of one receipt, the given seconds apart, that both lack their tax year. */
  function TwinStore(gap: int): Store {
    var first := Payment(1, 7, 100, None, None, Some("A"), None, Some(DateTime(5, 0)));
    var second := Payment(2, 7, 100, None, None, Some("A"), None, Some(DateTime(5, gap)));
    Store([Property(7, None)], [first, second], [Billing(1, 7, 2020, 0, 0, 0, 200)],
          [Allocation(1, 1, 1, 2020, 100), Allocation(2, 2, 1, 2020, 100)], [], [])
  }

  lemma TwinPayment(gap: int, k: nat)
    requires k < 2
    ensures var s := TwinStore(gap);
      && Incomplete(s.payments[k]) && Repairable(s, s.payments[k]) && Deterministic(s, s.payments[k])
      && MinimumYear(s, s.payments[k].id, |s.allocations|) == Some(2020)
      && Repaired(s).payments[k] == s.payments[k].(taxYear := Some(YearText(2020)))
  {
    hide YearText;
    var s := TwinStore(gap);
    var p := s.payments[k];
    assert Trim("A") == "A";
    CountSingle(s.allocations, (a: Allocation) => a.paymentId == p.id, k);
    assert s.allocations[k].taxYear in AllocationYears(s, p.id);
    assert AllocationYears(s, p.id) == {2020};
    assert MinimumYear(s, p.id, 0) == None;
    assert MinimumYear(s, p.id, 1) == if k == 0 then Some(2020) else None;
    assert MinimumYear(s, p.id, 2) == Some(2020);
    CountZero(s.payments, (other: Payment) => CollidesWith(s, p, NewTaxYear(s, p), other));
    assert Repaired(s).payments[k] == RepairedPayment(s, p);
  }

  lemma TwinBilling(s: Store, gap: int)
    requires s == TwinStore(gap)
    ensures !ChargeMismatch(s, s.billings[0])
  {
    forall id: int, charge: Payment -> int | charge == Penalty || charge == Discount
      ensures ChargeOf(s.payments, id, charge) == 0
    {
      SumZero(s.payments, (p: Payment) => if p.id == id then charge(p) else 0);
    }
    SumZero(s.allocations,
            (a: Allocation) => if a.billingId == 1 then ChargeOf(s.payments, a.paymentId, Penalty) else 0);
    SumZero(s.allocations,
            (a: Allocation) => if a.billingId == 1 then ChargeOf(s.payments, a.paymentId, Discount) else 0);
  }

  lemma TwinPlanIsReady(gap: int)
    ensures var s := TwinStore(gap);
      && ValidStore(s) && BuildPlan(s).Ready() && BuildPlan(s).ChangeCount() > 0
      && DuplicateIdentities(s.payments) == {} && Twins(s, 0, 1)
  {
    hide Repairable, Deterministic, MinimumYear, ChargeMismatch, YearText, Key, Incomplete, NewTaxYear,
         BillingChanges, BillingBlockers, PaymentBlockers;
    var s := TwinStore(gap);
    TwinPayment(gap, 0);
    TwinPayment(gap, 1);
    TwinBilling(s, gap);
    ReadyMeansUnblocked(s);
    assert PaymentChanges(s, 2) != [];
  }

  /**
   * An unblocked plan can create a duplicate payment identity: the planner compares a repaired
   * payment with the others as they are, not with another repaired one.
   */
  lemma RepairCanCreateDuplicates()
    ensures var s := TwinStore(1);
      && ValidStore(s) && BuildPlan(s).Ready() && DuplicateIdentities(s.payments) == {} && Twins(s, 0, 1)
      && IdentityOf(Repaired(s).payments[0]) in DuplicateIdentities(Repaired(s).payments)
      && !IndexClash(Repaired(s).payments[0], Repaired(s).payments[1])
  {
    hide Repairable, Repaired, MinimumYear, YearText, Key, BuildPlan, Deterministic;
    TwinPlanIsReady(1);
    TwinPayment(1, 0);
    TwinPayment(1, 1);
    SizesKept(TwinStore(1));
  }
}
