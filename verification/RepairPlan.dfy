/** The plan of the Phase 6 financial recovery: which rows are repaired, and which block it. */
module RepairPlan {
  import opened Wrappers
  import opened Sums
  import opened Ledger
  import Text

  datatype BillingChange = BillingChange(
    billingId: int, oldPenalty: int, newPenalty: int, oldDiscount: int, newDiscount: int)

  datatype PaymentChange = PaymentChange(paymentId: int, newTaxYear: string)

  datatype ReceiptChange = ReceiptChange(receiptId: int, oldPaymentId: int)

  datatype Blocker =
    | AmbiguousBillingChargeSummary(billingId: int)
    | AmbiguousIncompletePaymentIdentity(paymentId: int)
    | PaymentIdentityCollision(paymentId: int)

  datatype Plan = Plan(
    billings: seq<BillingChange>, payments: seq<PaymentChange>, receipts: seq<ReceiptChange>,
    blockers: seq<Blocker>)
  {
    function ChangeCount(): nat {
      |billings| + |payments| + |receipts|
    }

    predicate Ready() {
      blockers == []
    }

    predicate Complete() {
      Ready() && ChangeCount() == 0
    }
  }

  // ---------- Billings ----------

  /** COUNT(pb.id) of the joined rows. */
  function AllocationRows(s: Store, billingId: int): nat {
    CountBy(s.allocations, (a: Allocation) => Links(s, a, billingId))
  }

  /** MAX(link_count) of the joined rows, 0 without any. */
  function MaximumLinks(s: Store, billingId: int, n: nat): nat
    requires n <= |s.allocations|
  {
    if n == 0 then 0
    else
      var before, a := MaximumLinks(s, billingId, n - 1), s.allocations[n - 1];
      if Links(s, a, billingId) && LinkCount(s, a.paymentId) > before then LinkCount(s, a.paymentId) else before
  }

  /** How many joined rows belong to a payment with several allocations. */
  function MultiLinks(s: Store, billingId: int): nat {
    CountBy(s.allocations, (a: Allocation) => Links(s, a, billingId) && LinkCount(s, a.paymentId) > 1)
  }

  predicate Ambiguous(s: Store, billingId: int) {
    || AllocationRows(s, billingId) < 1
    || MaximumLinks(s, billingId, |s.allocations|) != 1
    || MultiLinks(s, billingId) != 0
  }

  function ChangeOfBilling(s: Store, b: Billing): BillingChange {
    BillingChange(b.id, b.penalty, LinkedPenalty(s, b.id), b.discount, LinkedDiscount(s, b.id))
  }

  /** The planned changes among the first n billings. */
  function BillingChanges(s: Store, n: nat): seq<BillingChange>
    requires n <= |s.billings|
  {
    if n == 0 then []
    else
      var b := s.billings[n - 1];
      BillingChanges(s, n - 1) + if ChargeMismatch(s, b) && !Ambiguous(s, b.id) then [ChangeOfBilling(s, b)] else []
  }

  function BillingBlockers(s: Store, n: nat): seq<Blocker>
    requires n <= |s.billings|
  {
    if n == 0 then []
    else
      var b := s.billings[n - 1];
      BillingBlockers(s, n - 1)
      + if ChargeMismatch(s, b) && Ambiguous(s, b.id) then [AmbiguousBillingChargeSummary(b.id)] else []
  }

  // ---------- Payments ----------

  function AllocationYears(s: Store, paymentId: int): set<int> {
    set i | 0 <= i < |s.allocations| && s.allocations[i].paymentId == paymentId :: s.allocations[i].taxYear
  }

  /** MIN(pb.tax_year) over the first n allocations. */
  function MinimumYear(s: Store, paymentId: int, n: nat): Option<int>
    requires n <= |s.allocations|
  {
    if n == 0 then None
    else
      var before, a := MinimumYear(s, paymentId, n - 1), s.allocations[n - 1];
      if a.paymentId == paymentId && (before.None? || a.taxYear < before.value) then Some(a.taxYear) else before
  }

  /** str(year) */
  function YearText(year: int): string {
    if year >= 0 then Text.Decimal(year) else "-" + Text.Decimal(-year)
  }

  predicate Deterministic(s: Store, p: Payment) {
    && !Blank(p.orNumber) && Blank(p.taxYear) && p.datePaid.Some?
    && LinkCount(s, p.id) >= 1
    && |AllocationYears(s, p.id)| == 1
    && MinimumYear(s, p.id, |s.allocations|).Some?
  }

  function NewTaxYear(s: Store, p: Payment): string
    requires Deterministic(s, p)
  {
    YearText(MinimumYear(s, p.id, |s.allocations|).value)
  }

  /** Another payment already has the identity that the repair would give to p. */
  predicate CollidesWith(s: Store, p: Payment, year: string, other: Payment)
    requires Deterministic(s, p)
  {
    && other.id != p.id && Identifiable(other)
    && IdentityOf(other) == Identity(p.propertyId, Key(p.orNumber.value), Key(year), p.datePaid.value.day)
  }

  function CollisionCount(s: Store, p: Payment): nat
    requires Deterministic(s, p)
  {
    CountBy(s.payments, (other: Payment) => CollidesWith(s, p, NewTaxYear(s, p), other))
  }

  predicate Repairable(s: Store, p: Payment) {
    Deterministic(s, p) && CollisionCount(s, p) == 0
  }

  function PaymentChanges(s: Store, n: nat): seq<PaymentChange>
    requires n <= |s.payments|
  {
    if n == 0 then []
    else
      var p := s.payments[n - 1];
      PaymentChanges(s, n - 1)
      + if Incomplete(p) && Repairable(s, p) then [PaymentChange(p.id, NewTaxYear(s, p))] else []
  }

  function PaymentBlockers(s: Store, n: nat): seq<Blocker>
    requires n <= |s.payments|
  {
    if n == 0 then []
    else
      var p := s.payments[n - 1];
      PaymentBlockers(s, n - 1)
      + if !Incomplete(p) then []
        else if !Deterministic(s, p) then [AmbiguousIncompletePaymentIdentity(p.id)]
        else if CollisionCount(s, p) != 0 then [PaymentIdentityCollision(p.id)]
        else []
  }

  // ---------- Receipts ----------

  function ReceiptChanges(s: Store, n: nat): seq<ReceiptChange>
    requires n <= |s.receipts|
  {
    if n == 0 then []
    else
      var r := s.receipts[n - 1];
      ReceiptChanges(s, n - 1) + if Dangling(s, r) then [ReceiptChange(r.id, r.paymentId.value)] else []
  }

  function BuildPlan(s: Store): Plan {
    Plan(BillingChanges(s, |s.billings|), PaymentChanges(s, |s.payments|), ReceiptChanges(s, |s.receipts|),
         BillingBlockers(s, |s.billings|) + PaymentBlockers(s, |s.payments|))
  }

  // ---------- The repaired store ----------

  function RepairedBilling(s: Store, b: Billing): Billing {
    if ChargeMismatch(s, b) && !Ambiguous(s, b.id) then
      b.(penalty := LinkedPenalty(s, b.id), discount := LinkedDiscount(s, b.id))
    else b
  }

  function RepairedPayment(s: Store, p: Payment): Payment {
    if Incomplete(p) && Repairable(s, p) then p.(taxYear := Some(NewTaxYear(s, p))) else p
  }

  function RepairedReceipt(s: Store, r: Receipt): Receipt {
    if Dangling(s, r) then r.(paymentId := None) else r
  }

  /** The first n rows repaired, the others as they are. */
  function RepairedBillings(s: Store, n: nat): (rows: seq<Billing>)
    requires n <= |s.billings|
    ensures |rows| == |s.billings|
    ensures forall i :: 0 <= i < |rows| ==>
      rows[i] == if i < n then RepairedBilling(s, s.billings[i]) else s.billings[i]
  {
    seq(|s.billings|, i requires 0 <= i < |s.billings| =>
      if i < n then RepairedBilling(s, s.billings[i]) else s.billings[i])
  }

  function RepairedPayments(s: Store, n: nat): (rows: seq<Payment>)
    requires n <= |s.payments|
    ensures |rows| == |s.payments|
    ensures forall i :: 0 <= i < |rows| ==>
      rows[i] == if i < n then RepairedPayment(s, s.payments[i]) else s.payments[i]
  {
    seq(|s.payments|, i requires 0 <= i < |s.payments| =>
      if i < n then RepairedPayment(s, s.payments[i]) else s.payments[i])
  }

  function RepairedReceipts(s: Store, n: nat): (rows: seq<Receipt>)
    requires n <= |s.receipts|
    ensures |rows| == |s.receipts|
    ensures forall i :: 0 <= i < |rows| ==>
      rows[i] == if i < n then RepairedReceipt(s, s.receipts[i]) else s.receipts[i]
  {
    seq(|s.receipts|, i requires 0 <= i < |s.receipts| =>
      if i < n then RepairedReceipt(s, s.receipts[i]) else s.receipts[i])
  }

  /** What a committed recovery leaves. */
  function Repaired(s: Store): Store {
    s.(billings := RepairedBillings(s, |s.billings|),
       payments := RepairedPayments(s, |s.payments|),
       receipts := RepairedReceipts(s, |s.receipts|))
  }

  // ---------- What an unblocked plan means ----------

  lemma {:induction false} NoBillingBlockers(s: Store, n: nat)
    requires n <= |s.billings|
    ensures BillingBlockers(s, n) == [] <==>
      forall i :: 0 <= i < n ==> ChargeMismatch(s, s.billings[i]) ==> !Ambiguous(s, s.billings[i].id)
  {
    hide ChargeMismatch, Ambiguous;
    if n > 0 {
      NoBillingBlockers(s, n - 1);
    }
  }

  lemma {:induction false} NoPaymentBlockers(s: Store, n: nat)
    requires n <= |s.payments|
    ensures PaymentBlockers(s, n) == [] <==>
      forall i :: 0 <= i < n ==> Incomplete(s.payments[i]) ==> Repairable(s, s.payments[i])
  {
    hide Incomplete, Deterministic, CollisionCount;
    if n > 0 {
      NoPaymentBlockers(s, n - 1);
    }
  }

  /** Every mismatched billing is unambiguous and every incomplete payment can be repaired. */
  ghost predicate Unblocked(s: Store) {
    && (forall i :: 0 <= i < |s.billings| ==> ChargeMismatch(s, s.billings[i]) ==> !Ambiguous(s, s.billings[i].id))
    && (forall i :: 0 <= i < |s.payments| ==> Incomplete(s.payments[i]) ==> Repairable(s, s.payments[i]))
  }

  lemma ReadyMeansUnblocked(s: Store)
    ensures BuildPlan(s).Ready() <==> Unblocked(s)
  {
    hide ChargeMismatch, Ambiguous, Incomplete, Repairable;
    NoBillingBlockers(s, |s.billings|);
    NoPaymentBlockers(s, |s.payments|);
  }

  lemma {:induction false} MaximumBounds(s: Store, billingId: int, n: nat)
    requires n <= |s.allocations|
    ensures forall i :: 0 <= i < n && Links(s, s.allocations[i], billingId) ==>
      LinkCount(s, s.allocations[i].paymentId) <= MaximumLinks(s, billingId, n)
    ensures MaximumLinks(s, billingId, n) == 0 ||
      exists i :: 0 <= i < n && Links(s, s.allocations[i], billingId)
        && LinkCount(s, s.allocations[i].paymentId) == MaximumLinks(s, billingId, n)
  {
    hide Links, LinkCount;
    if n > 0 {
      MaximumBounds(s, billingId, n - 1);
      if MaximumLinks(s, billingId, n) != MaximumLinks(s, billingId, n - 1) {
        assert Links(s, s.allocations[n - 1], billingId);
      }
    }
  }

  lemma OwnLinkCounted(s: Store, i: nat)
    requires i < |s.allocations|
    ensures LinkCount(s, s.allocations[i].paymentId) >= 1
  {
    CountZero(s.allocations, (a: Allocation) => a.paymentId == s.allocations[i].paymentId);
  }

  /** A linked billing is unambiguous exactly when each of its payments has a single allocation. */
  lemma UnambiguousMeansSingleLinks(s: Store, billingId: int)
    requires Linked(s, billingId)
    ensures !Ambiguous(s, billingId) <==>
      forall i :: 0 <= i < |s.allocations| && Links(s, s.allocations[i], billingId) ==>
        LinkCount(s, s.allocations[i].paymentId) == 1
  {
    hide Links, LinkCount;
    var n := |s.allocations|;
    var k :| 0 <= k < n && Links(s, s.allocations[k], billingId);
    MaximumBounds(s, billingId, n);
    CountZero(s.allocations, (a: Allocation) => Links(s, a, billingId));
    CountZero(s.allocations, (a: Allocation) => Links(s, a, billingId) && LinkCount(s, a.paymentId) > 1);
    forall i | 0 <= i < n ensures LinkCount(s, s.allocations[i].paymentId) >= 1 {
      OwnLinkCounted(s, i);
    }
  }
}
