/** The financial tables, and the count checks the reconciliation report makes of them. */
module Ledger {
  import opened Wrappers
  import opened Sums
  import Text

  // ---------- Tables; money is in cents, NULL is None ----------

  datatype DateTime = DateTime(day: int, second: int)

  datatype Property = Property(id: int, previousId: Option<int>)

  datatype Payment = Payment(
    id: int, propertyId: int, amount: int, penalty: Option<int>, discount: Option<int>,
    orNumber: Option<string>, taxYear: Option<string>, datePaid: Option<DateTime>)

  datatype Billing = Billing(
    id: int, propertyId: int, taxYear: int, assessedValue: int, penalty: int, discount: int, amountPaid: int)

  datatype Allocation = Allocation(id: int, paymentId: int, billingId: int, taxYear: int, amountPaid: int)

  datatype Receipt = Receipt(id: int, propertyId: int, paymentId: Option<int>, amount: int)

  datatype HistoryEntry = HistoryEntry(id: int, propertyId: int)

  /** Each table in id order. */
  datatype Store = Store(
    properties: seq<Property>, payments: seq<Payment>, billings: seq<Billing>,
    allocations: seq<Allocation>, receipts: seq<Receipt>, history: seq<HistoryEntry>)

  // ---------- Text functions of the database ----------

  function TrimLeft(s: string): string {
    if s != "" && s[0] == ' ' then TrimLeft(s[1..]) else s
  }

  function TrimRight(s: string): string {
    if s != "" && s[|s| - 1] == ' ' then TrimRight(s[..|s| - 1]) else s
  }

  /** TRIM() */
  function Trim(s: string): string {
    TrimRight(TrimLeft(s))
  }

  function Key(s: string): string {
    Text.Upper(Trim(s))
  }

  predicate Blank(s: Option<string>) {
    s.None? || Trim(s.value) == ""
  }

  // ---------- Keys and constraints ----------

  ghost predicate UniqueIds<T(!new)>(rows: seq<T>, id: T -> int) {
    forall i, j :: 0 <= i < j < |rows| ==> id(rows[i]) != id(rows[j])
  }

  /** Two rows clash in the unique index over property, OR number, tax year and payment date. */
  predicate IndexClash(p: Payment, q: Payment) {
    && p.propertyId == q.propertyId && p.orNumber == q.orNumber && p.taxYear == q.taxYear && p.datePaid == q.datePaid
    && p.orNumber.Some? && p.taxYear.Some? && p.datePaid.Some?
  }

  predicate UniqueIdentity(payments: seq<Payment>) {
    forall i, j :: 0 <= i < j < |payments| ==> !IndexClash(payments[i], payments[j])
  }

  /** What the primary keys and unique indexes of the schema guarantee. */
  ghost predicate ValidStore(s: Store) {
    && UniqueIds(s.payments, (p: Payment) => p.id)
    && UniqueIds(s.billings, (b: Billing) => b.id)
    && UniqueIds(s.receipts, (r: Receipt) => r.id)
    && UniqueIdentity(s.payments)
  }

  // ---------- Joins ----------

  predicate HasPayment(payments: seq<Payment>, id: int) {
    exists i :: 0 <= i < |payments| && payments[i].id == id
  }

  predicate HasBilling(billings: seq<Billing>, id: int) {
    exists i :: 0 <= i < |billings| && billings[i].id == id
  }

  predicate HasProperty(properties: seq<Property>, id: int) {
    exists i :: 0 <= i < |properties| && properties[i].id == id
  }

  function Penalty(p: Payment): int {
    p.penalty.GetOr(0)
  }

  function Discount(p: Payment): int {
    p.discount.GetOr(0)
  }

  /** A charge of the payments with an id; at most one row has it. */
  function ChargeOf(payments: seq<Payment>, id: int, charge: Payment -> int): int {
    SumBy(payments, (p: Payment) => if p.id == id then charge(p) else 0)
  }

  /** The allocation row joins the billing to an existing payment. */
  predicate Links(s: Store, a: Allocation, billingId: int) {
    a.billingId == billingId && HasPayment(s.payments, a.paymentId)
  }

  predicate Linked(s: Store, billingId: int) {
    exists i :: 0 <= i < |s.allocations| && Links(s, s.allocations[i], billingId)
  }

  /** COALESCE(SUM(charge), 0) over the payments that the allocation rows of a billing join. */
  function LinkedCharge(s: Store, billingId: int, charge: Payment -> int): int {
    SumBy(s.allocations,
          (a: Allocation) => if a.billingId == billingId then ChargeOf(s.payments, a.paymentId, charge) else 0)
  }

  function LinkedPenalty(s: Store, billingId: int): int {
    LinkedCharge(s, billingId, Penalty)
  }

  function LinkedDiscount(s: Store, billingId: int): int {
    LinkedCharge(s, billingId, Discount)
  }

  /** How many allocation rows the payment has. */
  function LinkCount(s: Store, paymentId: int): nat {
    CountBy(s.allocations, (a: Allocation) => a.paymentId == paymentId)
  }

  function AllocatedTo(s: Store, billingId: int): int {
    SumBy(s.allocations, (a: Allocation) => if a.billingId == billingId then a.amountPaid else 0)
  }

  /** The stored charges of a linked billing differ from those of its payments. */
  predicate ChargeMismatch(s: Store, b: Billing) {
    && Linked(s, b.id)
    && (b.penalty != LinkedPenalty(s, b.id) || b.discount != LinkedDiscount(s, b.id))
  }

  predicate Incomplete(p: Payment) {
    Blank(p.orNumber) || Blank(p.taxYear) || p.datePaid.None?
  }

  /** The receipt names a payment that does not exist. */
  predicate Dangling(s: Store, r: Receipt) {
    r.paymentId.Some? && !HasPayment(s.payments, r.paymentId.value)
  }

  // ---------- The count checks ----------

  datatype Check =
    | OrphanPayments | OrphanBillings | OrphanAllocationsPayment | OrphanAllocationsBilling
    | AllocationTaxYearMismatch | DuplicateBillingIdentity
    | InvalidPaymentAmount | InvalidAllocationAmount | InvalidBillingAmount
    | BillingPaidMismatch | BillingChargeSummaryMismatch
    | ReceiptMissingPayment | ReceiptCrossProperty
    | AssessmentHistoryMissingProperty | SelfReferentialPropertyLineage | IncompletePaymentIdentity

  /** The (property, year) pairs that more than one billing has. */
  function DuplicateBillings(billings: seq<Billing>): set<(int, int)> {
    set i, j | 0 <= i < |billings| && 0 <= j < |billings| && i != j
        && billings[i].propertyId == billings[j].propertyId && billings[i].taxYear == billings[j].taxYear
      :: (billings[i].propertyId, billings[i].taxYear)
  }

  predicate CrossProperty(s: Store, r: Receipt) {
    r.paymentId.Some? &&
    exists i :: 0 <= i < |s.payments| && s.payments[i].id == r.paymentId.value
      && s.payments[i].propertyId != r.propertyId
  }

  predicate YearMismatch(s: Store, a: Allocation) {
    exists i :: 0 <= i < |s.billings| && s.billings[i].id == a.billingId && s.billings[i].taxYear != a.taxYear
  }

  function CheckCount(s: Store, c: Check): nat {
    match c
    case OrphanPayments => CountBy(s.payments, (p: Payment) => !HasProperty(s.properties, p.propertyId))
    case OrphanBillings => CountBy(s.billings, (b: Billing) => !HasProperty(s.properties, b.propertyId))
    case OrphanAllocationsPayment => CountBy(s.allocations, (a: Allocation) => !HasPayment(s.payments, a.paymentId))
    case OrphanAllocationsBilling => CountBy(s.allocations, (a: Allocation) => !HasBilling(s.billings, a.billingId))
    case AllocationTaxYearMismatch => CountBy(s.allocations, (a: Allocation) => YearMismatch(s, a))
    case DuplicateBillingIdentity => |DuplicateBillings(s.billings)|
    case InvalidPaymentAmount =>
      CountBy(s.payments, (p: Payment) => p.amount <= 0 || p.penalty.GetOr(0) < 0 || p.discount.GetOr(0) < 0)
    case InvalidAllocationAmount => CountBy(s.allocations, (a: Allocation) => a.amountPaid <= 0)
    case InvalidBillingAmount =>
      CountBy(s.billings, (b: Billing) => b.assessedValue < 0 || b.penalty < 0 || b.discount < 0 || b.amountPaid < 0)
    case BillingPaidMismatch => CountBy(s.billings, (b: Billing) => b.amountPaid != AllocatedTo(s, b.id))
    case BillingChargeSummaryMismatch => CountBy(s.billings, (b: Billing) => ChargeMismatch(s, b))
    case ReceiptMissingPayment => CountBy(s.receipts, (r: Receipt) => Dangling(s, r))
    case ReceiptCrossProperty => CountBy(s.receipts, (r: Receipt) => CrossProperty(s, r))
    case AssessmentHistoryMissingProperty =>
      CountBy(s.history, (h: HistoryEntry) => !HasProperty(s.properties, h.propertyId))
    case SelfReferentialPropertyLineage =>
      CountBy(s.properties, (p: Property) => p.previousId == Some(p.id))
    case IncompletePaymentIdentity => CountBy(s.payments, (p: Payment) => Incomplete(p))
  }

  // ---------- Payment identities ----------

  /** The normalised identity of a payment: property, OR number, tax year, day. */
  datatype Identity = Identity(propertyId: int, orNumber: string, taxYear: string, day: int)

  predicate Identifiable(p: Payment) {
    p.orNumber.Some? && p.taxYear.Some? && p.datePaid.Some?
  }

  function IdentityOf(p: Payment): Identity
    requires Identifiable(p)
  {
    Identity(p.propertyId, Key(p.orNumber.value), Key(p.taxYear.value), p.datePaid.value.day)
  }

  /** duplicate_payment_identity: the normalised identities that more than one payment has. */
  function DuplicateIdentities(payments: seq<Payment>): set<Identity> {
    set i, j | 0 <= i < |payments| && 0 <= j < |payments| && i != j
        && Identifiable(payments[i]) && Identifiable(payments[j])
        && IdentityOf(payments[i]) == IdentityOf(payments[j])
      :: IdentityOf(payments[i])
  }
}
