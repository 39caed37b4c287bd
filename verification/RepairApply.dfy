/** Applying a recovery plan: guarded updates, one audit event each, all or nothing. */
module RepairApply {
  import opened Wrappers
  import opened Sums
  import opened Ledger
  import opened RepairPlan
  import opened RepairTheorems
  import opened RepairGuarantees
  import AuditChain

  datatype Db = Db(store: Store, log: AuditChain.Log)

  datatype ApplyError = RowChanged | DuplicateKey | AuditRefused

  /** Event identifiers are drawn from base upwards; time is the time of the events. */
  datatype Stamp = Stamp(base: nat, time: int)

  /** UPDATE ... WHERE */
  function UpdateRows<T>(rows: seq<T>, hit: T -> bool, change: T -> T): (updated: seq<T>)
    ensures |updated| == |rows|
    ensures forall i :: 0 <= i < |rows| ==> updated[i] == if hit(rows[i]) then change(rows[i]) else rows[i]
  {
    seq(|rows|, i requires 0 <= i < |rows| => if hit(rows[i]) then change(rows[i]) else rows[i])
  }

  // ---------- Audit events ----------

  function BillingEvent(c: BillingChange, uuid: nat, time: int): AuditChain.Payload {
    AuditChain.Payload(uuid, AuditChain.Phase6Reconciliation, AuditChain.PropertyBillings, Some(c.billingId),
                       AuditChain.Charges(c.oldPenalty, c.oldDiscount), AuditChain.Charges(c.newPenalty, c.newDiscount),
                       time, AuditChain.LIVE)
  }

  function PaymentEvent(c: PaymentChange, uuid: nat, time: int): AuditChain.Payload {
    AuditChain.Payload(uuid, AuditChain.Phase6Reconciliation, AuditChain.Payments, Some(c.paymentId),
                       AuditChain.TaxYear(None), AuditChain.TaxYear(Some(c.newTaxYear)), time, AuditChain.LIVE)
  }

  function ReceiptEvent(c: ReceiptChange, uuid: nat, time: int): AuditChain.Payload {
    AuditChain.Payload(uuid, AuditChain.Phase6Reconciliation, AuditChain.ReceiptHistory, Some(c.receiptId),
                       AuditChain.PaymentReference(Some(c.oldPaymentId)), AuditChain.PaymentReference(None),
                       time, AuditChain.LIVE)
  }

  /** The new rows of the log record exactly these events; readiness is as before. */
  ghost predicate Recorded(before: AuditChain.Log, after: AuditChain.Log, events: seq<AuditChain.Payload>) {
    && |after.rows| == |before.rows| + |events| && before.rows <= after.rows
    && (forall k :: 0 <= k < |events| ==> after.rows[|before.rows| + k].payload == events[k])
    && (AuditChain.Ready(after) <==> AuditChain.Ready(before))
  }

  function BillingEvents(cs: seq<BillingChange>, first: nat, time: int): (events: seq<AuditChain.Payload>)
    ensures |events| == |cs| && forall k :: 0 <= k < |cs| ==> events[k] == BillingEvent(cs[k], first + k, time)
  {
    seq(|cs|, k requires 0 <= k < |cs| => BillingEvent(cs[k], first + k, time))
  }

  function PaymentEvents(cs: seq<PaymentChange>, first: nat, time: int): (events: seq<AuditChain.Payload>)
    ensures |events| == |cs| && forall k :: 0 <= k < |cs| ==> events[k] == PaymentEvent(cs[k], first + k, time)
  {
    seq(|cs|, k requires 0 <= k < |cs| => PaymentEvent(cs[k], first + k, time))
  }

  function ReceiptEvents(cs: seq<ReceiptChange>, first: nat, time: int): (events: seq<AuditChain.Payload>)
    ensures |events| == |cs| && forall k :: 0 <= k < |cs| ==> events[k] == ReceiptEvent(cs[k], first + k, time)
  {
    seq(|cs|, k requires 0 <= k < |cs| => ReceiptEvent(cs[k], first + k, time))
  }

  // ---------- One change ----------

  function Record(store: Store, log: AuditChain.Log, event: AuditChain.Payload): Result<Db, ApplyError> {
    match AuditChain.Append(log, event)
    case Err(_) => Err(AuditRefused)
    case Ok(log') => Ok(Db(store, log'))
  }

  function BillingHit(c: BillingChange): Billing -> bool {
    (b: Billing) => b.id == c.billingId && b.penalty == c.oldPenalty && b.discount == c.oldDiscount
  }

  function BillingSet(c: BillingChange): Billing -> Billing {
    (b: Billing) => b.(penalty := c.newPenalty, discount := c.newDiscount)
  }

  function ApplyBilling(db: Db, c: BillingChange, stamp: Stamp): Result<Db, ApplyError> {
    var rows := UpdateRows(db.store.billings, BillingHit(c), BillingSet(c));
    if CountBy(db.store.billings, BillingHit(c)) != 1 then Err(RowChanged)
    else Record(db.store.(billings := rows), db.log, BillingEvent(c, stamp.base + |db.log.rows|, stamp.time))
  }

  function PaymentHit(c: PaymentChange): Payment -> bool {
    (p: Payment) => p.id == c.paymentId && Blank(p.taxYear)
  }

  function PaymentSet(c: PaymentChange): Payment -> Payment {
    (p: Payment) => p.(taxYear := Some(c.newTaxYear))
  }

  function ApplyPayment(db: Db, c: PaymentChange, stamp: Stamp): Result<Db, ApplyError> {
    var rows := UpdateRows(db.store.payments, PaymentHit(c), PaymentSet(c));
    if !UniqueIdentity(rows) then Err(DuplicateKey)
    else if CountBy(db.store.payments, PaymentHit(c)) != 1 then Err(RowChanged)
    else Record(db.store.(payments := rows), db.log, PaymentEvent(c, stamp.base + |db.log.rows|, stamp.time))
  }

  function ReceiptHit(c: ReceiptChange): Receipt -> bool {
    (r: Receipt) => r.id == c.receiptId && r.paymentId == Some(c.oldPaymentId)
  }

  function ReceiptSet(): Receipt -> Receipt {
    (r: Receipt) => r.(paymentId := None)
  }

  function ApplyReceipt(db: Db, c: ReceiptChange, stamp: Stamp): Result<Db, ApplyError> {
    var rows := UpdateRows(db.store.receipts, ReceiptHit(c), ReceiptSet());
    if CountBy(db.store.receipts, ReceiptHit(c)) != 1 then Err(RowChanged)
    else Record(db.store.(receipts := rows), db.log, ReceiptEvent(c, stamp.base + |db.log.rows|, stamp.time))
  }

  // ---------- All changes in order ----------

  function ApplyBillings(db: Db, cs: seq<BillingChange>, stamp: Stamp): Result<Db, ApplyError> {
    if cs == [] then Ok(db)
    else
      match ApplyBillings(db, cs[..|cs| - 1], stamp)
      case Err(e) => Err(e)
      case Ok(db') => ApplyBilling(db', cs[|cs| - 1], stamp)
  }

  function ApplyPayments(db: Db, cs: seq<PaymentChange>, stamp: Stamp): Result<Db, ApplyError> {
    if cs == [] then Ok(db)
    else
      match ApplyPayments(db, cs[..|cs| - 1], stamp)
      case Err(e) => Err(e)
      case Ok(db') => ApplyPayment(db', cs[|cs| - 1], stamp)
  }

  function ApplyReceipts(db: Db, cs: seq<ReceiptChange>, stamp: Stamp): Result<Db, ApplyError> {
    if cs == [] then Ok(db)
    else
      match ApplyReceipts(db, cs[..|cs| - 1], stamp)
      case Err(e) => Err(e)
      case Ok(db') => ApplyReceipt(db', cs[|cs| - 1], stamp)
  }

  function ApplyPlan(db: Db, plan: Plan, stamp: Stamp): Result<Db, ApplyError> {
    match ApplyBillings(db, plan.billings, stamp)
    case Err(e) => Err(e)
    case Ok(db1) =>
    match ApplyPayments(db1, plan.payments, stamp)
    case Err(e) => Err(e)
    case Ok(db2) => ApplyReceipts(db2, plan.receipts, stamp)
  }

  // ---------- Updates by primary key ----------

  /** A guarded update whose guard holds of the only row with the id changes that row alone. */
  lemma OneRowUpdated<T(!new)>(rows: seq<T>, hit: T -> bool, change: T -> T, i: nat)
    requires i < |rows| && hit(rows[i])
    requires forall j :: 0 <= j < |rows| && j != i ==> !hit(rows[j])
    ensures CountBy(rows, hit) == 1
    ensures UpdateRows(rows, hit, change) == rows[i := change(rows[i])]
  {
    CountSingle(rows, hit, i);
  }

  lemma RecordedOnce(store: Store, log: AuditChain.Log, event: AuditChain.Payload)
    ensures Record(store, log, event).Ok? <==> AuditChain.Ready(log)
    ensures AuditChain.Ready(log) ==>
      && Record(store, log, event).value.store == store
      && Recorded(log, Record(store, log, event).value.log, [event])
    ensures !AuditChain.Ready(log) ==> Record(store, log, event) == Err(AuditRefused)
  {
    hide AuditChain.Ready;
    AuditChain.AppendLinksToHead(log, event);
    if AuditChain.Ready(log) {
      var after := AuditChain.Append(log, event).value;
      assert after.rows == log.rows + [after.rows[|log.rows|]];
    }
  }

  lemma RecordedTwice(a: AuditChain.Log, b: AuditChain.Log, c: AuditChain.Log,
                      x: seq<AuditChain.Payload>, y: seq<AuditChain.Payload>)
    requires Recorded(a, b, x) && Recorded(b, c, y)
    ensures Recorded(a, c, x + y)
  {
    hide AuditChain.Ready;
    forall k | 0 <= k < |x + y| ensures c.rows[|a.rows| + k].payload == (x + y)[k] {
      if k < |x| {
        assert c.rows[|a.rows| + k] == b.rows[|a.rows| + k];
      } else {
        assert c.rows[|b.rows| + (k - |x|)].payload == y[k - |x|];
      }
    }
  }

  // ---------- Billings ----------

  lemma BillingTarget(s: Store, n: nat)
    requires UniqueIds(s.billings, (b: Billing) => b.id) && n < |s.billings|
    requires ChargeMismatch(s, s.billings[n]) && !Ambiguous(s, s.billings[n].id)
    ensures var c, rows := ChangeOfBilling(s, s.billings[n]), RepairedBillings(s, n);
      && CountBy(rows, BillingHit(c)) == 1
      && UpdateRows(rows, BillingHit(c), BillingSet(c)) == RepairedBillings(s, n + 1)
  {
    hide ChargeMismatch, Ambiguous, LinkedPenalty, LinkedDiscount;
    var c, rows := ChangeOfBilling(s, s.billings[n]), RepairedBillings(s, n);
    forall j | 0 <= j < |rows| && j != n ensures !BillingHit(c)(rows[j]) {
      assert rows[j].id == s.billings[j].id;
      assert if j < n then s.billings[j].id != s.billings[n].id else s.billings[n].id != s.billings[j].id;
    }
    OneRowUpdated(rows, BillingHit(c), BillingSet(c), n);
  }

  /** The first planned billing updates each match exactly one row; only the audit log can refuse them. */
  ghost predicate BillingOutcome(db: Db, n: nat, stamp: Stamp)
    requires n <= |db.store.billings|
  {
    var cs := BillingChanges(db.store, n);
    var result := ApplyBillings(db, cs, stamp);
    if cs == [] || AuditChain.Ready(db.log) then
      && result.Ok? && result.value.store == db.store.(billings := RepairedBillings(db.store, n))
      && Recorded(db.log, result.value.log, BillingEvents(cs, stamp.base + |db.log.rows|, stamp.time))
    else result == Err(AuditRefused)
  }

  lemma NoBillingApplied(db: Db, stamp: Stamp)
    ensures BillingOutcome(db, 0, stamp)
  {
    assert RepairedBillings(db.store, 0) == db.store.billings;
    assert BillingEvents([], stamp.base + |db.log.rows|, stamp.time) == [];
  }

  lemma BillingSkipped(db: Db, n: nat, stamp: Stamp)
    requires n < |db.store.billings| && BillingOutcome(db, n, stamp)
    requires !ChargeMismatch(db.store, db.store.billings[n]) || Ambiguous(db.store, db.store.billings[n].id)
    ensures BillingOutcome(db, n + 1, stamp)
  {
    hide ChargeMismatch, Ambiguous, AuditChain.Ready, Recorded, ApplyBillings, BillingEvents;
    assert BillingChanges(db.store, n + 1) == BillingChanges(db.store, n);
    assert RepairedBillings(db.store, n + 1) == RepairedBillings(db.store, n);
  }

  lemma BillingTaken(db: Db, n: nat, stamp: Stamp)
    requires ValidStore(db.store) && n < |db.store.billings| && BillingOutcome(db, n, stamp)
    requires ChargeMismatch(db.store, db.store.billings[n]) && !Ambiguous(db.store, db.store.billings[n].id)
    ensures BillingOutcome(db, n + 1, stamp)
  {
    hide ChargeMismatch, Ambiguous, AuditChain.Ready, Recorded, ApplyBilling, BillingEvents, RepairedBillings,
         ChangeOfBilling, ValidStore;
    var cs, c := BillingChanges(db.store, n), ChangeOfBilling(db.store, db.store.billings[n]);
    assert BillingChanges(db.store, n + 1) == cs + [c];
    assert (cs + [c])[..|cs|] == cs;
    if cs == [] || AuditChain.Ready(db.log) {
      BillingApplied(db, ApplyBillings(db, cs, stamp).value, n, stamp);
    }
  }

  lemma {:induction false} BillingsApplied(db: Db, n: nat, stamp: Stamp)
    requires ValidStore(db.store) && n <= |db.store.billings|
    ensures BillingOutcome(db, n, stamp)
  {
    hide ChargeMismatch, Ambiguous, BillingOutcome, ValidStore;
    if n == 0 {
      NoBillingApplied(db, stamp);
    } else {
      BillingsApplied(db, n - 1, stamp);
      var b := db.store.billings[n - 1];
      if ChargeMismatch(db.store, b) && !Ambiguous(db.store, b.id) {
        BillingTaken(db, n - 1, stamp);
      } else {
        BillingSkipped(db, n - 1, stamp);
      }
    }
  }

  lemma BillingApplied(db: Db, now: Db, n: nat, stamp: Stamp)
    requires ValidStore(db.store) && n < |db.store.billings|
    requires ChargeMismatch(db.store, db.store.billings[n]) && !Ambiguous(db.store, db.store.billings[n].id)
    requires now.store == db.store.(billings := RepairedBillings(db.store, n))
    requires Recorded(db.log, now.log,
                      BillingEvents(BillingChanges(db.store, n), stamp.base + |db.log.rows|, stamp.time))
    ensures var s, cs := db.store, BillingChanges(db.store, n) + [ChangeOfBilling(db.store, db.store.billings[n])];
      var result := ApplyBilling(now, cs[|cs| - 1], stamp);
      if AuditChain.Ready(db.log) then
        && result.Ok? && result.value.store == s.(billings := RepairedBillings(s, n + 1))
        && Recorded(db.log, result.value.log, BillingEvents(cs, stamp.base + |db.log.rows|, stamp.time))
      else result == Err(AuditRefused)
  {
    hide ChargeMismatch, Ambiguous, AuditChain.Ready, ChangeOfBilling, BillingChanges, UniqueIdentity, CountBy,
         BillingEvent;
    var s := db.store;
    var c := ChangeOfBilling(s, s.billings[n]);
    var cs := BillingChanges(s, n);
    var first := stamp.base + |db.log.rows|;
    BillingTarget(s, n);
    var event := BillingEvent(c, stamp.base + |now.log.rows|, stamp.time);
    RecordedOnce(s.(billings := RepairedBillings(s, n + 1)), now.log, event);
    if AuditChain.Ready(db.log) {
      var after := Record(s.(billings := RepairedBillings(s, n + 1)), now.log, event).value;
      assert BillingEvents(cs + [c], first, stamp.time) == BillingEvents(cs, first, stamp.time) + [event];
      RecordedTwice(db.log, now.log, after.log, BillingEvents(cs, first, stamp.time), [event]);
    }
  }

  // ---------- Payments ----------

  /** Planned payments that agree in property, OR number, time of payment and proven year. */
  predicate ExactTwins(s: Store, i: nat, j: nat) {
    && i < j < |s.payments| && Incomplete(s.payments[i]) && Incomplete(s.payments[j])
    && var p, q := s.payments[i], s.payments[j];
    && SameProvenYear(s, p, q)
    && p.propertyId == q.propertyId && p.orNumber == q.orNumber && p.datePaid == q.datePaid
  }

  /** Planned payments are exact twins exactly when their repaired rows clash in the unique index. */
  lemma ExactTwinsClash(s: Store, i: nat, j: nat)
    requires Unblocked(s) && i < j < |s.payments| && Incomplete(s.payments[i]) && Incomplete(s.payments[j])
    ensures ExactTwins(s, i, j) <==> IndexClash(Repaired(s).payments[i], Repaired(s).payments[j])
  {
    hide Unblocked, Repaired, Incomplete, Deterministic, NewTaxYear, Blank, SameProvenYear;
    SizesKept(s);
    IncompleteIsRepaired(s, i);
    IncompleteIsRepaired(s, j);
    SameYearText(s, s.payments[i], s.payments[j]);
  }

  ghost predicate HasExactTwins(s: Store, n: nat) {
    exists i: nat, j: nat :: i < j < n && ExactTwins(s, i, j)
  }

  lemma MixedPairDoesNotClash(s: Store, i: nat, j: nat)
    requires ValidStore(s) && Unblocked(s) && i < |s.payments| && j < |s.payments| && i != j
    requires Incomplete(s.payments[i])
    ensures !IndexClash(Repaired(s).payments[i], s.payments[j])
  {
    hide Repaired, Unblocked, Deterministic, Repairable, Trim, ValidStore, UniqueIdentity;
    SizesKept(s);
    IncompleteIsRepaired(s, i);
    if Incomplete(s.payments[j]) {
      IncompleteIsRepaired(s, j);
      StillBlank(s, j);
    } else {
      CompleteIsKept(s, j);
      RepairedDiffersFromComplete(s, i, j);
    }
  }

  lemma StillBlank(s: Store, j: nat)
    requires j < |s.payments| && Deterministic(s, s.payments[j])
    ensures Blank(s.payments[j].taxYear)
  {
  }

  lemma PartialClash(s: Store, n: nat, i: nat, j: nat)
    requires ValidStore(s) && Unblocked(s) && n <= |s.payments| && i < j < |s.payments|
    ensures var rows := RepairedPayments(s, n);
      IndexClash(rows[i], rows[j]) <==> j < n && ExactTwins(s, i, j)
  {
    hide Unblocked, RepairedPayment, UniqueIds, SameProvenYear;
    var rows := RepairedPayments(s, n);
    if Incomplete(s.payments[i]) && Incomplete(s.payments[j]) {
      ExactTwinsClash(s, i, j);
    }
    assert rows[i] == (if i < n then Repaired(s).payments[i] else s.payments[i]);
    assert rows[j] == (if j < n then Repaired(s).payments[j] else s.payments[j]);
    assert !IndexClash(s.payments[i], s.payments[j]);
    if !Incomplete(s.payments[i]) {
      CompleteIsKept(s, i);
    }
    if !Incomplete(s.payments[j]) {
      CompleteIsKept(s, j);
    }
    if Incomplete(s.payments[i]) {
      MixedPairDoesNotClash(s, i, j);
    }
    if Incomplete(s.payments[j]) {
      MixedPairDoesNotClash(s, j, i);
    }
  }

  lemma PartialUnique(s: Store, n: nat)
    requires ValidStore(s) && Unblocked(s) && n <= |s.payments|
    ensures UniqueIdentity(RepairedPayments(s, n)) <==> !HasExactTwins(s, n)
  {
    hide Unblocked, RepairedPayments, ExactTwins, IndexClash, ValidStore;
    var rows := RepairedPayments(s, n);
    forall i, j | 0 <= i < j < |s.payments|
      ensures IndexClash(rows[i], rows[j]) <==> j < n && ExactTwins(s, i, j)
    {
      PartialClash(s, n, i, j);
    }
  }

  lemma PaymentTarget(s: Store, n: nat)
    requires UniqueIds(s.payments, (p: Payment) => p.id) && Unblocked(s)
    requires n < |s.payments| && Incomplete(s.payments[n])
    ensures Deterministic(s, s.payments[n])
    ensures var c, rows := PaymentChange(s.payments[n].id, NewTaxYear(s, s.payments[n])), RepairedPayments(s, n);
      && CountBy(rows, PaymentHit(c)) == 1
      && UpdateRows(rows, PaymentHit(c), PaymentSet(c)) == RepairedPayments(s, n + 1)
  {
    hide Incomplete, Unblocked, Deterministic, CollisionCount, NewTaxYear, Blank, RepairedBillings, RepairedReceipts;
    IncompleteIsRepaired(s, n);
    StillBlank(s, n);
    var c, rows := PaymentChange(s.payments[n].id, NewTaxYear(s, s.payments[n])), RepairedPayments(s, n);
    forall j | 0 <= j < |rows| && j != n ensures !PaymentHit(c)(rows[j]) {
      assert rows[j].id == s.payments[j].id;
      assert if j < n then s.payments[j].id != s.payments[n].id else s.payments[n].id != s.payments[j].id;
    }
    OneRowUpdated(rows, PaymentHit(c), PaymentSet(c), n);
  }

  lemma PaymentApplied(db: Db, now: Db, s: Store, n: nat, stamp: Stamp)
    requires ValidStore(s) && Unblocked(s) && n < |s.payments| && Incomplete(s.payments[n])
    requires now.store == db.store.(payments := RepairedPayments(s, n))
    requires Recorded(db.log, now.log, PaymentEvents(PaymentChanges(s, n), stamp.base + |db.log.rows|, stamp.time))
    ensures Deterministic(s, s.payments[n])
    ensures var c := PaymentChange(s.payments[n].id, NewTaxYear(s, s.payments[n]));
      var cs, result := PaymentChanges(s, n) + [c], ApplyPayment(now, c, stamp);
      if HasExactTwins(s, n + 1) then result == Err(DuplicateKey)
      else if AuditChain.Ready(db.log) then
        && result.Ok? && result.value.store == db.store.(payments := RepairedPayments(s, n + 1))
        && Recorded(db.log, result.value.log, PaymentEvents(cs, stamp.base + |db.log.rows|, stamp.time))
      else result == Err(AuditRefused)
  {
    hide Incomplete, Unblocked, Deterministic, NewTaxYear, AuditChain.Ready, PaymentChanges, CountBy, PaymentEvent,
         UniqueIdentity, HasExactTwins;
    PaymentTarget(s, n);
    PartialUnique(s, n + 1);
    var c := PaymentChange(s.payments[n].id, NewTaxYear(s, s.payments[n]));
    var cs := PaymentChanges(s, n);
    var first := stamp.base + |db.log.rows|;
    var event := PaymentEvent(c, stamp.base + |now.log.rows|, stamp.time);
    var store := db.store.(payments := RepairedPayments(s, n + 1));
    RecordedOnce(store, now.log, event);
    if AuditChain.Ready(db.log) {
      var after := Record(store, now.log, event).value;
      assert PaymentEvents(cs + [c], first, stamp.time) == PaymentEvents(cs, first, stamp.time) + [event];
      RecordedTwice(db.log, now.log, after.log, PaymentEvents(cs, first, stamp.time), [event]);
    }
  }

  /** Exact twins up to n are already there up to n - 1, or the n-th is one of them. */
  lemma TwinsGrow(s: Store, n: nat)
    requires n > 0
    ensures HasExactTwins(s, n - 1) ==> HasExactTwins(s, n)
    ensures n <= |s.payments| && !Incomplete(s.payments[n - 1]) ==> (HasExactTwins(s, n - 1) <==> HasExactTwins(s, n))
  {
    hide Incomplete, SameProvenYear;
  }

  /**
   * The first planned payment updates each match exactly one row; only the unique index or the
   * audit log can stop them.
   */
  ghost predicate PaymentOutcome(db: Db, s: Store, n: nat, stamp: Stamp)
    requires n <= |s.payments|
  {
    var cs := PaymentChanges(s, n);
    var result := ApplyPayments(db, cs, stamp);
    && (if (cs == [] || AuditChain.Ready(db.log)) && !HasExactTwins(s, n) then
          && result.Ok? && result.value.store == db.store.(payments := RepairedPayments(s, n))
          && Recorded(db.log, result.value.log, PaymentEvents(cs, stamp.base + |db.log.rows|, stamp.time))
        else result.Err? && (AuditChain.Ready(db.log) ==> result == Err(DuplicateKey)))
    && (cs == [] ==> !HasExactTwins(s, n))
  }

  lemma NoPaymentApplied(db: Db, s: Store, stamp: Stamp)
    requires db.store.payments == s.payments
    ensures PaymentOutcome(db, s, 0, stamp)
  {
    hide ExactTwins;
    assert RepairedPayments(s, 0) == s.payments;
    assert PaymentEvents([], stamp.base + |db.log.rows|, stamp.time) == [];
  }

  lemma PaymentSkipped(db: Db, s: Store, n: nat, stamp: Stamp)
    requires n < |s.payments| && PaymentOutcome(db, s, n, stamp) && !Incomplete(s.payments[n])
    ensures PaymentOutcome(db, s, n + 1, stamp)
  {
    hide Incomplete, Repairable, AuditChain.Ready, Recorded, ApplyPayments, PaymentEvents, HasExactTwins;
    assert PaymentChanges(s, n + 1) == PaymentChanges(s, n);
    assert RepairedPayments(s, n + 1) == RepairedPayments(s, n);
    TwinsGrow(s, n + 1);
  }

  lemma PaymentsThenOne(db: Db, cs: seq<PaymentChange>, c: PaymentChange, stamp: Stamp)
    ensures ApplyPayments(db, cs + [c], stamp) ==
      match ApplyPayments(db, cs, stamp)
      case Err(e) => Err(e)
      case Ok(db') => ApplyPayment(db', c, stamp)
  {
    hide ApplyPayment;
    assert (cs + [c])[..|cs|] == cs;
  }

  lemma PaymentIsNext(s: Store, n: nat)
    requires n < |s.payments| && Incomplete(s.payments[n]) && Repairable(s, s.payments[n])
    ensures PaymentChanges(s, n + 1) ==
      PaymentChanges(s, n) + [PaymentChange(s.payments[n].id, NewTaxYear(s, s.payments[n]))]
  {
    hide Incomplete, Repairable, NewTaxYear;
  }

  lemma PaymentTaken(db: Db, s: Store, n: nat, stamp: Stamp)
    requires ValidStore(s) && Unblocked(s) && db.store.payments == s.payments
    requires n < |s.payments| && PaymentOutcome(db, s, n, stamp) && Incomplete(s.payments[n])
    ensures PaymentOutcome(db, s, n + 1, stamp)
  {
    hide Incomplete, Repairable, AuditChain.Ready, Recorded, ApplyPayment, PaymentEvents, HasExactTwins, ValidStore,
         RepairedPayments, NewTaxYear, PaymentChanges, ApplyPayments;
    var cs, p := PaymentChanges(s, n), s.payments[n];
    assert Repairable(s, p);
    RepairableIsDeterministic(s, p);
    var c := PaymentChange(p.id, NewTaxYear(s, p));
    PaymentIsNext(s, n);
    PaymentsThenOne(db, cs, c, stamp);
    TwinsGrow(s, n + 1);
    if (cs == [] || AuditChain.Ready(db.log)) && !HasExactTwins(s, n) {
      PaymentApplied(db, ApplyPayments(db, cs, stamp).value, s, n, stamp);
    }
  }

  lemma {:induction false} PaymentsApplied(db: Db, s: Store, n: nat, stamp: Stamp)
    requires ValidStore(s) && Unblocked(s) && n <= |s.payments| && db.store.payments == s.payments
    ensures PaymentOutcome(db, s, n, stamp)
  {
    hide Incomplete, PaymentOutcome, ValidStore, Unblocked;
    if n == 0 {
      NoPaymentApplied(db, s, stamp);
    } else {
      PaymentsApplied(db, s, n - 1, stamp);
      if Incomplete(s.payments[n - 1]) {
        PaymentTaken(db, s, n - 1, stamp);
      } else {
        PaymentSkipped(db, s, n - 1, stamp);
      }
    }
  }

  lemma RepairableIsDeterministic(s: Store, p: Payment)
    requires Repairable(s, p)
    ensures Deterministic(s, p)
  {
  }

  // ---------- Receipts ----------

  lemma ReceiptTarget(s: Store, n: nat)
    requires UniqueIds(s.receipts, (r: Receipt) => r.id)
    requires n < |s.receipts| && Dangling(s, s.receipts[n])
    ensures var c, rows := ReceiptChange(s.receipts[n].id, s.receipts[n].paymentId.value), RepairedReceipts(s, n);
      && CountBy(rows, ReceiptHit(c)) == 1
      && UpdateRows(rows, ReceiptHit(c), ReceiptSet()) == RepairedReceipts(s, n + 1)
  {
    hide HasPayment;
    var c, rows := ReceiptChange(s.receipts[n].id, s.receipts[n].paymentId.value), RepairedReceipts(s, n);
    forall j | 0 <= j < |rows| && j != n ensures !ReceiptHit(c)(rows[j]) {
      assert rows[j].id == s.receipts[j].id;
      assert if j < n then s.receipts[j].id != s.receipts[n].id else s.receipts[n].id != s.receipts[j].id;
    }
    OneRowUpdated(rows, ReceiptHit(c), ReceiptSet(), n);
  }

  /** The first planned receipt updates each match exactly one row; only the audit log can refuse them. */
  ghost predicate ReceiptOutcome(db: Db, s: Store, n: nat, stamp: Stamp)
    requires n <= |s.receipts|
  {
    var cs := ReceiptChanges(s, n);
    var result := ApplyReceipts(db, cs, stamp);
    if cs == [] || AuditChain.Ready(db.log) then
      && result.Ok? && result.value.store == db.store.(receipts := RepairedReceipts(s, n))
      && Recorded(db.log, result.value.log, ReceiptEvents(cs, stamp.base + |db.log.rows|, stamp.time))
    else result == Err(AuditRefused)
  }

  lemma NoReceiptApplied(db: Db, s: Store, stamp: Stamp)
    requires db.store.receipts == s.receipts
    ensures ReceiptOutcome(db, s, 0, stamp)
  {
    assert RepairedReceipts(s, 0) == s.receipts;
    assert ReceiptEvents([], stamp.base + |db.log.rows|, stamp.time) == [];
  }

  lemma ReceiptSkipped(db: Db, s: Store, n: nat, stamp: Stamp)
    requires n < |s.receipts| && ReceiptOutcome(db, s, n, stamp) && !Dangling(s, s.receipts[n])
    ensures ReceiptOutcome(db, s, n + 1, stamp)
  {
    hide Dangling, AuditChain.Ready, Recorded, ApplyReceipts, ReceiptEvents;
    assert ReceiptChanges(s, n + 1) == ReceiptChanges(s, n);
    assert RepairedReceipts(s, n + 1) == RepairedReceipts(s, n);
  }

  lemma ReceiptsThenOne(db: Db, cs: seq<ReceiptChange>, c: ReceiptChange, stamp: Stamp)
    ensures ApplyReceipts(db, cs + [c], stamp) ==
      match ApplyReceipts(db, cs, stamp)
      case Err(e) => Err(e)
      case Ok(db') => ApplyReceipt(db', c, stamp)
  {
    hide ApplyReceipt;
    assert (cs + [c])[..|cs|] == cs;
  }

  lemma ReceiptTaken(db: Db, s: Store, n: nat, stamp: Stamp)
    requires ValidStore(s) && n < |s.receipts| && ReceiptOutcome(db, s, n, stamp) && Dangling(s, s.receipts[n])
    ensures ReceiptOutcome(db, s, n + 1, stamp)
  {
    hide HasPayment, AuditChain.Ready, Recorded, ReceiptEvent, RepairedReceipts, UniqueIdentity, CountBy, ApplyReceipts;
    var cs, c := ReceiptChanges(s, n), ReceiptChange(s.receipts[n].id, s.receipts[n].paymentId.value);
    assert ReceiptChanges(s, n + 1) == cs + [c];
    ReceiptsThenOne(db, cs, c, stamp);
    if cs == [] || AuditChain.Ready(db.log) {
      var now := ApplyReceipts(db, cs, stamp).value;
      var first := stamp.base + |db.log.rows|;
      ReceiptTarget(s, n);
      RecordedSize(db.log, now.log, ReceiptEvents(cs, first, stamp.time));
      var event := ReceiptEvent(c, stamp.base + |now.log.rows|, stamp.time);
      var store := db.store.(receipts := RepairedReceipts(s, n + 1));
      RecordedOnce(store, now.log, event);
      if AuditChain.Ready(db.log) {
        var after := Record(store, now.log, event).value;
        assert ReceiptEvents(cs + [c], first, stamp.time) == ReceiptEvents(cs, first, stamp.time) + [event];
        RecordedTwice(db.log, now.log, after.log, ReceiptEvents(cs, first, stamp.time), [event]);
      }
    }
  }

  lemma RecordedSize(before: AuditChain.Log, after: AuditChain.Log, events: seq<AuditChain.Payload>)
    requires Recorded(before, after, events)
    ensures |after.rows| == |before.rows| + |events|
    ensures AuditChain.Ready(after) <==> AuditChain.Ready(before)
  {
  }

  lemma {:induction false} ReceiptsApplied(db: Db, s: Store, n: nat, stamp: Stamp)
    requires ValidStore(s) && n <= |s.receipts| && db.store.receipts == s.receipts
    ensures ReceiptOutcome(db, s, n, stamp)
  {
    hide Dangling, ReceiptOutcome, ValidStore;
    if n == 0 {
      NoReceiptApplied(db, s, stamp);
    } else {
      ReceiptsApplied(db, s, n - 1, stamp);
      if Dangling(s, s.receipts[n - 1]) {
        ReceiptTaken(db, s, n - 1, stamp);
      } else {
        ReceiptSkipped(db, s, n - 1, stamp);
      }
    }
  }

  // ---------- The whole plan ----------

  /** The audit events of a plan, in the order of its changes. */
  function PlanEvents(plan: Plan, first: nat, time: int): (events: seq<AuditChain.Payload>)
    ensures |events| == plan.ChangeCount()
  {
    BillingEvents(plan.billings, first, time)
    + PaymentEvents(plan.payments, first + |plan.billings|, time)
    + ReceiptEvents(plan.receipts, first + |plan.billings| + |plan.payments|, time)
  }

  /**
   * Applied to the data it was built from, an unblocked plan with changes succeeds exactly when
   * the audit chain is at its head and no two planned payments are exact twins; with the chain at
   * its head the twins are refused by the unique index. On success it leaves the repaired store
   * and one audit event per change.
   */
  lemma PlanApplies(db: Db, stamp: Stamp)
    requires ValidStore(db.store) && BuildPlan(db.store).Ready() && BuildPlan(db.store).ChangeCount() > 0
    ensures var plan, result := BuildPlan(db.store), ApplyPlan(db, BuildPlan(db.store), stamp);
      && (result.Ok? <==> AuditChain.Ready(db.log) && !HasExactTwins(db.store, |db.store.payments|))
      && (AuditChain.Ready(db.log) && result.Err? ==> result == Err(DuplicateKey))
      && (result.Ok? ==>
            && result.value.store == Repaired(db.store)
            && Recorded(db.log, result.value.log, PlanEvents(plan, stamp.base + |db.log.rows|, stamp.time)))
  {
    hide Unblocked, ValidStore, AuditChain.Ready, Recorded, BillingEvents, PaymentEvents, ReceiptEvents, HasExactTwins,
         RepairedBillings, RepairedPayments, RepairedReceipts, ApplyBillings, ApplyPayments, ApplyReceipts,
         BillingChanges, PaymentChanges, ReceiptChanges, BillingBlockers, PaymentBlockers;
    var s := db.store;
    var plan := BuildPlan(s);
    ReadyMeansUnblocked(s);
    BillingsApplied(db, |s.billings|, stamp);
    var r1 := ApplyBillings(db, plan.billings, stamp);
    if r1.Ok? {
      var db1 := r1.value;
      var first := stamp.base + |db.log.rows|;
      var events1 := BillingEvents(plan.billings, first, stamp.time);
      RecordedSize(db.log, db1.log, events1);
      PaymentsApplied(db1, s, |s.payments|, stamp);
      var r2 := ApplyPayments(db1, plan.payments, stamp);
      if r2.Ok? {
        var db2 := r2.value;
        var events2 := PaymentEvents(plan.payments, first + |plan.billings|, stamp.time);
        RecordedSize(db1.log, db2.log, events2);
        RecordedTwice(db.log, db1.log, db2.log, events1, events2);
        ReceiptsApplied(db2, s, |s.receipts|, stamp);
        var r3 := ApplyReceipts(db2, plan.receipts, stamp);
        if r3.Ok? {
          var events3 := ReceiptEvents(plan.receipts, first + |plan.billings| + |plan.payments|, stamp.time);
          RecordedTwice(db.log, db2.log, r3.value.log, events1 + events2, events3);
        }
      }
    }
  }

  /**
   * The unique index refuses the ready plan of two payments of one receipt at the same second: a
   * plan without blockers need not be applicable.
   */
  lemma ReadyPlanCanBeRefused(log: AuditChain.Log, stamp: Stamp)
    requires AuditChain.Ready(log)
    ensures var s := TwinStore(0);
      && ValidStore(s) && BuildPlan(s).Ready() && BuildPlan(s).ChangeCount() > 0
      && ApplyPlan(Db(s, log), BuildPlan(s), stamp) == Err(DuplicateKey)
  {
    hide AuditChain.Ready, BuildPlan, ApplyPlan, ValidStore, Repaired, Key, Deterministic, MinimumYear, Incomplete;
    TwinPlanIsReady(0);
    PlanApplies(Db(TwinStore(0), log), stamp);
    assert ExactTwins(TwinStore(0), 0, 1);
    assert HasExactTwins(TwinStore(0), 2);
  }
}
