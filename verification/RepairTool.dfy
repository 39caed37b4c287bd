/** The recovery command: planning, gating, applying and checking, over a live database session. */
module RepairTool {
  import opened Wrappers
  import opened Sums
  import opened Ledger
  import opened RepairPlan
  import opened RepairTheorems
  import opened RepairGuarantees
  import opened RepairApply
  import AuditChain

  // ---------- The sealed audit log ----------

  /** The log verifies, and every identifier drawn so far is below the next one. */
  ghost predicate Sealed(log: AuditChain.Log, base: nat) {
    && AuditChain.Verified(log)
    && forall i :: 0 <= i < |log.rows| ==> log.rows[i].payload.uuid < base + |log.rows|
  }

  lemma RecordKeepsSeal(store: Store, log: AuditChain.Log, event: AuditChain.Payload, base: nat)
    requires Sealed(log, base) && event.uuid == base + |log.rows| && event.origin == AuditChain.LIVE
    ensures Record(store, log, event).Ok? && Sealed(Record(store, log, event).value.log, base)
  {
    AuditChain.AppendKeepsVerified(log, event);
  }

  lemma {:induction false} BillingsKeepSeal(db: Db, cs: seq<BillingChange>, stamp: Stamp)
    requires Sealed(db.log, stamp.base) && ApplyBillings(db, cs, stamp).Ok?
    ensures Sealed(ApplyBillings(db, cs, stamp).value.log, stamp.base)
  {
    hide Sealed, Record, CountBy, UniqueIdentity;
    if cs != [] {
      var init, c := cs[..|cs| - 1], cs[|cs| - 1];
      BillingsKeepSeal(db, init, stamp);
      var now := ApplyBillings(db, init, stamp).value;
      var rows := UpdateRows(now.store.billings, BillingHit(c), BillingSet(c));
      RecordKeepsSeal(now.store.(billings := rows), now.log,
                      BillingEvent(c, stamp.base + |now.log.rows|, stamp.time), stamp.base);
    }
  }

  lemma {:induction false} PaymentsKeepSeal(db: Db, cs: seq<PaymentChange>, stamp: Stamp)
    requires Sealed(db.log, stamp.base) && ApplyPayments(db, cs, stamp).Ok?
    ensures Sealed(ApplyPayments(db, cs, stamp).value.log, stamp.base)
  {
    hide Sealed, Record, CountBy, UniqueIdentity;
    if cs != [] {
      var init, c := cs[..|cs| - 1], cs[|cs| - 1];
      PaymentsKeepSeal(db, init, stamp);
      var now := ApplyPayments(db, init, stamp).value;
      var rows := UpdateRows(now.store.payments, PaymentHit(c), PaymentSet(c));
      RecordKeepsSeal(now.store.(payments := rows), now.log,
                      PaymentEvent(c, stamp.base + |now.log.rows|, stamp.time), stamp.base);
    }
  }

  lemma {:induction false} ReceiptsKeepSeal(db: Db, cs: seq<ReceiptChange>, stamp: Stamp)
    requires Sealed(db.log, stamp.base) && ApplyReceipts(db, cs, stamp).Ok?
    ensures Sealed(ApplyReceipts(db, cs, stamp).value.log, stamp.base)
  {
    hide Sealed, Record, CountBy, UniqueIdentity;
    if cs != [] {
      var init, c := cs[..|cs| - 1], cs[|cs| - 1];
      ReceiptsKeepSeal(db, init, stamp);
      var now := ApplyReceipts(db, init, stamp).value;
      var rows := UpdateRows(now.store.receipts, ReceiptHit(c), ReceiptSet());
      RecordKeepsSeal(now.store.(receipts := rows), now.log,
                      ReceiptEvent(c, stamp.base + |now.log.rows|, stamp.time), stamp.base);
    }
  }

  /** Whatever the plan, a verified audit log is still verified when all its changes are applied. */
  lemma AppliedPlanKeepsSeal(db: Db, plan: Plan, stamp: Stamp)
    requires Sealed(db.log, stamp.base) && ApplyPlan(db, plan, stamp).Ok?
    ensures Sealed(ApplyPlan(db, plan, stamp).value.log, stamp.base)
  {
    hide Sealed, ApplyBillings, ApplyPayments, ApplyReceipts;
    BillingsKeepSeal(db, plan.billings, stamp);
    var db1 := ApplyBillings(db, plan.billings, stamp).value;
    PaymentsKeepSeal(db1, plan.payments, stamp);
    ReceiptsKeepSeal(ApplyPayments(db1, plan.payments, stamp).value, plan.receipts, stamp);
  }

  // ---------- A failed change fails the plan ----------

  lemma {:induction false} BillingFailureStays(db: Db, cs: seq<BillingChange>, n: nat, stamp: Stamp)
    requires n <= |cs| && ApplyBillings(db, cs[..n], stamp).Err?
    ensures ApplyBillings(db, cs, stamp) == ApplyBillings(db, cs[..n], stamp)
  {
    hide ApplyBilling;
    if n < |cs| {
      assert cs[..|cs| - 1][..n] == cs[..n];
      BillingFailureStays(db, cs[..|cs| - 1], n, stamp);
    } else {
      assert cs[..n] == cs;
    }
  }

  lemma {:induction false} PaymentFailureStays(db: Db, cs: seq<PaymentChange>, n: nat, stamp: Stamp)
    requires n <= |cs| && ApplyPayments(db, cs[..n], stamp).Err?
    ensures ApplyPayments(db, cs, stamp) == ApplyPayments(db, cs[..n], stamp)
  {
    hide ApplyPayment;
    if n < |cs| {
      assert cs[..|cs| - 1][..n] == cs[..n];
      PaymentFailureStays(db, cs[..|cs| - 1], n, stamp);
    } else {
      assert cs[..n] == cs;
    }
  }

  lemma {:induction false} ReceiptFailureStays(db: Db, cs: seq<ReceiptChange>, n: nat, stamp: Stamp)
    requires n <= |cs| && ApplyReceipts(db, cs[..n], stamp).Err?
    ensures ApplyReceipts(db, cs, stamp) == ApplyReceipts(db, cs[..n], stamp)
  {
    hide ApplyReceipt;
    if n < |cs| {
      assert cs[..|cs| - 1][..n] == cs[..n];
      ReceiptFailureStays(db, cs[..|cs| - 1], n, stamp);
    } else {
      assert cs[..n] == cs;
    }
  }

  // ---------- The session ----------

  datatype Counts = Counts(billingSummaries: nat, paymentTaxYears: nat, receiptReferences: nat) {
    function Total(): nat {
      billingSummaries + paymentTaxYears + receiptReferences
    }
  }

  function CountsOf(plan: Plan): Counts {
    Counts(|plan.billings|, |plan.payments|, |plan.receipts|)
  }

  /** The plans make the same changes: what equal fingerprints of the candidates mean. */
  predicate SameCandidates(a: Plan, b: Plan) {
    a.billings == b.billings && a.payments == b.payments && a.receipts == b.receipts
  }

  /** What happens around the command, including to the database while the backup runs. */
  datatype Surroundings = Surroundings(
    administrator: bool, apiBefore: bool, backup: bool, apiAfter: bool, meanwhile: Db, commits: bool, stamp: Stamp)

  datatype Refusal =
    | NotAdministrator | ApiListening | AmbiguousRecords | AlreadyComplete | AuditNotVerified | BackupFailed
    | ApiRestarted | EvidenceChanged | ApplyFailed(error: ApplyError) | CommitFailed
    | FinancialCheckFailed | AuditCheckFailed

  /** The first gates: nothing has been written and nothing may be. */
  ghost predicate FirstGates(db: Db, w: Surroundings) {
    && w.administrator && !w.apiBefore
    && BuildPlan(db.store).Ready() && !BuildPlan(db.store).Complete()
    && AuditChain.Verified(db.log)
    && w.backup && !w.apiAfter
  }

  /** The evidence is still that of the plan that was backed up. */
  ghost predicate SameEvidence(db: Db, w: Surroundings) {
    && BuildPlan(w.meanwhile.store).Ready() && !BuildPlan(w.meanwhile.store).Complete()
    && SameCandidates(BuildPlan(w.meanwhile.store), BuildPlan(db.store))
  }

  /** The gates before the audit log is looked at. */
  ghost predicate StartGates(db: Db, w: Surroundings) {
    w.administrator && !w.apiBefore && BuildPlan(db.store).Ready() && !BuildPlan(db.store).Complete()
  }

  /** The planned changes, applied to the data as the backup left them. */
  function Applied(w: Surroundings): Result<Db, ApplyError> {
    ApplyPlan(w.meanwhile, BuildPlan(w.meanwhile.store), w.stamp)
  }

  /** What a refusal means; no two of them hold together. */
  ghost predicate RefusedFor(db: Db, w: Surroundings, error: Refusal) {
    var ready, applies := StartGates(db, w), FirstGates(db, w) && SameEvidence(db, w);
    match error
    case NotAdministrator => !w.administrator
    case ApiListening => w.administrator && w.apiBefore
    case AmbiguousRecords => w.administrator && !w.apiBefore && !BuildPlan(db.store).Ready()
    case AlreadyComplete => w.administrator && !w.apiBefore && BuildPlan(db.store).Complete()
    case AuditNotVerified => ready && !AuditChain.Verified(db.log)
    case BackupFailed => ready && AuditChain.Verified(db.log) && !w.backup
    case ApiRestarted => ready && AuditChain.Verified(db.log) && w.backup && w.apiAfter
    case EvidenceChanged => FirstGates(db, w) && !SameEvidence(db, w)
    case ApplyFailed(e) => applies && Applied(w) == Err(e)
    case CommitFailed => applies && Applied(w).Ok? && !w.commits
    case FinancialCheckFailed =>
      applies && w.commits && Applied(w).Ok? && !BuildPlan(Applied(w).value.store).Complete()
    case AuditCheckFailed =>
      applies && w.commits && Applied(w).Ok? && BuildPlan(Applied(w).value.store).Complete()
      && !AuditChain.Verified(Applied(w).value.log)
  }

  class Session {
    var store: Store
    var log: AuditChain.Log

    function Here(): Db
      reads this
    {
      Db(store, log)
    }

    method BillingCandidates() returns (candidates: seq<BillingChange>, blockers: seq<Blocker>)
      ensures candidates == BillingChanges(store, |store.billings|)
      ensures blockers == BillingBlockers(store, |store.billings|)
    {
      hide ChargeMismatch, LinkedPenalty, LinkedDiscount, AllocationRows, MaximumLinks, MultiLinks;
      candidates, blockers := [], [];
      for i := 0 to |store.billings|
        invariant candidates == BillingChanges(store, i)
        invariant blockers == BillingBlockers(store, i)
      {
        var b := store.billings[i];
        if ChargeMismatch(store, b) {
          if || AllocationRows(store, b.id) < 1
             || MaximumLinks(store, b.id, |store.allocations|) != 1
             || MultiLinks(store, b.id) != 0 {
            blockers := blockers + [AmbiguousBillingChargeSummary(b.id)];
          } else {
            candidates := candidates + [ChangeOfBilling(store, b)];
          }
        }
      }
    }

    method PaymentCandidates() returns (candidates: seq<PaymentChange>, blockers: seq<Blocker>)
      ensures candidates == PaymentChanges(store, |store.payments|)
      ensures blockers == PaymentBlockers(store, |store.payments|)
    {
      hide Incomplete, Deterministic, CollisionCount, NewTaxYear;
      candidates, blockers := [], [];
      for i := 0 to |store.payments|
        invariant candidates == PaymentChanges(store, i)
        invariant blockers == PaymentBlockers(store, i)
      {
        var p := store.payments[i];
        if Incomplete(p) {
          if !Deterministic(store, p) {
            blockers := blockers + [AmbiguousIncompletePaymentIdentity(p.id)];
          } else if CollisionCount(store, p) != 0 {
            blockers := blockers + [PaymentIdentityCollision(p.id)];
          } else {
            candidates := candidates + [PaymentChange(p.id, NewTaxYear(store, p))];
          }
        }
      }
    }

    method BuildRecoveryPlan() returns (plan: Plan)
      ensures plan == BuildPlan(store)
    {
      var billings, billingBlockers := BillingCandidates();
      var payments, paymentBlockers := PaymentCandidates();
      plan := Plan(billings, payments, ReceiptChanges(store, |store.receipts|), billingBlockers + paymentBlockers);
    }

    /** Seals one event into the log of this session. */
    method AppendAuditEvent(event: AuditChain.Payload) returns (ok: bool)
      modifies this`log
      ensures ok == AuditChain.Append(old(log), event).Ok?
      ensures log == if ok then AuditChain.Append(old(log), event).value else old(log)
    {
      var result := AuditChain.Append(log, event);
      ok := result.Ok?;
      if ok {
        log := result.value;
      }
    }

    method UpdateBilling(c: BillingChange, stamp: Stamp) returns (result: Result<(), ApplyError>)
      modifies this
      ensures match ApplyBilling(old(Here()), c, stamp)
              case Ok(db) => result == Ok(()) && Here() == db
              case Err(e) => result == Err(e)
    {
      hide CountBy, BillingHit, AuditChain.Append, BillingEvent;
      var matched := CountBy(store.billings, BillingHit(c));
      var event := BillingEvent(c, stamp.base + |log.rows|, stamp.time);
      store := store.(billings := UpdateRows(store.billings, BillingHit(c), BillingSet(c)));
      if matched != 1 {
        return Err(RowChanged);
      }
      var sealed := AppendAuditEvent(event);
      result := if sealed then Ok(()) else Err(AuditRefused);
    }

    method UpdatePayment(c: PaymentChange, stamp: Stamp) returns (result: Result<(), ApplyError>)
      modifies this
      ensures match ApplyPayment(old(Here()), c, stamp)
              case Ok(db) => result == Ok(()) && Here() == db
              case Err(e) => result == Err(e)
    {
      hide CountBy, PaymentHit, UniqueIdentity, AuditChain.Append, PaymentEvent;
      var matched := CountBy(store.payments, PaymentHit(c));
      var event := PaymentEvent(c, stamp.base + |log.rows|, stamp.time);
      var rows := UpdateRows(store.payments, PaymentHit(c), PaymentSet(c));
      if !UniqueIdentity(rows) {
        return Err(DuplicateKey);
      }
      store := store.(payments := rows);
      if matched != 1 {
        return Err(RowChanged);
      }
      var sealed := AppendAuditEvent(event);
      result := if sealed then Ok(()) else Err(AuditRefused);
    }

    method UpdateReceipt(c: ReceiptChange, stamp: Stamp) returns (result: Result<(), ApplyError>)
      modifies this
      ensures match ApplyReceipt(old(Here()), c, stamp)
              case Ok(db) => result == Ok(()) && Here() == db
              case Err(e) => result == Err(e)
    {
      hide CountBy, ReceiptHit, AuditChain.Append, ReceiptEvent;
      var matched := CountBy(store.receipts, ReceiptHit(c));
      var event := ReceiptEvent(c, stamp.base + |log.rows|, stamp.time);
      store := store.(receipts := UpdateRows(store.receipts, ReceiptHit(c), ReceiptSet()));
      if matched != 1 {
        return Err(RowChanged);
      }
      var sealed := AppendAuditEvent(event);
      result := if sealed then Ok(()) else Err(AuditRefused);
    }

    method UpdateBillings(cs: seq<BillingChange>, stamp: Stamp) returns (result: Result<nat, ApplyError>)
      modifies this
      ensures match ApplyBillings(old(Here()), cs, stamp)
              case Ok(db) => result == Ok(|cs|) && Here() == db
              case Err(e) => result == Err(e)
    {
      hide ApplyBilling;
      var count := 0;
      for i := 0 to |cs|
        invariant count == i && ApplyBillings(old(Here()), cs[..i], stamp) == Ok(Here())
      {
        assert cs[..i + 1][..i] == cs[..i];
        var updated := UpdateBilling(cs[i], stamp);
        if updated.Err? {
          BillingFailureStays(old(Here()), cs, i + 1, stamp);
          return Err(updated.error);
        }
        count := count + 1;
      }
      assert cs[..|cs|] == cs;
      result := Ok(count);
    }

    method UpdatePayments(cs: seq<PaymentChange>, stamp: Stamp) returns (result: Result<nat, ApplyError>)
      modifies this
      ensures match ApplyPayments(old(Here()), cs, stamp)
              case Ok(db) => result == Ok(|cs|) && Here() == db
              case Err(e) => result == Err(e)
    {
      hide ApplyPayment;
      var count := 0;
      for i := 0 to |cs|
        invariant count == i && ApplyPayments(old(Here()), cs[..i], stamp) == Ok(Here())
      {
        assert cs[..i + 1][..i] == cs[..i];
        var updated := UpdatePayment(cs[i], stamp);
        if updated.Err? {
          PaymentFailureStays(old(Here()), cs, i + 1, stamp);
          return Err(updated.error);
        }
        count := count + 1;
      }
      assert cs[..|cs|] == cs;
      result := Ok(count);
    }

    method UpdateReceipts(cs: seq<ReceiptChange>, stamp: Stamp) returns (result: Result<nat, ApplyError>)
      modifies this
      ensures match ApplyReceipts(old(Here()), cs, stamp)
              case Ok(db) => result == Ok(|cs|) && Here() == db
              case Err(e) => result == Err(e)
    {
      hide ApplyReceipt;
      var count := 0;
      for i := 0 to |cs|
        invariant count == i && ApplyReceipts(old(Here()), cs[..i], stamp) == Ok(Here())
      {
        assert cs[..i + 1][..i] == cs[..i];
        var updated := UpdateReceipt(cs[i], stamp);
        if updated.Err? {
          ReceiptFailureStays(old(Here()), cs, i + 1, stamp);
          return Err(updated.error);
        }
        count := count + 1;
      }
      assert cs[..|cs|] == cs;
      result := Ok(count);
    }

    /** Makes every change of the plan in this transaction; a failure leaves the rollback to the caller. */
    method ApplyChanges(plan: Plan, stamp: Stamp) returns (result: Result<Counts, ApplyError>)
      modifies this
      ensures match ApplyPlan(old(Here()), plan, stamp)
              case Ok(db) =>
                && result == Ok(CountsOf(plan)) && result.value.Total() == plan.ChangeCount() && Here() == db
                && result.value.billingSummaries == |plan.billings| && result.value.paymentTaxYears == |plan.payments|
                && result.value.receiptReferences == |plan.receipts|
              case Err(e) => result == Err(e)
    {
      hide ApplyBillings, ApplyPayments, ApplyReceipts;
      var billings := UpdateBillings(plan.billings, stamp);
      if billings.Err? {
        return Err(billings.error);
      }
      var payments := UpdatePayments(plan.payments, stamp);
      if payments.Err? {
        return Err(payments.error);
      }
      var receipts := UpdateReceipts(plan.receipts, stamp);
      if receipts.Err? {
        return Err(receipts.error);
      }
      result := Ok(Counts(billings.value, payments.value, receipts.value));
    }

    /** The gates up to the end of the backup, with the plan that they were passed for. */
    method PassGates(w: Surroundings) returns (refused: Option<Refusal>, before: Plan)
      modifies this
      ensures refused.None? <==> FirstGates(old(Here()), w)
      ensures refused.None? ==> before == BuildPlan(old(store)) && Here() == w.meanwhile
      ensures refused.Some? ==>
        && RefusedFor(old(Here()), w, refused.value) && Here() in {old(Here()), w.meanwhile}
        && refused.value in {NotAdministrator, ApiListening, AmbiguousRecords, AlreadyComplete, AuditNotVerified,
                             BackupFailed, ApiRestarted}
    {
      hide BuildPlan, ApplyPlan, AuditChain.Verified;
      before := Plan([], [], [], []);
      if !w.administrator {
        return Some(NotAdministrator), before;
      }
      if w.apiBefore {
        return Some(ApiListening), before;
      }
      before := BuildRecoveryPlan();
      var failures := AuditChain.VerifyAuditChain(log);
      if !before.Ready() {
        return Some(AmbiguousRecords), before;
      }
      if before.Complete() {
        return Some(AlreadyComplete), before;
      }
      if failures != 0 {
        return Some(AuditNotVerified), before;
      }
      store, log := w.meanwhile.store, w.meanwhile.log;
      if !w.backup {
        return Some(BackupFailed), before;
      }
      if w.apiAfter {
        return Some(ApiRestarted), before;
      }
      refused := None;
    }

    /**
     * The whole command. Either everything planned is committed and both checks pass, or the
     * database is as it was found; the checks after the commit cannot fail on a valid store
     * whose audit log was still verified.
     */
    method ApplyRecovery(w: Surroundings) returns (result: Result<Counts, Refusal>)
      modifies this
      ensures !FirstGates(old(Here()), w) ==> result.Err? && Here() in {old(Here()), w.meanwhile}
      ensures FirstGates(old(Here()), w) && !SameEvidence(old(Here()), w) ==>
        result == Err(EvidenceChanged) && Here() == w.meanwhile
      ensures result.Ok? ==>
        && FirstGates(old(Here()), w) && SameEvidence(old(Here()), w) && w.commits
        && ApplyPlan(w.meanwhile, BuildPlan(w.meanwhile.store), w.stamp) == Ok(Here())
        && result.value == CountsOf(BuildPlan(old(store)))
        && result.value.Total() == BuildPlan(old(store)).ChangeCount()
        && result.value.billingSummaries == |BuildPlan(old(store)).billings|
        && result.value.paymentTaxYears == |BuildPlan(old(store)).payments|
        && result.value.receiptReferences == |BuildPlan(old(store)).receipts|
        && BuildPlan(store).Complete() && AuditChain.Verified(log)
      ensures result.Ok? ==> BuildPlan(w.meanwhile.store) == BuildPlan(old(store))
      ensures result.Err? ==> RefusedFor(old(Here()), w, result.error)
      ensures result.Err? && !result.error.FinancialCheckFailed? && !result.error.AuditCheckFailed? ==>
        Here() in {old(Here()), w.meanwhile}
      ensures ValidStore(w.meanwhile.store) && Sealed(w.meanwhile.log, w.stamp.base) ==>
        && (result.Ok? <==>
              && FirstGates(old(Here()), w) && SameEvidence(old(Here()), w) && w.commits
              && !HasExactTwins(w.meanwhile.store, |w.meanwhile.store.payments|))
        && (result.Ok? ==> store == Repaired(w.meanwhile.store) && Sealed(log, w.stamp.base))
        && (result.Err? ==> Here() in {old(Here()), w.meanwhile})
    {
      hide BuildPlan, ApplyPlan, Sealed, ValidStore, HasExactTwins, Repaired, AuditChain.Verified;
      ghost var start := Here();
      var refused, before := PassGates(w);
      if refused.Some? {
        return Err(refused.value);
      }
      assert FirstGates(start, w);
      var current := BuildRecoveryPlan();
      if !current.Ready() || current.Complete() || !SameCandidates(current, before) {
        return Err(EvidenceChanged);
      }
      assert SameEvidence(start, w);
      var store0, log0 := store, log;
      RecoveryOutcome(w.meanwhile, w.stamp);
      var counts := ApplyChanges(current, w.stamp);
      if counts.Err? {
        store, log := store0, log0;
        return Err(ApplyFailed(counts.error));
      }
      if !w.commits {
        store, log := store0, log0;
        return Err(CommitFailed);
      }
      var after := BuildRecoveryPlan();
      var failures := AuditChain.VerifyAuditChain(log);
      if !after.Complete() {
        return Err(FinancialCheckFailed);
      }
      if failures != 0 {
        return Err(AuditCheckFailed);
      }
      result := Ok(counts.value);
    }
  }

  /** On a valid store with a verified log only exact twins stop an unblocked plan, and both checks pass after it. */
  lemma RecoveryOutcome(db: Db, stamp: Stamp)
    requires BuildPlan(db.store).Ready() && !BuildPlan(db.store).Complete()
    ensures ValidStore(db.store) && Sealed(db.log, stamp.base) ==>
      var result := ApplyPlan(db, BuildPlan(db.store), stamp);
      && (result.Ok? <==> !HasExactTwins(db.store, |db.store.payments|))
      && (result.Ok? ==>
            && result.value.store == Repaired(db.store)
            && BuildPlan(result.value.store).Complete()
            && AuditChain.Verified(result.value.log) && Sealed(result.value.log, stamp.base))
  {
    hide BuildPlan, ApplyPlan, ValidStore, HasExactTwins, Repaired, AuditChain.SoundRows, Recorded, PlanEvents;
    if ValidStore(db.store) && Sealed(db.log, stamp.base) {
      PlanApplies(db, stamp);
      RecoveryReachesFixpoint(db.store);
      if ApplyPlan(db, BuildPlan(db.store), stamp).Ok? {
        AppliedPlanKeepsSeal(db, BuildPlan(db.store), stamp);
      }
    }
  }
}
