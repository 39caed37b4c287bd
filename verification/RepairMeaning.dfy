/** What a recovery plan says about the rows it was built from, without the planner's own queries. */
module RepairMeaning {
  import opened Wrappers
  import opened Sums
  import opened Ledger
  import opened RepairPlan
  import opened RepairTheorems
  import opened RepairGuarantees
  import opened RepairApply
  import AuditChain
  import Text

  // ---------- Text ----------

  predicate Spaces(s: string) {
    forall i :: 0 <= i < |s| ==> s[i] == ' '
  }

  predicate NullOrSpaces(s: Option<string>) {
    s.Some? ==> Spaces(s.value)
  }

  lemma {:induction false} LeftPart(s: string) returns (i: nat)
    ensures i <= |s| && TrimLeft(s) == s[i..] && Spaces(s[..i])
    ensures i < |s| ==> s[i] != ' '
  {
    i := 0;
    if s != "" && s[0] == ' ' {
      var k := LeftPart(s[1..]);
      i := k + 1;
      assert s[1..][k..] == s[i..];
      forall j | 0 <= j < i ensures s[..i][j] == ' ' {
        assert j > 0 ==> s[..i][j] == s[1..][..k][j - 1];
      }
    }
  }

  lemma {:induction false} RightPart(s: string) returns (j: nat)
    ensures j <= |s| && TrimRight(s) == s[..j] && Spaces(s[j..])
    ensures j > 0 ==> s[j - 1] != ' '
  {
    j := |s|;
    if s != "" && s[|s| - 1] == ' ' {
      var init := s[..|s| - 1];
      j := RightPart(init);
      assert init[..j] == s[..j];
      forall k | 0 <= k < |s| - j ensures s[j..][k] == ' ' {
        assert k < |s| - j - 1 ==> s[j..][k] == init[j..][k];
      }
    }
  }

  /** One character of a key. */
  function Capital(c: char): char {
    if 'a' <= c <= 'z' then (c as int - 'a' as int + 'A' as int) as char else c
  }

  /** A key is the text between its outer spaces, in capitals. */
  lemma KeyShape(s: string) returns (i: nat, j: nat)
    ensures i <= j <= |s| && Spaces(s[..i]) && Spaces(s[j..])
    ensures i < j ==> s[i] != ' ' && s[j - 1] != ' '
    ensures |Key(s)| == j - i && forall k :: 0 <= k < j - i ==> Key(s)[k] == Capital(s[i + k])
    ensures Trim(s) == s[i..j]
  {
    i := LeftPart(s);
    var k := RightPart(s[i..]);
    j := i + k;
    assert s[i..][..k] == s[i..j];
    assert s[i..][k..] == s[j..];
  }

  lemma BlankExactly(s: Option<string>)
    ensures Blank(s) <==> NullOrSpaces(s)
  {
    hide Trim;
    if s.Some? {
      var i, j := KeyShape(s.value);
      if i == j {
        forall k | 0 <= k < |s.value| ensures s.value[k] == ' ' {
          assert if k < i then s.value[..i][k] == ' ' else s.value[j..][k - j] == ' ';
        }
      }
    }
  }

  // ---------- Years as text ----------

  /** The digits of a number, without leading zeros. */
  predicate Digits(s: string, n: nat) {
    s != "" && Text.AllDigits(s) && Text.Value(s) == n && (s[0] == '0' ==> |s| == 1)
  }

  predicate ReadsAs(text: string, year: int) {
    if year >= 0 then Digits(text, year) else text != "" && text[0] == '-' && Digits(text[1..], -year)
  }

  lemma {:induction false} DecimalHasDigits(n: nat)
    ensures Digits(Text.Decimal(n), n)
    ensures n > 0 ==> Text.Decimal(n)[0] != '0'
  {
    Text.ValueOfDecimal(n);
    if n >= 10 {
      DecimalHasDigits(n / 10);
      assert Text.Decimal(n)[0] == Text.Decimal(n / 10)[0];
    }
  }

  lemma {:induction false} DigitsAreDecimal(s: string, n: nat)
    requires Digits(s, n)
    ensures s == Text.Decimal(n)
  {
    var init, last := s[..|s| - 1], s[|s| - 1];
    assert last in s && s == init + [last];
    var digit := last as int - '0' as int;
    assert Text.Digit(digit) == last;
    if |s| == 1 {
      assert Text.Value(init) == 0;
    } else {
      forall c | c in init ensures Text.IsDigit(c) {
        assert c in s;
      }
      assert init[0] == s[0];
      DigitsAreDecimal(init, Text.Value(init));
      DecimalHasDigits(Text.Value(init));
      assert Text.Decimal(0)[0] == '0';
      assert n / 10 == Text.Value(init) && n % 10 == digit;
    }
  }

  lemma YearReadsAs(text: string, year: int)
    ensures ReadsAs(text, year) <==> text == YearText(year)
  {
    var n: nat := if year >= 0 then year else -year;
    DecimalHasDigits(n);
    if year >= 0 {
      if Digits(text, n) {
        DigitsAreDecimal(text, n);
      }
    } else {
      assert ("-" + Text.Decimal(n))[1..] == Text.Decimal(n);
      if ReadsAs(text, year) {
        DigitsAreDecimal(text[1..], n);
        assert text == "-" + text[1..];
      }
    }
  }

  // ---------- Payments ----------

  predicate LacksOnlyYear(p: Payment) {
    && p.orNumber.Some? && !Spaces(p.orNumber.value) && NullOrSpaces(p.taxYear) && p.datePaid.Some?
  }

  predicate LacksSomething(p: Payment) {
    NullOrSpaces(p.orNumber) || NullOrSpaces(p.taxYear) || p.datePaid.None?
  }

  /** The payment has an allocation, and all of its allocations are of the year. */
  predicate OneYear(s: Store, paymentId: int, year: int) {
    && (exists k :: 0 <= k < |s.allocations| && s.allocations[k].paymentId == paymentId)
    && forall k :: 0 <= k < |s.allocations| && s.allocations[k].paymentId == paymentId ==>
         s.allocations[k].taxYear == year
  }

  /** A different payment has the property, the receipt number, the year and the day. */
  predicate Taken(s: Store, p: Payment, year: string)
    requires p.orNumber.Some? && p.datePaid.Some?
  {
    exists j :: 0 <= j < |s.payments| && TakenBy(s.payments[j], p, year)
  }

  predicate TakenBy(q: Payment, p: Payment, year: string)
    requires p.orNumber.Some? && p.datePaid.Some?
  {
    && q.id != p.id && q.propertyId == p.propertyId
    && q.orNumber.Some? && Key(q.orNumber.value) == Key(p.orNumber.value)
    && q.taxYear.Some? && Key(q.taxYear.value) == year
    && q.datePaid.Some? && q.datePaid.value.day == p.datePaid.value.day
  }

  lemma {:induction false} MinimumIsAYear(s: Store, paymentId: int, n: nat)
    requires n <= |s.allocations|
    ensures MinimumYear(s, paymentId, n).None? <==>
      forall k :: 0 <= k < n ==> s.allocations[k].paymentId != paymentId
    ensures MinimumYear(s, paymentId, n).Some? ==>
      exists k :: 0 <= k < n && s.allocations[k].paymentId == paymentId
        && s.allocations[k].taxYear == MinimumYear(s, paymentId, n).value
  {
    if n > 0 {
      MinimumIsAYear(s, paymentId, n - 1);
    }
  }

  lemma SingleElement<T>(s: set<T>, x: T)
    requires x in s
    ensures |s| == 1 <==> s == {x}
  {
    if |s| == 1 {
      var rest := s - {x};
      assert s == rest + {x};
      assert |rest| == 0;
    }
  }

  lemma YearsAreOne(s: Store, paymentId: int, k: nat)
    requires k < |s.allocations| && s.allocations[k].paymentId == paymentId
    ensures |AllocationYears(s, paymentId)| == 1 <==> OneYear(s, paymentId, s.allocations[k].taxYear)
  {
    var years, year := AllocationYears(s, paymentId), s.allocations[k].taxYear;
    SingleElement(years, year);
    if years == {year} {
      forall j | 0 <= j < |s.allocations| && s.allocations[j].paymentId == paymentId
        ensures s.allocations[j].taxYear == year
      {
        assert s.allocations[j].taxYear in years;
      }
    }
    if OneYear(s, paymentId, year) {
      assert years == {year};
    }
  }

  /** A payment can be decided exactly when it lacks only its year and its allocations are of one year. */
  lemma DeterministicExactly(s: Store, p: Payment)
    ensures Deterministic(s, p) <==> LacksOnlyYear(p) && exists year :: OneYear(s, p.id, year)
    ensures forall year :: Deterministic(s, p) && OneYear(s, p.id, year) ==> NewTaxYear(s, p) == YearText(year)
  {
    hide Blank, AllocationYears, YearText;
    BlankExactly(p.orNumber);
    BlankExactly(p.taxYear);
    MinimumIsAYear(s, p.id, |s.allocations|);
    CountZero(s.allocations, (a: Allocation) => a.paymentId == p.id);
    if k: nat :| k < |s.allocations| && s.allocations[k].paymentId == p.id {
      YearsAreOne(s, p.id, k);
    }
  }

  lemma CollisionsExactly(s: Store, p: Payment, year: int)
    requires Deterministic(s, p) && OneYear(s, p.id, year)
    ensures p.orNumber.Some? && p.datePaid.Some?
    ensures CollisionCount(s, p) == 0 <==> !Taken(s, p, YearText(year))
  {
    hide Deterministic, Key, OneYear, YearText, NewTaxYear;
    DecidedParts(s, p);
    DeterministicExactly(s, p);
    YearIsItsKey(year);
    CountZero(s.payments, (other: Payment) => CollidesWith(s, p, NewTaxYear(s, p), other));
    forall j | 0 <= j < |s.payments|
      ensures CollidesWith(s, p, NewTaxYear(s, p), s.payments[j]) <==> TakenBy(s.payments[j], p, YearText(year))
    {
    }
  }

  lemma DecidedParts(s: Store, p: Payment)
    requires Deterministic(s, p)
    ensures p.orNumber.Some? && p.datePaid.Some? && Incomplete(p)
  {
  }

  predicate PlansPayment(s: Store, i: nat, c: PaymentChange)
    requires i < |s.payments|
  {
    var p := s.payments[i];
    Incomplete(p) && Repairable(s, p) && c == PaymentChange(p.id, NewTaxYear(s, p))
  }

  lemma {:induction false} InPaymentChanges(s: Store, n: nat, c: PaymentChange)
    requires n <= |s.payments|
    ensures c in PaymentChanges(s, n) <==> exists i: nat :: i < n && PlansPayment(s, i, c)
  {
    hide Incomplete, Repairable, NewTaxYear;
    if n > 0 {
      InPaymentChanges(s, n - 1, c);
      if PlansPayment(s, n - 1, c) {
        assert c in PaymentChanges(s, n);
      }
    }
  }

  predicate BlocksPayment(s: Store, i: nat, b: Blocker)
    requires i < |s.payments|
  {
    var p := s.payments[i];
    && Incomplete(p)
    && if !Deterministic(s, p) then b == AmbiguousIncompletePaymentIdentity(p.id)
       else CollisionCount(s, p) != 0 && b == PaymentIdentityCollision(p.id)
  }

  lemma {:induction false} InPaymentBlockers(s: Store, n: nat, b: Blocker)
    requires n <= |s.payments|
    ensures b in PaymentBlockers(s, n) <==> exists i: nat :: i < n && BlocksPayment(s, i, b)
  {
    hide Incomplete, Deterministic, CollisionCount;
    if n > 0 {
      InPaymentBlockers(s, n - 1, b);
      if BlocksPayment(s, n - 1, b) {
        assert b in PaymentBlockers(s, n);
      }
    }
  }

  lemma OtherRow(s: Store, i: nat, j: nat)
    requires ValidStore(s) && i < |s.payments| && j < |s.payments| && i != j
    ensures s.payments[i].id != s.payments[j].id
  {
    hide UniqueIdentity;
    assert if i < j then s.payments[i].id != s.payments[j].id else s.payments[j].id != s.payments[i].id;
  }

  lemma YearIsOne(s: Store, paymentId: int, a: int, b: int)
    requires OneYear(s, paymentId, a) && OneYear(s, paymentId, b)
    ensures a == b
  {
  }

  /**
   * A tax year is planned for a payment exactly when the payment lacks only its year, has
   * allocations, all of that year, and no other payment has the identity; the text is the year.
   */
  lemma PaymentPlannedExactly(s: Store, i: nat, text: string)
    requires ValidStore(s) && i < |s.payments|
    ensures var p := s.payments[i];
      PaymentChange(p.id, text) in BuildPlan(s).payments <==>
      LacksOnlyYear(p) && (exists year :: OneYear(s, p.id, year) && ReadsAs(text, year)) && !Taken(s, p, text)
  {
    hide ValidStore, Deterministic, CollisionCount, OneYear, ReadsAs, Taken, YearText, LacksOnlyYear, Incomplete,
         NewTaxYear;
    var p := s.payments[i];
    var c := PaymentChange(p.id, text);
    InPaymentChanges(s, |s.payments|, c);
    forall j: nat | j < |s.payments| && PlansPayment(s, j, c) ensures j == i {
      if j != i {
        OtherRow(s, i, j);
      }
    }
    assert c in BuildPlan(s).payments <==> PlansPayment(s, i, c);
    DeterministicExactly(s, p);
    if year :| LacksOnlyYear(p) && OneYear(s, p.id, year) {
      DecidedParts(s, p);
      CollisionsExactly(s, p, year);
      YearReadsAs(text, year);
      forall other | OneYear(s, p.id, other) ensures other == year {
        YearIsOne(s, p.id, year, other);
      }
    }
  }

  /** An incomplete payment that is not planned blocks the plan, for the reason that applies. */
  lemma PaymentBlockedExactly(s: Store, i: nat)
    requires ValidStore(s) && i < |s.payments|
    ensures var p := s.payments[i];
      && (AmbiguousIncompletePaymentIdentity(p.id) in BuildPlan(s).blockers <==>
            LacksSomething(p) && !(LacksOnlyYear(p) && exists year :: OneYear(s, p.id, year)))
      && (PaymentIdentityCollision(p.id) in BuildPlan(s).blockers <==>
            LacksOnlyYear(p)
            && exists year, text :: OneYear(s, p.id, year) && ReadsAs(text, year) && Taken(s, p, text))
  {
    hide ValidStore, Deterministic, CollisionCount, OneYear, ReadsAs, Taken, YearText, LacksOnlyYear, NewTaxYear, Blank;
    var p := s.payments[i];
    var ambiguous, collision := AmbiguousIncompletePaymentIdentity(p.id), PaymentIdentityCollision(p.id);
    InPaymentBlockers(s, |s.payments|, ambiguous);
    InPaymentBlockers(s, |s.payments|, collision);
    forall j: nat, b | j < |s.payments| && BlocksPayment(s, j, b) && b in {ambiguous, collision} ensures j == i {
      if j != i {
        OtherRow(s, i, j);
      }
    }
    BillingBlockersOnly(s, |s.billings|);
    assert ambiguous in BuildPlan(s).blockers <==> BlocksPayment(s, i, ambiguous);
    assert collision in BuildPlan(s).blockers <==> BlocksPayment(s, i, collision);
    BlankExactly(p.orNumber);
    BlankExactly(p.taxYear);
    DeterministicExactly(s, p);
    if year :| LacksOnlyYear(p) && OneYear(s, p.id, year) {
      DecidedParts(s, p);
      CollisionsExactly(s, p, year);
      YearReadsAs(YearText(year), year);
      forall other, text | OneYear(s, p.id, other) && ReadsAs(text, other) ensures text == YearText(year) {
        YearIsOne(s, p.id, year, other);
        YearReadsAs(text, year);
      }
    }
  }

  lemma {:induction false} BillingBlockersOnly(s: Store, n: nat)
    requires n <= |s.billings|
    ensures forall b :: b in BillingBlockers(s, n) ==> b.AmbiguousBillingChargeSummary?
  {
    hide ChargeMismatch, Ambiguous;
    if n > 0 {
      BillingBlockersOnly(s, n - 1);
    }
  }

  // ---------- Billings ----------

  predicate PaysTo(s: Store, paymentId: int, billingId: int) {
    exists k :: 0 <= k < |s.allocations|
      && s.allocations[k].paymentId == paymentId && s.allocations[k].billingId == billingId
  }

  /** Some payment that exists has an allocation to the billing. */
  predicate IsPaid(s: Store, billingId: int) {
    exists i :: 0 <= i < |s.payments| && PaysTo(s, s.payments[i].id, billingId)
  }

  /** No payment of the billing has a second allocation, to it or to another billing. */
  predicate SingleLinks(s: Store, billingId: int) {
    forall k, m | 0 <= k < |s.allocations| && 0 <= m < |s.allocations| && k != m ::
      s.allocations[k].billingId == billingId && HasPayment(s.payments, s.allocations[k].paymentId) ==>
      s.allocations[m].paymentId != s.allocations[k].paymentId
  }

  /** The charge summed over the payments of a billing. */
  function PaidTo(s: Store, billingId: int, charge: Payment -> int): int {
    SumBy(s.payments, (p: Payment) => if PaysTo(s, p.id, billingId) then charge(p) else 0)
  }

  /** No other allocation is of the same payment. */
  predicate OnlyLink(s: Store, k: int)
    requires 0 <= k < |s.allocations|
  {
    forall m :: 0 <= m < |s.allocations| && m != k ==> s.allocations[m].paymentId != s.allocations[k].paymentId
  }

  lemma OneLink(s: Store, k: nat)
    requires k < |s.allocations|
    ensures LinkCount(s, s.allocations[k].paymentId) == 1 <==> OnlyLink(s, k)
  {
    var own := (a: Allocation) => a.paymentId == s.allocations[k].paymentId;
    if LinkCount(s, s.allocations[k].paymentId) == 1 {
      forall m | 0 <= m < |s.allocations| && m != k ensures s.allocations[m].paymentId != s.allocations[k].paymentId {
        if own(s.allocations[m]) {
          CountOneIsUnique(s.allocations, own, k, m);
        }
      }
    } else if OnlyLink(s, k) {
      CountSingle(s.allocations, own, k);
    }
  }

  lemma PaidIsLinked(s: Store, billingId: int)
    ensures Linked(s, billingId) <==> IsPaid(s, billingId)
  {
    if Linked(s, billingId) {
      var k :| 0 <= k < |s.allocations| && Links(s, s.allocations[k], billingId);
      var i :| 0 <= i < |s.payments| && s.payments[i].id == s.allocations[k].paymentId;
      assert PaysTo(s, s.payments[i].id, billingId);
    }
    if IsPaid(s, billingId) {
      var i :| 0 <= i < |s.payments| && PaysTo(s, s.payments[i].id, billingId);
      var k :| 0 <= k < |s.allocations|
        && s.allocations[k].paymentId == s.payments[i].id && s.allocations[k].billingId == billingId;
      assert Links(s, s.allocations[k], billingId);
    }
  }

  lemma UnambiguousExactly(s: Store, billingId: int)
    requires Linked(s, billingId)
    ensures !Ambiguous(s, billingId) <==> SingleLinks(s, billingId)
  {
    hide Ambiguous, LinkCount, HasPayment, OnlyLink, SingleLinks, Linked;
    UnambiguousMeansSingleLinks(s, billingId);
    SingleByLink(s, billingId);
    forall k: nat | k < |s.allocations|
      ensures LinkCount(s, s.allocations[k].paymentId) == 1 <==> OnlyLink(s, k)
    {
      OneLink(s, k);
    }
  }

  lemma SingleByLink(s: Store, billingId: int)
    ensures SingleLinks(s, billingId) <==>
      forall k :: 0 <= k < |s.allocations| && Links(s, s.allocations[k], billingId) ==> OnlyLink(s, k)
  {
    hide HasPayment;
  }

  function PaidCell(billingId: int, charge: Payment -> int): (Allocation, Payment) -> int {
    (a: Allocation, p: Payment) => if a.billingId == billingId && p.id == a.paymentId then charge(p) else 0
  }

  lemma PaidRow(s: Store, billingId: int, charge: Payment -> int, a: Allocation)
    ensures RowSum(s.payments, PaidCell(billingId, charge))(a)
         == if a.billingId == billingId then ChargeOf(s.payments, a.paymentId, charge) else 0
  {
    var f := PaidCell(billingId, charge);
    if a.billingId == billingId {
      RowSumIs(s.payments, f, a, (p: Payment) => if p.id == a.paymentId then charge(p) else 0);
    } else {
      RowSumIs(s.payments, f, a, (p: Payment) => 0);
      SumZero(s.payments, (p: Payment) => 0);
    }
  }

  lemma PaidColumn(s: Store, billingId: int, charge: Payment -> int, i: nat)
    requires SingleLinks(s, billingId) && i < |s.payments|
    ensures var p := s.payments[i];
      ColumnSum(s.allocations, PaidCell(billingId, charge))(p) == if PaysTo(s, p.id, billingId) then charge(p) else 0
  {
    var f, p := PaidCell(billingId, charge), s.payments[i];
    assert HasPayment(s.payments, p.id);
    if PaysTo(s, p.id, billingId) {
      var k :| 0 <= k < |s.allocations|
        && s.allocations[k].paymentId == p.id && s.allocations[k].billingId == billingId;
      ColumnSumIs(s.allocations, f, p, (a: Allocation) => f(a, p));
      SumSingle(s.allocations, (a: Allocation) => f(a, p), k);
    } else {
      ColumnSumIs(s.allocations, f, p, (a: Allocation) => 0);
      SumZero(s.allocations, (a: Allocation) => 0);
    }
  }

  /** Without second allocations, the sum over the joined rows is the sum over the payments. */
  lemma LinkedIsPaid(s: Store, billingId: int, charge: Payment -> int)
    requires SingleLinks(s, billingId)
    ensures LinkedCharge(s, billingId, charge) == PaidTo(s, billingId, charge)
  {
    hide SingleLinks, PaysTo, RowSum, ColumnSum, PaidCell, ChargeOf;
    var f := PaidCell(billingId, charge);
    forall k | 0 <= k < |s.allocations| {
      PaidRow(s, billingId, charge, s.allocations[k]);
    }
    SumAgrees(s.allocations,
              (a: Allocation) => if a.billingId == billingId then ChargeOf(s.payments, a.paymentId, charge) else 0,
              s.allocations, RowSum(s.payments, f));
    SumExchange(s.allocations, s.payments, f);
    forall i | 0 <= i < |s.payments| {
      PaidColumn(s, billingId, charge, i);
    }
    SumAgrees(s.payments, ColumnSum(s.allocations, f),
              s.payments, (p: Payment) => if PaysTo(s, p.id, billingId) then charge(p) else 0);
  }

  /** The penalties of the payments of a billing. */
  function PaidPenalty(s: Store, billingId: int): int {
    SumBy(s.payments, (p: Payment) => if PaysTo(s, p.id, billingId) && p.penalty.Some? then p.penalty.value else 0)
  }

  /** The discounts of the payments of a billing. */
  function PaidDiscount(s: Store, billingId: int): int {
    SumBy(s.payments, (p: Payment) => if PaysTo(s, p.id, billingId) && p.discount.Some? then p.discount.value else 0)
  }

  lemma PaidSums(s: Store, billingId: int)
    requires SingleLinks(s, billingId)
    ensures LinkedPenalty(s, billingId) == PaidPenalty(s, billingId)
    ensures LinkedDiscount(s, billingId) == PaidDiscount(s, billingId)
  {
    hide SingleLinks, PaysTo, LinkedCharge;
    LinkedIsPaid(s, billingId, Penalty);
    LinkedIsPaid(s, billingId, Discount);
    PaidBy(s, billingId, Penalty,
           (p: Payment) => if PaysTo(s, p.id, billingId) && p.penalty.Some? then p.penalty.value else 0);
    PaidBy(s, billingId, Discount,
           (p: Payment) => if PaysTo(s, p.id, billingId) && p.discount.Some? then p.discount.value else 0);
  }

  lemma PaidBy(s: Store, billingId: int, charge: Payment -> int, f: Payment -> int)
    requires forall p :: f(p) == if PaysTo(s, p.id, billingId) then charge(p) else 0
    ensures PaidTo(s, billingId, charge) == SumBy(s.payments, f)
  {
    hide PaysTo;
    SumAgrees(s.payments, (p: Payment) => if PaysTo(s, p.id, billingId) then charge(p) else 0, s.payments, f);
  }

  predicate PlansBilling(s: Store, i: nat, c: BillingChange)
    requires i < |s.billings|
  {
    var b := s.billings[i];
    ChargeMismatch(s, b) && !Ambiguous(s, b.id) && c == ChangeOfBilling(s, b)
  }

  lemma {:induction false} InBillingChanges(s: Store, n: nat, c: BillingChange)
    requires n <= |s.billings|
    ensures c in BillingChanges(s, n) <==> exists i: nat :: i < n && PlansBilling(s, i, c)
  {
    hide ChargeMismatch, Ambiguous, ChangeOfBilling;
    if n > 0 {
      InBillingChanges(s, n - 1, c);
      if PlansBilling(s, n - 1, c) {
        assert c in BillingChanges(s, n);
      }
    }
  }

  lemma OtherBilling(s: Store, i: nat, j: nat)
    requires ValidStore(s) && i < |s.billings| && j < |s.billings| && i != j
    ensures s.billings[i].id != s.billings[j].id
  {
    hide UniqueIdentity;
    assert if i < j then s.billings[i].id != s.billings[j].id else s.billings[j].id != s.billings[i].id;
  }

  /**
   * New charges are planned for a billing exactly when it is paid, each of its payments has a single
   * allocation, and its charges are not the sums over its payments; the change replaces them by
   * these sums.
   */
  lemma BillingPlannedExactly(s: Store, i: nat, c: BillingChange)
    requires ValidStore(s) && i < |s.billings| && c.billingId == s.billings[i].id
    ensures var b := s.billings[i];
      var penalty, discount := PaidPenalty(s, b.id), PaidDiscount(s, b.id);
      c in BuildPlan(s).billings <==>
      && IsPaid(s, b.id) && SingleLinks(s, b.id) && (b.penalty != penalty || b.discount != discount)
      && c == BillingChange(b.id, b.penalty, penalty, b.discount, discount)
  {
    hide ValidStore, Ambiguous, IsPaid, SingleLinks, PaidPenalty, PaidDiscount, LinkedPenalty, LinkedDiscount, Linked;
    var b := s.billings[i];
    InBillingChanges(s, |s.billings|, c);
    forall j: nat | j < |s.billings| && PlansBilling(s, j, c) ensures j == i {
      if j != i {
        OtherBilling(s, i, j);
      }
    }
    assert c in BuildPlan(s).billings <==> PlansBilling(s, i, c);
    PaidIsLinked(s, b.id);
    if Linked(s, b.id) {
      UnambiguousExactly(s, b.id);
    }
    if SingleLinks(s, b.id) {
      PaidSums(s, b.id);
    }
  }

  // ---------- Receipts ----------

  predicate PlansReceipt(s: Store, i: nat, c: ReceiptChange)
    requires i < |s.receipts|
  {
    Dangling(s, s.receipts[i]) && c == ReceiptChange(s.receipts[i].id, s.receipts[i].paymentId.value)
  }

  lemma {:induction false} InReceiptChanges(s: Store, n: nat, c: ReceiptChange)
    requires n <= |s.receipts|
    ensures c in ReceiptChanges(s, n) <==> exists i: nat :: i < n && PlansReceipt(s, i, c)
  {
    hide HasPayment;
    if n > 0 {
      InReceiptChanges(s, n - 1, c);
      if PlansReceipt(s, n - 1, c) {
        assert c in ReceiptChanges(s, n);
      }
    }
  }

  lemma OtherReceipt(s: Store, i: nat, j: nat)
    requires ValidStore(s) && i < |s.receipts| && j < |s.receipts| && i != j
    ensures s.receipts[i].id != s.receipts[j].id
  {
    hide UniqueIdentity;
    assert if i < j then s.receipts[i].id != s.receipts[j].id else s.receipts[j].id != s.receipts[i].id;
  }

  /** A receipt's reference is to be cleared exactly when it names a payment that no row has. */
  lemma ReceiptPlannedExactly(s: Store, i: nat, paymentId: int)
    requires ValidStore(s) && i < |s.receipts|
    ensures var r := s.receipts[i];
      ReceiptChange(r.id, paymentId) in BuildPlan(s).receipts <==>
      r.paymentId == Some(paymentId) && forall j :: 0 <= j < |s.payments| ==> s.payments[j].id != paymentId
  {
    hide ValidStore;
    var c := ReceiptChange(s.receipts[i].id, paymentId);
    InReceiptChanges(s, |s.receipts|, c);
    forall j: nat | j < |s.receipts| && PlansReceipt(s, j, c) ensures j == i {
      if j != i {
        OtherReceipt(s, i, j);
      }
    }
    assert c in BuildPlan(s).receipts <==> PlansReceipt(s, i, c);
  }

  // ---------- The repaired rows ----------

  /** A repaired payment takes the planned year and keeps everything else; the others keep everything. */
  lemma PaymentFollowsPlan(s: Store, i: nat)
    requires ValidStore(s) && i < |s.payments|
    ensures |Repaired(s).payments| == |s.payments|
    ensures var p, after := s.payments[i], Repaired(s).payments[i];
      && (forall c :: c in BuildPlan(s).payments && c.paymentId == p.id ==> after == p.(taxYear := Some(c.newTaxYear)))
      && (after == p || PaymentChange(p.id, after.taxYear.GetOr("")) in BuildPlan(s).payments)
  {
    hide ValidStore, Incomplete, Repairable, NewTaxYear;
    SizesKept(s);
    var p := s.payments[i];
    assert Repaired(s).payments[i] == RepairedPayment(s, p);
    forall c | c in BuildPlan(s).payments && c.paymentId == p.id
      ensures Repaired(s).payments[i] == p.(taxYear := Some(c.newTaxYear))
    {
      InPaymentChanges(s, |s.payments|, c);
      var j: nat :| j < |s.payments| && PlansPayment(s, j, c);
      if j != i {
        OtherRow(s, i, j);
      }
    }
    if Incomplete(p) && Repairable(s, p) {
      RepairableIsDeterministic(s, p);
      InPaymentChanges(s, |s.payments|, PaymentChange(p.id, NewTaxYear(s, p)));
      assert PlansPayment(s, i, PaymentChange(p.id, NewTaxYear(s, p)));
    }
  }

  lemma BillingFollowsPlan(s: Store, i: nat)
    requires ValidStore(s) && i < |s.billings|
    ensures |Repaired(s).billings| == |s.billings|
    ensures var b, after := s.billings[i], Repaired(s).billings[i];
      && (forall c :: c in BuildPlan(s).billings && c.billingId == b.id ==>
            after == b.(penalty := c.newPenalty, discount := c.newDiscount))
      && (after == b ||
          BillingChange(b.id, b.penalty, after.penalty, b.discount, after.discount) in BuildPlan(s).billings)
  {
    hide ValidStore, ChargeMismatch, Ambiguous, LinkedPenalty, LinkedDiscount;
    SizesKept(s);
    var b := s.billings[i];
    assert Repaired(s).billings[i] == RepairedBilling(s, b);
    forall c | c in BuildPlan(s).billings && c.billingId == b.id
      ensures Repaired(s).billings[i] == b.(penalty := c.newPenalty, discount := c.newDiscount)
    {
      InBillingChanges(s, |s.billings|, c);
      var j: nat :| j < |s.billings| && PlansBilling(s, j, c);
      if j != i {
        OtherBilling(s, i, j);
      }
    }
    if ChargeMismatch(s, b) && !Ambiguous(s, b.id) {
      InBillingChanges(s, |s.billings|, ChangeOfBilling(s, b));
      assert PlansBilling(s, i, ChangeOfBilling(s, b));
    }
  }

  lemma ReceiptFollowsPlan(s: Store, i: nat)
    requires ValidStore(s) && i < |s.receipts|
    ensures |Repaired(s).receipts| == |s.receipts|
    ensures var r, after := s.receipts[i], Repaired(s).receipts[i];
      && (forall c :: c in BuildPlan(s).receipts && c.receiptId == r.id ==> after == r.(paymentId := None))
      && (after == r ||
          (r.paymentId.Some? && ReceiptChange(r.id, r.paymentId.value) in BuildPlan(s).receipts))
  {
    hide ValidStore, HasPayment;
    SizesKept(s);
    var r := s.receipts[i];
    assert Repaired(s).receipts[i] == RepairedReceipt(s, r);
    forall c | c in BuildPlan(s).receipts && c.receiptId == r.id
      ensures Repaired(s).receipts[i] == r.(paymentId := None)
    {
      InReceiptChanges(s, |s.receipts|, c);
      var j: nat :| j < |s.receipts| && PlansReceipt(s, j, c);
      if j != i {
        OtherReceipt(s, i, j);
      }
    }
    if Dangling(s, r) {
      InReceiptChanges(s, |s.receipts|, ReceiptChange(r.id, r.paymentId.value));
      assert PlansReceipt(s, i, ReceiptChange(r.id, r.paymentId.value));
    }
  }

  // ---------- The audit events ----------

  /** The event tells the charges of the billing before and after. */
  predicate TellsBilling(before: Store, after: Store, e: AuditChain.Payload, i: nat) {
    && i < |before.billings| == |after.billings| && e.table == AuditChain.PropertyBillings
    && e.record == Some(before.billings[i].id)
    && e.oldValues == AuditChain.Charges(before.billings[i].penalty, before.billings[i].discount)
    && e.newValues == AuditChain.Charges(after.billings[i].penalty, after.billings[i].discount)
  }

  /** The event tells the new tax year of the payment, and no old one, even where the row held spaces. */
  predicate TellsPayment(before: Store, after: Store, e: AuditChain.Payload, i: nat) {
    && i < |before.payments| == |after.payments| && e.table == AuditChain.Payments
    && e.record == Some(before.payments[i].id) && NullOrSpaces(before.payments[i].taxYear)
    && e.oldValues == AuditChain.TaxYear(None) && e.newValues == AuditChain.TaxYear(after.payments[i].taxYear)
  }

  /** The event tells the payment that the receipt named, and that it names none now. */
  predicate TellsReceipt(before: Store, after: Store, e: AuditChain.Payload, i: nat) {
    && i < |before.receipts| == |after.receipts| && e.table == AuditChain.ReceiptHistory
    && e.record == Some(before.receipts[i].id)
    && e.oldValues == AuditChain.PaymentReference(before.receipts[i].paymentId)
    && e.newValues == AuditChain.PaymentReference(after.receipts[i].paymentId)
  }

  ghost predicate TellsOf(before: Store, after: Store, e: AuditChain.Payload) {
    || (exists i: nat :: TellsBilling(before, after, e, i))
    || (exists i: nat :: TellsPayment(before, after, e, i))
    || (exists i: nat :: TellsReceipt(before, after, e, i))
  }

  lemma BillingIsTold(s: Store, c: BillingChange, uuid: nat, time: int)
    requires ValidStore(s) && c in BuildPlan(s).billings
    ensures TellsOf(s, Repaired(s), BillingEvent(c, uuid, time))
  {
    hide ValidStore, ChargeMismatch, Ambiguous, Repaired;
    InBillingChanges(s, |s.billings|, c);
    var i: nat :| i < |s.billings| && PlansBilling(s, i, c);
    BillingFollowsPlan(s, i);
    assert TellsBilling(s, Repaired(s), BillingEvent(c, uuid, time), i);
  }

  lemma PaymentIsTold(s: Store, c: PaymentChange, uuid: nat, time: int)
    requires ValidStore(s) && c in BuildPlan(s).payments
    ensures TellsOf(s, Repaired(s), PaymentEvent(c, uuid, time))
  {
    hide ValidStore, Repaired, NewTaxYear, Blank;
    InPaymentChanges(s, |s.payments|, c);
    var i: nat :| i < |s.payments| && PlansPayment(s, i, c);
    PaymentFollowsPlan(s, i);
    BlankExactly(s.payments[i].taxYear);
    assert TellsPayment(s, Repaired(s), PaymentEvent(c, uuid, time), i);
  }

  lemma ReceiptIsTold(s: Store, c: ReceiptChange, uuid: nat, time: int)
    requires ValidStore(s) && c in BuildPlan(s).receipts
    ensures TellsOf(s, Repaired(s), ReceiptEvent(c, uuid, time))
  {
    hide ValidStore, Repaired, HasPayment;
    InReceiptChanges(s, |s.receipts|, c);
    var i: nat :| i < |s.receipts| && PlansReceipt(s, i, c);
    ReceiptFollowsPlan(s, i);
    assert TellsReceipt(s, Repaired(s), ReceiptEvent(c, uuid, time), i);
  }

  /** An event of the repair: live, at the stamped time, with the k-th identifier. */
  predicate RepairEvent(e: AuditChain.Payload, uuid: nat, time: int) {
    && e.action == AuditChain.Phase6Reconciliation && e.origin == AuditChain.LIVE
    && e.uuid == uuid && e.time == time
  }

  lemma RecordedPayload(
    before: AuditChain.Log, after: AuditChain.Log, events: seq<AuditChain.Payload>, k: nat)
    requires Recorded(before, after, events) && k < |events|
    ensures |after.rows| == |before.rows| + |events| && after.rows[|before.rows| + k].payload == events[k]
  {
    hide AuditChain.Ready;
  }

  /** Every event of an applied plan tells what its row held before and what it holds after. */
  lemma EventsTellRows(db: Db, stamp: Stamp, k: nat)
    requires ValidStore(db.store) && BuildPlan(db.store).Ready() && k < BuildPlan(db.store).ChangeCount()
    requires ApplyPlan(db, BuildPlan(db.store), stamp).Ok?
    ensures var after := ApplyPlan(db, BuildPlan(db.store), stamp).value;
      && |after.log.rows| == |db.log.rows| + BuildPlan(db.store).ChangeCount()
      && var e := after.log.rows[|db.log.rows| + k].payload;
         && RepairEvent(e, stamp.base + |db.log.rows| + k, stamp.time) && TellsOf(db.store, after.store, e)
         && e.table == (if k < |BuildPlan(db.store).billings| then AuditChain.PropertyBillings
                        else if k < |BuildPlan(db.store).billings| + |BuildPlan(db.store).payments| then
                          AuditChain.Payments
                        else AuditChain.ReceiptHistory)
  {
    hide ValidStore, BuildPlan, ApplyPlan, Repaired, AuditChain.Ready, TellsOf, HasExactTwins, Recorded;
    PlanApplies(db, stamp);
    var plan, first := BuildPlan(db.store), stamp.base + |db.log.rows|;
    var events := PlanEvents(plan, first, stamp.time);
    var b, p := |plan.billings|, |plan.payments|;
    var after := ApplyPlan(db, plan, stamp).value.log;
    RecordedPayload(db.log, after, events, k);
    assert after.rows[|db.log.rows| + k].payload == events[k];
    if k < b {
      assert events[k] == BillingEvent(plan.billings[k], first + k, stamp.time);
      BillingIsTold(db.store, plan.billings[k], first + k, stamp.time);
    } else if k < b + p {
      assert events[k] == PaymentEvent(plan.payments[k - b], first + k, stamp.time);
      PaymentIsTold(db.store, plan.payments[k - b], first + k, stamp.time);
    } else {
      assert events[k] == ReceiptEvent(plan.receipts[k - b - p], first + k, stamp.time);
      ReceiptIsTold(db.store, plan.receipts[k - b - p], first + k, stamp.time);
    }
  }

  // ---------- Rows that changed since they were planned ----------

  /** At most one row has the id, so at most one is hit. */
  lemma HitsExactly<T(!new)>(rows: seq<T>, id: T -> int, wanted: int, hit: T -> bool)
    requires UniqueIds(rows, id) && forall i :: 0 <= i < |rows| && hit(rows[i]) ==> id(rows[i]) == wanted
    ensures CountBy(rows, hit) == 1 <==> exists i :: 0 <= i < |rows| && hit(rows[i])
  {
    if i :| 0 <= i < |rows| && hit(rows[i]) {
      forall j | 0 <= j < |rows| && j != i ensures !hit(rows[j]) {
        assert if i < j then id(rows[i]) != id(rows[j]) else id(rows[j]) != id(rows[i]);
      }
      CountSingle(rows, hit, i);
    } else {
      CountZero(rows, hit);
    }
  }

  /** A billing change is refused exactly when no row has its id and the charges that were planned from. */
  lemma StaleBilling(db: Db, c: BillingChange, stamp: Stamp)
    requires ValidStore(db.store)
    ensures ApplyBilling(db, c, stamp) == Err(RowChanged) <==>
      forall i :: 0 <= i < |db.store.billings| ==>
        var b := db.store.billings[i];
        b.id != c.billingId || b.penalty != c.oldPenalty || b.discount != c.oldDiscount
    ensures ApplyBilling(db, c, stamp).Ok? ==>
      && |ApplyBilling(db, c, stamp).value.store.billings| == |db.store.billings|
      && forall i :: 0 <= i < |db.store.billings| ==>
           var b := db.store.billings[i];
           ApplyBilling(db, c, stamp).value.store.billings[i] ==
             if b.id == c.billingId then b.(penalty := c.newPenalty, discount := c.newDiscount) else b
  {
    hide UniqueIdentity, AuditChain.Append;
    HitsExactly(db.store.billings, (b: Billing) => b.id, c.billingId, BillingHit(c));
    if k :| 0 <= k < |db.store.billings| && BillingHit(c)(db.store.billings[k]) {
      forall i | 0 <= i < |db.store.billings| && i != k ensures db.store.billings[i].id != c.billingId {
        OtherBilling(db.store, i, k);
      }
    }
  }

  /** A payment change is refused as stale exactly when no row has its id and still lacks a year. */
  lemma StalePayment(db: Db, c: PaymentChange, stamp: Stamp)
    requires ValidStore(db.store)
    ensures ApplyPayment(db, c, stamp) == Err(RowChanged) <==>
      forall i :: 0 <= i < |db.store.payments| ==>
        db.store.payments[i].id != c.paymentId || !NullOrSpaces(db.store.payments[i].taxYear)
    ensures ApplyPayment(db, c, stamp).Ok? ==>
      && |ApplyPayment(db, c, stamp).value.store.payments| == |db.store.payments|
      && forall i :: 0 <= i < |db.store.payments| ==>
           var p := db.store.payments[i];
           ApplyPayment(db, c, stamp).value.store.payments[i] ==
             if p.id == c.paymentId then p.(taxYear := Some(c.newTaxYear)) else p
  {
    hide UniqueIdentity, AuditChain.Append, Blank;
    var rows := UpdateRows(db.store.payments, PaymentHit(c), PaymentSet(c));
    HitsExactly(db.store.payments, (p: Payment) => p.id, c.paymentId, PaymentHit(c));
    forall i | 0 <= i < |db.store.payments|
      ensures PaymentHit(c)(db.store.payments[i]) <==>
        db.store.payments[i].id == c.paymentId && NullOrSpaces(db.store.payments[i].taxYear)
    {
      BlankExactly(db.store.payments[i].taxYear);
    }
    if k :| 0 <= k < |db.store.payments| && PaymentHit(c)(db.store.payments[k]) {
      forall i | 0 <= i < |db.store.payments| && i != k ensures db.store.payments[i].id != c.paymentId {
        OtherRow(db.store, i, k);
      }
    } else {
      assert rows == db.store.payments;
    }
  }

  /** A receipt change is refused exactly when no row has its id and still names the payment. */
  lemma StaleReceipt(db: Db, c: ReceiptChange, stamp: Stamp)
    requires ValidStore(db.store)
    ensures ApplyReceipt(db, c, stamp) == Err(RowChanged) <==>
      forall i :: 0 <= i < |db.store.receipts| ==>
        db.store.receipts[i].id != c.receiptId || db.store.receipts[i].paymentId != Some(c.oldPaymentId)
    ensures ApplyReceipt(db, c, stamp).Ok? ==>
      && |ApplyReceipt(db, c, stamp).value.store.receipts| == |db.store.receipts|
      && forall i :: 0 <= i < |db.store.receipts| ==>
           var r := db.store.receipts[i];
           ApplyReceipt(db, c, stamp).value.store.receipts[i] ==
             if r.id == c.receiptId then r.(paymentId := None) else r
  {
    hide UniqueIdentity, AuditChain.Append;
    HitsExactly(db.store.receipts, (r: Receipt) => r.id, c.receiptId, ReceiptHit(c));
    if k :| 0 <= k < |db.store.receipts| && ReceiptHit(c)(db.store.receipts[k]) {
      forall i | 0 <= i < |db.store.receipts| && i != k ensures db.store.receipts[i].id != c.receiptId {
        OtherReceipt(db.store, i, k);
      }
    }
  }

  // ---------- A blank year that the event does not tell ----------

  /** One payment whose year is a space, with one allocation of 2020. */
  function SpaceYearStore(): Store {
    var p := Payment(1, 1, 100, None, None, Some("A"), Some(" "), Some(DateTime(0, 0)));
    Store([Property(1, None)], [p], [Billing(1, 1, 2020, 100, 0, 0, 100)], [Allocation(1, 1, 1, 2020, 100)], [], [])
  }

  /** The event of a planned payment tells its old year exactly when the row held none. */
  lemma OldYearToldExactly(s: Store, i: nat, text: string, uuid: nat, time: int)
    requires ValidStore(s) && i < |s.payments| && PaymentChange(s.payments[i].id, text) in BuildPlan(s).payments
    ensures NullOrSpaces(s.payments[i].taxYear)
    ensures var e := PaymentEvent(PaymentChange(s.payments[i].id, text), uuid, time);
      e.oldValues == AuditChain.TaxYear(s.payments[i].taxYear) <==> s.payments[i].taxYear.None?
  {
    hide ValidStore, BuildPlan, OneYear, ReadsAs, Taken;
    PaymentPlannedExactly(s, i, text);
  }

  lemma SpaceYearCharges(s: Store)
    requires s == SpaceYearStore()
    ensures !ChargeMismatch(s, s.billings[0])
  {
    forall id: int, charge: Payment -> int | charge == Penalty || charge == Discount
      ensures ChargeOf(s.payments, id, charge) == 0
    {
      SumZero(s.payments, (p: Payment) => if p.id == id then charge(p) else 0);
    }
    SumZero(s.allocations,
            (a: Allocation) => if a.billingId == 1 then ChargeOf(s.payments, a.paymentId, Penalty) else 0);
    SumZero(s.allocations,
            (a: Allocation) => if a.billingId == 1 then ChargeOf(s.payments, a.paymentId, Discount) else 0);
  }

  /** The plan is ready and gives the payment its year; the event will say that it had none. */
  lemma SpaceYearIsPlanned()
    ensures var s := SpaceYearStore();
      && ValidStore(s) && BuildPlan(s).Ready() && s.payments[0].taxYear == Some(" ")
      && PaymentChange(1, YearText(2020)) in BuildPlan(s).payments
  {
    hide ChargeMismatch, YearText, Key, Deterministic, Incomplete, CollisionCount, BuildPlan;
    var s := SpaceYearStore();
    SpaceYearCharges(s);
    var p := s.payments[0];
    assert s.allocations[0].paymentId == p.id && OneYear(s, p.id, 2020);
    assert p.orNumber.value[0] == 'A';
    YearReadsAs(YearText(2020), 2020);
    PaymentPlannedExactly(s, 0, YearText(2020));
    DeterministicExactly(s, p);
    CollisionsExactly(s, p, 2020);
    ReadyMeansUnblocked(s);
  }
}
