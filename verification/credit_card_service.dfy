/**
 * The credit-card service: opening a card, and the account operations
 * that write ledger rows and overwrite the card's available credit.
 * Every amount is worked out from the caller's copy of the card; the
 * stored row is then overwritten by id, and left alone when no row has it.
 */
module CreditCardService {
  import opened Wrappers
  import opened Money
  import opened Calendar
  import opened StatementLedger
  import StatementLedgerService
  import opened CreditCards
  import opened Store
  import FeeService
  import CashbackService
  import Cashback

  datatype ServiceError =
    | Rejected(reason: CardError)
    | DuplicateCard(id: nat)
    | CashbackFailed(error: CashbackService.CashbackError)
    | InvalidAprType(aprType: string)

  // ---------------------------------------------------------------------------
  // The card row updates

  /** Overwrites the available credit of the card with this id, if there is one. */
  function SetAvailableCredit(cards: map<nat, CreditCard>, id: nat, credit: real): (r: map<nat, CreditCard>)
    ensures r.Keys == cards.Keys
    ensures id in cards ==> r[id] == cards[id].(availableCredit := credit)
    ensures forall k :: k in cards && k != id ==> r[k] == cards[k]
  {
    if id in cards then cards[id := cards[id].(availableCredit := credit)] else cards
  }

  /** Records the date and amount of the latest payment on the card with this id, if there is one. */
  function SetLastPayment(cards: map<nat, CreditCard>, id: nat, date: Time, amount: real): (r: map<nat, CreditCard>)
    ensures r.Keys == cards.Keys
    ensures id in cards ==> r[id] == cards[id].(lastPaymentDate := Some(date), lastPaymentAmount := amount)
    ensures forall k :: k in cards && k != id ==> r[k] == cards[k]
  {
    if id in cards then cards[id := cards[id].(lastPaymentDate := Some(date), lastPaymentAmount := amount)] else cards
  }

  /** A pending ledger row of the card's tenant, before it gets its id. */
  function PendingEntry(card: CreditCard, t: EntryType, entryDate: Time, postingDate: Time, amount: real,
                        referenceId: Option<string>, createdBy: Option<string>, now: Time): (e: StatementEntry)
    ensures e.tenantId == card.tenantId && e.entryType == t && e.amount == amount && e.status == Pending
    ensures e.entryDate == entryDate && e.postingDate == postingDate && e.id == 0
  {
    StatementEntry(0, card.tenantId, None, t, entryDate, postingDate, amount, "", referenceId, Pending, None, now, createdBy)
  }

  /** The decimal digits of an id, used where the source stores an id as text. */
  function IdText(n: nat): string
  {
    var digit := "0123456789"[n % 10];
    if n < 10 then [digit] else IdText(n / 10) + [digit]
  }

  // ---------------------------------------------------------------------------
  // Opening a card

  datatype CreateCardRequest = CreateCardRequest(
    tenantId: nat,
    creditLimit: real,
    purchaseApr: real,
    billingCycleType: CycleType,
    billingCycleDay: int)

  /** The new card: the defaults with the request's values, all of the limit available, the first statement date set. */
  function NewCard(req: CreateCardRequest, newId: nat, now: Time): (c: CreditCard)
    ensures c.availableCredit == c.creditLimit == req.creditLimit
    ensures c.status == Active && c.consecutiveLateCount == 0 && c.lastStatementDate == None
    ensures c.nextStatementDate == Some(NextBillingPeriod(c, now).start)
  {
    var card := Defaults().(id := newId, tenantId := req.tenantId, creditLimit := req.creditLimit,
                            availableCredit := req.creditLimit, purchaseApr := req.purchaseApr,
                            billingCycleType := req.billingCycleType, billingCycleDay := req.billingCycleDay,
                            createdAt := now);
    card.(nextStatementDate := Some(NextBillingPeriod(card, now).start))
  }

  /** A valid new card's first statement date is a midnight on its billing day, no earlier than its creation. */
  lemma NewCardStatementDate(req: CreateCardRequest, newId: nat, now: Time)
    requires Validate(NewCard(req, newId, now)) == None
    ensures var c := NewCard(req, newId, now);
      && c.nextStatementDate.value >= now
      && HourOf(c.nextStatementDate.value) == 0
      && DateOf(c.nextStatementDate.value).day == req.billingCycleDay
  {
    NextBillingPeriodSpec(NewCard(req, newId, now), now);
  }

  /**
   * Opens a card: a configuration that fails validation is rejected
   * before anything is stored, and so is an id already in use.
   */
  method CreateCreditCard(db: Database, req: CreateCardRequest, newId: nat, now: Time) returns (r: Result<CreditCard, ServiceError>)
    modifies db`cards
    ensures Validate(NewCard(req, newId, now)).Some? ==> r == Err(Rejected(Validate(NewCard(req, newId, now)).value))
    ensures Validate(NewCard(req, newId, now)).None? && newId in old(db.cards) ==> r == Err(DuplicateCard(newId))
    ensures r.Err? ==> db.cards == old(db.cards)
    ensures r.Ok? ==> r.value == NewCard(req, newId, now) && WellConfigured(r.value)
    ensures r.Ok? ==> newId !in old(db.cards) && db.cards == old(db.cards)[newId := r.value]
  {
    var card := NewCard(req, newId, now);
    var invalid := Validate(card);
    if invalid.Some? {
      return Err(Rejected(invalid.value));
    }
    if newId in db.cards {
      return Err(DuplicateCard(newId));
    }
    db.cards := db.cards[newId := card];
    return Ok(card);
  }

  // ---------------------------------------------------------------------------
  // Purchases

  datatype TransactionRequest = TransactionRequest(
    card: CreditCard,
    amount: real,
    transactionDate: Time,
    postingDate: Time,
    referenceId: string,
    merchantCategory: string,
    isInternational: bool)

  datatype TransactionResult = TransactionResult(
    transactionEntry: StatementEntry,
    internationalFee: Option<FeeService.FeeAssessment>,
    cashbackEntry: Option<Cashback.CashbackEntry>,
    newBalance: real,
    availableCredit: real)

  /** The foreign-transaction fee charged on a purchase: only abroad, only with a positive rate, and only when positive. */
  function ForeignFeeCharged(card: CreditCard, amount: real, isInternational: bool): (fee: real)
    ensures fee >= 0.0
    ensures fee > 0.0 <==> isInternational && card.internationalFeeRate > 0.0 && InternationalFee(card, amount) > 0.0
    ensures fee > 0.0 ==> fee == InternationalFee(card, amount)
  {
    if isInternational && card.internationalFeeRate > 0.0 && InternationalFee(card, amount) > 0.0
    then InternationalFee(card, amount) else 0.0
  }

  /**
   * A purchase that passed the credit check never takes the available
   * credit below zero by itself, but its foreign-transaction fee is not
   * checked and can: spending all the available credit abroad leaves it
   * negative by the fee.
   */
  lemma ForeignFeeCanOverdraw(card: CreditCard, amount: real, isInternational: bool)
    requires HasAvailableCredit(card, amount).None?
    ensures card.availableCredit - amount >= 0.0
    ensures amount == card.availableCredit && ForeignFeeCharged(card, amount, isInternational) > 0.0 ==>
      card.availableCredit - amount - ForeignFeeCharged(card, amount, isInternational) < 0.0
  {
  }

  /** The ledger row of a purchase. */
  function PurchaseEntry(req: TransactionRequest, now: Time): StatementEntry
  {
    PendingEntry(req.card, Transaction, req.transactionDate, req.postingDate, req.amount, Some(req.referenceId), None, now)
  }

  /**
   * Records a purchase. A frozen or closed card, or an amount beyond the
   * available credit, is refused and nothing is written. Otherwise the
   * purchase row is written, then the foreign-transaction fee when it
   * applies, then cashback when the card earns it; a cashback failure
   * stops there, with the rows already written. Finally the available
   * credit falls by the amount and the fee, and the balance reported is
   * the limit less what is available.
   */
  method RecordTransaction(db: Database, req: TransactionRequest, now: Time) returns (r: Result<TransactionResult, ServiceError>)
    modifies db`statement, db`lastId, db`cashback, db`cards
    ensures CanTransact(req.card).Some? ==> r == Err(Rejected(CanTransact(req.card).value))
    ensures CanTransact(req.card).None? && HasAvailableCredit(req.card, req.amount).Some? ==> r == Err(Rejected(InsufficientCredit))
    ensures r.Err? && r.error.Rejected? ==> unchanged(db)
    ensures r.Err? ==> r.error.Rejected? || (r.error.CashbackFailed? && req.card.cashbackEnabled && db.cards == old(db.cards))
    ensures r.Ok? ==> CanTransact(req.card).None? && HasAvailableCredit(req.card, req.amount).None?
    ensures r.Ok? ==> r.value.transactionEntry == PurchaseEntry(req, now).(id := r.value.transactionEntry.id)
    ensures r.Ok? ==> (r.value.internationalFee.Some? <==> ForeignFeeCharged(req.card, req.amount, req.isInternational) > 0.0)
    ensures r.Ok? && r.value.internationalFee.None? ==> db.statement == old(db.statement) + [r.value.transactionEntry]
    ensures r.Ok? && r.value.internationalFee.Some? ==>
      db.statement == old(db.statement) + [r.value.transactionEntry,
        FeeService.FeeEntry(req.card.tenantId, None, FeeInternational, req.transactionDate,
                            ForeignFeeCharged(req.card, req.amount, req.isInternational), Some(req.referenceId), now)
          .(id := r.value.internationalFee.value.entryId)]
    ensures r.Ok? && !req.card.cashbackEnabled ==> r.value.cashbackEntry == None && db.cashback == old(db.cashback)
    ensures r.Ok? && r.value.cashbackEntry.Some? ==> db.cashback == old(db.cashback) + [r.value.cashbackEntry.value]
    ensures r.Ok? && r.value.cashbackEntry.None? ==> db.cashback == old(db.cashback)
    ensures r.Ok? ==>
      r.value.availableCredit == req.card.availableCredit - req.amount - ForeignFeeCharged(req.card, req.amount, req.isInternational)
    ensures r.Ok? ==> r.value.newBalance == req.card.creditLimit - r.value.availableCredit
    ensures r.Ok? ==> db.cards == SetAvailableCredit(old(db.cards), req.card.id, r.value.availableCredit)
  {
    var card := req.card;
    var blocked := CanTransact(card);
    if blocked.Some? {
      return Err(Rejected(blocked.value));
    }
    var short := HasAvailableCredit(card, req.amount);
    if short.Some? {
      return Err(Rejected(short.value));
    }
    var entry := StatementLedgerService.CreateEntry(db, PurchaseEntry(req, now));
    var fee: Option<FeeService.FeeAssessment> := None;
    if req.isInternational && card.internationalFeeRate > 0.0 {
      fee := FeeService.AssessInternationalFee(db, card, req.amount, req.transactionDate, req.referenceId, now);
    }
    var earned: Option<Cashback.CashbackEntry> := None;
    if card.cashbackEnabled {
      var cashback := CashbackService.EarnCashback(db, card.tenantId, card, req.amount, req.transactionDate,
                                                   entry.id, req.merchantCategory, now);
      if cashback.Err? {
        return Err(CashbackFailed(cashback.error));
      }
      earned := cashback.value;
    }
    var totalCharged := req.amount;
    if fee.Some? {
      totalCharged := totalCharged + fee.value.feeAmount;
    }
    var available := card.availableCredit - totalCharged;
    db.cards := SetAvailableCredit(db.cards, card.id, available);
    r := Ok(TransactionResult(entry, fee, earned, card.creditLimit - available, available));
  }

  // ---------------------------------------------------------------------------
  // Cash advances

  datatype CashAdvanceResult = CashAdvanceResult(
    advanceEntry: StatementEntry,
    fee: FeeService.FeeAssessment,
    newBalance: real,
    availableCredit: real)

  /**
   * Records a cash advance: refused like a purchase; otherwise the
   * advance row and the cash-advance fee are always written, and the
   * available credit falls by both.
   */
  method RecordCashAdvance(db: Database, card: CreditCard, amount: real, transactionDate: Time, referenceId: string, now: Time)
    returns (r: Result<CashAdvanceResult, ServiceError>)
    modifies db`statement, db`lastId, db`cards
    ensures CanTransact(card).Some? ==> r == Err(Rejected(CanTransact(card).value))
    ensures CanTransact(card).None? && HasAvailableCredit(card, amount).Some? ==> r == Err(Rejected(InsufficientCredit))
    ensures r.Err? ==> unchanged(db)
    ensures r.Ok? ==> CanTransact(card).None? && HasAvailableCredit(card, amount).None?
    ensures r.Ok? ==> r.value.fee.feeAmount == CashAdvanceFee(card, amount)
    ensures r.Ok? ==>
      db.statement == old(db.statement)
        + [PendingEntry(card, CashAdvance, transactionDate, transactionDate, amount, Some(referenceId), None, now).(id := r.value.advanceEntry.id),
           FeeService.FeeEntry(card.tenantId, None, FeeCashAdvance, transactionDate, CashAdvanceFee(card, amount), Some(referenceId), now)
             .(id := r.value.fee.entryId)]
    ensures r.Ok? ==> r.value.availableCredit == card.availableCredit - amount - CashAdvanceFee(card, amount)
    ensures r.Ok? ==> r.value.newBalance == card.creditLimit - r.value.availableCredit
    ensures r.Ok? ==> db.cards == SetAvailableCredit(old(db.cards), card.id, r.value.availableCredit)
  {
    var blocked := CanTransact(card);
    if blocked.Some? {
      return Err(Rejected(blocked.value));
    }
    var short := HasAvailableCredit(card, amount);
    if short.Some? {
      return Err(Rejected(short.value));
    }
    var entry := StatementLedgerService.CreateEntry(db, PendingEntry(card, CashAdvance, transactionDate, transactionDate, amount, Some(referenceId), None, now));
    var fee := FeeService.AssessCashAdvanceFee(db, card, amount, transactionDate, referenceId, now);
    var available := card.availableCredit - (amount + fee.feeAmount);
    db.cards := SetAvailableCredit(db.cards, card.id, available);
    r := Ok(CashAdvanceResult(entry, fee, card.creditLimit - available, available));
  }

  // ---------------------------------------------------------------------------
  // Payments, refunds, failed payments and adjustments

  /** The available credit after money comes back (a payment or a refund): raised by the amount, but never above the limit. */
  function CreditBack(card: CreditCard, amount: real): (r: real)
    ensures r <= card.creditLimit
    ensures card.availableCredit + amount <= card.creditLimit ==> r == card.availableCredit + amount
    ensures card.availableCredit + amount > card.creditLimit ==> r == card.creditLimit
  {
    var raised := card.availableCredit + amount;
    if raised > card.creditLimit then card.creditLimit else raised
  }

  /** The available credit after a failed payment: lowered by the payment and the fee, with no floor. */
  function CreditAfterFailure(card: CreditCard, payment: real, fee: real): (r: real)
    ensures r + payment + fee == card.availableCredit
  {
    card.availableCredit - (payment + fee)
  }

  /** The available credit after a manual adjustment: a credit raises it by its size, a charge lowers it. */
  function CreditAfterAdjustment(card: CreditCard, amount: real): (r: real)
    ensures r == card.availableCredit - amount
  {
    if amount < 0.0 then card.availableCredit + Abs(amount) else card.availableCredit - amount
  }

  /**
   * A payment that fails after being recorded without hitting the cap
   * leaves the available credit where it was before the payment, less
   * the failed-payment fee.
   */
  lemma PaymentThenFailure(card: CreditCard, amount: real)
    requires card.availableCredit + amount <= card.creditLimit
    ensures CreditAfterFailure(card.(availableCredit := CreditBack(card, amount)), amount, card.failedPaymentFee)
         == card.availableCredit - card.failedPaymentFee
  {
  }

  /** The row a manual adjustment writes: a credit for a negative amount, else an adjustment, holding the magnitude. */
  function AdjustmentRow(card: CreditCard, amount: real, date: Time, referenceId: string, approvedBy: string, now: Time): (e: StatementEntry)
    ensures e.amount == Abs(amount) && e.status == Pending && e.createdBy == Some(approvedBy)
    ensures e.entryType == (if amount < 0.0 then Credit else Adjustment)
    ensures StatementLedgerService.PeriodAmount(e) == amount && SignedAmount(e) == amount
  {
    PendingEntry(card, if amount < 0.0 then Credit else Adjustment, date, date, Abs(amount), Some(referenceId), Some(approvedBy), now)
  }

  /**
   * A manual adjustment moves the statement balance and the available
   * credit by the same amount in opposite directions, whatever its sign.
   */
  lemma AdjustmentMirrorsCredit(card: CreditCard, amount: real, date: Time, referenceId: string, approvedBy: string, now: Time)
    ensures StatementLedgerService.PeriodAmount(AdjustmentRow(card, amount, date, referenceId, approvedBy, now))
          + (CreditAfterAdjustment(card, amount) - card.availableCredit) == 0.0
  {
  }

  datatype PaymentOutcome = PaymentOutcome(paymentEntry: StatementEntry, newBalance: real, availableCredit: real)

  /**
   * Records a payment: a pending payment row, the available credit raised
   * up to the limit, and the card's last payment date and amount.
   */
  method RecordPayment(db: Database, card: CreditCard, amount: real, paymentDate: Time, postingDate: Time,
                       referenceId: string, now: Time) returns (r: PaymentOutcome)
    modifies db`statement, db`lastId, db`cards
    ensures db.statement == old(db.statement) + [r.paymentEntry]
    ensures r.paymentEntry == PendingEntry(card, Payment, paymentDate, postingDate, amount, Some(referenceId), None, now).(id := db.lastId)
    ensures r.availableCredit == CreditBack(card, amount) && r.newBalance == card.creditLimit - r.availableCredit
    ensures r.newBalance >= 0.0
    ensures db.cards == SetLastPayment(SetAvailableCredit(old(db.cards), card.id, r.availableCredit), card.id, paymentDate, amount)
  {
    var entry := StatementLedgerService.CreateEntry(db, PendingEntry(card, Payment, paymentDate, postingDate, amount, Some(referenceId), None, now));
    var available := card.availableCredit + amount;
    if available > card.creditLimit {
      available := card.creditLimit;
    }
    db.cards := SetAvailableCredit(db.cards, card.id, available);
    db.cards := SetLastPayment(db.cards, card.id, paymentDate, amount);
    r := PaymentOutcome(entry, card.creditLimit - available, available);
  }

  datatype FailedPaymentOutcome = FailedPaymentOutcome(reversalEntry: StatementEntry, fee: FeeService.FeeAssessment, newBalance: real)

  /**
   * Records a payment that bounced: a pending adjustment of the original
   * amount (a charge adding it back), the failed-payment fee referencing
   * the original row, and the available credit lowered by both.
   */
  method RecordFailedPayment(db: Database, card: CreditCard, original: StatementEntry, failureDate: Time, now: Time)
    returns (r: FailedPaymentOutcome)
    modifies db`statement, db`lastId, db`cards
    ensures r.fee.feeAmount == card.failedPaymentFee
    ensures db.statement == old(db.statement)
      + [PendingEntry(card, Adjustment, failureDate, failureDate, original.amount, None, None, now).(id := r.reversalEntry.id),
         FeeService.FeeEntry(card.tenantId, None, FeeFailed, failureDate, card.failedPaymentFee, Some(IdText(original.id)), now)
           .(id := r.fee.entryId)]
    ensures original.amount > 0.0 ==> StatementLedgerService.PeriodAmount(r.reversalEntry) == original.amount && IsDebit(r.reversalEntry)
    ensures db.cards == SetAvailableCredit(old(db.cards), card.id, CreditAfterFailure(card, original.amount, card.failedPaymentFee))
    ensures r.newBalance == card.creditLimit - CreditAfterFailure(card, original.amount, card.failedPaymentFee)
  {
    var reversal := StatementLedgerService.CreateEntry(db, PendingEntry(card, Adjustment, failureDate, failureDate, original.amount, None, None, now));
    var fee := FeeService.AssessFailedPaymentFee(db, card, failureDate, IdText(original.id), now);
    var available := card.availableCredit - (original.amount + fee.feeAmount);
    db.cards := SetAvailableCredit(db.cards, card.id, available);
    r := FailedPaymentOutcome(reversal, fee, card.creditLimit - available);
  }

  datatype RefundOutcome = RefundOutcome(refundEntry: StatementEntry, cashbackAdjustment: Option<Cashback.CashbackEntry>,
                                         newBalance: real, availableCredit: real)

  /**
   * Records a merchant refund: a pending refund row, a cashback clawback
   * when the card earns cashback, and the available credit raised up to
   * the limit.
   */
  method RecordRefund(db: Database, card: CreditCard, originalTransactionId: nat, refund: real, refundDate: Time,
                      postingDate: Time, referenceId: string, now: Time) returns (r: RefundOutcome)
    modifies db`statement, db`lastId, db`cashback, db`cards
    ensures db.statement == old(db.statement) + [r.refundEntry]
    ensures r.refundEntry == PendingEntry(card, Refund, refundDate, postingDate, refund, Some(referenceId), None, now).(id := r.refundEntry.id)
    ensures !card.cashbackEnabled ==> r.cashbackAdjustment == None
    ensures r.cashbackAdjustment.None? ==> db.cashback == old(db.cashback)
    ensures r.cashbackAdjustment.Some? ==>
      && card.cashbackEnabled
      && CashbackService.FindByStatementEntry(old(db.cashback), originalTransactionId).Some?
      && db.cashback == old(db.cashback) + [r.cashbackAdjustment.value]
    ensures card.cashbackEnabled && CashbackService.FindByStatementEntry(old(db.cashback), originalTransactionId).Some? ==>
      r.cashbackAdjustment.Some?
    ensures r.availableCredit == CreditBack(card, refund) && r.newBalance == card.creditLimit - r.availableCredit
    ensures db.cards == SetAvailableCredit(old(db.cards), card.id, r.availableCredit)
  {
    var entry := StatementLedgerService.CreateEntry(db, PendingEntry(card, Refund, refundDate, postingDate, refund, Some(referenceId), None, now));
    var adjustment: Option<Cashback.CashbackEntry> := None;
    if card.cashbackEnabled {
      adjustment := CashbackService.AdjustCashbackForRefund(db, card.tenantId, card, refund, refundDate, originalTransactionId, entry.id, now);
    }
    var available := card.availableCredit + refund;
    if available > card.creditLimit {
      available := card.creditLimit;
    }
    db.cards := SetAvailableCredit(db.cards, card.id, available);
    r := RefundOutcome(entry, adjustment, card.creditLimit - available, available);
  }

  /**
   * Records a manual adjustment: one pending row holding the magnitude
   * (a credit when the amount is negative), and the available credit moved
   * against the amount, with no cap at the limit.
   */
  method RecordAdjustment(db: Database, card: CreditCard, amount: real, date: Time, referenceId: string,
                          approvedBy: string, now: Time) returns (entry: StatementEntry)
    modifies db`statement, db`lastId, db`cards
    ensures entry == AdjustmentRow(card, amount, date, referenceId, approvedBy, now).(id := db.lastId)
    ensures db.statement == old(db.statement) + [entry]
    ensures db.cards == SetAvailableCredit(old(db.cards), card.id, CreditAfterAdjustment(card, amount))
  {
    entry := StatementLedgerService.CreateEntry(db, AdjustmentRow(card, amount, date, referenceId, approvedBy, now));
    var available: real;
    if amount < 0.0 {
      available := card.availableCredit + Abs(amount);
    } else {
      available := card.availableCredit - amount;
    }
    db.cards := SetAvailableCredit(db.cards, card.id, available);
  }

  // ---------------------------------------------------------------------------
  // Changing a rate

  /** Which of the three rates an APR update names. */
  datatype AprKind = PurchaseRate | CashAdvanceRate | PenaltyRate

  /** The rate a type string names: exactly "purchase", "cash_advance" and "penalty" are known. */
  function ParseAprType(aprType: string): (r: Option<AprKind>)
    ensures r.Some? <==> aprType in {"purchase", "cash_advance", "penalty"}
    ensures r == Some(PurchaseRate) <==> aprType == "purchase"
    ensures r == Some(CashAdvanceRate) <==> aprType == "cash_advance"
    ensures r == Some(PenaltyRate) <==> aprType == "penalty"
  {
    if aprType == "purchase" then Some(PurchaseRate)
    else if aprType == "cash_advance" then Some(CashAdvanceRate)
    else if aprType == "penalty" then Some(PenaltyRate)
    else None
  }

  /** The card with the named rate replaced and nothing else changed. */
  function WithApr(c: CreditCard, kind: AprKind, apr: real): (r: CreditCard)
    ensures kind == PurchaseRate ==> r == c.(purchaseApr := apr)
    ensures kind == CashAdvanceRate ==> r == c.(cashAdvanceApr := apr)
    ensures kind == PenaltyRate ==> r == c.(penaltyApr := apr)
  {
    match kind
    case PurchaseRate => c.(purchaseApr := apr)
    case CashAdvanceRate => c.(cashAdvanceApr := apr)
    case PenaltyRate => c.(penaltyApr := apr)
  }

  /** Sets one of the three rates of the card with this id; any other type string is an error and changes nothing. */
  method UpdateCreditCardAPR(db: Database, cardId: nat, newApr: real, aprType: string) returns (r: Result<AprKind, ServiceError>)
    modifies db`cards
    ensures r.Err? <==> aprType !in {"purchase", "cash_advance", "penalty"}
    ensures r.Err? ==> r.error == InvalidAprType(aprType) && db.cards == old(db.cards)
    ensures r.Ok? ==> r.value == ParseAprType(aprType).value
    ensures r.Ok? && cardId in old(db.cards) ==> db.cards == old(db.cards)[cardId := WithApr(old(db.cards)[cardId], r.value, newApr)]
    ensures r.Ok? && cardId !in old(db.cards) ==> db.cards == old(db.cards)
  {
    var kind := ParseAprType(aprType);
    if kind.None? {
      return Err(InvalidAprType(aprType));
    }
    if cardId in db.cards {
      db.cards := db.cards[cardId := WithApr(db.cards[cardId], kind.value, newApr)];
    }
    return Ok(kind.value);
  }
}
