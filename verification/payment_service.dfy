/**
 * The payment service: creating a pending payment, the seven status moves
 * that update a payment in place and report one audit record each, the
 * ledger entries that clearing, returning and reversing produce, the
 * failed-payment fee guard, the period summary and the retry queue.
 */
module PaymentService {
  import opened Wrappers
  import opened Money
  import opened Calendar
  import opened Payments
  import SL = StatementLedger
  import SLS = StatementLedgerService
  import BC = BillingCycles
  import FeeService
  import opened CreditCards
  import Store

  /** One audit record of a status move; `fromStatus` is `None` for the creation record. */
  datatype StatusTransition = StatusTransition(
    paymentId: nat,
    fromStatus: Option<PaymentStatus>,
    toStatus: PaymentStatus,
    reason: Option<string>,
    transitionAt: Time,
    triggeredBy: Option<string>)

  /** What a successful operation reports besides the updated payment. */
  datatype PaymentResult = PaymentResult(
    transitions: seq<StatusTransition>,
    ledgerEntry: Option<SL.StatementEntry>,
    errorCode: string,
    errorMessage: string)

  datatype PaymentError =
    | NonPositiveAmount(amount: real)
    | CannotTransition(from: PaymentStatus, to: PaymentStatus)
    | CannotRetry(status: PaymentStatus, attempts: int, maxRetries: int)
    | NotFailedOrReturned(status: PaymentStatus)
    | FeeServiceMissing

  /** A record of a move the transition table allows. */
  predicate TableMove(t: StatusTransition)
  {
    t.fromStatus.Some? && CanTransition(t.fromStatus.value, t.toStatus)
  }

  /** The record of a successful move from `from` to `to`, which the table allows. */
  function MoveRecord(paymentId: nat, from: PaymentStatus, to: PaymentStatus, reason: Option<string>, now: Time,
                      triggeredBy: Option<string>): (t: StatusTransition)
    requires CanTransition(from, to)
    ensures TableMove(t) && t.fromStatus == Some(from) && t.toStatus == to
  {
    StatusTransition(paymentId, Some(from), to, reason, now, triggeredBy)
  }

  // ---------------------------------------------------------------------------
  // Ledger entries of clearing, returning and reversing

  /** The entry a cleared payment produces: a payment row of the applied amount, posted at the effective date. */
  function ClearingEntry(tenant: nat, paymentNumber: string, applied: real, effective: Time, now: Time): (e: SL.StatementEntry)
    ensures e.tenantId == tenant && e.postingDate == effective && e.referenceId == Some(paymentNumber)
    ensures SLS.PeriodAmount(e) == -applied
    ensures applied >= 0.0 ==> SL.SignedAmount(e) == -applied
  {
    SL.StatementEntry(0, tenant, None, SL.Payment, now, effective, applied, "", Some(paymentNumber), SL.Unset, None, now, None)
  }

  /** The reversal entry as the source builds it: an adjustment of minus the applied amount, posted now. */
  function ReversalEntryAsWritten(tenant: nat, paymentNumber: string, applied: real, now: Time): (e: SL.StatementEntry)
    ensures e.tenantId == tenant && e.postingDate == now && e.referenceId == Some(paymentNumber)
    ensures SLS.PeriodAmount(e) == -applied
  {
    SL.StatementEntry(0, tenant, None, SL.Adjustment, now, now, -applied, "", Some(paymentNumber), SL.Unset, None, now, None)
  }

  /** The reversal entry that undoes the payment: an adjustment of plus the applied amount, posted now. */
  function ReversalEntry(tenant: nat, paymentNumber: string, applied: real, now: Time): (e: SL.StatementEntry)
    ensures e.tenantId == tenant && e.postingDate == now && e.referenceId == Some(paymentNumber)
    ensures SLS.PeriodAmount(e) == applied && SL.SignedAmount(e) == applied
  {
    SL.StatementEntry(0, tenant, None, SL.Adjustment, now, now, applied, "", Some(paymentNumber), SL.Unset, None, now, None)
  }

  /**
   * Once the clearing entry and the reversal entry are both cleared in the
   * period, the statement balance is what it was without either.
   */
  lemma ReversalUndoesClearing(entries: seq<SL.StatementEntry>, tenant: nat, paymentNumber: string, applied: real,
                               effective: Time, now: Time, start: Time, end: Time, opening: real)
    requires start <= effective <= end && start <= now <= end
    ensures var paid := ClearingEntry(tenant, paymentNumber, applied, effective, now).(status := SL.Cleared);
            var undone := ReversalEntry(tenant, paymentNumber, applied, now).(status := SL.Cleared);
            SLS.CalculateStatementBalance(entries + [paid] + [undone], tenant, start, end, opening)
              == SLS.CalculateStatementBalance(entries, tenant, start, end, opening)
  {
    var paid := ClearingEntry(tenant, paymentNumber, applied, effective, now).(status := SL.Cleared);
    var undone := ReversalEntry(tenant, paymentNumber, applied, now).(status := SL.Cleared);
    SLS.CountedEntryMoves(entries, paid, tenant, start, end, opening);
    SLS.CountedEntryMoves(entries + [paid], undone, tenant, start, end, opening);
  }

  /**
   * With the entry as written, a returned or reversed payment lowers the
   * balance a second time instead of restoring it: a payment of 100 that
   * is returned leaves the balance 200 below where it started.
   */
  lemma ReversalAsWrittenCreditsTwice(entries: seq<SL.StatementEntry>, tenant: nat, paymentNumber: string, applied: real,
                                      effective: Time, now: Time, start: Time, end: Time, opening: real)
    requires start <= effective <= end && start <= now <= end
    ensures var paid := ClearingEntry(tenant, paymentNumber, applied, effective, now).(status := SL.Cleared);
            var undone := ReversalEntryAsWritten(tenant, paymentNumber, applied, now).(status := SL.Cleared);
            SLS.CalculateStatementBalance(entries + [paid] + [undone], tenant, start, end, opening)
              == SLS.CalculateStatementBalance(entries, tenant, start, end, opening) - 2.0 * applied
    ensures applied == 100.0 ==>
            var paid := ClearingEntry(tenant, paymentNumber, applied, effective, now).(status := SL.Cleared);
            var undone := ReversalEntryAsWritten(tenant, paymentNumber, applied, now).(status := SL.Cleared);
            SLS.CalculateStatementBalance(entries + [paid] + [undone], tenant, start, end, opening)
              != SLS.CalculateStatementBalance(entries, tenant, start, end, opening)
  {
    var paid := ClearingEntry(tenant, paymentNumber, applied, effective, now).(status := SL.Cleared);
    var undone := ReversalEntryAsWritten(tenant, paymentNumber, applied, now).(status := SL.Cleared);
    SLS.CountedEntryMoves(entries, paid, tenant, start, end, opening);
    SLS.CountedEntryMoves(entries + [paid], undone, tenant, start, end, opening);
  }

  // ---------------------------------------------------------------------------
  // Creating a payment

  datatype SourceAccount = SourceAccount(last4: string, routingLast4: string, bankName: string)

  datatype InitiatePaymentRequest = InitiatePaymentRequest(
    tenantId: nat,
    creditCardId: nat,
    amount: real,
    paymentType: PaymentType,
    paymentMethod: PaymentMethod,
    scheduledDate: Option<Time>,
    billingCycleId: Option<nat>,
    sourceAccount: Option<SourceAccount>,
    createdBy: string)

  /** A payment amount is acceptable exactly when it is positive; the card's balance never rejects it. */
  function ValidatePaymentAmount(amount: real, card: CreditCard): (r: Option<PaymentError>)
    ensures r.None? <==> amount > 0.0
    ensures r.Some? ==> r.value == NonPositiveAmount(amount)
  {
    if amount <= 0.0 then Some(NonPositiveAmount(amount)) else None
  }

  /** The builder's defaults with the request's mandatory fields. */
  method BuildPayment(req: InitiatePaymentRequest, newId: nat, paymentNumber: string, now: Time) returns (p: Payment)
    ensures fresh(p)
    ensures p.id == newId && p.status == Pending && p.previousStatus == None
    ensures p.attemptCount == 0 && p.maxRetries == 3 && p.nextRetryAt == None
    ensures p.tenantId == req.tenantId && p.creditCardId == req.creditCardId && p.paymentNumber == paymentNumber
    ensures p.amount == req.amount && p.appliedAmount == req.amount && p.currency == "USD"
    ensures p.paymentType == req.paymentType && p.paymentMethod == req.paymentMethod
    ensures p.createdBy == Some(req.createdBy) && p.billingCycleId == None && p.scheduledDate == None
    ensures p.effectiveDate == now && p.initiatedAt == now && p.createdAt == now && p.updatedAt == now
    ensures p.sourceAccountLast4 == None && p.sourceRoutingLast4 == None && p.sourceBankName == None
  {
    p := new Payment(newId, now);
    p.WithTenant(req.tenantId, req.creditCardId);
    p.WithAmount(req.amount);
    p.WithType(req.paymentType);
    p.WithMethod(req.paymentMethod);
    p.WithPaymentNumber(paymentNumber);
    p.WithCreatedBy(req.createdBy);
  }

  /** The request's optional parts: a scheduled date, a billing cycle, a source account. */
  method AddRequestOptions(p: Payment, req: InitiatePaymentRequest)
    modifies p`scheduledDate, p`effectiveDate, p`billingCycleId, p`sourceAccountLast4, p`sourceRoutingLast4, p`sourceBankName
    ensures req.scheduledDate.Some? ==> p.scheduledDate == req.scheduledDate && p.effectiveDate == req.scheduledDate.value
    ensures req.scheduledDate.None? ==> p.scheduledDate == old(p.scheduledDate) && p.effectiveDate == old(p.effectiveDate)
    ensures req.billingCycleId.Some? ==> p.billingCycleId == req.billingCycleId
    ensures req.billingCycleId.None? ==> p.billingCycleId == old(p.billingCycleId)
    ensures req.sourceAccount.Some? ==>
      p.sourceAccountLast4 == Some(req.sourceAccount.value.last4)
      && p.sourceRoutingLast4 == Some(req.sourceAccount.value.routingLast4)
      && p.sourceBankName == Some(req.sourceAccount.value.bankName)
    ensures req.sourceAccount.None? ==>
      p.sourceAccountLast4 == old(p.sourceAccountLast4)
      && p.sourceRoutingLast4 == old(p.sourceRoutingLast4) && p.sourceBankName == old(p.sourceBankName)
  {
    if req.scheduledDate.Some? {
      p.WithScheduledDate(req.scheduledDate.value);
    }
    if req.billingCycleId.Some? {
      p.WithBillingCycle(req.billingCycleId.value);
    }
    if req.sourceAccount.Some? {
      var account := req.sourceAccount.value;
      p.WithSourceAccount(account.last4, account.routingLast4, account.bankName);
    }
  }

  /**
   * Builds a pending payment with the builder's defaults and the request's
   * fields, and reports the single creation record "" -> pending. A
   * non-positive amount is rejected and nothing is built. The new id and
   * payment number are given by the caller.
   */
  method InitiatePayment(req: InitiatePaymentRequest, newId: nat, paymentNumber: string, now: Time)
    returns (r: Result<PaymentResult, PaymentError>, p: Payment?)
    ensures r.Err? <==> req.amount <= 0.0
    ensures r.Err? ==> r.error == NonPositiveAmount(req.amount) && p == null
    ensures r.Ok? ==> p != null && fresh(p)
    ensures r.Ok? ==> p.id == newId && p.status == Pending && p.previousStatus == None
    ensures r.Ok? ==> p.attemptCount == 0 && p.maxRetries == 3 && p.nextRetryAt == None && !p.CanRetry()
    ensures r.Ok? ==> p.tenantId == req.tenantId && p.creditCardId == req.creditCardId && p.paymentNumber == paymentNumber
    ensures r.Ok? ==> p.amount == req.amount && p.appliedAmount == req.amount && p.currency == "USD"
    ensures r.Ok? ==> p.paymentType == req.paymentType && p.paymentMethod == req.paymentMethod
    ensures r.Ok? ==> p.createdBy == Some(req.createdBy) && p.billingCycleId == req.billingCycleId
    ensures r.Ok? ==> p.scheduledDate == req.scheduledDate
    ensures r.Ok? ==> p.effectiveDate == (if req.scheduledDate.Some? then req.scheduledDate.value else now)
    ensures r.Ok? ==> p.initiatedAt == now && p.createdAt == now && p.updatedAt == now
    ensures r.Ok? && req.sourceAccount.Some? ==>
      p.sourceAccountLast4 == Some(req.sourceAccount.value.last4)
      && p.sourceRoutingLast4 == Some(req.sourceAccount.value.routingLast4)
      && p.sourceBankName == Some(req.sourceAccount.value.bankName)
    ensures r.Ok? && req.sourceAccount.None? ==>
      p.sourceAccountLast4 == None && p.sourceRoutingLast4 == None && p.sourceBankName == None
    ensures r.Ok? ==> r.value == PaymentResult([StatusTransition(newId, None, Pending, None, now, Some(req.createdBy))], None, "", "")
  {
    if req.amount <= 0.0 {
      return Err(NonPositiveAmount(req.amount)), null;
    }
    p := BuildPayment(req, newId, paymentNumber, now);
    AddRequestOptions(p, req);
    r := Ok(PaymentResult([StatusTransition(newId, None, Pending, None, now, Some(req.createdBy))], None, "", ""));
  }

  // ---------------------------------------------------------------------------
  // Status moves. Each one fails and leaves the payment untouched when the
  // table forbids the move; otherwise it records the previous status, sets
  // the new one with its timestamp and fields, and reports one record.

  /** Pending -> processing: one more attempt, made now, under the processor's reference. */
  method ProcessPayment(p: Payment, processorRef: string, now: Time) returns (r: Result<PaymentResult, PaymentError>)
    modifies p`previousStatus, p`status, p`processingAt, p`processorRef, p`attemptCount, p`lastAttemptAt, p`updatedAt
    ensures r.Err? <==> !CanTransition(old(p.status), Processing)
    ensures r.Err? ==> r.error == CannotTransition(old(p.status), Processing) && unchanged(p)
    ensures r.Ok? ==> old(p.status) == Pending && p.status == Processing && p.previousStatus == Some(old(p.status))
    ensures r.Ok? ==> p.processingAt == Some(now) && p.processorRef == Some(processorRef)
    ensures r.Ok? ==> p.attemptCount == old(p.attemptCount) + 1 && p.lastAttemptAt == Some(now) && p.updatedAt == now
    ensures r.Ok? ==> r.value == PaymentResult([MoveRecord(p.id, old(p.status), Processing, None, now, Some("system"))], None, "", "")
  {
    if !p.CanTransitionTo(Processing) {
      return Err(CannotTransition(p.status, Processing));
    }
    var previous := p.status;
    p.previousStatus := Some(previous);
    p.status := Processing;
    p.processingAt := Some(now);
    p.processorRef := Some(processorRef);
    p.attemptCount := p.attemptCount + 1;
    p.lastAttemptAt := Some(now);
    p.updatedAt := now;
    r := Ok(PaymentResult([MoveRecord(p.id, previous, Processing, None, now, Some("system"))], None, "", ""));
  }

  /**
   * Processing -> cleared, with the confirmation number. When a ledger
   * is configured the result carries a payment entry of the applied
   * amount, posted at the effective date; it is returned, not written.
   */
  method ClearPayment(p: Payment, confirmationNum: string, ledgerConfigured: bool, now: Time)
    returns (r: Result<PaymentResult, PaymentError>)
    modifies p`previousStatus, p`status, p`clearedAt, p`confirmationNum, p`updatedAt
    ensures r.Err? <==> !CanTransition(old(p.status), Cleared)
    ensures r.Err? ==> r.error == CannotTransition(old(p.status), Cleared) && unchanged(p)
    ensures r.Ok? ==> old(p.status) == Processing && p.status == Cleared && p.previousStatus == Some(old(p.status))
    ensures r.Ok? ==> p.clearedAt == Some(now) && p.confirmationNum == Some(confirmationNum) && p.updatedAt == now
    ensures r.Ok? ==> r.value == PaymentResult([MoveRecord(p.id, old(p.status), Cleared, None, now, Some("processor"))],
      if ledgerConfigured then Some(ClearingEntry(p.tenantId, p.paymentNumber, p.appliedAmount, p.effectiveDate, now)) else None,
      "", "")
  {
    if !p.CanTransitionTo(Cleared) {
      return Err(CannotTransition(p.status, Cleared));
    }
    var previous := p.status;
    p.previousStatus := Some(previous);
    p.status := Cleared;
    p.clearedAt := Some(now);
    p.confirmationNum := Some(confirmationNum);
    p.updatedAt := now;
    var entry := None;
    if ledgerConfigured {
      entry := Some(ClearingEntry(p.tenantId, p.paymentNumber, p.appliedAmount, p.effectiveDate, now));
    }
    r := Ok(PaymentResult([MoveRecord(p.id, previous, Cleared, None, now, Some("processor"))], entry, "", ""));
  }

  /**
   * Processing -> failed, with the reason and the processor's response.
   * A retry is scheduled 24 hours later exactly when attempts remain;
   * otherwise the retry time is left as it was.
   */
  method FailPayment(p: Payment, reason: string, processorResponse: string, now: Time)
    returns (r: Result<PaymentResult, PaymentError>)
    modifies p`previousStatus, p`status, p`failedAt, p`statusReason, p`processorResponse, p`updatedAt, p`nextRetryAt
    ensures r.Err? <==> !CanTransition(old(p.status), Failed)
    ensures r.Err? ==> r.error == CannotTransition(old(p.status), Failed) && unchanged(p)
    ensures r.Ok? ==> old(p.status) == Processing && p.status == Failed && p.previousStatus == Some(old(p.status))
    ensures r.Ok? ==> p.failedAt == Some(now) && p.statusReason == Some(reason) && p.processorResponse == Some(processorResponse)
    ensures r.Ok? ==> p.updatedAt == now
    ensures r.Ok? ==> (p.CanRetry() <==> p.attemptCount < p.maxRetries)
    ensures r.Ok? && p.CanRetry() ==> p.nextRetryAt == Some(now + 24)
    ensures r.Ok? && !p.CanRetry() ==> p.nextRetryAt == old(p.nextRetryAt)
    ensures r.Ok? ==> r.value == PaymentResult([MoveRecord(p.id, old(p.status), Failed, Some(reason), now, Some("processor"))],
      None, "PAYMENT_FAILED", reason)
  {
    if !p.CanTransitionTo(Failed) {
      return Err(CannotTransition(p.status, Failed));
    }
    var previous := p.status;
    p.previousStatus := Some(previous);
    p.status := Failed;
    p.failedAt := Some(now);
    p.statusReason := Some(reason);
    p.processorResponse := Some(processorResponse);
    p.updatedAt := now;
    if p.CanRetry() {
      p.nextRetryAt := Some(now + 24);
    }
    r := Ok(PaymentResult([MoveRecord(p.id, previous, Failed, Some(reason), now, Some("processor"))], None, "PAYMENT_FAILED", reason));
  }

  /**
   * Cleared -> returned under an ACH return code, whose code and
   * description are stored and reported. When a ledger is configured the
   * result carries the reversal entry as the source builds it: an
   * adjustment of minus the applied amount.
   */
  method ReturnPayment(p: Payment, returnCode: AchReturnCode, ledgerConfigured: bool, now: Time)
    returns (r: Result<PaymentResult, PaymentError>)
    modifies p`previousStatus, p`status, p`returnedAt, p`returnReasonCode, p`returnReasonDesc, p`updatedAt
    ensures r.Err? <==> !CanTransition(old(p.status), Returned)
    ensures r.Err? ==> r.error == CannotTransition(old(p.status), Returned) && unchanged(p)
    ensures r.Ok? ==> old(p.status) == Cleared && p.status == Returned && p.previousStatus == Some(old(p.status))
    ensures r.Ok? ==> p.returnedAt == Some(now) && p.updatedAt == now
    ensures r.Ok? ==> p.returnReasonCode == Some(CodeString(returnCode)) && p.returnReasonDesc == Some(CodeDescription(returnCode))
    ensures r.Ok? ==> r.value == PaymentResult(
      [MoveRecord(p.id, old(p.status), Returned, Some(CodeDescription(returnCode)), now, Some("processor"))],
      if ledgerConfigured then Some(ReversalEntryAsWritten(p.tenantId, p.paymentNumber, p.appliedAmount, now)) else None,
      CodeString(returnCode), CodeDescription(returnCode))
  {
    if !p.CanTransitionTo(Returned) {
      return Err(CannotTransition(p.status, Returned));
    }
    var previous := p.status;
    var code := CodeString(returnCode);
    var description := CodeDescription(returnCode);
    p.previousStatus := Some(previous);
    p.status := Returned;
    p.returnedAt := Some(now);
    p.returnReasonCode := Some(code);
    p.returnReasonDesc := Some(description);
    p.updatedAt := now;
    var entry := None;
    if ledgerConfigured {
      entry := Some(ReversalEntryAsWritten(p.tenantId, p.paymentNumber, p.appliedAmount, now));
    }
    r := Ok(PaymentResult([MoveRecord(p.id, previous, Returned, Some(description), now, Some("processor"))], entry, code, description));
  }

  /** Pending or processing -> cancelled, by the given user and for the given reason. */
  method CancelPayment(p: Payment, reason: string, cancelledBy: string, now: Time)
    returns (r: Result<PaymentResult, PaymentError>)
    modifies p`previousStatus, p`status, p`cancelledAt, p`statusReason, p`updatedAt, p`updatedBy
    ensures r.Err? <==> !CanTransition(old(p.status), Cancelled)
    ensures r.Err? ==> r.error == CannotTransition(old(p.status), Cancelled) && unchanged(p)
    ensures r.Ok? ==> (old(p.status) == Pending || old(p.status) == Processing)
    ensures r.Ok? ==> p.status == Cancelled && p.previousStatus == Some(old(p.status))
    ensures r.Ok? ==> p.cancelledAt == Some(now) && p.statusReason == Some(reason) && p.updatedAt == now
    ensures r.Ok? ==> p.updatedBy == Some(cancelledBy)
    ensures r.Ok? ==> r.value == PaymentResult([MoveRecord(p.id, old(p.status), Cancelled, Some(reason), now, Some(cancelledBy))], None, "", "")
  {
    if !p.CanTransitionTo(Cancelled) {
      return Err(CannotTransition(p.status, Cancelled));
    }
    var previous := p.status;
    p.previousStatus := Some(previous);
    p.status := Cancelled;
    p.cancelledAt := Some(now);
    p.statusReason := Some(reason);
    p.updatedAt := now;
    p.updatedBy := Some(cancelledBy);
    r := Ok(PaymentResult([MoveRecord(p.id, previous, Cancelled, Some(reason), now, Some(cancelledBy))], None, "", ""));
  }

  /**
   * Cleared -> reversed, by the given user; with a ledger, the result
   * carries the same as-written reversal entry as a return.
   */
  method ReversePayment(p: Payment, reason: string, reversedBy: string, ledgerConfigured: bool, now: Time)
    returns (r: Result<PaymentResult, PaymentError>)
    modifies p`previousStatus, p`status, p`reversedAt, p`statusReason, p`updatedAt, p`updatedBy
    ensures r.Err? <==> !CanTransition(old(p.status), Reversed)
    ensures r.Err? ==> r.error == CannotTransition(old(p.status), Reversed) && unchanged(p)
    ensures r.Ok? ==> old(p.status) == Cleared && p.status == Reversed && p.previousStatus == Some(old(p.status))
    ensures r.Ok? ==> p.reversedAt == Some(now) && p.statusReason == Some(reason) && p.updatedAt == now
    ensures r.Ok? ==> p.updatedBy == Some(reversedBy)
    ensures r.Ok? ==> r.value == PaymentResult([MoveRecord(p.id, old(p.status), Reversed, Some(reason), now, Some(reversedBy))],
      if ledgerConfigured then Some(ReversalEntryAsWritten(p.tenantId, p.paymentNumber, p.appliedAmount, now)) else None,
      "", "")
  {
    if !p.CanTransitionTo(Reversed) {
      return Err(CannotTransition(p.status, Reversed));
    }
    var previous := p.status;
    p.previousStatus := Some(previous);
    p.status := Reversed;
    p.reversedAt := Some(now);
    p.statusReason := Some(reason);
    p.updatedAt := now;
    p.updatedBy := Some(reversedBy);
    var entry := None;
    if ledgerConfigured {
      entry := Some(ReversalEntryAsWritten(p.tenantId, p.paymentNumber, p.appliedAmount, now));
    }
    r := Ok(PaymentResult([MoveRecord(p.id, previous, Reversed, Some(reason), now, Some(reversedBy))], entry, "", ""));
  }

  /**
   * Failed -> pending again, when attempts remain; the scheduled retry
   * time is cleared and the attempt count is left for processing to
   * raise. The source's second guard, that the table allows failed ->
   * pending, always holds once the first has passed.
   */
  method RetryPayment(p: Payment, now: Time) returns (r: Result<PaymentResult, PaymentError>)
    modifies p`previousStatus, p`status, p`updatedAt, p`nextRetryAt
    ensures r.Err? <==> !old(p.CanRetry())
    ensures r.Err? ==> r.error == CannotRetry(old(p.status), p.attemptCount, p.maxRetries) && unchanged(p)
    ensures r.Ok? ==> old(p.status) == Failed && p.attemptCount < p.maxRetries
    ensures r.Ok? ==> p.status == Pending && p.previousStatus == Some(old(p.status))
    ensures r.Ok? ==> p.nextRetryAt == None && p.updatedAt == now
    ensures r.Ok? ==> r.value == PaymentResult([MoveRecord(p.id, old(p.status), Pending, Some("Retry attempt"), now, Some("system"))], None, "", "")
  {
    if !p.CanRetry() {
      return Err(CannotRetry(p.status, p.attemptCount, p.maxRetries));
    }
    StatusPredicates(p);
    var previous := p.status;
    p.previousStatus := Some(previous);
    p.status := Pending;
    p.updatedAt := now;
    p.nextRetryAt := None;
    r := Ok(PaymentResult([MoveRecord(p.id, previous, Pending, Some("Retry attempt"), now, Some("system"))], None, "", ""));
  }

  // ---------------------------------------------------------------------------
  // The failed-payment fee

  /**
   * Charges the card's failed-payment fee for a failed or returned
   * payment, referencing the payment number; any other status, or a
   * missing fee service, is an error and writes nothing.
   */
  method AssessFailedPaymentFee(db: Store.Database, p: Payment, card: CreditCard, feeServiceConfigured: bool, now: Time)
    returns (r: Result<FeeService.FeeAssessment, PaymentError>)
    modifies db`statement, db`lastId
    ensures r.Err? <==> (p.status != Failed && p.status != Returned) || !feeServiceConfigured
    ensures r.Err? && p.status != Failed && p.status != Returned ==> r.error == NotFailedOrReturned(p.status)
    ensures r.Err? ==> db.statement == old(db.statement) && db.lastId == old(db.lastId)
    ensures r.Ok? ==> r.value == FeeService.FeeAssessment(FeeService.FailedPaymentKind, card.failedPaymentFee, db.lastId, now)
    ensures r.Ok? ==> db.lastId == old(db.lastId) + 1
    ensures r.Ok? ==>
      db.statement == old(db.statement)
        + [FeeService.FeeEntry(card.tenantId, None, SL.FeeFailed, now, card.failedPaymentFee, Some(p.paymentNumber), now).(id := db.lastId)]
  {
    if p.status != Failed && p.status != Returned {
      return Err(NotFailedOrReturned(p.status));
    }
    if !feeServiceConfigured {
      return Err(FeeServiceMissing);
    }
    var assessed := FeeService.AssessFailedPaymentFee(db, card, now, p.paymentNumber, now);
    return Ok(assessed);
  }

  // ---------------------------------------------------------------------------
  // The period summary

  /** The four status groups the summary counts; processing payments count as pending. */
  datatype StatusGroup = ClearedGroup | PendingGroup | FailedGroup | ReturnedGroup

  predicate InGroup(s: PaymentStatus, g: StatusGroup)
  {
    match g
    case ClearedGroup => s == Cleared
    case PendingGroup => s == Pending || s == Processing
    case FailedGroup => s == Failed
    case ReturnedGroup => s == Returned
  }

  datatype PaymentSummary = PaymentSummary(
    tenantId: nat,
    creditCardId: nat,
    period: string,
    totalPayments: nat,
    totalAmount: real,
    clearedPayments: nat,
    clearedAmount: real,
    pendingPayments: nat,
    pendingAmount: real,
    failedPayments: nat,
    failedAmount: real,
    returnedPayments: nat,
    returnedAmount: real,
    averagePayment: real,
    largestPayment: real,
    lastPaymentDate: Option<Time>,
    lastPaymentAmount: real)

  /** The sum of the payments' amounts. */
  function AmountSum(ps: seq<Payment>): real
    reads ps
  {
    if |ps| == 0 then 0.0 else AmountSum(ps[..|ps| - 1]) + ps[|ps| - 1].amount
  }

  /** How many payments fall in the group. */
  function GroupCount(ps: seq<Payment>, g: StatusGroup): nat
    reads ps
  {
    if |ps| == 0 then 0
    else GroupCount(ps[..|ps| - 1], g) + (if InGroup(ps[|ps| - 1].status, g) then 1 else 0)
  }

  /** The sum of the amounts of the payments in the group. */
  function GroupAmount(ps: seq<Payment>, g: StatusGroup): real
    reads ps
  {
    if |ps| == 0 then 0.0
    else GroupAmount(ps[..|ps| - 1], g) + (if InGroup(ps[|ps| - 1].status, g) then ps[|ps| - 1].amount else 0.0)
  }

  /** The largest amount, starting from zero. */
  function Largest(ps: seq<Payment>): real
    reads ps
  {
    if |ps| == 0 then 0.0 else Max(Largest(ps[..|ps| - 1]), ps[|ps| - 1].amount)
  }

  /** The index of the payment cleared latest, the first one on a tie; `None` when none has cleared. */
  function LatestCleared(ps: seq<Payment>): (r: Option<nat>)
    reads ps
    ensures r.Some? ==> r.value < |ps| && ps[r.value].clearedAt.Some?
  {
    if |ps| == 0 then None
    else
      var before := LatestCleared(ps[..|ps| - 1]);
      var last := ps[|ps| - 1];
      if last.clearedAt.Some? && (before.None? || last.clearedAt.value > ps[before.value].clearedAt.value)
      then Some(|ps| - 1)
      else before
  }

  /** The largest payment is zero or more, at least every amount, and either zero or one of the amounts. */
  lemma {:induction false} LargestIsMaximum(ps: seq<Payment>)
    ensures Largest(ps) >= 0.0
    ensures forall i :: 0 <= i < |ps| ==> ps[i].amount <= Largest(ps)
    ensures Largest(ps) == 0.0 || exists i :: 0 <= i < |ps| && ps[i].amount == Largest(ps)
  {
    if |ps| > 0 {
      var init := ps[..|ps| - 1];
      LargestIsMaximum(init);
      assert forall i :: 0 <= i < |init| ==> init[i] == ps[i];
      if Largest(ps) != 0.0 && Largest(ps) == Largest(init) {
        var i :| 0 <= i < |init| && init[i].amount == Largest(init);
        assert ps[i].amount == Largest(ps);
      }
    }
  }

  /**
   * The chosen payment has cleared, no payment cleared later, every
   * payment before it cleared strictly earlier, and there is none only
   * when no payment has cleared.
   */
  lemma {:induction false} LatestClearedIsLatest(ps: seq<Payment>)
    ensures LatestCleared(ps).None? <==> forall i :: 0 <= i < |ps| ==> ps[i].clearedAt.None?
    ensures LatestCleared(ps).Some? ==>
      var k := LatestCleared(ps).value;
      && ps[k].clearedAt.Some?
      && (forall i :: 0 <= i < |ps| && ps[i].clearedAt.Some? ==> ps[i].clearedAt.value <= ps[k].clearedAt.value)
      && (forall i :: 0 <= i < k && ps[i].clearedAt.Some? ==> ps[i].clearedAt.value < ps[k].clearedAt.value)
  {
    if |ps| > 0 {
      var init := ps[..|ps| - 1];
      LatestClearedIsLatest(init);
      assert forall i :: 0 <= i < |init| ==> init[i] == ps[i];
    }
  }

  /** The four groups are disjoint, so their counts add up to at most the number of payments. */
  lemma {:induction false} GroupCountsBounded(ps: seq<Payment>)
    ensures GroupCount(ps, ClearedGroup) + GroupCount(ps, PendingGroup) + GroupCount(ps, FailedGroup)
          + GroupCount(ps, ReturnedGroup) <= |ps|
  {
    if |ps| > 0 {
      GroupCountsBounded(ps[..|ps| - 1]);
    }
  }

  /** One payment's contribution to the running summary, as the loop makes it. */
  function Tally(s: PaymentSummary, p: Payment): PaymentSummary
    reads p
  {
    var s1 := s.(totalPayments := s.totalPayments + 1, totalAmount := s.totalAmount + p.amount);
    var s2 :=
      if InGroup(p.status, ClearedGroup) then s1.(clearedPayments := s1.clearedPayments + 1, clearedAmount := s1.clearedAmount + p.amount)
      else if InGroup(p.status, PendingGroup) then s1.(pendingPayments := s1.pendingPayments + 1, pendingAmount := s1.pendingAmount + p.amount)
      else if InGroup(p.status, FailedGroup) then s1.(failedPayments := s1.failedPayments + 1, failedAmount := s1.failedAmount + p.amount)
      else if InGroup(p.status, ReturnedGroup) then s1.(returnedPayments := s1.returnedPayments + 1, returnedAmount := s1.returnedAmount + p.amount)
      else s1;
    var s3 := if p.amount > s2.largestPayment then s2.(largestPayment := p.amount) else s2;
    if p.clearedAt.Some? && (s3.lastPaymentDate.None? || p.clearedAt.value > s3.lastPaymentDate.value)
    then s3.(lastPaymentDate := p.clearedAt, lastPaymentAmount := p.amount)
    else s3
  }

  /** The running summary after the given payments, before the average is taken. */
  function Running(tenant: nat, card: nat, period: string, ps: seq<Payment>): PaymentSummary
    reads ps
  {
    if |ps| == 0 then PaymentSummary(tenant, card, period, 0, 0.0, 0, 0.0, 0, 0.0, 0, 0.0, 0, 0.0, 0.0, 0.0, None, 0.0)
    else Tally(Running(tenant, card, period, ps[..|ps| - 1]), ps[|ps| - 1])
  }

  /** The running totals: one count per payment, and the sum of all amounts. */
  lemma {:induction false} RunningTotals(tenant: nat, card: nat, period: string, ps: seq<Payment>)
    ensures var s := Running(tenant, card, period, ps);
      s.tenantId == tenant && s.creditCardId == card && s.period == period && s.averagePayment == 0.0
      && s.totalPayments == |ps| && s.totalAmount == AmountSum(ps)
  {
    if |ps| > 0 {
      RunningTotals(tenant, card, period, ps[..|ps| - 1]);
    }
  }

  /** The running count and amount of one status group. */
  lemma {:induction false} RunningGroup(tenant: nat, card: nat, period: string, ps: seq<Payment>, g: StatusGroup)
    ensures var s := Running(tenant, card, period, ps);
      match g
      case ClearedGroup => s.clearedPayments == GroupCount(ps, g) && s.clearedAmount == GroupAmount(ps, g)
      case PendingGroup => s.pendingPayments == GroupCount(ps, g) && s.pendingAmount == GroupAmount(ps, g)
      case FailedGroup => s.failedPayments == GroupCount(ps, g) && s.failedAmount == GroupAmount(ps, g)
      case ReturnedGroup => s.returnedPayments == GroupCount(ps, g) && s.returnedAmount == GroupAmount(ps, g)
  {
    if |ps| > 0 {
      RunningGroup(tenant, card, period, ps[..|ps| - 1], g);
    }
  }

  /** The running largest payment and latest cleared payment. */
  lemma {:induction false} RunningExtremes(tenant: nat, card: nat, period: string, ps: seq<Payment>)
    ensures var s := Running(tenant, card, period, ps);
      && s.largestPayment == Largest(ps)
      && (LatestCleared(ps).None? ==> s.lastPaymentDate == None && s.lastPaymentAmount == 0.0)
      && (LatestCleared(ps).Some? ==>
            s.lastPaymentDate == ps[LatestCleared(ps).value].clearedAt && s.lastPaymentAmount == ps[LatestCleared(ps).value].amount)
  {
    if |ps| > 0 {
      var init := ps[..|ps| - 1];
      RunningExtremes(tenant, card, period, init);
      var k := LatestCleared(init);
      if k.Some? {
        assert init[k.value] == ps[k.value];
      }
    }
  }

  /** One turn of the summary loop: count the payment, file it under its group, track the largest and the latest cleared. */
  method TallyPayment(s0: PaymentSummary, p: Payment) returns (s: PaymentSummary)
    ensures s == Tally(s0, p)
  {
    s := s0.(totalPayments := s0.totalPayments + 1, totalAmount := s0.totalAmount + p.amount);
    match p.status {
      case Cleared =>
        s := s.(clearedPayments := s.clearedPayments + 1, clearedAmount := s.clearedAmount + p.amount);
      case Pending | Processing =>
        s := s.(pendingPayments := s.pendingPayments + 1, pendingAmount := s.pendingAmount + p.amount);
      case Failed =>
        s := s.(failedPayments := s.failedPayments + 1, failedAmount := s.failedAmount + p.amount);
      case Returned =>
        s := s.(returnedPayments := s.returnedPayments + 1, returnedAmount := s.returnedAmount + p.amount);
      case _ =>
    }
    if p.amount > s.largestPayment {
      s := s.(largestPayment := p.amount);
    }
    if p.clearedAt.Some? {
      if s.lastPaymentDate.None? || p.clearedAt.value > s.lastPaymentDate.value {
        s := s.(lastPaymentDate := p.clearedAt, lastPaymentAmount := p.amount);
      }
    }
  }

  /**
   * The summary of the given payments for a card and period: totals, the
   * four status groups, the largest payment, the latest cleared one, and
   * the average rounded to cents.
   */
  method CalculatePaymentSummary(tenant: nat, card: nat, ps: seq<Payment>, period: string) returns (s: PaymentSummary)
    ensures s.tenantId == tenant && s.creditCardId == card && s.period == period
    ensures s.totalPayments == |ps| && s.totalAmount == AmountSum(ps)
    ensures s.clearedPayments == GroupCount(ps, ClearedGroup) && s.clearedAmount == GroupAmount(ps, ClearedGroup)
    ensures s.pendingPayments == GroupCount(ps, PendingGroup) && s.pendingAmount == GroupAmount(ps, PendingGroup)
    ensures s.failedPayments == GroupCount(ps, FailedGroup) && s.failedAmount == GroupAmount(ps, FailedGroup)
    ensures s.returnedPayments == GroupCount(ps, ReturnedGroup) && s.returnedAmount == GroupAmount(ps, ReturnedGroup)
    ensures s.largestPayment == Largest(ps)
    ensures LatestCleared(ps).None? ==> s.lastPaymentDate == None && s.lastPaymentAmount == 0.0
    ensures LatestCleared(ps).Some? ==>
      s.lastPaymentDate == ps[LatestCleared(ps).value].clearedAt && s.lastPaymentAmount == ps[LatestCleared(ps).value].amount
    ensures s.averagePayment == if |ps| == 0 then 0.0 else Round2(AmountSum(ps) / |ps| as real)
  {
    s := PaymentSummary(tenant, card, period, 0, 0.0, 0, 0.0, 0, 0.0, 0, 0.0, 0, 0.0, 0.0, 0.0, None, 0.0);
    RunningTotals(tenant, card, period, ps);
    RunningGroup(tenant, card, period, ps, ClearedGroup);
    RunningGroup(tenant, card, period, ps, PendingGroup);
    RunningGroup(tenant, card, period, ps, FailedGroup);
    RunningGroup(tenant, card, period, ps, ReturnedGroup);
    RunningExtremes(tenant, card, period, ps);
    if |ps| == 0 {
      return;
    }
    for i := 0 to |ps|
      invariant s == Running(tenant, card, period, ps[..i])
    {
      assert ps[..i + 1][..i] == ps[..i] && ps[..i + 1][i] == ps[i];
      assert Running(tenant, card, period, ps[..i + 1]) == Tally(Running(tenant, card, period, ps[..i]), ps[i]);
      s := TallyPayment(s, ps[i]);
    }
    assert ps[..|ps|] == ps;
    s := s.(averagePayment := Round2(s.totalAmount / s.totalPayments as real));
  }

  // ---------------------------------------------------------------------------
  // The retry queue

  /** A payment is due for retry when it may be retried and its retry time is set and has come. */
  predicate DueForRetry(p: Payment, now: Time)
    reads p
  {
    p.CanRetry() && p.nextRetryAt.Some? && p.nextRetryAt.value <= now
  }

  /** The payments due for retry, in input order. */
  function RetryQueue(ps: seq<Payment>, now: Time): seq<Payment>
    reads ps
  {
    if |ps| == 0 then []
    else RetryQueue(ps[..|ps| - 1], now) + (if DueForRetry(ps[|ps| - 1], now) then [ps[|ps| - 1]] else [])
  }

  /** The queue holds exactly the due payments of the input. */
  lemma {:induction false} RetryQueueMembers(ps: seq<Payment>, now: Time)
    ensures forall p :: p in RetryQueue(ps, now) <==> p in ps && DueForRetry(p, now)
  {
    if |ps| > 0 {
      var init := ps[..|ps| - 1];
      RetryQueueMembers(init, now);
      assert ps == init + [ps[|ps| - 1]];
    }
  }

  /** Filtering keeps input order: the queue of a concatenation is the concatenation of the queues. */
  lemma {:induction false} RetryQueueAppend(a: seq<Payment>, b: seq<Payment>, now: Time)
    ensures RetryQueue(a + b, now) == RetryQueue(a, now) + RetryQueue(b, now)
  {
    if |b| > 0 {
      var init := b[..|b| - 1];
      assert (a + b)[..|a + b| - 1] == a + init;
      RetryQueueAppend(a, init, now);
    } else {
      assert a + b == a;
    }
  }

  /** The payments ready for retry at `now`: exactly the due ones, in input order. */
  method GetPendingPaymentsForRetry(ps: seq<Payment>, now: Time) returns (ready: seq<Payment>)
    ensures ready == RetryQueue(ps, now)
    ensures forall p :: p in ready <==> p in ps && DueForRetry(p, now)
  {
    ready := [];
    for i := 0 to |ps|
      invariant ready == RetryQueue(ps[..i], now)
    {
      assert ps[..i + 1][..i] == ps[..i];
      if ps[i].CanRetry() && ps[i].nextRetryAt.Some? && ps[i].nextRetryAt.value <= now {
        ready := ready + [ps[i]];
      }
    }
    assert ps[..|ps|] == ps;
    RetryQueueMembers(ps, now);
  }

  // ---------------------------------------------------------------------------
  // Classifying a payment

  /**
   * The payment type an amount suggests against a statement: full when it
   * covers what remains, statement when it equals the new balance,
   * minimum when it equals the minimum or what remains of it, else regular.
   */
  function DeterminePaymentType(amount: real, cycle: Option<BC.BillingCycle>): (t: PaymentType)
    ensures t in {Regular, FullPayment, StatementPayment, MinimumPayment}
    ensures cycle.None? ==> t == Regular
    ensures cycle.Some? ==>
      (t == FullPayment <==> amount >= BC.RemainingBalance(cycle.value))
    ensures cycle.Some? ==>
      (t == StatementPayment <==>
        amount < BC.RemainingBalance(cycle.value) && amount == cycle.value.newBalance)
    ensures cycle.Some? ==>
      (t == MinimumPayment <==>
        amount < BC.RemainingBalance(cycle.value) && amount != cycle.value.newBalance &&
        (amount == cycle.value.minimumPayment || amount == BC.RemainingMinimum(cycle.value)))
    ensures cycle.Some? ==>
      (t == Regular <==>
        amount < BC.RemainingBalance(cycle.value) && amount != cycle.value.newBalance &&
        amount != cycle.value.minimumPayment && amount != BC.RemainingMinimum(cycle.value))
  {
    if cycle.None? then Regular
    else if amount >= BC.RemainingBalance(cycle.value) then FullPayment
    else if amount == cycle.value.newBalance then StatementPayment
    else if amount == cycle.value.minimumPayment || amount == BC.RemainingMinimum(cycle.value) then MinimumPayment
    else Regular
  }

  /**
   * Covering the remaining balance is always a full payment and anything
   * less never is; and since the remaining balance is the new balance less
   * the payments made, paying exactly the new balance is classified as a
   * statement payment only when the payments made are negative.
   */
  lemma PaymentTypeClasses(amount: real, cycle: BC.BillingCycle)
    ensures DeterminePaymentType(amount, Some(cycle)) == FullPayment <==> amount >= BC.RemainingBalance(cycle)
    ensures DeterminePaymentType(amount, Some(cycle)) == StatementPayment ==> cycle.paymentsMade < 0.0
    ensures DeterminePaymentType(amount, Some(cycle)) == MinimumPayment ==> amount < BC.RemainingBalance(cycle)
  {
  }
}
