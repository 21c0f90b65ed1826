/**
 * Card payments: the status state machine, the retry gate, ACH return
 * codes, and the payment record that the payment service updates in place.
 */
module Payments {
  import opened Wrappers
  import opened Calendar

  datatype PaymentStatus =
    | Pending
    | Processing
    | Cleared
    | Failed
    | Returned
    | Cancelled
    | Reversed
    | UnknownPaymentStatus(name: string)

  datatype PaymentMethod =
    | Ach
    | DebitCard
    | Check
    | Wire
    | InternalXfer
    | ExternalXfer
    | Cash
    | MoneyOrder
    | UnknownMethod(name: string)

  datatype PaymentType =
    | Regular
    | MinimumPayment
    | StatementPayment
    | FullPayment
    | AutoPay
    | ScheduledPayment
    | OneTime
    | UnknownPaymentType(name: string)

  /** The transition table: the statuses each known status may move to; `None` for a status outside the table. */
  function AllowedTransitions(from: PaymentStatus): Option<seq<PaymentStatus>>
  {
    match from
    case Pending => Some([Processing, Cancelled])
    case Processing => Some([Cleared, Failed, Cancelled])
    case Cleared => Some([Returned, Reversed])
    case Failed => Some([Pending])
    case Returned => Some([])
    case Cancelled => Some([])
    case Reversed => Some([])
    case UnknownPaymentStatus(_) => None
  }

  /** A move is allowed when the current status is in the table and lists the target. */
  predicate CanTransition(from: PaymentStatus, to: PaymentStatus)
  {
    AllowedTransitions(from).Some? && to in AllowedTransitions(from).value
  }

  /** Returned, cancelled and reversed payments are final. */
  predicate IsTerminalStatus(s: PaymentStatus)
  {
    s == Returned || s == Cancelled || s == Reversed
  }

  /** The table, pair by pair: these nine moves and no others. */
  lemma TransitionTable(from: PaymentStatus, to: PaymentStatus)
    ensures CanTransition(from, to) <==>
      || (from == Pending && to == Processing)
      || (from == Pending && to == Cancelled)
      || (from == Processing && to == Cleared)
      || (from == Processing && to == Failed)
      || (from == Processing && to == Cancelled)
      || (from == Cleared && to == Returned)
      || (from == Cleared && to == Reversed)
      || (from == Failed && to == Pending)
  {
  }

  /** Terminal and unknown statuses go nowhere, nothing moves to itself, and nothing returns to processing except from pending. */
  lemma TransitionShape(from: PaymentStatus, to: PaymentStatus)
    ensures IsTerminalStatus(from) ==> !CanTransition(from, to)
    ensures from.UnknownPaymentStatus? ==> !CanTransition(from, to)
    ensures !CanTransition(from, from)
    ensures CanTransition(from, Processing) ==> from == Pending
    ensures CanTransition(from, to) ==> !to.UnknownPaymentStatus?
  {
  }

  /** A status is terminal exactly when it is a known status with no outgoing move. */
  lemma TerminalIffNoExit(s: PaymentStatus)
    ensures IsTerminalStatus(s) <==> AllowedTransitions(s) == Some([])
  {
  }

  /** The ACH return reason codes the processor reports, plus any other code. */
  datatype AchReturnCode =
    | R01 | R02 | R03 | R04 | R05 | R06 | R07 | R08 | R09 | R10 | R16 | R20 | R29
    | OtherReturnCode(code: string)

  /** The code as it is stored on the payment. */
  function CodeString(c: AchReturnCode): string
  {
    match c
    case R01 => "R01" case R02 => "R02" case R03 => "R03" case R04 => "R04"
    case R05 => "R05" case R06 => "R06" case R07 => "R07" case R08 => "R08"
    case R09 => "R09" case R10 => "R10" case R16 => "R16" case R20 => "R20"
    case R29 => "R29"
    case OtherReturnCode(code) => code
  }

  /** The description of a known code; empty for any other code. */
  function CodeDescription(c: AchReturnCode): string
  {
    match c
    case R01 => "Insufficient Funds"
    case R02 => "Account Closed"
    case R03 => "No Account/Unable to Locate Account"
    case R04 => "Invalid Account Number"
    case R05 => "Unauthorized Debit to Consumer Account"
    case R06 => "Returned per ODFI's Request"
    case R07 => "Authorization Revoked by Customer"
    case R08 => "Payment Stopped"
    case R09 => "Uncollected Funds"
    case R10 => "Customer Advises Not Authorized"
    case R16 => "Account Frozen"
    case R20 => "Non-Transaction Account"
    case R29 => "Corporate Customer Advises Not Authorized"
    case OtherReturnCode(_) => ""
  }

  /** Codes that mean retrying is pointless: the account is gone, blocked or the debit unauthorised. */
  predicate IsHardFailure(c: AchReturnCode)
  {
    c in {R02, R03, R04, R05, R07, R10, R16, R20, R29}
  }

  /** Insufficient or uncollected funds, a stop and an ODFI request are soft; so is any code outside the list. */
  lemma SoftFailures(c: AchReturnCode)
    ensures c in {R01, R06, R08, R09} ==> !IsHardFailure(c)
    ensures c.OtherReturnCode? ==> !IsHardFailure(c)
    ensures IsHardFailure(c) ==> CodeDescription(c) != ""
  {
  }

  /**
   * A payment record. The builder's defaults are the constructor; the
   * `With*` methods set fields one group at a time.
   */
  class Payment {
    var id: nat
    var tenantId: nat
    var creditCardId: nat
    var paymentNumber: string
    var confirmationNum: Option<string>
    var amount: real
    var currency: string
    var appliedAmount: real
    var processingFee: real
    var paymentType: PaymentType
    var paymentMethod: PaymentMethod
    var sourceAccountLast4: Option<string>
    var sourceRoutingLast4: Option<string>
    var sourceBankName: Option<string>
    var billingCycleId: Option<nat>
    var statementEntryId: Option<nat>
    var status: PaymentStatus
    var previousStatus: Option<PaymentStatus>
    var statusReason: Option<string>
    var scheduledDate: Option<Time>
    var initiatedAt: Time
    var processingAt: Option<Time>
    var clearedAt: Option<Time>
    var failedAt: Option<Time>
    var returnedAt: Option<Time>
    var cancelledAt: Option<Time>
    var reversedAt: Option<Time>
    var effectiveDate: Time
    var processorRef: Option<string>
    var processorResponse: Option<string>
    var returnReasonCode: Option<string>
    var returnReasonDesc: Option<string>
    var attemptCount: int
    var lastAttemptAt: Option<Time>
    var nextRetryAt: Option<Time>
    var maxRetries: int
    var notes: Option<string>
    var createdAt: Time
    var updatedAt: Time
    var createdBy: Option<string>
    var updatedBy: Option<string>

    /** A new payment as the builder starts it: pending, in US dollars, no attempts yet, three retries allowed, effective now. */
    constructor (newId: nat, now: Time)
      ensures id == newId && tenantId == 0 && creditCardId == 0 && paymentNumber == ""
      ensures confirmationNum == None && amount == 0.0 && currency == "USD" && appliedAmount == 0.0
      ensures processingFee == 0.0 && paymentType == UnknownPaymentType("") && paymentMethod == UnknownMethod("") && sourceAccountLast4 == None
      ensures sourceRoutingLast4 == None && sourceBankName == None && billingCycleId == None && statementEntryId == None
      ensures status == Pending && previousStatus == None && statusReason == None && scheduledDate == None
      ensures initiatedAt == now && processingAt == None && clearedAt == None && failedAt == None
      ensures returnedAt == None && cancelledAt == None && reversedAt == None && effectiveDate == now
      ensures processorRef == None && processorResponse == None && returnReasonCode == None && returnReasonDesc == None
      ensures attemptCount == 0 && lastAttemptAt == None && nextRetryAt == None && maxRetries == 3
      ensures notes == None && createdAt == now && updatedAt == now && createdBy == None
      ensures updatedBy == None
    {
      id := newId;
      tenantId := 0;
      creditCardId := 0;
      paymentNumber := "";
      confirmationNum := None;
      amount := 0.0;
      currency := "USD";
      appliedAmount := 0.0;
      processingFee := 0.0;
      paymentType := UnknownPaymentType("");
      paymentMethod := UnknownMethod("");
      sourceAccountLast4 := None;
      sourceRoutingLast4 := None;
      sourceBankName := None;
      billingCycleId := None;
      statementEntryId := None;
      status := Pending;
      previousStatus := None;
      statusReason := None;
      scheduledDate := None;
      initiatedAt := now;
      processingAt := None;
      clearedAt := None;
      failedAt := None;
      returnedAt := None;
      cancelledAt := None;
      reversedAt := None;
      effectiveDate := now;
      processorRef := None;
      processorResponse := None;
      returnReasonCode := None;
      returnReasonDesc := None;
      attemptCount := 0;
      lastAttemptAt := None;
      nextRetryAt := None;
      maxRetries := 3;
      notes := None;
      createdAt := now;
      updatedAt := now;
      createdBy := None;
      updatedBy := None;
    }

    predicate CanTransitionTo(newStatus: PaymentStatus)
      reads this
    {
      CanTransition(status, newStatus)
    }

    predicate IsTerminal()
      reads this
    {
      IsTerminalStatus(status)
    }

    predicate IsSuccessful()
      reads this
    {
      status == Cleared
    }

    predicate IsPendingProcessing()
      reads this
    {
      status == Pending || status == Processing
    }

    /** A failed payment may be retried while attempts remain. */
    predicate CanRetry()
      reads this
    {
      status == Failed && attemptCount < maxRetries
    }

    /** Whole days until the payment takes effect; zero from the effective moment on. */
    function DaysUntilEffective(now: Time): (r: int)
      reads this
      ensures r >= 0
      ensures now >= effectiveDate ==> r == 0
      ensures now < effectiveDate ==> 24 * r <= effectiveDate - now < 24 * r + 24
    {
      if now >= effectiveDate then 0 else WholeDays(effectiveDate, now)
    }

    method WithTenant(tenant: nat, card: nat)
      modifies this`tenantId, this`creditCardId
      ensures tenantId == tenant && creditCardId == card
    {
      tenantId := tenant;
      creditCardId := card;
    }

    /** The whole amount is applied to the balance unless changed later. */
    method WithAmount(a: real)
      modifies this`amount, this`appliedAmount
      ensures amount == a && appliedAmount == a
    {
      amount := a;
      appliedAmount := a;
    }

    method WithPaymentNumber(number: string)
      modifies this`paymentNumber
      ensures paymentNumber == number
    {
      paymentNumber := number;
    }

    method WithMethod(m: PaymentMethod)
      modifies this`paymentMethod
      ensures paymentMethod == m
    {
      paymentMethod := m;
    }

    method WithType(t: PaymentType)
      modifies this`paymentType
      ensures paymentType == t
    {
      paymentType := t;
    }

    method WithSourceAccount(last4: string, routingLast4: string, bankName: string)
      modifies this`sourceAccountLast4, this`sourceRoutingLast4, this`sourceBankName
      ensures sourceAccountLast4 == Some(last4) && sourceRoutingLast4 == Some(routingLast4) && sourceBankName == Some(bankName)
    {
      sourceAccountLast4 := Some(last4);
      sourceRoutingLast4 := Some(routingLast4);
      sourceBankName := Some(bankName);
    }

    /** A scheduled payment takes effect on its scheduled date. */
    method WithScheduledDate(date: Time)
      modifies this`scheduledDate, this`effectiveDate
      ensures scheduledDate == Some(date) && effectiveDate == date
    {
      scheduledDate := Some(date);
      effectiveDate := date;
    }

    method WithBillingCycle(cycleId: nat)
      modifies this`billingCycleId
      ensures billingCycleId == Some(cycleId)
    {
      billingCycleId := Some(cycleId);
    }

    method WithCreatedBy(user: string)
      modifies this`createdBy
      ensures createdBy == Some(user)
    {
      createdBy := Some(user);
    }
  }

  /** The status predicates: success and pending-processing are disjoint, and a retryable payment may go back to pending. */
  lemma StatusPredicates(p: Payment)
    ensures p.IsSuccessful() ==> !p.IsPendingProcessing() && !p.IsTerminal()
    ensures p.IsPendingProcessing() ==> !p.IsTerminal()
    ensures p.CanRetry() ==> p.CanTransitionTo(Pending)
    ensures p.IsTerminal() ==> forall s :: !p.CanTransitionTo(s)
  {
  }
}
