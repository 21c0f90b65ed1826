/** A finalised billing-period statement and its two balance formulas. */
module Statements {
  import opened Wrappers
  import opened Calendar

  datatype StatementStatus = Draft | Finalized | StatementClosed | UnknownStatementStatus(name: string)

  datatype Statement = Statement(
    id: nat,
    tenantId: nat,
    statementNumber: string,
    billingStartDate: Time,
    billingEndDate: Time,
    dueDate: Time,
    previousBalance: real,
    clearedPayments: real,
    openingBalance: real,
    statementBalance: real,
    minimumPayment: real,
    status: StatementStatus,
    finalizedAt: Option<Time>,
    createdAt: Time,
    updatedAt: Time)

  /** What is still owed from the last statement once its cleared payments are taken off. */
  function OpeningBalance(s: Statement): (r: real)
    ensures r + s.clearedPayments == s.previousBalance
  {
    s.previousBalance - s.clearedPayments
  }

  /** The statement balance scaled by a fraction, with no floor, cap or fixed minimum. */
  function MinimumPayment(s: Statement, minPercentage: real): (r: real)
    ensures r == s.statementBalance * minPercentage
    ensures s.statementBalance == 0.0 || minPercentage == 0.0 ==> r == 0.0
    ensures s.statementBalance >= 0.0 && 0.0 <= minPercentage <= 1.0 ==> 0.0 <= r <= s.statementBalance
  {
    s.statementBalance * minPercentage
  }

  /** Paying off exactly the previous balance opens the period at zero; any payment lowers the opening balance by its amount. */
  lemma OpeningBalanceMonotone(s: Statement, extra: real)
    ensures OpeningBalance(s.(clearedPayments := s.clearedPayments + extra)) == OpeningBalance(s) - extra
    ensures OpeningBalance(s.(clearedPayments := s.previousBalance)) == 0.0
  {
  }
}
