/** Shared value types of the loan front end. */
module Common {

  /** A value that may be absent (a JavaScript `null` or `undefined`). */
  datatype Option<+T> = None | Some(value: T)

  /** The quick quote handed from the calculator to the application form.
      All amounts are whole Kenyan shillings; `interestRate` is the daily
      rate as a percentage. */
  datatype LoanOffer = LoanOffer(
    amount: int,
    termDays: int,
    interestRate: int,
    totalRepayment: int,
    fees: int)
}
