/**
 * The data the expense workflow reads and writes: the persisted expense
 * document, the authenticated requester, the company and the request body
 * of a new expense.
 */
module Expenses {

  /** An opaque document reference (a Mongo ObjectId, compared by its string form). */
  type Id = string

  /** The persisted lifecycle status of an expense. */
  datatype Status = Draft | Pending | Approved | Rejected

  /** The authenticated user on whose behalf a handler runs (`req.user`). */
  datatype Requester = Requester(id: Id, company: Id)

  /** The company record; only its base currency matters to the workflow. */
  datatype Company = Company(baseCurrency: string)

  /** The fields of a new expense taken from the request body of `createExpense`. */
  datatype ExpenseInput = ExpenseInput(
    category: Id,
    description: string,
    amountOriginal: real,
    currencyOriginal: string,
    receiptUrl: string,
    dateIncurred: string)

  /** A persisted expense document. */
  datatype ExpenseDoc = ExpenseDoc(
    employee: Id,
    company: Id,
    category: Id,
    description: string,
    amountOriginal: real,
    currencyOriginal: string,
    amountConverted: real,
    receiptUrl: string,
    dateIncurred: string,
    status: Status,
    approvalSequence: seq<Id>,
    currentApprovalStep: nat)

  /** The error responses of the handlers that are modelled (HTTP 404). */
  datatype Error = CompanyNotFound | ExpenseNotFound

  /**
   * The step pointer either still sits at its initial value 0 or points at an
   * entry of the approval sequence. Every reachable expense satisfies this.
   */
  predicate StepInRange(d: ExpenseDoc) {
    d.currentApprovalStep == 0 || d.currentApprovalStep < |d.approvalSequence|
  }

  /** The fields the approval workflow never writes are the same in both documents. */
  predicate SameRecord(d: ExpenseDoc, e: ExpenseDoc) {
    && d.employee == e.employee
    && d.company == e.company
    && d.category == e.category
    && d.description == e.description
    && d.amountOriginal == e.amountOriginal
    && d.currencyOriginal == e.currencyOriginal
    && d.amountConverted == e.amountConverted
    && d.receiptUrl == e.receiptUrl
    && d.dateIncurred == e.dateIncurred
  }
}
