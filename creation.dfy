/**
 * `createExpense`: normalisation of the amount to the company's base currency
 * and the initial state of a new expense.
 */
module Creation {
  import opened Wrappers
  import opened Expenses

  /**
   * What the exchange-rate service yields for the pair (original currency,
   * base currency): a rate, or a failure of the request (the call throws).
   */
  datatype RateLookup = Rate(rate: real) | LookupFailed

  /**
   * The converted amount. The rate service is consulted only when the two
   * currencies differ; a failed lookup falls back to the original amount.
   */
  method NormalizeAmount(amountOriginal: real, currencyOriginal: string, baseCurrency: string, lookup: RateLookup)
    returns (amountConverted: real)
    ensures currencyOriginal == baseCurrency ==> amountConverted == amountOriginal
    ensures currencyOriginal != baseCurrency && lookup.LookupFailed? ==> amountConverted == amountOriginal
    ensures currencyOriginal != baseCurrency && lookup.Rate? ==> amountConverted == amountOriginal * lookup.rate
  {
    amountConverted := amountOriginal;
    if currencyOriginal != baseCurrency {
      match lookup {
        case Rate(rate) =>
          amountConverted := amountOriginal * rate;
        case LookupFailed =>
          amountConverted := amountOriginal;
      }
    }
  }

  /**
   * Builds the new expense document. A missing company is the only error; the
   * new expense belongs to the requester and the requester's company, is a
   * draft at step 0 with no approvers yet, and carries the body's fields.
   */
  method CreateExpense(requester: Requester, company: Option<Company>, input: ExpenseInput, lookup: RateLookup)
    returns (r: Result<ExpenseDoc, Error>)
    ensures company.None? <==> r == Failure(CompanyNotFound)
    ensures company.Some? ==> r.Success?
    ensures r.Success? ==>
      && r.value.employee == requester.id
      && r.value.company == requester.company
      && r.value.status == Draft
      && r.value.currentApprovalStep == 0
      && r.value.approvalSequence == []
      && StepInRange(r.value)
      && r.value.category == input.category
      && r.value.description == input.description
      && r.value.amountOriginal == input.amountOriginal
      && r.value.currencyOriginal == input.currencyOriginal
      && r.value.receiptUrl == input.receiptUrl
      && r.value.dateIncurred == input.dateIncurred
    ensures r.Success? && input.currencyOriginal == company.value.baseCurrency ==>
      r.value.amountConverted == input.amountOriginal
    ensures r.Success? && input.currencyOriginal != company.value.baseCurrency && lookup.LookupFailed? ==>
      r.value.amountConverted == input.amountOriginal
    ensures r.Success? && input.currencyOriginal != company.value.baseCurrency && lookup.Rate? ==>
      r.value.amountConverted == input.amountOriginal * lookup.rate
  {
    if company.None? {
      return Failure(CompanyNotFound);
    }
    var baseCurrency := company.value.baseCurrency;
    var amountConverted := NormalizeAmount(input.amountOriginal, input.currencyOriginal, baseCurrency, lookup);
    var expense := ExpenseDoc(
      requester.id, requester.company, input.category, input.description,
      input.amountOriginal, input.currencyOriginal, amountConverted,
      input.receiptUrl, input.dateIncurred, Draft, [], 0);
    r := Success(expense);
  }
}
