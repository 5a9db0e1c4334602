# Expense approval workflow

A Dafny model of the expense approval workflow of the expense-management
backend (`Backend/controllers/expenseController.js`): creation of an expense
with its amount normalised to the company's base currency, the
submit / approve / reject state machine driven by `updateExpenseStatus`, and
the three read views (company, own expenses, manager queue).

Layout:

- `wrappers.dfy` — `Option` and `Result`.
- `expenses.dfy` — the data model: the persisted `ExpenseDoc`, `Status`, the
  requester, the company, the body of a new expense, the error responses, and
  the predicate `StepInRange` (the step is 0 or indexes the approval sequence).
- `creation.dfy` — `createExpense`: `NormalizeAmount` mirrors the reassigned
  local `amountConverted`; `CreateExpense` builds the draft document.
- `workflow.dfy` — `updateExpenseStatus`: `Transition` is the value-level
  specification of one call; class `Expense` is the loaded document whose
  `UpdateStatus` mutates its fields in place and is proved to end in
  `Transition`'s result; `Replay` runs a series of calls, and the lemmas state
  the per-call and multi-call properties.
- `views.dfy` — `getExpenses`, `getEmployeeExpenses`, `getManagerExpenses` as
  order-preserving selections over the stored documents; the manager view is
  a query stage followed by a filter on the approver id at the current step.

External lookups are parameters: the company record (`Option<Company>`), the
exchange-rate result (`RateLookup`: a rate or a failed request), the approval
rule found for the category (`Option<seq<Id>>`, its approver sequence), the
requester's manager (`Option<Id>`) and the expense found by id (`Expense?`,
null when missing).

Behaviour of the code that an approval workflow might be expected not to have,
modelled as written:

- `updateExpenseStatus` never inspects the current status. Approving or
  rejecting an approved or rejected expense is applied as written, so
  rejection is not terminal (`RejectionNotFinal`). Approval is not terminal
  either: "approved" on an approved expense whose step is below the last index
  of its sequence moves it back to pending at the next step
  (`ApprovedNotFinal`); otherwise it leaves it approved. No request fails with
  an invalid-transition error.
- Nothing checks that the caller is the approver at the current step; there
  is no unauthorized error.
- Submission fires on the requested value "pending" while the step is 0,
  whatever the current status. The expense does not have to be a draft, so an
  expense can be resubmitted while its step is 0.
- A matched rule with an empty sequence gives a pending expense with an empty
  sequence at step 0. It is not auto-approved and there is no manager fallback.
  Such an expense is in nobody's queue, and the next "approved" request
  approves it.
- Auto-approval (no rule, no manager) keeps the previous approval sequence and
  step. It does not clear the sequence.
- The rule is looked up for the requester's company, and the fallback manager
  is the requester's manager (`req.user`), not the expense owner's. The model
  takes both lookups as inputs, so this does not change its statements.
- "Pending implies step < length" is not an invariant of the code (see the
  empty-rule case). What holds, and is proved for every series of
  calls, is `StepInRange`: the step is 0 or below the length, so it never
  exceeds the length.

## Model

| member | source | states |
|---|---|---|
| `Creation.NormalizeAmount` | Backend/controllers/expenseController.js:37-51 | same currency: the original amount; different currency and failed lookup: the original amount; different currency and a rate: amount times rate |
| `Creation.CreateExpense` | Backend/controllers/expenseController.js:18-68 | missing company exactly when the result is the not-found error; a found company always gives success, namely a draft at step 0 with no approvers, owned by the requester and the requester's company, carrying the body's fields and the converted amount by the three conversion cases |
| `Workflow.Transition` | Backend/controllers/expenseController.js:114-149 | one call never touches the non-workflow fields, preserves `StepInRange`, yields a draft only when nothing changed, and moves the step only by +1 or to 0 |
| `Workflow.Expense.Load` | Backend/controllers/expenseController.js:111 | the loaded object holds exactly the stored document |
| `Workflow.Expense.UpdateStatus` | Backend/controllers/expenseController.js:114-149 | the in-place field updates leave the document equal to `Transition` of the old document, and keep `StepInRange` |
| `Workflow.UpdateExpenseStatus` | Backend/controllers/expenseController.js:108-158 | a missing expense gives the not-found error; otherwise the document is updated as `Transition` says and the saved document is returned |
| `Workflow.SubmissionResolvesApprovers` | Backend/controllers/expenseController.js:114-138 | submission at step 0 gives step 0 and: a matched rule's sequence verbatim with pending; else the manager as a one-element sequence with pending; else approved with the old sequence kept |
| `Workflow.ApprovalAdvancesOrFinalises` | Backend/controllers/expenseController.js:139-146 | "approved" below the last step advances the step by exactly one and keeps pending; otherwise approved with the step unchanged; the sequence is untouched and a step inside the sequence stays inside |
| `Workflow.RejectionIsImmediate` | Backend/controllers/expenseController.js:147-149 | "rejected" at any step sets rejected and changes nothing else |
| `Workflow.OtherRequestsChangeNothing` | Backend/controllers/expenseController.js:114-153 | any other requested value, including "pending" past step 0, leaves the document unchanged |
| `Workflow.RejectionNotFinal` | Backend/controllers/expenseController.js:139-149 | with no status guard, "approved" on a rejected expense takes it out of rejected |
| `Workflow.ApprovedNotFinal` | Backend/controllers/expenseController.js:114-146 | submit with rule [a, b], resubmit at step 0 with no rule and no manager: approved with [a, b] at step 0; a further "approved" gives pending at step 1 |
| `Workflow.ReplayKeepsStepInRange` | Backend/controllers/expenseController.js:114-149 | every series of calls preserves `StepInRange` |
| `Workflow.StepNeverExceedsSequence` | Backend/controllers/expenseController.js:53-149 | from a document at step 0, as every created expense is, the step never exceeds the sequence length after any series of calls |
| `Workflow.ApprovalsAdvance` | Backend/controllers/expenseController.js:139-143 | k approvals with more than k approvers after the current one leave the expense pending with the step advanced by exactly k |
| `Workflow.ApproversInTurnFinalise` | Backend/controllers/expenseController.js:139-146 | when each remaining approver approves once in turn, the expense ends approved at the last step, sequence and record unchanged |
| `Workflow.TwoApproverScenario` | Backend/controllers/expenseController.js:114-149 | a rule [a, b]: submit gives pending/0/[a, b], the first approval gives pending/1, the second gives approved/1, and rejection at step 0 or 1 gives rejected |
| `Views.Select` | Backend/controllers/expenseController.js:96-100 | the selection contains exactly the stored documents satisfying the predicate and is no longer than the store |
| `Views.SelectKeepsMultiplicity` | Backend/controllers/expenseController.js:96-100 | a selected document occurs as often as in the store, a rejected one never |
| `Views.SelectAppend` | Backend/controllers/expenseController.js:96-100 | selecting from two consecutive runs is the selection of the first followed by that of the second, so stored order is kept |
| `Views.CompanyExpenses` | Backend/controllers/expenseController.js:7-16 | exactly the stored expenses of the requester's company, each with its stored multiplicity |
| `Views.EmployeeExpenses` | Backend/controllers/expenseController.js:75-84 | exactly the stored expenses whose employee is the requester, each with its stored multiplicity |
| `Views.ManagerCandidates` | Backend/controllers/expenseController.js:89-93 | exactly the pending expenses whose sequence contains the requester and whose step is below the sequence length |
| `Views.ManagerExpenses` | Backend/controllers/expenseController.js:86-106 | exactly the pending expenses whose step is inside the sequence and whose approver at that step is the requester, each with its stored multiplicity |
| `Views.ApprovalLeavesQueue` | Backend/controllers/expenseController.js:89-100 | after an approval of a queued expense, the requester is still in its sequence, and it stays in the requester's queue exactly when the requester is also the next approver |
| `Views.RejectedInNoQueue` | Backend/controllers/expenseController.js:89-100 | a rejected expense is in no manager's queue |

## Left out

- `uploadReceipt` and the receipt extraction imports (lines 161-233). These are an OCR call, an HTTP request to a language-model service and formatting helpers whose code is not part of this model.
- Database access (`find`, `findById`, `findOne`, `populate`, `save`) and the HTTP responses. Queries are selections over a sequence of documents, and lookups are inputs. Storage errors and the generic 500 responses are not modelled.
- The exchange-rate HTTP request. Its outcome is the input `RateLookup`.
- Floating point. Amounts and rates are `real`, so rounding is not modelled.
- A rate response without an entry for the base currency. In JavaScript this gives `NaN` without throwing, so the fallback does not apply. `RateLookup.Rate` stands only for a response that has the entry; the `NaN` path is not modelled.
- A requester whose user record is missing. The manager lookup then dereferences null and the handler answers 500; the model takes the manager as `Option<Id>` and does not model that error.
- An expense whose category reference is missing (the populated `category` is null, line 118). This throws in the handler and is not modelled.
- `CreateExpense` sets the approval sequence to the empty sequence. This is the default of a Mongoose array field; the schema file is not part of this model.
- Concurrent requests on the same expense. The handler does an unguarded read-modify-write, and the model treats each call as one atomic step.
- The effect of `populate("... approvalSequence")` on the manager filter. The handler compares the populated entry at the current step, converted to a string, with the requester's id; populate also drops approvers whose user record no longer exists, which shifts indices and can make the entry at the step undefined (the view then fails with 500). The model compares the unpopulated id at the current step with the requester's id and does not capture these effects.
- The Express bootstrap (`Backend/api/index.js`) and the frontend pages and API wrappers. They hold no workflow logic.
