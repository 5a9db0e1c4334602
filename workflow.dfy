/**
 * `updateExpenseStatus`: the approval state machine. `Transition` is the
 * specification of one call; the `Expense` class is the loaded document that
 * the handler mutates field by field, proved to end in `Transition`'s result.
 */
module Workflow {
  import opened Wrappers
  import opened Expenses

  /**
   * The document after one `updateExpenseStatus` call with the requested status
   * string. `rule` is the approval sequence of the rule found for the category
   * (None when no rule matches) and `manager` the requester's manager; both are
   * consulted only on submission. The current status is not inspected.
   */
  function Transition(d: ExpenseDoc, requested: string, rule: Option<seq<Id>>, manager: Option<Id>): (e: ExpenseDoc)
    ensures SameRecord(d, e)
    ensures StepInRange(d) ==> StepInRange(e)
    ensures e.status == Draft ==> e == d
    ensures e.currentApprovalStep != d.currentApprovalStep ==>
      e.currentApprovalStep == d.currentApprovalStep + 1 || e.currentApprovalStep == 0
  {
    if requested == "pending" && d.currentApprovalStep == 0 then
      match rule
      case Some(sequence) => d.(approvalSequence := sequence, status := Pending, currentApprovalStep := 0)
      case None =>
        match manager
        case Some(m) => d.(approvalSequence := [m], status := Pending, currentApprovalStep := 0)
        case None => d.(status := Approved)
    else if requested == "approved" then
      if d.currentApprovalStep < |d.approvalSequence| - 1 then
        d.(currentApprovalStep := d.currentApprovalStep + 1, status := Pending)
      else
        d.(status := Approved)
    else if requested == "rejected" then
      d.(status := Rejected)
    else
      d
  }

  /** The loaded expense document that `updateExpenseStatus` mutates before saving it. */
  class Expense {
    var employee: Id
    var company: Id
    var category: Id
    var description: string
    var amountOriginal: real
    var currencyOriginal: string
    var amountConverted: real
    var receiptUrl: string
    var dateIncurred: string
    var status: Status
    var approvalSequence: seq<Id>
    var currentApprovalStep: nat

    /** The document as it would be saved. */
    function Doc(): ExpenseDoc
      reads this
    {
      ExpenseDoc(employee, company, category, description, amountOriginal, currencyOriginal,
                 amountConverted, receiptUrl, dateIncurred, status, approvalSequence, currentApprovalStep)
    }

    /** Loading a stored document. */
    constructor Load(d: ExpenseDoc)
      ensures Doc() == d
    {
      employee, company, category, description := d.employee, d.company, d.category, d.description;
      amountOriginal, currencyOriginal, amountConverted := d.amountOriginal, d.currencyOriginal, d.amountConverted;
      receiptUrl, dateIncurred := d.receiptUrl, d.dateIncurred;
      status, approvalSequence, currentApprovalStep := d.status, d.approvalSequence, d.currentApprovalStep;
    }

    /** Applies the requested status to this document in place. */
    method UpdateStatus(requested: string, rule: Option<seq<Id>>, manager: Option<Id>)
      modifies this
      ensures Doc() == Transition(old(Doc()), requested, rule, manager)
      ensures StepInRange(old(Doc())) ==> StepInRange(Doc())
    {
      if requested == "pending" && currentApprovalStep == 0 {
        if rule.Some? {
          approvalSequence := rule.value;
        } else if manager.Some? {
          approvalSequence := [manager.value];
        } else {
          status := Approved;
          return;
        }
        status := Pending;
        currentApprovalStep := 0;
      } else if requested == "approved" {
        if currentApprovalStep < |approvalSequence| - 1 {
          currentApprovalStep := currentApprovalStep + 1;
          status := Pending;
        } else {
          status := Approved;
        }
      } else if requested == "rejected" {
        status := Rejected;
      }
    }
  }

  /**
   * The handler: `found` is the result of looking the expense up by id (null
   * when there is none). On success the saved document is returned.
   */
  method UpdateExpenseStatus(found: Expense?, requested: string, rule: Option<seq<Id>>, manager: Option<Id>)
    returns (r: Result<ExpenseDoc, Error>)
    modifies found
    ensures found == null ==> r == Failure(ExpenseNotFound)
    ensures found != null ==>
      && found.Doc() == Transition(old(found.Doc()), requested, rule, manager)
      && r == Success(found.Doc())
  {
    if found == null {
      return Failure(ExpenseNotFound);
    }
    found.UpdateStatus(requested, rule, manager);
    r := Success(found.Doc());
  }

  /** One call of the handler: the requested status and what the two lookups return for it. */
  datatype Request = Request(status: string, rule: Option<seq<Id>>, manager: Option<Id>)

  /** The document after a series of handler calls, in order. */
  function Replay(d: ExpenseDoc, requests: seq<Request>): ExpenseDoc
    decreases |requests|
  {
    if requests == [] then d
    else Replay(Transition(d, requests[0].status, requests[0].rule, requests[0].manager), requests[1..])
  }

  /** `n` consecutive "approved" requests. */
  function Approvals(n: nat): (rs: seq<Request>)
    ensures |rs| == n
    ensures forall i :: 0 <= i < n ==> rs[i].status == "approved"
  {
    seq(n, _ => Request("approved", None, None))
  }

  // ---------------------------------------------------------------------
  // Properties of a single call

  /**
   * Submission (requested "pending" while the step is 0) resolves the
   * approvers in priority order: the matched rule's sequence verbatim, else
   * the manager alone, else immediate approval with sequence and step kept.
   */
  lemma SubmissionResolvesApprovers(d: ExpenseDoc, rule: Option<seq<Id>>, manager: Option<Id>)
    requires d.currentApprovalStep == 0
    ensures var e := Transition(d, "pending", rule, manager);
      && e.currentApprovalStep == 0
      && SameRecord(d, e)
      && (rule.Some? ==> e.status == Pending && e.approvalSequence == rule.value)
      && (rule.None? && manager.Some? ==> e.status == Pending && e.approvalSequence == [manager.value])
      && (rule.None? && manager.None? ==> e.status == Approved && e.approvalSequence == d.approvalSequence)
  {
  }

  /**
   * An approval advances the step by exactly one and keeps the expense
   * pending while approvers remain; at (or past) the last approver it
   * finalises to approved with the step unchanged. The sequence is untouched
   * and a step inside the sequence stays inside it.
   */
  lemma ApprovalAdvancesOrFinalises(d: ExpenseDoc, rule: Option<seq<Id>>, manager: Option<Id>)
    ensures var e := Transition(d, "approved", rule, manager);
      && SameRecord(d, e)
      && e.approvalSequence == d.approvalSequence
      && (d.currentApprovalStep < |d.approvalSequence| - 1 ==>
            e.status == Pending && e.currentApprovalStep == d.currentApprovalStep + 1)
      && (d.currentApprovalStep >= |d.approvalSequence| - 1 ==>
            e.status == Approved && e.currentApprovalStep == d.currentApprovalStep)
      && (d.currentApprovalStep < |d.approvalSequence| ==> e.currentApprovalStep < |e.approvalSequence|)
  {
  }

  /** A rejection at any step sets status rejected and keeps sequence and step. */
  lemma RejectionIsImmediate(d: ExpenseDoc, rule: Option<seq<Id>>, manager: Option<Id>)
    ensures Transition(d, "rejected", rule, manager) == d.(status := Rejected)
  {
  }

  /** Any other requested value, including "pending" past step 0, changes nothing. */
  lemma OtherRequestsChangeNothing(d: ExpenseDoc, requested: string, rule: Option<seq<Id>>, manager: Option<Id>)
    requires requested != "approved" && requested != "rejected"
    requires requested == "pending" ==> d.currentApprovalStep != 0
    ensures Transition(d, requested, rule, manager) == d
  {
  }

  /**
   * Nothing guards the current status: an already rejected expense that
   * receives "approved" is approved (or moved back to pending).
   */
  lemma RejectionNotFinal(d: ExpenseDoc)
    requires d.status == Rejected
    ensures Transition(d, "approved", None, None).status != Rejected
  {
  }

  /**
   * Nor is approval final: an approved expense whose step lies below the last
   * index (reachable by resubmitting at step 0 with no rule and no manager,
   * which keeps the old sequence) moves back to pending on "approved".
   */
  lemma ApprovedNotFinal(a: Id, b: Id, draft: ExpenseDoc)
    requires draft.status == Draft && draft.currentApprovalStep == 0
    ensures var submitted := Transition(draft, "pending", Some([a, b]), None);
      var resubmitted := Transition(submitted, "pending", None, None);
      var approvedAgain := Transition(resubmitted, "approved", None, None);
      && resubmitted.status == Approved && resubmitted.approvalSequence == [a, b]
      && resubmitted.currentApprovalStep == 0
      && approvedAgain.status == Pending && approvedAgain.currentApprovalStep == 1
  {
  }

  // ---------------------------------------------------------------------
  // Properties of a series of calls

  /** Every series of calls keeps the step pointer in range. */
  lemma {:induction false} ReplayKeepsStepInRange(d: ExpenseDoc, requests: seq<Request>)
    requires StepInRange(d)
    ensures StepInRange(Replay(d, requests))
    decreases |requests|
  {
    if requests != [] {
      var r := requests[0];
      ReplayKeepsStepInRange(Transition(d, r.status, r.rule, r.manager), requests[1..]);
    }
  }

  /**
   * For every expense that starts at step 0 (as every created expense does),
   * the step never exceeds the length of the approval sequence, whatever
   * series of calls follows.
   */
  lemma StepNeverExceedsSequence(d: ExpenseDoc, requests: seq<Request>)
    requires d.currentApprovalStep == 0
    ensures Replay(d, requests).currentApprovalStep <= |Replay(d, requests).approvalSequence|
  {
    ReplayKeepsStepInRange(d, requests);
  }

  /**
   * Fewer approvals than approvers remaining after the current one leave the
   * expense pending, the step advanced by exactly their number.
   */
  lemma {:induction false} ApprovalsAdvance(d: ExpenseDoc, k: nat)
    requires 0 < k
    requires d.currentApprovalStep + k < |d.approvalSequence|
    ensures Replay(d, Approvals(k)) == d.(currentApprovalStep := d.currentApprovalStep + k, status := Pending)
    decreases k
  {
    var d1 := Transition(d, "approved", None, None);
    assert Approvals(k)[1..] == Approvals(k - 1);
    if k > 1 {
      ApprovalsAdvance(d1, k - 1);
    }
  }

  /**
   * When every remaining approver approves in turn, the expense ends approved
   * with the step at the last approver and the sequence unchanged.
   */
  lemma {:induction false} ApproversInTurnFinalise(d: ExpenseDoc)
    requires d.currentApprovalStep < |d.approvalSequence|
    ensures var e := Replay(d, Approvals(|d.approvalSequence| - d.currentApprovalStep));
      && e.status == Approved
      && e.currentApprovalStep == |d.approvalSequence| - 1
      && e.approvalSequence == d.approvalSequence
      && SameRecord(d, e)
    decreases |d.approvalSequence| - d.currentApprovalStep
  {
    var n := |d.approvalSequence| - d.currentApprovalStep;
    var d1 := Transition(d, "approved", None, None);
    assert Approvals(n)[1..] == Approvals(n - 1);
    if n > 1 {
      ApproversInTurnFinalise(d1);
    } else {
      assert Replay(d1, []) == d1;
    }
  }

  /**
   * A rule with sequence [a, b]: submission makes it pending at step 0, the
   * first approval moves to step 1, the second approves it at step 1, and a
   * rejection at either step is final for that call.
   */
  lemma TwoApproverScenario(d: ExpenseDoc, a: Id, b: Id, manager: Option<Id>)
    requires d.currentApprovalStep == 0
    ensures var s0 := Transition(d, "pending", Some([a, b]), manager);
      var s1 := Transition(s0, "approved", None, None);
      var s2 := Transition(s1, "approved", None, None);
      && s0.status == Pending && s0.currentApprovalStep == 0 && s0.approvalSequence == [a, b]
      && s1.status == Pending && s1.currentApprovalStep == 1
      && s2.status == Approved && s2.currentApprovalStep == 1
      && Transition(s0, "rejected", None, None).status == Rejected
      && Transition(s1, "rejected", None, None).status == Rejected
  {
  }
}
