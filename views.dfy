/**
 * The three read-only views: the company's expenses, the requester's own
 * expenses, and the manager queue of expenses waiting on the requester.
 * The stored collection is a sequence of documents; a query selects from it
 * in order.
 */
module Views {
  import opened Wrappers
  import opened Expenses
  import Workflow

  /** The documents satisfying `keep`, in their stored order, with their multiplicity. */
  function Select(docs: seq<ExpenseDoc>, keep: ExpenseDoc -> bool): (r: seq<ExpenseDoc>)
    ensures |r| <= |docs|
    ensures forall d :: d in r <==> d in docs && keep(d)
    decreases |docs|
  {
    if docs == [] then []
    else
      var rest := Select(docs[1..], keep);
      if keep(docs[0]) then [docs[0]] + rest else rest
  }

  /** A selected document occurs as often as in the store; the others not at all. */
  lemma {:induction false} SelectKeepsMultiplicity(docs: seq<ExpenseDoc>, keep: ExpenseDoc -> bool)
    ensures forall d :: multiset(Select(docs, keep))[d] == if keep(d) then multiset(docs)[d] else 0
    decreases |docs|
  {
    if docs != [] {
      assert docs == [docs[0]] + docs[1..];
      SelectKeepsMultiplicity(docs[1..], keep);
    }
  }

  /** Selecting from two stored runs selects from each in turn: the order is kept. */
  lemma {:induction false} SelectAppend(xs: seq<ExpenseDoc>, ys: seq<ExpenseDoc>, keep: ExpenseDoc -> bool)
    ensures Select(xs + ys, keep) == Select(xs, keep) + Select(ys, keep)
    decreases |xs|
  {
    if xs != [] {
      var zs := xs + ys;
      assert zs[0] == xs[0];
      assert zs[1..] == xs[1..] + ys;
      SelectAppend(xs[1..], ys, keep);
    } else {
      assert xs + ys == ys;
    }
  }

  /** `getExpenses`: every expense of the requester's company. */
  function CompanyExpenses(docs: seq<ExpenseDoc>, requester: Requester): (r: seq<ExpenseDoc>)
    ensures forall d :: d in r <==> d in docs && d.company == requester.company
    ensures forall d :: d in r ==> multiset(r)[d] == multiset(docs)[d]
  {
    SelectKeepsMultiplicity(docs, (d: ExpenseDoc) => d.company == requester.company);
    Select(docs, (d: ExpenseDoc) => d.company == requester.company)
  }

  /** `getEmployeeExpenses`: every expense whose employee is the requester. */
  function EmployeeExpenses(docs: seq<ExpenseDoc>, requester: Requester): (r: seq<ExpenseDoc>)
    ensures forall d :: d in r <==> d in docs && d.employee == requester.id
    ensures forall d :: d in r ==> multiset(r)[d] == multiset(docs)[d]
  {
    SelectKeepsMultiplicity(docs, (d: ExpenseDoc) => d.employee == requester.id);
    Select(docs, (d: ExpenseDoc) => d.employee == requester.id)
  }

  /**
   * First stage of `getManagerExpenses`, the database query: pending expenses
   * whose approval sequence contains the requester and whose step lies inside
   * the sequence.
   */
  function ManagerCandidates(docs: seq<ExpenseDoc>, me: Id): (r: seq<ExpenseDoc>)
    ensures forall d :: d in r <==>
      d in docs && me in d.approvalSequence && d.status == Pending
      && d.currentApprovalStep < |d.approvalSequence|
    ensures forall d :: d in r ==> multiset(r)[d] == multiset(docs)[d]
  {
    SelectKeepsMultiplicity(docs, (d: ExpenseDoc) => me in d.approvalSequence && d.status == Pending
                                    && d.currentApprovalStep < |d.approvalSequence|);
    Select(docs, (d: ExpenseDoc) => me in d.approvalSequence && d.status == Pending
                                    && d.currentApprovalStep < |d.approvalSequence|)
  }

  /**
   * `getManagerExpenses`: the candidates filtered to those whose approver at
   * the current step is the requester. The bound on the step repeated in the
   * second filter always holds of a candidate; it only makes the index total.
   * The result is exactly the pending expenses waiting on the requester now.
   */
  function ManagerExpenses(docs: seq<ExpenseDoc>, requester: Requester): (r: seq<ExpenseDoc>)
    ensures forall d :: d in r <==>
      && d in docs
      && d.status == Pending
      && d.currentApprovalStep < |d.approvalSequence|
      && d.approvalSequence[d.currentApprovalStep] == requester.id
    ensures forall d :: d in r ==> multiset(r)[d] == multiset(docs)[d]
  {
    var candidates := ManagerCandidates(docs, requester.id);
    SelectKeepsMultiplicity(candidates, (d: ExpenseDoc) => d.currentApprovalStep < |d.approvalSequence|
                                          && d.approvalSequence[d.currentApprovalStep] == requester.id);
    Select(candidates, (d: ExpenseDoc) => d.currentApprovalStep < |d.approvalSequence|
                                          && d.approvalSequence[d.currentApprovalStep] == requester.id)
  }

  /**
   * After the requester approves an expense in their queue, it stays in their
   * queue only if they are also the next approver; once the step has moved to
   * someone else, or the expense is finalised, it is gone although the
   * requester is still in its approval sequence.
   */
  lemma ApprovalLeavesQueue(d: ExpenseDoc, requester: Requester, rule: Option<seq<Id>>, manager: Option<Id>)
    requires d in ManagerExpenses([d], requester)
    ensures var e := Workflow.Transition(d, "approved", rule, manager);
      && requester.id in e.approvalSequence
      && (e in ManagerExpenses([e], requester) <==>
            d.currentApprovalStep + 1 < |d.approvalSequence|
            && d.approvalSequence[d.currentApprovalStep + 1] == requester.id)
  {
  }

  /** A rejected expense is in nobody's queue. */
  lemma RejectedInNoQueue(docs: seq<ExpenseDoc>, d: ExpenseDoc, requester: Requester, rule: Option<seq<Id>>, manager: Option<Id>)
    ensures Workflow.Transition(d, "rejected", rule, manager) !in ManagerExpenses(docs, requester)
  {
  }
}
