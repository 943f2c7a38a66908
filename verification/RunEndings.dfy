/** When a new run of the workflow that packages, submits or waits for a review returns, and
    what it leaves, read off the tables it starts from and the adapters. */
module RunEndings {
  import opened Contracts
  import opened Tables
  import opened RequestIds
  import opened Transitions
  import opened Histories
  import opened Guarantees
  import opened Activities
  import opened Workflow
  import opened WorkflowOutcomes
  import opened RunResults
  import Answers
  import FirstCalls
  import PackageHistories
  import Packages
  import Submission
  import SubmissionHistories

  // ------------------------------------------------------------------------- reviews

  /** The decision a signal names is stored, of the case, and accepts. */
  predicate Accepting(reviews: seq<ReviewRow>, c: string, id: Option<string>) {
    && id.Some? && id.value != ""
    && var row := FindReview(reviews, id.value);
    && row.Some? && row.value.caseId == c && (row.value.outcome == Accept || row.value.outcome == AcceptWithDissent)
  }

  lemma ApprovalRequest(c: Config, attempt: nat, review: Option<string>)
    ensures var req := RequestFor(c, APPROVAL, attempt, review);
            && req.requestId == LegId(c, APPROVAL, attempt) && req.caseId == c.caseId
            && req.requestedAt == c.now(LegId(c, APPROVAL, attempt))
            && req.fromState == ReviewPending && req.toState == ApprovedForSubmission
            && req.overrideId == None && req.requiredReviewId == review
  {
    hide LegId, CorrelationId;
  }

  lemma MoveIs(c: Config, s: Store, req: TransitionRequest)
    requires Usable(c) && Transition(s, req, c.draws(req.requestId).pick).1.Returned?
    ensures Move(c, s, req) == Transition(s, req, c.draws(req.requestId).pick)
  {
    hide Usable, Transition;
    var (u, p) := Transition(s, req, c.draws(req.requestId).pick);
  }

  /** A refusal is answered and recorded, and moves nothing. */
  lemma RefusalInFull(s: Store, req: TransitionRequest, pick: nat)
    requires FindRow(s.ledger, req.requestId).None? && req.caseId in s.cases && Decide(s, req, pick).Denied?
    ensures var (t, o) := Transition(s, req, pick);
            o == Returned(Decide(s, req, pick)) && t == s.(ledger := t.ledger, audit := t.audit)
  {
    hide Decide, FindRow, LedgerRowFor, AuditRowFor;
    assert Commit(s, req, Decide(s, req, pick)).cases == s.cases;
  }

  /** What the first request for approval, which names no review, is answered. */
  lemma FirstApproval(c: Config, s: Store)
    requires Usable(c) && Unlogged(c, s, APPROVAL, 1) && At(c, s, ReviewPending)
    ensures var (t, o) := Move(c, s, RequestFor(c, APPROVAL, 1, None));
            var at := c.now(LegId(c, APPROVAL, 1));
            && o == Returned(if OpenBlocker(s, c.caseId)
                             then Denied(ContradictionAdvanceDenied, at, BlockingContradictionUnresolved,
                                         Some(ContradictionGuard), Some(InvariantsOf(ContradictionGuard)))
                             else Denied(ApprovalGateDenied, at, ReviewDecisionRequired, Some(ReviewGuard),
                                         Some(InvariantsOf(ReviewGuard))))
            && t == s.(ledger := t.ledger, audit := t.audit)
  {
    var req := RequestFor(c, APPROVAL, 1, None);
    ApprovalRequest(c, 1, None);
    assert !ReviewAccepts(s, req);
    hide RequestFor, LegId, Usable, Decide, FindRow, Transition, OpenBlocker, ReviewAccepts, Move;
    Answers.ApprovalRefusedIff(s, req, c.draws(req.requestId).pick);
    RefusalInFull(s, req, c.draws(req.requestId).pick);
    MoveIs(c, s, req);
  }

  lemma SecondApproval(c: Config, s: Store, review: string)
    requires Usable(c) && Unlogged(c, s, APPROVAL, 2) && At(c, s, ReviewPending)
    ensures var (t, o) := Move(c, s, RequestFor(c, APPROVAL, 2, Some(review)));
            var at := c.now(LegId(c, APPROVAL, 2));
            var open := !OpenBlocker(s, c.caseId) && Accepting(s.reviews, c.caseId, Some(review));
            && o.Returned? && (if open then o.value == Applied(CaseStateChanged, at) else o.value.Denied?)
            && t == s.(cases := Row(s, c.caseId, if open then ApprovedForSubmission else ReviewPending), ledger := t.ledger,
                       audit := t.audit)
  {
    var req := RequestFor(c, APPROVAL, 2, Some(review));
    ApprovalRequest(c, 2, Some(review));
    assert ReviewAccepts(s, req) <==> Accepting(s.reviews, c.caseId, Some(review));
    hide RequestFor, LegId, Usable, Transition, FindRow, OpenBlocker, ReviewAccepts, GateOpen, Row, Accepting, Move;
    ApprovalGateOpen(s, req, c.draws(req.requestId).pick);
    PathInFull(s, req, c.draws(req.requestId).pick);
    MoveIs(c, s, req);
  }

  lemma ApprovalGateOpen(s: Store, req: TransitionRequest, pick: nat)
    requires req.toState == ApprovedForSubmission && req.overrideId.None?
    ensures GateOpen(s, req, pick) <==> ReviewAccepts(s, req) && !OpenBlocker(s, req.caseId)
  {
    hide ReviewAccepts, OpenBlocker;
  }

  lemma WaitedInFull(c: Config, s: Store, v: Review)
    ensures Waited(s, v) == s.(reviews := if v.pending.Some? then s.reviews else s.reviews + v.posted)
  {
  }

  /** What the run adds to a result when it was approved on a review. */
  function ApprovedOn(c: Config, v: Review): WorkflowResult {
    var first, last := IdFor(c, "review_pending_to_approved_for_submission", 1),
                       IdFor(c, "review_pending_to_approved_for_submission", 2);
    var signal := if v.pending.Some? then v.pending.value else v.arriving;
    WorkflowResult(c.caseId, "permit-case/" + c.caseId + ":" + c.runId, None, None, first,
                   Denied(ApprovalGateDenied, c.now(first), ReviewDecisionRequired, Some(ReviewGuard),
                          Some(InvariantsOf(ReviewGuard))),
                   signal.decisionId, Some(signal), last, Applied(CaseStateChanged, c.now(last)))
  }

  lemma ReviewedInFull(c: Config, v: Review)
    ensures var first, last := IdFor(c, "review_pending_to_approved_for_submission", 1),
                               IdFor(c, "review_pending_to_approved_for_submission", 2);
            var denied := Denied(ApprovalGateDenied, c.now(first), ReviewDecisionRequired, Some(ReviewGuard),
                                 Some(InvariantsOf(ReviewGuard)));
            && LegId(c, APPROVAL, 1) == first && LegId(c, APPROVAL, 2) == last
            && Reviewed(c, denied, FirstSignal(v), Returned(Applied(CaseStateChanged, c.now(last))))
               == Returned(ApprovedOn(c, v))
            && Reviewed(c, denied, FirstSignal(v), Raised(RuntimeError)) == Raised(RuntimeError)
  {
    LegIdsInFull(c);
    hide LegId, IdFor;
  }

  /** A new run at REVIEW_PENDING returns exactly if the case has no open blocker and the
      first signal names a decision that by then is stored, is of the case and accepts; the
      case then ends at APPROVED_FOR_SUBMISSION, and otherwise stays where it was. The
      decisions posted during the wait are stored unless a blocker stopped the run before. */
  ghost predicate ReviewLeaves(c: Config, s: Store, v: Review, t: Store, o: Outcome<WorkflowResult>) {
    var signal := if v.pending.Some? then v.pending.value else v.arriving;
    var blocked := OpenBlocker(s, c.caseId);
    var reviews := if blocked || v.pending.Some? then s.reviews else s.reviews + v.posted;
    var open := !blocked && Accepting(reviews, c.caseId, signal.decisionId);
    && o == (if open then Returned(ApprovedOn(c, v)) else Raised(RuntimeError))
    && c.caseId in s.cases
    && t == s.(cases := Row(s, c.caseId, if open then ApprovedForSubmission else ReviewPending), reviews := reviews,
               ledger := t.ledger, audit := t.audit)
  }

  lemma ApprovalIdsApart(c: Config, s: Store)
    requires Usable(c) && NewRun(c, s)
    ensures Unlogged(c, s, APPROVAL, 1) && Unlogged(c, Move(c, s, RequestFor(c, APPROVAL, 1, None)).0, APPROVAL, 2)
  {
    Unused(c, s, APPROVAL, 1);
    Unused(c, s, APPROVAL, 2);
    hide Usable, NewRun, Move, RequestFor, LegId, Unlogged;
    LegsApart(c, APPROVAL, 1, APPROVAL, 2);
    MoveKeepsUnlogged(c, s, APPROVAL, 1, None, APPROVAL, 2);
  }

  lemma SameBlockers(s: Store, t: Store, c: string)
    requires t.contradictions == s.contradictions
    ensures OpenBlocker(t, c) <==> OpenBlocker(s, c)
  {
  }

  lemma WaitedUnlogged(c: Config, s: Store, v: Review)
    ensures Unlogged(c, Waited(s, v), APPROVAL, 2) <==> Unlogged(c, s, APPROVAL, 2)
  {
    hide LegId;
  }

  lemma WaitBranch(c: Config, s: Store, t: Store, v: Review)
    requires Usable(c) && At(c, s, ReviewPending) && Unlogged(c, t, APPROVAL, 2) && !OpenBlocker(s, c.caseId)
    requires t == s.(ledger := t.ledger, audit := t.audit)
    ensures var denied := Denied(ApprovalGateDenied, c.now(LegId(c, APPROVAL, 1)), ReviewDecisionRequired, Some(ReviewGuard),
                                 Some(InvariantsOf(ReviewGuard)));
            var (u, o) := AfterReview(c, t, v, denied);
            ReviewLeaves(c, s, v, u, o)
  {
    ReviewedInFull(c, v);
    WaitedInFull(c, t, v);
    WaitedUnlogged(c, t, v);
    RowSame(s, c.caseId);
    hide Usable, LegId, IdFor, Unlogged, OpenBlocker, Move, RequestFor, Waited, Accepting, Row, Reviewed, ApprovedOn;
    var signal, w := FirstSignal(v), Waited(t, v);
    if signal.decisionId.Some? {
      SameBlockers(s, w, c.caseId);
      SecondApproval(c, w, signal.decisionId.value);
      SameRow(s, w, c.caseId);
    } else {
      assert !Accepting(w.reviews, c.caseId, None) by { NoneAccepts(w.reviews, c.caseId); }
    }
  }

  lemma NoneAccepts(reviews: seq<ReviewRow>, c: string)
    ensures !Accepting(reviews, c, None)
  {
  }

  lemma ReviewBranch(c: Config, s: Store, v: Review)
    requires Usable(c) && NewRun(c, s) && At(c, s, ReviewPending)
    ensures var (t, o) := FromReview(c, s, v); ReviewLeaves(c, s, v, t, o)
  {
    ApprovalIdsApart(c, s);
    RowSame(s, c.caseId);
    hide Usable, NewRun, LegId, Unlogged, OpenBlocker, Move, RequestFor, AfterReview, Accepting, Row;
    FirstApproval(c, s);
    var (t, o) := Move(c, s, RequestFor(c, APPROVAL, 1, None));
    if !OpenBlocker(s, c.caseId) {
      hide ReviewLeaves;
      WaitBranch(c, s, t, v);
    }
  }

  lemma RunFromReviewPending(c: Config, s: Store, v: Review)
    requires Usable(c) && NewRun(c, s) && At(c, s, ReviewPending)
    ensures var (t, o) := Flow(c, s, v); ReviewLeaves(c, s, v, t, o)
  {
    hide Flow, FromReview, Usable, NewRun, ReviewLeaves;
    FlowBranchesLate(c, s, v);
    ReviewBranch(c, s, v);
  }

  // --------------------------------------------------------------------- other states

  /** No branch of the run is for the state of the case. */
  predicate Unforeseen(c: Config, s: Store) {
    && c.caseId in s.cases
    && !At(c, s, IntakePending) && !At(c, s, IntakeComplete) && !At(c, s, ComplianceComplete) && !At(c, s, IncentivesComplete)
    && !At(c, s, DocumentComplete) && !At(c, s, Submitted) && !At(c, s, CommentReviewPending)
    && !At(c, s, CorrectionPending) && !At(c, s, ResubmissionPending) && !At(c, s, ReviewPending)
  }

  lemma WrongState(c: Config, s: Store)
    requires Usable(c) && Unlogged(c, s, APPROVAL, 1) && c.caseId in s.cases && !At(c, s, ReviewPending)
    ensures var (t, o) := Move(c, s, RequestFor(c, APPROVAL, 1, None));
            && o == Returned(Denied(StateTransitionDenied, c.now(LegId(c, APPROVAL, 1)), FromStateMismatch, None, None))
            && t == s.(ledger := t.ledger, audit := t.audit)
  {
    var req := RequestFor(c, APPROVAL, 1, None);
    ApprovalRequest(c, 1, None);
    hide RequestFor, LegId, Usable, Decide, FindRow, Transition, PathEdge, Move;
    Answers.PathRefusedIff(s, req, c.draws(req.requestId).pick);
    RefusalInFull(s, req, c.draws(req.requestId).pick);
    MoveIs(c, s, req);
  }

  lemma WrongStateRaises(c: Config, s: Store, v: Review)
    requires Usable(c) && Unlogged(c, s, APPROVAL, 1) && c.caseId in s.cases && !At(c, s, ReviewPending)
    ensures var (t, o) := FromReview(c, s, v);
            o == Raised(RuntimeError) && t == s.(ledger := t.ledger, audit := t.audit)
  {
    hide Usable, LegId, Unlogged, Move, RequestFor, AfterReview, At;
    WrongState(c, s);
    var (t, o) := Move(c, s, RequestFor(c, APPROVAL, 1, None));
  }

  lemma FlowElsewhere(c: Config, s: Store, v: Review)
    requires Usable(c) && Unforeseen(c, s)
    ensures Flow(c, s, v) == FromReview(c, s, v)
  {
    FlowStarts(c, s, v, s.cases[c.caseId].caseState);
    hide Usable, Flow, FromState, FromIntakePending, FromIntakeComplete, FromComplianceComplete, FromIncentivesComplete,
      FromDocumentComplete, FromCommentReview, FromResubmission, FromReview;
    FromStateCases(c, s, s.cases[c.caseId].caseState, v);
  }

  /** From every other state, the hold and the ends of a run among them, a new run asks for
      the approval, is told the case is elsewhere, and raises; the case stays where it is. */
  lemma RunFromUnforeseen(c: Config, s: Store, v: Review)
    requires Usable(c) && NewRun(c, s) && Unforeseen(c, s)
    ensures var (t, o) := Flow(c, s, v);
            o == Raised(RuntimeError) && t == s.(ledger := t.ledger, audit := t.audit)
  {
    ApprovalIdsApart(c, s);
    hide Flow, FromReview, Usable, NewRun, LegId, Unlogged, Move, RequestFor;
    FlowElsewhere(c, s, v);
    WrongStateRaises(c, s, v);
  }
}
