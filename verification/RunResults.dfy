/** When a new run of the workflow returns, and what it leaves, read off the tables it starts
    from and the adapters. */
module RunResults {
  import opened Contracts
  import opened Tables
  import opened RequestIds
  import opened Transitions
  import opened Histories
  import opened Guarantees
  import opened Activities
  import opened Workflow
  import opened WorkflowOutcomes
  import Answers
  import Evidence
  import Packages
  import Submission
  import SubmissionHistories

  // ------------------------------------------------------------------- one transition

  function Row(s: Store, c: string, state: CaseState): map<string, CaseRow>
    requires c in s.cases
  {
    s.cases[c := s.cases[c].(caseState := state)]
  }

  ghost predicate OpenFor(c: Config, s: Store, leg: Leg) {
    GateOpen(s, RequestFor(c, leg, 1, None), c.draws(LegId(c, leg, 1)).pick)
  }

  lemma RowSame(s: Store, c: string)
    requires c in s.cases
    ensures Row(s, c, s.cases[c].caseState) == s.cases
  {
  }

  /** A request along an edge of the path, from the state the case is in. */
  lemma PathDecision(s: Store, req: TransitionRequest, pick: nat)
    requires req.caseId in s.cases && s.cases[req.caseId].caseState == req.fromState
    requires req.fromState != EmergencyHold && req.toState != EmergencyHold && PathEdge(req.fromState, req.toState)
    ensures var r := Decide(s, req, pick);
            if GateOpen(s, req, pick) then r == Applied(CaseStateChanged, req.requestedAt) else r.Denied?
  {
    hide GateOpen, PathEdge, Decide;
    AppliedIff(s, req, pick);
    if Decide(s, req, pick).Applied? { AppliedIsAccepted(s, req, pick); }
  }

  lemma PathInFull(s: Store, req: TransitionRequest, pick: nat)
    requires FindRow(s.ledger, req.requestId).None? && req.caseId in s.cases
    requires s.cases[req.caseId].caseState == req.fromState
    requires req.fromState != EmergencyHold && req.toState != EmergencyHold && PathEdge(req.fromState, req.toState)
    ensures var (t, o) := Transition(s, req, pick);
            var open := GateOpen(s, req, pick);
            && o.Returned? && (if open then o.value == Applied(CaseStateChanged, req.requestedAt) else o.value.Denied?)
            && t == s.(cases := Row(s, req.caseId, if open then req.toState else req.fromState), ledger := t.ledger, audit := t.audit)
  {
    PathDecision(s, req, pick);
    RowSame(s, req.caseId);
    hide GateOpen, PathEdge, Decide, LedgerRowFor, AuditRowFor, FindRow;
  }

  /** What a run asks for, in whose name. */
  lemma RequestInFull(c: Config, leg: Leg)
    ensures var req := RequestFor(c, leg, 1, None);
            && req.requestId == LegId(c, leg, 1) && req.caseId == c.caseId && req.requestedAt == c.now(LegId(c, leg, 1))
            && req.fromState == leg.fromState && req.toState == leg.toState
            && req.actorType == "system_guard" && req.actorId == "system-guard"
            && req.correlationId == "permit-case/" + c.caseId + ":" + c.runId
            && req.requiredReviewId == None && req.overrideId == None
  {
    hide LegId;
  }

  /** A transition the run insists on, from the state it names along an edge of the path. */
  lemma MustInFull(c: Config, s: Store, leg: Leg)
    requires Usable(c) && Unlogged(c, s, leg, 1) && At(c, s, leg.fromState)
    requires leg.fromState != EmergencyHold && leg.toState != EmergencyHold && PathEdge(leg.fromState, leg.toState)
    ensures var (t, o) := Must(c, s, leg);
            var open := OpenFor(c, s, leg);
            && o == (if open then Returned(Applied(CaseStateChanged, c.now(LegId(c, leg, 1)))) else Raised(RuntimeError))
            && t == s.(cases := Row(s, c.caseId, if open then leg.toState else leg.fromState), ledger := t.ledger, audit := t.audit)
  {
    RequestInFull(c, leg);
    hide RequestFor, LegId, GateOpen, PathEdge, Transition, FindRow, Usable, Row;
    var req := RequestFor(c, leg, 1, None);
    PathInFull(s, req, c.draws(req.requestId).pick);
    var (u, v) := Transition(s, req, c.draws(req.requestId).pick);
    assert Do(c, s, req.requestId, ApplyTransition(req)) == (u, Returned(TransitionSays(v.value)));
  }

  /** The gate of a leg, over the tables. */
  lemma GateOfLeg(c: Config, s: Store, leg: Leg)
    ensures var id := LegId(c, leg, 1);
            && (leg.toState == IntakeComplete ==> (OpenFor(c, s, leg) <==> c.caseId in s.projects))
            && (leg.toState == JurisdictionComplete ==> (OpenFor(c, s, leg) <==> HasFact(s.resolutions, c.caseId)))
            && (leg.toState == ResearchComplete ==> (OpenFor(c, s, leg) <==> PicksFresh(s, c.caseId, c.draws(id).pick)))
            && (leg.toState == ComplianceComplete ==>
                  (OpenFor(c, s, leg) <==> FreshSince(s.compliance, c.caseId, c.now(id) - 30 * DAY)))
            && (leg.toState == IncentivesComplete ==>
                  (OpenFor(c, s, leg) <==> FreshSince(s.incentives, c.caseId, c.now(id) - 3 * DAY)))
            && (leg.toState == CorrectionPending ==> OpenFor(c, s, leg))
            && (leg.toState == DocumentComplete && leg.fromState == ResubmissionPending ==> OpenFor(c, s, leg))
            && (leg.toState == DocumentComplete && HasPackage(s, c.caseId) ==> OpenFor(c, s, leg))
  {
    hide LegId, IdOf, HasFact, FreshSince, PicksFresh, HasPackage, HasFallback, Proven, ReviewAccepts, Overridden, OpenBlocker;
  }

  // ------------------------------------------------------------------ evidence stages

  /** The case has a record, or is given one whose id no row has. */
  ghost predicate Supplied<T(!new)>(rows: seq<Fact<T>>, c: string, records: seq<Evidence.Record<T>>) {
    || (exists f :: f in rows && f.caseId == c)
    || exists r :: r in records && forall f | f in rows :: f.id != r.id
  }

  /** The same for a record dated no earlier than the deadline. */
  ghost predicate SuppliedSince(rows: seq<Fact<int>>, c: string, records: seq<Evidence.Record<int>>, deadline: int) {
    || (exists f :: f in rows && f.caseId == c && f.body >= deadline)
    || exists r :: r in records && r.body >= deadline && forall f | f in rows :: f.id != r.id
  }

  /** The rows with, after them, exactly the records whose ids were free. */
  ghost predicate Supplements<T(!new)>(before: seq<Fact<T>>, after: seq<Fact<T>>, c: string, records: seq<Evidence.Record<T>>) {
    && before <= after
    && (forall r | r in records && (forall f | f in before :: f.id != r.id) :: Fact(r.id, c, r.body) in after[|before|..])
    && (forall f | f in after[|before|..] ::
          f.caseId == c && Evidence.Record(f.id, f.body) in records && forall g | g in before :: g.id != f.id)
  }

  lemma Free<T(!new)>(rows: seq<Fact<T>>, id: string)
    ensures Evidence.Taken(rows, id) <==> !(forall f | f in rows :: f.id != id)
  {
    if f :| f in rows && f.id == id { Evidence.MemberTaken(rows, f); }
  }

  lemma PendingSupplements<T(!new)>(rows: seq<Fact<T>>, c: string, records: seq<Evidence.Record<T>>)
    ensures Supplements(rows, rows + Evidence.Pending(rows, c, records), c, records)
  {
    Evidence.PendingRows(rows, c, records);
    forall id: string ensures Evidence.Taken(rows, id) <==> !(forall f | f in rows :: f.id != id) { Free(rows, id); }
    hide Evidence.Pending, Evidence.Taken;
    var pending := Evidence.Pending(rows, c, records);
    var after := rows + pending;
    assert after[|rows|..] == pending;
    forall r | r in records && (forall f | f in rows :: f.id != r.id) ensures Fact(r.id, c, r.body) in pending {
      assert Evidence.Record(r.id, r.body) == r;
    }
  }

  /** The tables after an evidence loop that stores what is free. */
  ghost function Stocked(c: Config, s: Store, kind: FactKind): Store {
    match kind
    case Jurisdictions =>
      s.(resolutions := s.resolutions + Evidence.Pending(s.resolutions, c.caseId, c.x.jurisdictions(c.caseId)))
    case RequirementSets =>
      s.(requirements := s.requirements + Evidence.Pending(s.requirements, c.caseId, c.x.requirements(c.caseId)))
    case ComplianceEvaluations =>
      s.(compliance := s.compliance + Evidence.Pending(s.compliance, c.caseId, c.x.compliance(c.caseId)))
    case IncentiveAssessments =>
      s.(incentives := s.incentives + Evidence.Pending(s.incentives, c.caseId, c.x.incentives(c.caseId)))
  }

  /** The adapter gives records, and no free id twice. */
  ghost predicate Storable(c: Config, s: Store, kind: FactKind) {
    match kind
    case Jurisdictions => Evidence.Storable(s.resolutions, c.caseId, c.x.jurisdictions(c.caseId))
    case RequirementSets => Evidence.Storable(s.requirements, c.caseId, c.x.requirements(c.caseId))
    case ComplianceEvaluations => Evidence.Storable(s.compliance, c.caseId, c.x.compliance(c.caseId))
    case IncentiveAssessments => Evidence.Storable(s.incentives, c.caseId, c.x.incentives(c.caseId))
  }

  lemma LoopInFull(c: Config, s: Store, id: string, kind: FactKind)
    requires Usable(c) && c.caseId in s.cases && Storable(c, s, kind)
    ensures Do(c, s, id, PersistFacts(kind, c.caseId)) == (Stocked(c, s, kind), Returned(Nothing))
  {
    hide Usable, Evidence.Pending, Evidence.DistinctIds, Evidence.IdsOf, Evidence.Selected;
  }

  lemma StageInFull(c: Config, s: Store, kind: FactKind, activity: string, leg: Leg)
    requires Usable(c) && Unlogged(c, s, leg, 1) && At(c, s, leg.fromState) && Storable(c, s, kind)
    requires leg.fromState != EmergencyHold && leg.toState != EmergencyHold && PathEdge(leg.fromState, leg.toState)
    ensures var (t, o) := Stage(c, s, kind, activity, leg);
            var u := Stocked(c, s, kind);
            var open := OpenFor(c, u, leg);
            && o == (if open then Returned(Applied(CaseStateChanged, c.now(LegId(c, leg, 1)))) else Raised(RuntimeError))
            && t == u.(cases := Row(s, c.caseId, if open then leg.toState else leg.fromState), ledger := t.ledger, audit := t.audit)
  {
    StockedRest(c, s, kind);
    hide Do, Must, LegId, IdOf, OpenFor, PathEdge, Row, Storable, Stocked, Usable;
    var u := Stocked(c, s, kind);
    LoopInFull(c, s, IdOf(c, activity, 1), kind);
    SameRow(s, u, c.caseId);
    MustInFull(c, u, leg);
  }

  lemma StockedRest(c: Config, s: Store, kind: FactKind)
    ensures var u := Stocked(c, s, kind); u.cases == s.cases && u.ledger == s.ledger && u.packages == s.packages
  {
    hide Evidence.Pending;
  }

  lemma SameRow(s: Store, u: Store, c: string)
    requires u.cases == s.cases && c in s.cases
    ensures forall state :: Row(u, c, state) == Row(s, c, state)
  {
  }

  // -------------------------------------------------------------- the gates of a run

  ghost predicate LocatedIn(c: Config, s: Store) {
    Supplied(s.resolutions, c.caseId, c.x.jurisdictions(c.caseId))
  }

  /** The row the unordered query picks among the old and the new sets is fresh. */
  ghost predicate RequiredIn(c: Config, s: Store, id: string) {
    var rows := OfCase(s.requirements + Evidence.Pending(s.requirements, c.caseId, c.x.requirements(c.caseId)), c.caseId);
    rows != [] && rows[c.draws(id).pick % |rows|].body == "FRESH"
  }

  ghost predicate EvaluatedIn(c: Config, s: Store, id: string) {
    SuppliedSince(s.compliance, c.caseId, c.x.compliance(c.caseId), c.now(id) - 30 * 86_400_000_000)
  }

  ghost predicate AssessedIn(c: Config, s: Store, id: string) {
    SuppliedSince(s.incentives, c.caseId, c.x.incentives(c.caseId), c.now(id) - 3 * 86_400_000_000)
  }

  lemma SuppliedIff<T(!new)>(rows: seq<Fact<T>>, c: string, records: seq<Evidence.Record<T>>)
    requires Evidence.Storable(rows, c, records)
    ensures HasFact(rows + Evidence.Pending(rows, c, records), c) <==> Supplied(rows, c, records)
  {
    Evidence.PersistThenHasFact(rows, c, records, Evidence.ByCase);
    forall id: string ensures Evidence.Taken(rows, id) <==> !(forall f | f in rows :: f.id != id) { Free(rows, id); }
    hide Evidence.Pending, Evidence.Taken, Evidence.Selected;
  }

  lemma SuppliedSinceIff(rows: seq<Fact<int>>, c: string, records: seq<Evidence.Record<int>>, deadline: int)
    requires Evidence.Storable(rows, c, records)
    ensures FreshSince(rows + Evidence.Pending(rows, c, records), c, deadline) <==> SuppliedSince(rows, c, records, deadline)
  {
    Evidence.PersistThenFresh(rows, c, records, Evidence.ByCase, deadline);
    forall id: string ensures Evidence.Taken(rows, id) <==> !(forall f | f in rows :: f.id != id) { Free(rows, id); }
    hide Evidence.Pending, Evidence.Taken, Evidence.Selected;
  }

  lemma GatesAfterLoops(c: Config, s: Store)
    ensures Storable(c, s, Jurisdictions) ==> (OpenFor(c, Stocked(c, s, Jurisdictions), JURISDICTION) <==> LocatedIn(c, s))
    ensures OpenFor(c, Stocked(c, s, RequirementSets), RESEARCH) <==> RequiredIn(c, s, LegId(c, RESEARCH, 1))
    ensures Storable(c, s, ComplianceEvaluations) ==>
              (OpenFor(c, Stocked(c, s, ComplianceEvaluations), COMPLIANCE) <==> EvaluatedIn(c, s, LegId(c, COMPLIANCE, 1)))
    ensures Storable(c, s, IncentiveAssessments) ==>
              (OpenFor(c, Stocked(c, s, IncentiveAssessments), INCENTIVES) <==> AssessedIn(c, s, LegId(c, INCENTIVES, 1)))
  {
    hide LegId, OpenFor, HasFact, FreshSince, Supplied, SuppliedSince, Evidence.Storable, Evidence.Pending, OfCase;
    GateOfLeg(c, Stocked(c, s, Jurisdictions), JURISDICTION);
    GateOfLeg(c, Stocked(c, s, RequirementSets), RESEARCH);
    GateOfLeg(c, Stocked(c, s, ComplianceEvaluations), COMPLIANCE);
    GateOfLeg(c, Stocked(c, s, IncentiveAssessments), INCENTIVES);
    var x, k := c.x, c.caseId;
    if Storable(c, s, Jurisdictions) { SuppliedIff(s.resolutions, k, x.jurisdictions(k)); }
    if Storable(c, s, ComplianceEvaluations) {
      SuppliedSinceIff(s.compliance, k, x.compliance(k), c.now(LegId(c, COMPLIANCE, 1)) - 30 * DAY);
    }
    if Storable(c, s, IncentiveAssessments) {
      SuppliedSinceIff(s.incentives, k, x.incentives(k), c.now(LegId(c, INCENTIVES, 1)) - 3 * DAY);
    }
  }

  /** The result of a run whose first and last transitions are these. */
  function ResultOf(c: Config, first: string, last: string): WorkflowResult {
    WorkflowResult(c.caseId, "permit-case/" + c.caseId + ":" + c.runId, None, None,
                   first, Applied(CaseStateChanged, c.now(first)), None, None,
                   last, Applied(CaseStateChanged, c.now(last)))
  }

  /** The id of a request of the run, spelled out. */
  function IdFor(c: Config, step: string, attempt: nat): string {
    RequestId("permit-case/" + c.caseId, c.runId, step, attempt)
  }

  lemma LegIdsInFull(c: Config)
    ensures LegId(c, INTAKE, 1) == IdFor(c, "intake_pending_to_intake_complete", 1)
    ensures LegId(c, JURISDICTION, 1) == IdFor(c, "intake_complete_to_jurisdiction_complete", 1)
    ensures LegId(c, RESEARCH, 1) == IdFor(c, "jurisdiction_complete_to_research_complete", 1)
    ensures LegId(c, COMPLIANCE, 1) == IdFor(c, "research_complete_to_compliance_complete", 1)
    ensures LegId(c, INCENTIVES, 1) == IdFor(c, "compliance_complete_to_incentives_complete", 1)
    ensures LegId(c, DOCUMENT, 1) == IdFor(c, "incentives_complete_to_document_complete", 1)
    ensures LegId(c, SUBMIT, 1) == IdFor(c, "document_complete_to_submitted", 1)
    ensures LegId(c, MANUAL, 1) == IdFor(c, "document_complete_to_manual_submission_required", 1)
    ensures LegId(c, CORRECTION, 1) == IdFor(c, "comment_review_pending_to_correction_pending", 1)
    ensures LegId(c, RESUBMISSION, 1) == IdFor(c, "resubmission_pending_to_document_complete", 1)
    ensures LegId(c, APPROVAL, 1) == IdFor(c, "review_pending_to_approved_for_submission", 1)
    ensures LegId(c, APPROVAL, 2) == IdFor(c, "review_pending_to_approved_for_submission", 2)
  {
    hide RequestId;
  }

  // ------------------------------------------------------------------- simple branches

  /** A run goes to the branch of the state its case is in. */
  lemma FlowStarts(c: Config, s: Store, v: Review, state: CaseState)
    requires Usable(c) && At(c, s, state)
    ensures Flow(c, s, v) == FromState(c, s, state, v)
  {
    hide Usable, FromState;
    assert s.(cases := s.cases) == s;
  }

  lemma FlowBranches(c: Config, s: Store, v: Review)
    requires Usable(c) && c.caseId in s.cases
    ensures At(c, s, IntakePending) ==> Flow(c, s, v) == FromIntakePending(c, s)
    ensures At(c, s, IntakeComplete) ==> Flow(c, s, v) == FromIntakeComplete(c, s)
    ensures At(c, s, ComplianceComplete) ==> Flow(c, s, v) == FromComplianceComplete(c, s)
    ensures At(c, s, CommentReviewPending) ==> Flow(c, s, v) == FromCommentReview(c, s)
  {
    FlowStarts(c, s, v, s.cases[c.caseId].caseState);
    hide Usable, Flow, FromState, FromIntakePending, FromIntakeComplete, FromComplianceComplete, FromIncentivesComplete,
      FromDocumentComplete, FromCommentReview, FromResubmission, FromReview;
    FromStateCases(c, s, s.cases[c.caseId].caseState, v);
  }

  lemma FlowBranchesLate(c: Config, s: Store, v: Review)
    requires Usable(c) && c.caseId in s.cases
    ensures At(c, s, IncentivesComplete) ==> Flow(c, s, v) == FromIncentivesComplete(c, s)
    ensures At(c, s, DocumentComplete) ==> Flow(c, s, v) == FromDocumentComplete(c, s)
    ensures At(c, s, ResubmissionPending) ==> Flow(c, s, v) == FromResubmission(c, s)
    ensures At(c, s, ReviewPending) ==> Flow(c, s, v) == FromReview(c, s, v)
  {
    FlowStarts(c, s, v, s.cases[c.caseId].caseState);
    hide Usable, Flow, FromState, FromIntakePending, FromIntakeComplete, FromComplianceComplete, FromIncentivesComplete,
      FromDocumentComplete, FromCommentReview, FromResubmission, FromReview;
    FromStateCases(c, s, s.cases[c.caseId].caseState, v);
  }

  /** A case that does not exist is created waiting for review, fully supported. */
  lemma MissingCaseIsCreated(c: Config, s: Store, v: Review)
    requires Usable(c) && c.caseId !in s.cases
    ensures var u := s.(cases := s.cases[c.caseId := CaseRow(ReviewPending, "FULLY_SUPPORTED", None)]);
            Flow(c, s, v) == Flow(c, u, v)
  {
    hide Usable, FromState;
    var u := s.(cases := s.cases[c.caseId := CaseRow(ReviewPending, "FULLY_SUPPORTED", None)]);
    assert u.(cases := u.cases) == u;
  }

  lemma Unused(c: Config, s: Store, leg: Leg, attempt: nat)
    requires NewRun(c, s)
    ensures Unlogged(c, s, leg, attempt)
  {
  }

  lemma IntakeBranch(c: Config, s: Store)
    requires Usable(c) && Unlogged(c, s, INTAKE, 1) && At(c, s, IntakePending)
    ensures var (t, o) := FromIntakePending(c, s);
            var id, open := LegId(c, INTAKE, 1), c.caseId in s.projects;
            && o == (if open then Returned(ResultOf(c, id, id).(intakeRequestId := Some(id),
                                                               intakeResult := Some(Applied(CaseStateChanged, c.now(id)))))
                     else Raised(RuntimeError))
            && t == s.(cases := Row(s, c.caseId, if open then IntakeComplete else IntakePending), ledger := t.ledger,
                       audit := t.audit)
  {
    hide LegId, OpenFor, Must, Usable, Unlogged, Row;
    MustInFull(c, s, INTAKE);
    GateOfLeg(c, s, INTAKE);
  }

  lemma CommentBranch(c: Config, s: Store)
    requires Usable(c) && Unlogged(c, s, CORRECTION, 1) && At(c, s, CommentReviewPending)
    ensures var (t, o) := FromCommentReview(c, s);
            var id := LegId(c, CORRECTION, 1);
            && o == Returned(ResultOf(c, id, id))
            && t == s.(cases := Row(s, c.caseId, CorrectionPending), ledger := t.ledger, audit := t.audit)
  {
    hide LegId, OpenFor, Must, Usable, Unlogged, Row;
    MustInFull(c, s, CORRECTION);
    GateOfLeg(c, s, CORRECTION);
  }

  lemma IncentivesBranch(c: Config, s: Store)
    requires Usable(c) && Unlogged(c, s, INCENTIVES, 1) && At(c, s, ComplianceComplete) && Storable(c, s, IncentiveAssessments)
    ensures var (t, o) := IncentivesStage(c, s);
            var id := LegId(c, INCENTIVES, 1);
            var open := AssessedIn(c, s, id);
            && o == (if open then Returned(Applied(CaseStateChanged, c.now(id))) else Raised(RuntimeError))
            && Supplements(s.incentives, t.incentives, c.caseId, c.x.incentives(c.caseId))
            && t == s.(cases := Row(s, c.caseId, if open then IncentivesComplete else ComplianceComplete),
                       incentives := t.incentives, ledger := t.ledger, audit := t.audit)
  {
    hide LegId, OpenFor, Stage, Usable, Unlogged, Row, Supplements, AssessedIn, Evidence.Pending, Storable;
    StageInFull(c, s, IncentiveAssessments, "persist_incentives", INCENTIVES);
    GatesAfterLoops(c, s);
    PendingSupplements(s.incentives, c.caseId, c.x.incentives(c.caseId));
  }

  lemma ComplianceBranch(c: Config, s: Store)
    requires Usable(c) && Unlogged(c, s, INCENTIVES, 1) && At(c, s, ComplianceComplete) && Storable(c, s, IncentiveAssessments)
    ensures var (t, o) := FromComplianceComplete(c, s);
            var id := LegId(c, INCENTIVES, 1);
            var open := AssessedIn(c, s, id);
            && o == (if open then Returned(ResultOf(c, id, id)) else Raised(RuntimeError))
            && Supplements(s.incentives, t.incentives, c.caseId, c.x.incentives(c.caseId))
            && t == s.(cases := Row(s, c.caseId, if open then IncentivesComplete else ComplianceComplete),
                       incentives := t.incentives, ledger := t.ledger, audit := t.audit)
  {
    hide LegId, IncentivesStage, Usable, Unlogged, Row, Supplements, AssessedIn, Storable;
    IncentivesBranch(c, s);
    var (t, o) := IncentivesStage(c, s);
  }

  /** A new run at INTAKE_PENDING returns exactly if the case has a project. */
  lemma RunFromIntakePending(c: Config, s: Store, v: Review)
    requires Usable(c) && NewRun(c, s) && At(c, s, IntakePending)
    ensures var (t, o) := Flow(c, s, v);
            var id := IdFor(c, "intake_pending_to_intake_complete", 1);
            var open := c.caseId in s.projects;
            && o == (if open then Returned(ResultOf(c, id, id).(intakeRequestId := Some(id),
                                                               intakeResult := Some(Applied(CaseStateChanged, c.now(id)))))
                     else Raised(RuntimeError))
            && t == s.(cases := s.cases[c.caseId := s.cases[c.caseId].(caseState := if open then IntakeComplete
                                                                                    else IntakePending)],
                       ledger := t.ledger, audit := t.audit)
  {
    LegIdsInFull(c);
    Unused(c, s, INTAKE, 1);
    hide Flow, FromIntakePending, LegId, IdFor, Usable, NewRun, Unlogged;
    FlowBranches(c, s, v);
    IntakeBranch(c, s);
  }

  /** A new run at COMMENT_REVIEW_PENDING always returns. */
  lemma RunFromCommentReview(c: Config, s: Store, v: Review)
    requires Usable(c) && NewRun(c, s) && At(c, s, CommentReviewPending)
    ensures var (t, o) := Flow(c, s, v);
            var id := IdFor(c, "comment_review_pending_to_correction_pending", 1);
            && o == Returned(ResultOf(c, id, id))
            && t == s.(cases := s.cases[c.caseId := s.cases[c.caseId].(caseState := CorrectionPending)],
                       ledger := t.ledger, audit := t.audit)
  {
    LegIdsInFull(c);
    Unused(c, s, CORRECTION, 1);
    hide Flow, FromCommentReview, LegId, IdFor, Usable, NewRun, Unlogged;
    FlowBranches(c, s, v);
    CommentBranch(c, s);
  }

  /** A new run at COMPLIANCE_COMPLETE stores the assessments whose ids are free, and returns
      exactly if the case then has one no older than three days. */
  lemma RunFromComplianceComplete(c: Config, s: Store, v: Review)
    requires Usable(c) && NewRun(c, s) && At(c, s, ComplianceComplete) && Storable(c, s, IncentiveAssessments)
    ensures var (t, o) := Flow(c, s, v);
            var id := IdFor(c, "compliance_complete_to_incentives_complete", 1);
            var open := AssessedIn(c, s, id);
            && o == (if open then Returned(ResultOf(c, id, id)) else Raised(RuntimeError))
            && Supplements(s.incentives, t.incentives, c.caseId, c.x.incentives(c.caseId))
            && t == s.(cases := s.cases[c.caseId := s.cases[c.caseId].(caseState := if open then IncentivesComplete
                                                                                    else ComplianceComplete)],
                       incentives := t.incentives, ledger := t.ledger, audit := t.audit)
  {
    LegIdsInFull(c);
    Unused(c, s, INCENTIVES, 1);
    hide Flow, FromComplianceComplete, LegId, IdFor, Usable, NewRun, Unlogged, Supplements, AssessedIn, Storable;
    FlowBranches(c, s, v);
    ComplianceBranch(c, s);
  }

  // ----------------------------------------------------- records that cannot be stored

  /** The rows an evidence loop that cannot store reports: those of the case, or, for the dated
      tables, those with the records' ids. */
  ghost predicate Reports(c: Config, s: Store, kind: FactKind) {
    match kind
    case Jurisdictions => exists f :: f in s.resolutions && f.caseId == c.caseId
    case RequirementSets => exists f :: f in s.requirements && f.caseId == c.caseId
    case ComplianceEvaluations =>
      exists f :: f in s.compliance && exists r :: r in c.x.compliance(c.caseId) && r.id == f.id
    case IncentiveAssessments =>
      exists f :: f in s.incentives && exists r :: r in c.x.incentives(c.caseId) && r.id == f.id
  }

  predicate NoRecords(c: Config, kind: FactKind) {
    match kind
    case Jurisdictions => c.x.jurisdictions(c.caseId) == []
    case RequirementSets => c.x.requirements(c.caseId) == []
    case ComplianceEvaluations => c.x.compliance(c.caseId) == []
    case IncentiveAssessments => c.x.incentives(c.caseId) == []
  }

  lemma {:induction false} SelectedIff<T(!new)>(rows: seq<Fact<T>>, c: string, records: seq<Evidence.Record<T>>,
                                                reload: Evidence.Reload)
    ensures Evidence.Selected(rows, c, Evidence.IdsOf(records), reload) != []
            <==> if reload == Evidence.ByCase then exists f :: f in rows && f.caseId == c
                 else exists f :: f in rows && exists r :: r in records && r.id == f.id
  {
    if rows != [] {
      var n := |rows| - 1;
      SelectedIff(rows[..n], c, records, reload);
      assert rows == rows[..n] + [rows[n]];
      var ids := Evidence.IdsOf(records);
      assert rows[n].id in ids <==> exists r :: r in records && r.id == rows[n].id by {
        if rows[n].id in ids { var i :| 0 <= i < |ids| && ids[i] == rows[n].id; assert records[i] in records; }
        if r :| r in records && r.id == rows[n].id { var i :| 0 <= i < |records| && records[i] == r; assert ids[i] == r.id; }
      }
    }
  }

  /** A loop that has no records to store, or a free id twice, stores nothing: it raises, or
      answers where rows are there already. */
  lemma UnstorableLoop(c: Config, s: Store, id: string, kind: FactKind)
    requires Usable(c) && c.caseId in s.cases && !Storable(c, s, kind)
    ensures Do(c, s, id, PersistFacts(kind, c.caseId))
            == (s, if NoRecords(c, kind) then Raised(LookupError) else if Reports(c, s, kind) then Returned(Nothing)
                   else Raised(RuntimeError))
  {
    hide Usable, Evidence.Pending, Evidence.DistinctIds, Evidence.IdsOf, Evidence.Selected;
    var x, k := c.x, c.caseId;
    match kind {
      case Jurisdictions => SelectedIff(s.resolutions, k, x.jurisdictions(k), Evidence.ByCase);
      case RequirementSets => SelectedIff(s.requirements, k, x.requirements(k), Evidence.ByCase);
      case ComplianceEvaluations => SelectedIff(s.compliance, k, x.compliance(k), Evidence.ByIds);
      case IncentiveAssessments => SelectedIff(s.incentives, k, x.incentives(k), Evidence.ByIds);
    }
  }

  lemma UnstorableStage(c: Config, s: Store, kind: FactKind, activity: string, leg: Leg)
    requires Usable(c) && c.caseId in s.cases && !Storable(c, s, kind)
    ensures Stage(c, s, kind, activity, leg)
            == if NoRecords(c, kind) then (s, Raised(LookupError)) else if Reports(c, s, kind) then Must(c, s, leg)
               else (s, Raised(RuntimeError))
  {
    hide Usable, Do, Must, Storable, NoRecords, Reports, IdOf;
    UnstorableLoop(c, s, IdOf(c, activity, 1), kind);
  }

  lemma NoAssessmentBranch(c: Config, s: Store)
    requires Usable(c) && Unlogged(c, s, INCENTIVES, 1) && At(c, s, ComplianceComplete)
    requires !Storable(c, s, IncentiveAssessments)
    ensures var (t, o) := FromComplianceComplete(c, s);
            var id, none := LegId(c, INCENTIVES, 1), NoRecords(c, IncentiveAssessments);
            var open := !none && Reports(c, s, IncentiveAssessments) && FreshSince(s.incentives, c.caseId, c.now(id) - 3 * DAY);
            && o == (if open then Returned(ResultOf(c, id, id)) else if none then Raised(LookupError) else Raised(RuntimeError))
            && t == s.(cases := Row(s, c.caseId, if open then IncentivesComplete else ComplianceComplete), ledger := t.ledger,
                       audit := t.audit)
  {
    RowSame(s, c.caseId);
    hide LegId, Usable, Unlogged, Storable, Stage, OpenFor, Must, NoRecords, Reports, FreshSince, Row;
    UnstorableStage(c, s, IncentiveAssessments, "persist_incentives", INCENTIVES);
    MustInFull(c, s, INCENTIVES);
    GateOfLeg(c, s, INCENTIVES);
    var (t, o) := Stage(c, s, IncentiveAssessments, "persist_incentives", INCENTIVES);
  }

  /** A new run at COMPLIANCE_COMPLETE whose adapter gives nothing, or a free id twice, stores
      no assessment; it returns exactly if it was given records, one of them stored already,
      and the case has a fresh one. */
  lemma RunStoringNoAssessment(c: Config, s: Store, v: Review)
    requires Usable(c) && NewRun(c, s) && At(c, s, ComplianceComplete) && !Storable(c, s, IncentiveAssessments)
    ensures var (t, o) := Flow(c, s, v);
            var id, none := IdFor(c, "compliance_complete_to_incentives_complete", 1), NoRecords(c, IncentiveAssessments);
            var open := && !none && Reports(c, s, IncentiveAssessments)
                        && FreshSince(s.incentives, c.caseId, c.now(id) - 3 * 86_400_000_000);
            && o == (if open then Returned(ResultOf(c, id, id)) else if none then Raised(LookupError) else Raised(RuntimeError))
            && t == s.(cases := s.cases[c.caseId := s.cases[c.caseId].(caseState := if open then IncentivesComplete
                                                                                    else ComplianceComplete)],
                       ledger := t.ledger, audit := t.audit)
  {
    LegIdsInFull(c);
    Unused(c, s, INCENTIVES, 1);
    hide Flow, FromComplianceComplete, LegId, IdFor, Usable, NewRun, Unlogged, Storable, ResultOf, NoRecords, Reports, FreshSince;
    FlowBranches(c, s, v);
    NoAssessmentBranch(c, s);
  }

  // -------------------------------------------------------------- from INTAKE_COMPLETE

  lemma StorableElsewhere(c: Config, s: Store, t: Store)
    ensures t.resolutions == s.resolutions && Storable(c, s, Jurisdictions) ==> Storable(c, t, Jurisdictions)
    ensures t.requirements == s.requirements && Storable(c, s, RequirementSets) ==> Storable(c, t, RequirementSets)
    ensures t.compliance == s.compliance && Storable(c, s, ComplianceEvaluations) ==> Storable(c, t, ComplianceEvaluations)
    ensures t.incentives == s.incentives && Storable(c, s, IncentiveAssessments) ==> Storable(c, t, IncentiveAssessments)
  {
    hide Evidence.Storable;
  }

  lemma IntakeLegsApart(c: Config)
    ensures LegId(c, JURISDICTION, 1) != LegId(c, RESEARCH, 1) && LegId(c, JURISDICTION, 1) != LegId(c, COMPLIANCE, 1)
    ensures LegId(c, RESEARCH, 1) != LegId(c, COMPLIANCE, 1)
    ensures LegId(c, JURISDICTION, 1) != LegId(c, INCENTIVES, 1) && LegId(c, RESEARCH, 1) != LegId(c, INCENTIVES, 1)
    ensures LegId(c, COMPLIANCE, 1) != LegId(c, INCENTIVES, 1)
  {
    hide LegId;
    assert JURISDICTION.step[0] != RESEARCH.step[0] && JURISDICTION.step[0] != COMPLIANCE.step[0];
    assert RESEARCH.step[0] != COMPLIANCE.step[0];
    LegsApart(c, JURISDICTION, 1, RESEARCH, 1);
    LegsApart(c, JURISDICTION, 1, COMPLIANCE, 1);
    LegsApart(c, RESEARCH, 1, COMPLIANCE, 1);
    IncentivesApart(c);
  }

  /** The state a run from RESEARCH_COMPLETE stops in. */
  ghost function ResearchStop(c: Config, s: Store): CaseState {
    if !EvaluatedIn(c, s, LegId(c, COMPLIANCE, 1)) then ResearchComplete
    else if !AssessedIn(c, s, LegId(c, INCENTIVES, 1)) then ComplianceComplete
    else IncentivesComplete
  }

  lemma ComplianceStage(c: Config, s: Store)
    requires Usable(c) && Unlogged(c, s, COMPLIANCE, 1) && At(c, s, ResearchComplete) && Storable(c, s, ComplianceEvaluations)
    ensures var (t, o) := Stage(c, s, ComplianceEvaluations, "persist_compliance", COMPLIANCE);
            var id := LegId(c, COMPLIANCE, 1);
            var open := EvaluatedIn(c, s, id);
            && o == (if open then Returned(Applied(CaseStateChanged, c.now(id))) else Raised(RuntimeError))
            && Supplements(s.compliance, t.compliance, c.caseId, c.x.compliance(c.caseId))
            && t == s.(cases := Row(s, c.caseId, if open then ComplianceComplete else ResearchComplete),
                       compliance := t.compliance, ledger := t.ledger, audit := t.audit)
  {
    hide LegId, OpenFor, Stage, Usable, Unlogged, Row, Supplements, EvaluatedIn, Evidence.Pending, Storable;
    StageInFull(c, s, ComplianceEvaluations, "persist_compliance", COMPLIANCE);
    GatesAfterLoops(c, s);
    PendingSupplements(s.compliance, c.caseId, c.x.compliance(c.caseId));
  }

  lemma RequirementsStage(c: Config, s: Store)
    requires Usable(c) && Unlogged(c, s, RESEARCH, 1) && At(c, s, JurisdictionComplete) && Storable(c, s, RequirementSets)
    ensures var (t, o) := Stage(c, s, RequirementSets, "persist_requirements", RESEARCH);
            var id := LegId(c, RESEARCH, 1);
            var open := RequiredIn(c, s, id);
            && o == (if open then Returned(Applied(CaseStateChanged, c.now(id))) else Raised(RuntimeError))
            && Supplements(s.requirements, t.requirements, c.caseId, c.x.requirements(c.caseId))
            && t == s.(cases := Row(s, c.caseId, if open then ResearchComplete else JurisdictionComplete),
                       requirements := t.requirements, ledger := t.ledger, audit := t.audit)
  {
    hide LegId, OpenFor, Stage, Usable, Unlogged, Row, Supplements, RequiredIn, Evidence.Pending, Storable;
    StageInFull(c, s, RequirementSets, "persist_requirements", RESEARCH);
    GatesAfterLoops(c, s);
    PendingSupplements(s.requirements, c.caseId, c.x.requirements(c.caseId));
  }

  lemma JurisdictionStage(c: Config, s: Store)
    requires Usable(c) && Unlogged(c, s, JURISDICTION, 1) && At(c, s, IntakeComplete) && Storable(c, s, Jurisdictions)
    ensures var (t, o) := Stage(c, s, Jurisdictions, "persist_jurisdiction", JURISDICTION);
            var id := LegId(c, JURISDICTION, 1);
            var open := LocatedIn(c, s);
            && o == (if open then Returned(Applied(CaseStateChanged, c.now(id))) else Raised(RuntimeError))
            && Supplements(s.resolutions, t.resolutions, c.caseId, c.x.jurisdictions(c.caseId))
            && t == s.(cases := Row(s, c.caseId, if open then JurisdictionComplete else IntakeComplete),
                       resolutions := t.resolutions, ledger := t.ledger, audit := t.audit)
  {
    hide LegId, OpenFor, Stage, Usable, Unlogged, Row, Supplements, LocatedIn, Evidence.Pending, Storable;
    StageInFull(c, s, Jurisdictions, "persist_jurisdiction", JURISDICTION);
    GatesAfterLoops(c, s);
    PendingSupplements(s.resolutions, c.caseId, c.x.jurisdictions(c.caseId));
  }

  /** How far the later stages get: the row the case ends with, and the tables stocked on the
      way. */
  ghost predicate ResearchLeaves(c: Config, s: Store, t: Store, o: Outcome<TransitionResult>) {
    var stop := ResearchStop(c, s);
    && o == (if stop == IncentivesComplete then Returned(Applied(CaseStateChanged, c.now(LegId(c, INCENTIVES, 1))))
             else Raised(RuntimeError))
    && c.caseId in s.cases
    && Supplements(s.compliance, t.compliance, c.caseId, c.x.compliance(c.caseId))
    && (stop == ResearchComplete ==> t.incentives == s.incentives)
    && (stop != ResearchComplete ==> Supplements(s.incentives, t.incentives, c.caseId, c.x.incentives(c.caseId)))
    && t == s.(cases := Row(s, c.caseId, stop), compliance := t.compliance, incentives := t.incentives, ledger := t.ledger,
               audit := t.audit)
  }

  lemma RowTwice(s: Store, t: Store, c: string, a: CaseState)
    requires c in s.cases && t.cases == Row(s, c, a)
    ensures forall b :: Row(t, c, b) == Row(s, c, b)
  {
  }

  lemma SameAssessed(c: Config, s: Store, t: Store, id: string)
    requires t.incentives == s.incentives
    ensures AssessedIn(c, t, id) <==> AssessedIn(c, s, id)
  {
    hide SuppliedSince;
  }

  lemma ResearchRun(c: Config, s: Store)
    requires Usable(c) && Unlogged(c, s, COMPLIANCE, 1) && Unlogged(c, s, INCENTIVES, 1) && At(c, s, ResearchComplete)
    requires Storable(c, s, ComplianceEvaluations) && Storable(c, s, IncentiveAssessments)
    ensures var (t, o) := FromResearch(c, s); ResearchLeaves(c, s, t, o)
  {
    IntakeLegsApart(c);
    hide LegId, Stage, IncentivesStage, Usable, Unlogged, Row, Supplements, EvaluatedIn, AssessedIn, Storable;
    ComplianceStage(c, s);
    StageKeeps(c, s, ComplianceEvaluations, "persist_compliance", COMPLIANCE, INCENTIVES);
    var (t, o) := Stage(c, s, ComplianceEvaluations, "persist_compliance", COMPLIANCE);
    if o.Returned? {
      RowTwice(s, t, c.caseId, ComplianceComplete);
      RowAt(c, s, t, ComplianceComplete);
      StorableElsewhere(c, s, t);
      SameAssessed(c, s, t, LegId(c, INCENTIVES, 1));
      IncentivesBranch(c, t);
      var (u, p) := IncentivesStage(c, t);
    }
  }

  lemma RowAt(c: Config, s: Store, t: Store, state: CaseState)
    requires c.caseId in s.cases && t.cases == Row(s, c.caseId, state)
    ensures At(c, t, state)
  {
  }

  lemma SameEvaluated(c: Config, s: Store, t: Store)
    requires t.compliance == s.compliance && t.incentives == s.incentives
    ensures ResearchStop(c, t) == ResearchStop(c, s)
  {
    hide SuppliedSince, LegId;
  }

  ghost function JurisdictionStop(c: Config, s: Store): CaseState {
    if !RequiredIn(c, s, LegId(c, RESEARCH, 1)) then JurisdictionComplete else ResearchStop(c, s)
  }

  ghost predicate JurisdictionLeaves(c: Config, s: Store, t: Store, o: Outcome<TransitionResult>) {
    var stop := JurisdictionStop(c, s);
    && o == (if stop == IncentivesComplete then Returned(Applied(CaseStateChanged, c.now(LegId(c, INCENTIVES, 1))))
             else Raised(RuntimeError))
    && c.caseId in s.cases
    && Supplements(s.requirements, t.requirements, c.caseId, c.x.requirements(c.caseId))
    && (if stop == JurisdictionComplete then t.compliance == s.compliance
        else Supplements(s.compliance, t.compliance, c.caseId, c.x.compliance(c.caseId)))
    && (if stop == JurisdictionComplete || stop == ResearchComplete then t.incentives == s.incentives
        else Supplements(s.incentives, t.incentives, c.caseId, c.x.incentives(c.caseId)))
    && t == s.(cases := Row(s, c.caseId, stop), requirements := t.requirements, compliance := t.compliance,
               incentives := t.incentives, ledger := t.ledger, audit := t.audit)
  }

  lemma JurisdictionRun(c: Config, s: Store)
    requires Usable(c) && At(c, s, JurisdictionComplete)
    requires Unlogged(c, s, RESEARCH, 1) && Unlogged(c, s, COMPLIANCE, 1) && Unlogged(c, s, INCENTIVES, 1)
    requires Storable(c, s, RequirementSets) && Storable(c, s, ComplianceEvaluations) && Storable(c, s, IncentiveAssessments)
    ensures var (t, o) := FromJurisdiction(c, s); JurisdictionLeaves(c, s, t, o)
  {
    IntakeLegsApart(c);
    StopsOfResearch(c, s);
    hide LegId, Stage, FromResearch, Usable, Unlogged, Row, Supplements, RequiredIn, ResearchStop, Storable;
    RequirementsStage(c, s);
    StageKeeps(c, s, RequirementSets, "persist_requirements", RESEARCH, COMPLIANCE);
    StageKeeps(c, s, RequirementSets, "persist_requirements", RESEARCH, INCENTIVES);
    var (t, o) := Stage(c, s, RequirementSets, "persist_requirements", RESEARCH);
    if o.Returned? {
      RowTwice(s, t, c.caseId, ResearchComplete);
      RowAt(c, s, t, ResearchComplete);
      StorableElsewhere(c, s, t);
      SameEvaluated(c, s, t);
      ResearchRun(c, t);
      var (u, p) := FromResearch(c, t);
    }
  }

  lemma StopsOfResearch(c: Config, s: Store)
    ensures ResearchStop(c, s) == ResearchComplete || ResearchStop(c, s) == ComplianceComplete
            || ResearchStop(c, s) == IncentivesComplete
  {
    hide EvaluatedIn, AssessedIn, LegId;
  }

  lemma SameRequired(c: Config, s: Store, t: Store)
    requires t.requirements == s.requirements && t.compliance == s.compliance && t.incentives == s.incentives
    ensures JurisdictionStop(c, t) == JurisdictionStop(c, s)
  {
    SameEvaluated(c, s, t);
    hide ResearchStop, LegId, Evidence.Pending, OfCase;
  }

  /** The state a run from INTAKE_COMPLETE stops in: the one before the first gate that is
      shut. */
  ghost function IntakeStop(c: Config, s: Store): CaseState {
    if !LocatedIn(c, s) then IntakeComplete
    else if !RequiredIn(c, s, IdFor(c, "jurisdiction_complete_to_research_complete", 1)) then JurisdictionComplete
    else if !EvaluatedIn(c, s, IdFor(c, "research_complete_to_compliance_complete", 1)) then ResearchComplete
    else if !AssessedIn(c, s, IdFor(c, "compliance_complete_to_incentives_complete", 1)) then ComplianceComplete
    else IncentivesComplete
  }

  lemma StopsOfIntake(c: Config, s: Store)
    ensures IntakeStop(c, s) == if !LocatedIn(c, s) then IntakeComplete else JurisdictionStop(c, s)
    ensures JurisdictionStop(c, s) != IntakeComplete
  {
    LegIdsInFull(c);
    hide LocatedIn, RequiredIn, EvaluatedIn, AssessedIn, LegId, IdFor;
  }

  ghost predicate IntakeLeaves(c: Config, s: Store, t: Store, o: Outcome<WorkflowResult>) {
    var stop := IntakeStop(c, s);
    && o == (if stop == IncentivesComplete then
               Returned(ResultOf(c, IdFor(c, "intake_complete_to_jurisdiction_complete", 1),
                                 IdFor(c, "compliance_complete_to_incentives_complete", 1)))
             else Raised(RuntimeError))
    && c.caseId in s.cases
    && Supplements(s.resolutions, t.resolutions, c.caseId, c.x.jurisdictions(c.caseId))
    && (if stop == IntakeComplete then t.requirements == s.requirements
        else Supplements(s.requirements, t.requirements, c.caseId, c.x.requirements(c.caseId)))
    && (if stop == IntakeComplete || stop == JurisdictionComplete then t.compliance == s.compliance
        else Supplements(s.compliance, t.compliance, c.caseId, c.x.compliance(c.caseId)))
    && (if stop == IntakeComplete || stop == JurisdictionComplete || stop == ResearchComplete
        then t.incentives == s.incentives
        else Supplements(s.incentives, t.incentives, c.caseId, c.x.incentives(c.caseId)))
    && t == s.(cases := Row(s, c.caseId, stop), resolutions := t.resolutions,
               requirements := t.requirements, compliance := t.compliance, incentives := t.incentives, ledger := t.ledger,
               audit := t.audit)
  }

  lemma FirstStage(c: Config, s: Store)
    requires Usable(c) && NewRun(c, s) && At(c, s, IntakeComplete) && forall kind :: Storable(c, s, kind)
    ensures var (t, o) := Stage(c, s, Jurisdictions, "persist_jurisdiction", JURISDICTION);
            o.Returned? ==>
              && At(c, t, JurisdictionComplete) && Unlogged(c, t, RESEARCH, 1) && Unlogged(c, t, COMPLIANCE, 1)
              && Unlogged(c, t, INCENTIVES, 1) && Storable(c, t, RequirementSets) && Storable(c, t, ComplianceEvaluations)
              && Storable(c, t, IncentiveAssessments) && JurisdictionStop(c, t) == JurisdictionStop(c, s)
              && forall state :: Row(t, c.caseId, state) == Row(s, c.caseId, state)
  {
    IntakeLegsApart(c);
    Unused(c, s, JURISDICTION, 1);
    Unused(c, s, RESEARCH, 1);
    Unused(c, s, COMPLIANCE, 1);
    Unused(c, s, INCENTIVES, 1);
    hide LegId, Stage, Usable, Unlogged, NewRun, Supplements, LocatedIn, JurisdictionStop, Storable, Row;
    JurisdictionStage(c, s);
    StageKeeps(c, s, Jurisdictions, "persist_jurisdiction", JURISDICTION, RESEARCH);
    StageKeeps(c, s, Jurisdictions, "persist_jurisdiction", JURISDICTION, COMPLIANCE);
    StageKeeps(c, s, Jurisdictions, "persist_jurisdiction", JURISDICTION, INCENTIVES);
    var (t, o) := Stage(c, s, Jurisdictions, "persist_jurisdiction", JURISDICTION);
    if o.Returned? {
      RowTwice(s, t, c.caseId, JurisdictionComplete);
      RowAt(c, s, t, JurisdictionComplete);
      StorableElsewhere(c, s, t);
      SameRequired(c, s, t);
    }
  }

  lemma SpanningInFull(c: Config)
    ensures var first, last := IdFor(c, "intake_complete_to_jurisdiction_complete", 1),
                               IdFor(c, "compliance_complete_to_incentives_complete", 1);
            && LegId(c, JURISDICTION, 1) == first && LegId(c, INCENTIVES, 1) == last
            && Spanning(c, JURISDICTION, Applied(CaseStateChanged, c.now(first)),
                        Returned(Applied(CaseStateChanged, c.now(last)))) == Returned(ResultOf(c, first, last))
    ensures forall r :: Spanning(c, JURISDICTION, r, Raised(RuntimeError)) == Raised(RuntimeError)
  {
    LegIdsInFull(c);
    hide LegId, IdFor;
  }

  lemma StagesJoin(c: Config, s: Store, t: Store, u: Store, p: Outcome<TransitionResult>)
    requires c.caseId in s.cases && c.caseId in t.cases && LocatedIn(c, s)
    requires Supplements(s.resolutions, t.resolutions, c.caseId, c.x.jurisdictions(c.caseId))
    requires t == s.(cases := t.cases, resolutions := t.resolutions, ledger := t.ledger, audit := t.audit)
    requires forall state :: Row(t, c.caseId, state) == Row(s, c.caseId, state)
    requires JurisdictionLeaves(c, t, u, p) && JurisdictionStop(c, t) == JurisdictionStop(c, s)
    ensures IntakeLeaves(c, s, u, Spanning(c, JURISDICTION, Applied(CaseStateChanged, c.now(LegId(c, JURISDICTION, 1))), p))
  {
    SpanningInFull(c);
    StopsOfIntake(c, s);
    hide LegId, IdFor, Supplements, LocatedIn, JurisdictionStop, IntakeStop, Row, Spanning, ResultOf;
  }

  lemma StageStops(c: Config, s: Store, t: Store)
    requires c.caseId in s.cases && !LocatedIn(c, s)
    requires Supplements(s.resolutions, t.resolutions, c.caseId, c.x.jurisdictions(c.caseId))
    requires t == s.(cases := Row(s, c.caseId, IntakeComplete), resolutions := t.resolutions, ledger := t.ledger, audit := t.audit)
    ensures IntakeLeaves(c, s, t, Raised(RuntimeError))
  {
    StopsOfIntake(c, s);
    hide IdFor, Supplements, LocatedIn, JurisdictionStop, IntakeStop, Row, ResultOf;
  }

  lemma IntakeCompleteBranch(c: Config, s: Store)
    requires Usable(c) && NewRun(c, s) && At(c, s, IntakeComplete) && forall kind :: Storable(c, s, kind)
    ensures var (t, o) := FromIntakeComplete(c, s); IntakeLeaves(c, s, t, o)
  {
    Unused(c, s, JURISDICTION, 1);
    hide LegId, Stage, FromJurisdiction, Usable, Unlogged, NewRun, Supplements, LocatedIn, JurisdictionStop, Storable, Row,
      Spanning, IntakeLeaves, JurisdictionLeaves;
    FirstStage(c, s);
    JurisdictionStage(c, s);
    var (t, o) := Stage(c, s, Jurisdictions, "persist_jurisdiction", JURISDICTION);
    if o.Returned? {
      JurisdictionRun(c, t);
      var (u, p) := FromJurisdiction(c, t);
      StagesJoin(c, s, t, u, p);
      assert FromIntakeComplete(c, s) == (u, Spanning(c, JURISDICTION, o.value, p));
    } else {
      StageStops(c, s, t);
    }
  }

  /** A new run at INTAKE_COMPLETE stocks one evidence table after another with the records
      whose ids are free, goes on while the gate behind each is open, and returns exactly if
      all four are. */
  lemma RunFromIntakeComplete(c: Config, s: Store, v: Review)
    requires Usable(c) && NewRun(c, s) && At(c, s, IntakeComplete) && forall kind :: Storable(c, s, kind)
    ensures var (t, o) := Flow(c, s, v); IntakeLeaves(c, s, t, o)
  {
    hide Flow, FromIntakeComplete, Usable, NewRun, IntakeLeaves, Storable;
    FlowBranches(c, s, v);
    IntakeCompleteBranch(c, s);
  }
}
