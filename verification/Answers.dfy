/** What a transition answers and writes, case by case, over the tables: every denial with its
    event, reason, guard and time, and every row of a commit with its fields. */
module Answers {
  import opened Contracts
  import opened Tables
  import opened Transitions
  import opened Histories
  import opened Guarantees

  // --------------------------------------------------------------- what the guard reads

  /** With decision ids distinct, the review of a request accepts exactly if a stored decision
      has its id, its case and an accepting outcome. */
  lemma {:induction false} ReviewAcceptsIff(s: Store, req: TransitionRequest)
    requires forall i, j | 0 <= i < j < |s.reviews| :: s.reviews[i].decisionId != s.reviews[j].decisionId
    ensures ReviewAccepts(s, req)
            <==> req.requiredReviewId.Some? && req.requiredReviewId.value != ""
                 && exists r :: r in s.reviews && r.decisionId == req.requiredReviewId.value && r.caseId == req.caseId
                                && (r.outcome == Accept || r.outcome == AcceptWithDissent)
  {
    if req.requiredReviewId.Some? {
      var id := req.requiredReviewId.value;
      var found := FindReview(s.reviews, id);
      forall r | r in s.reviews && r.decisionId == id ensures found == Some(r) {
        assert found.value in s.reviews;
        var i :| 0 <= i < |s.reviews| && s.reviews[i] == r;
        var j :| 0 <= j < |s.reviews| && s.reviews[j] == found.value;
      }
    }
  }

  lemma OpenBlockerIff(s: Store, c: string)
    ensures OpenBlocker(s, c) <==> exists id :: id in s.contradictions && s.contradictions[id] == ContradictionRow(c, true, true)
  {
    if OpenBlocker(s, c) {
      var id :| id in s.contradictions && s.contradictions[id].caseId == c && s.contradictions[id].blocking
                && s.contradictions[id].open;
      assert s.contradictions[id] == ContradictionRow(c, true, true);
    }
  }

  lemma OverriddenIff(s: Store, req: TransitionRequest)
    ensures Overridden(s, req)
            <==> exists id, at, surfaces ::
                   && req.overrideId == Some(id) && id in s.overrides
                   && s.overrides[id] == OverrideRow(req.caseId, at, surfaces)
                   && at > req.requestedAt && TransitionSurface(req.fromState, req.toState) in surfaces
    ensures req.overrideId.Some? ==>
              (OwnOverride(s, req) <==> exists at, surfaces :: req.overrideId.value in s.overrides
                                          && s.overrides[req.overrideId.value] == OverrideRow(req.caseId, at, surfaces))
  {
    if req.overrideId.Some? && req.overrideId.value in s.overrides {
      var o := s.overrides[req.overrideId.value];
      assert o == OverrideRow(o.caseId, o.expiresAt, o.surfaces);
    }
  }

  lemma PicksFreshIff(s: Store, c: string, pick: nat)
    ensures PicksFresh(s, c, pick)
            <==> exists f :: f in s.requirements && f.caseId == c && f.body == "FRESH" && PickedRequirement(s, c, pick) == Some(f)
    ensures PickedRequirement(s, c, pick).None? <==> forall f | f in s.requirements :: f.caseId != c
  {
    var rows := OfCase(s.requirements, c);
    if rows != [] { assert rows[pick % |rows|] in rows; }
    if f :| f in s.requirements && f.caseId == c { assert f in rows; }
  }

  lemma DayIsADay()
    ensures DAY == 24 * 60 * 60 * 1_000_000
  {
  }

  // ------------------------------------------------------------------------- the gates

  lemma ApprovalAnswers(s: Store, req: TransitionRequest)
    ensures var r, at := ApprovalGate(s, req), req.requestedAt;
            && (r == Denied(OverrideDenied, at, OverrideMissing, Some(OverrideGuard), Some(InvariantsOf(OverrideGuard)))
                <==> req.overrideId.Some? && !OwnOverride(s, req))
            && (r == Denied(OverrideDenied, at, OverrideExpired, Some(OverrideGuard), Some(InvariantsOf(OverrideGuard)))
                <==> req.overrideId.Some? && OwnOverride(s, req) && s.overrides[req.overrideId.value].expiresAt <= at)
            && (r == Denied(OverrideDenied, at, OverrideOutOfScope, Some(OverrideGuard), Some(InvariantsOf(OverrideGuard)))
                <==> req.overrideId.Some? && OwnOverride(s, req) && s.overrides[req.overrideId.value].expiresAt > at
                     && !Overridden(s, req))
            && (r == Denied(ContradictionAdvanceDenied, at, BlockingContradictionUnresolved, Some(ContradictionGuard),
                            Some(InvariantsOf(ContradictionGuard)))
                <==> req.overrideId.None? && OpenBlocker(s, req.caseId))
            && (r == Denied(ApprovalGateDenied, at, ReviewDecisionRequired, Some(ReviewGuard), Some(InvariantsOf(ReviewGuard)))
                <==> (if req.overrideId.Some? then Overridden(s, req) else !OpenBlocker(s, req.caseId)) && !ReviewAccepts(s, req))
            && (r == Applied(CaseStateChanged, at)
                <==> (if req.overrideId.Some? then Overridden(s, req) else !OpenBlocker(s, req.caseId)) && ReviewAccepts(s, req))
  {
    hide ReviewAccepts, OpenBlocker;
  }

  lemma EvidenceAnswers(s: Store, req: TransitionRequest, pick: nat)
    ensures var r, at := RequirementGate(s, req, pick), req.requestedAt;
            && (r == Denied(RequirementsRequiredDenied, at, RequirementSetRequired, Some(RequirementsGuard),
                            Some(InvariantsOf(RequirementsGuard)))
                <==> !HasFact(s.requirements, req.caseId))
            && (r == Denied(RequirementsFreshnessDenied, at, RequirementSetStale, Some(RequirementsGuard),
                            Some(InvariantsOf(RequirementsGuard)))
                <==> HasFact(s.requirements, req.caseId) && !PicksFresh(s, req.caseId, pick))
    ensures var r, at := ComplianceGate(s, req), req.requestedAt;
            && (r == Denied(ComplianceRequiredDenied, at, ComplianceEvaluationRequired, Some(ComplianceGuard),
                            Some(InvariantsOf(ComplianceGuard)))
                <==> !HasFact(s.compliance, req.caseId))
            && (r == Denied(ComplianceFreshnessDenied, at, ComplianceEvaluationStale, Some(ComplianceGuard),
                            Some(InvariantsOf(ComplianceGuard)))
                <==> HasFact(s.compliance, req.caseId) && !FreshSince(s.compliance, req.caseId, at - 30 * DAY))
    ensures var r, at := IncentivesGate(s, req), req.requestedAt;
            && (r == Denied(IncentivesRequiredDenied, at, IncentiveAssessmentRequired, Some(IncentivesGuard),
                            Some(InvariantsOf(IncentivesGuard)))
                <==> !HasFact(s.incentives, req.caseId))
            && (r == Denied(IncentivesFreshnessDenied, at, IncentiveAssessmentStale, Some(IncentivesGuard),
                            Some(InvariantsOf(IncentivesGuard)))
                <==> HasFact(s.incentives, req.caseId) && !FreshSince(s.incentives, req.caseId, at - 3 * DAY))
  {
    RequirementRows(s, req.caseId, pick);
    hide OfCase, HasFact, FreshSince;
  }

  lemma RequirementRows(s: Store, c: string, pick: nat)
    ensures PickedRequirement(s, c, pick).Some? <==> HasFact(s.requirements, c)
  {
    PicksFreshIff(s, c, pick);
  }

  // ---------------------------------------------------------------------- the decision

  /** The case is where the request says, and neither side is the hold. */
  predicate Ordinary(s: Store, req: TransitionRequest)
    requires req.caseId in s.cases
  {
    s.cases[req.caseId].caseState == req.fromState && req.fromState != EmergencyHold && req.toState != EmergencyHold
  }

  predicate On(s: Store, req: TransitionRequest, a: CaseState, b: CaseState)
    requires req.caseId in s.cases
  {
    Ordinary(s, req) && req.fromState == a && req.toState == b
  }

  lemma GateKinds(s: Store, req: TransitionRequest, pick: nat)
    ensures var e := ApprovalGate(s, req).eventType; e == CaseStateChanged || e == OverrideDenied || e == ContradictionAdvanceDenied || e == ApprovalGateDenied
    ensures var e := RequirementGate(s, req, pick).eventType; e == CaseStateChanged || e == RequirementsRequiredDenied || e == RequirementsFreshnessDenied
    ensures var e := ComplianceGate(s, req).eventType; e == CaseStateChanged || e == ComplianceRequiredDenied || e == ComplianceFreshnessDenied
    ensures var e := IncentivesGate(s, req).eventType; e == CaseStateChanged || e == IncentivesRequiredDenied || e == IncentivesFreshnessDenied
    ensures var e := SubmittedGate(s, req).eventType; e == CaseStateChanged || e == ProofBundleRequiredDenied
  {
    hide ReviewAccepts, OpenBlocker, HasFact, FreshSince, LatestFallback, OfCase, PickedRequirement, OverrideDenial;
  }

  /** On an edge, the answer is that of its gate. */
  lemma EdgesAnswer(s: Store, req: TransitionRequest, pick: nat)
    requires req.caseId in s.cases
    ensures var r := Decide(s, req, pick);
            && (On(s, req, ReviewPending, ApprovedForSubmission) ==> r == ApprovalGate(s, req))
            && (On(s, req, JurisdictionComplete, ResearchComplete) ==> r == RequirementGate(s, req, pick))
            && (On(s, req, ResearchComplete, ComplianceComplete) ==> r == ComplianceGate(s, req))
            && (On(s, req, ComplianceComplete, IncentivesComplete) ==> r == IncentivesGate(s, req))
            && (On(s, req, DocumentComplete, Submitted) ==> r == SubmittedGate(s, req))
  {
    hide ApprovalGate, RequirementGate, ComplianceGate, IncentivesGate, SubmittedGate, HasPackage, HasFact, LatestFallback,
      Refused, Accepted;
  }

  /** Whether the record an edge needs is there. */
  ghost predicate RecordThere(s: Store, req: TransitionRequest) {
    && (req.fromState == IntakePending ==> req.caseId in s.projects)
    && (req.fromState == IntakeComplete ==> HasFact(s.resolutions, req.caseId))
    && (req.fromState == IncentivesComplete ==> HasPackage(s, req.caseId))
    && (req.fromState == DocumentComplete ==> LatestFallback(s.fallbacks, req.caseId).Some?)
  }

  lemma RecordsAnswer(s: Store, req: TransitionRequest, pick: nat)
    requires req.caseId in s.cases
    ensures var r := Decide(s, req, pick);
            && (On(s, req, IntakePending, IntakeComplete) && !RecordThere(s, req) ==>
                  r == Refused(req, IntakeProjectRequiredDenied, ProjectRequired))
            && (On(s, req, IntakeComplete, JurisdictionComplete) && !RecordThere(s, req) ==>
                  r == Refused(req, JurisdictionRequiredDenied, JurisdictionResolutionRequired))
            && (On(s, req, IncentivesComplete, DocumentComplete) && !RecordThere(s, req) ==>
                  r == Refused(req, DocumentPackageRequiredDenied, SubmissionPackageRequired))
            && (On(s, req, DocumentComplete, ManualSubmissionRequired) && !RecordThere(s, req) ==>
                  r == Refused(req, ManualSubmissionRequiredDenied, ManualFallbackRequired))
  {
    hide ApprovalGate, RequirementGate, ComplianceGate, IncentivesGate, SubmittedGate, HasPackage, HasFact, LatestFallback,
      Refused, Accepted;
  }

  // An answer names its edge, and a missing record.

  lemma ApprovalEvents(s: Store, req: TransitionRequest, pick: nat)
    ensures var e := EdgeGate(s, req, pick).eventType;
            && (e == OverrideDenied || e == ContradictionAdvanceDenied || e == ApprovalGateDenied ==>
                  Edge(req, ReviewPending, ApprovedForSubmission))
            && (e == ProofBundleRequiredDenied ==> Edge(req, DocumentComplete, Submitted))
  {
    GateKinds(s, req, pick);
    hide ApprovalGate, RequirementGate, ComplianceGate, IncentivesGate, SubmittedGate, HasPackage, HasFact, LatestFallback, Edge;
  }

  lemma FreshnessEvents(s: Store, req: TransitionRequest, pick: nat)
    ensures var e := EdgeGate(s, req, pick).eventType;
            && (e == ComplianceRequiredDenied || e == ComplianceFreshnessDenied ==>
                  Edge(req, ResearchComplete, ComplianceComplete))
            && (e == IncentivesRequiredDenied || e == IncentivesFreshnessDenied ==>
                  Edge(req, ComplianceComplete, IncentivesComplete))
  {
    GateKinds(s, req, pick);
    hide ApprovalGate, RequirementGate, ComplianceGate, IncentivesGate, SubmittedGate, HasPackage, HasFact, LatestFallback, Edge;
  }

  lemma RequirementEvents(s: Store, req: TransitionRequest, pick: nat)
    ensures var e := EdgeGate(s, req, pick).eventType;
            e == RequirementsRequiredDenied || e == RequirementsFreshnessDenied ==>
              Edge(req, JurisdictionComplete, ResearchComplete)
  {
    GateKinds(s, req, pick);
    hide ApprovalGate, RequirementGate, ComplianceGate, IncentivesGate, SubmittedGate, HasPackage, HasFact, LatestFallback, Edge;
  }

  lemma RecordEvents(s: Store, req: TransitionRequest, pick: nat)
    ensures var e := EdgeGate(s, req, pick).eventType;
            && (e == IntakeProjectRequiredDenied ==> Edge(req, IntakePending, IntakeComplete) && req.caseId !in s.projects)
            && (e == JurisdictionRequiredDenied ==>
                  Edge(req, IntakeComplete, JurisdictionComplete) && !HasFact(s.resolutions, req.caseId))
            && (e == DocumentPackageRequiredDenied ==>
                  Edge(req, IncentivesComplete, DocumentComplete) && !HasPackage(s, req.caseId))
            && (e == ManualSubmissionRequiredDenied ==>
                  Edge(req, DocumentComplete, ManualSubmissionRequired) && LatestFallback(s.fallbacks, req.caseId).None?)
  {
    GateKinds(s, req, pick);
    hide ApprovalGate, RequirementGate, ComplianceGate, IncentivesGate, SubmittedGate, HasPackage, HasFact, LatestFallback, Edge;
  }

  lemma DecisionEvents(s: Store, req: TransitionRequest, pick: nat)
    requires req.caseId in s.cases
    ensures var r := Decide(s, req, pick);
            r.eventType !in {CaseStateChanged, StateTransitionDenied} ==> Ordinary(s, req) && r == EdgeGate(s, req, pick)
  {
    hide EdgeGate;
  }

  /** Why an approval is refused. */
  lemma ApprovalRefusedIff(s: Store, req: TransitionRequest, pick: nat)
    requires req.caseId in s.cases
    ensures var r, at := Decide(s, req, pick), req.requestedAt;
            var edge := s.cases[req.caseId].caseState == ReviewPending && req.fromState == ReviewPending
                        && req.toState == ApprovedForSubmission;
            && (r == Denied(OverrideDenied, at, OverrideMissing, Some(OverrideGuard), Some(InvariantsOf(OverrideGuard)))
                <==> edge && req.overrideId.Some? && !OwnOverride(s, req))
            && (r == Denied(OverrideDenied, at, OverrideExpired, Some(OverrideGuard), Some(InvariantsOf(OverrideGuard)))
                <==> edge && req.overrideId.Some? && OwnOverride(s, req) && s.overrides[req.overrideId.value].expiresAt <= at)
            && (r == Denied(OverrideDenied, at, OverrideOutOfScope, Some(OverrideGuard), Some(InvariantsOf(OverrideGuard)))
                <==> edge && req.overrideId.Some? && OwnOverride(s, req) && s.overrides[req.overrideId.value].expiresAt > at
                     && !Overridden(s, req))
            && (r == Denied(ContradictionAdvanceDenied, at, BlockingContradictionUnresolved, Some(ContradictionGuard),
                            Some(InvariantsOf(ContradictionGuard)))
                <==> edge && req.overrideId.None? && OpenBlocker(s, req.caseId))
            && (r == Denied(ApprovalGateDenied, at, ReviewDecisionRequired, Some(ReviewGuard), Some(InvariantsOf(ReviewGuard)))
                <==> edge && (if req.overrideId.Some? then Overridden(s, req) else !OpenBlocker(s, req.caseId))
                     && !ReviewAccepts(s, req))
  {
    hide Decide, EdgeGate, ApprovalGate, RequirementGate, ComplianceGate, IncentivesGate, SubmittedGate, ReviewAccepts, OpenBlocker;
    EdgesAnswer(s, req, pick);
    DecisionEvents(s, req, pick);
    ApprovalEvents(s, req, pick);
    ApprovalAnswers(s, req);
  }

  /** Why a step on evidence is refused: none of the case, or none fresh enough. */
  lemma EvidenceRefusedIff(s: Store, req: TransitionRequest, pick: nat)
    requires req.caseId in s.cases
    ensures var r, c, at := Decide(s, req, pick), req.caseId, req.requestedAt;
            var state, a, b := s.cases[c].caseState, req.fromState, req.toState;
            && (r == Denied(RequirementsRequiredDenied, at, RequirementSetRequired, Some(RequirementsGuard),
                            Some(InvariantsOf(RequirementsGuard)))
                <==> state == a == JurisdictionComplete && b == ResearchComplete && !HasFact(s.requirements, c))
            && (r == Denied(RequirementsFreshnessDenied, at, RequirementSetStale, Some(RequirementsGuard),
                            Some(InvariantsOf(RequirementsGuard)))
                <==> state == a == JurisdictionComplete && b == ResearchComplete && HasFact(s.requirements, c)
                     && !PicksFresh(s, c, pick))
            && (r == Denied(ComplianceRequiredDenied, at, ComplianceEvaluationRequired, Some(ComplianceGuard),
                            Some(InvariantsOf(ComplianceGuard)))
                <==> state == a == ResearchComplete && b == ComplianceComplete && !HasFact(s.compliance, c))
            && (r == Denied(ComplianceFreshnessDenied, at, ComplianceEvaluationStale, Some(ComplianceGuard),
                            Some(InvariantsOf(ComplianceGuard)))
                <==> state == a == ResearchComplete && b == ComplianceComplete && HasFact(s.compliance, c)
                     && !FreshSince(s.compliance, c, at - 30 * DAY))
            && (r == Denied(IncentivesRequiredDenied, at, IncentiveAssessmentRequired, Some(IncentivesGuard),
                            Some(InvariantsOf(IncentivesGuard)))
                <==> state == a == ComplianceComplete && b == IncentivesComplete && !HasFact(s.incentives, c))
            && (r == Denied(IncentivesFreshnessDenied, at, IncentiveAssessmentStale, Some(IncentivesGuard),
                            Some(InvariantsOf(IncentivesGuard)))
                <==> state == a == ComplianceComplete && b == IncentivesComplete && HasFact(s.incentives, c)
                     && !FreshSince(s.incentives, c, at - 3 * DAY))
  {
    hide Decide, EdgeGate, ApprovalGate, RequirementGate, ComplianceGate, IncentivesGate, SubmittedGate, HasFact, FreshSince, PicksFresh;
    EdgesAnswer(s, req, pick);
    DecisionEvents(s, req, pick);
    FreshnessEvents(s, req, pick);
    RequirementEvents(s, req, pick);
    EvidenceAnswers(s, req, pick);
  }

  lemma SubmittedAnswers(s: Store, req: TransitionRequest)
    ensures SubmittedGate(s, req) == Denied(ProofBundleRequiredDenied, req.requestedAt, ProofBundleRequired, None, None)
            <==> !Proven(s, req.caseId)
  {
    hide LatestFallback;
  }

  lemma RecordsMissing(s: Store, req: TransitionRequest)
    ensures HasPackage(s, req.caseId) <==> !(forall p | p in s.packages :: p.caseId != req.caseId)
    ensures LatestFallback(s.fallbacks, req.caseId).None? <==> forall f | f in s.fallbacks :: f.caseId != req.caseId
  {
  }

  /** Why the steps on a project, a jurisdiction, a package, a fallback or a proof are
      refused. */
  lemma RecordRefusedIff(s: Store, req: TransitionRequest, pick: nat)
    requires req.caseId in s.cases
    ensures var r, c, at := Decide(s, req, pick), req.caseId, req.requestedAt;
            var state, a, b := s.cases[c].caseState, req.fromState, req.toState;
            && (r == Denied(IntakeProjectRequiredDenied, at, ProjectRequired, None, None)
                <==> state == a == IntakePending && b == IntakeComplete && c !in s.projects)
            && (r == Denied(JurisdictionRequiredDenied, at, JurisdictionResolutionRequired, None, None)
                <==> state == a == IntakeComplete && b == JurisdictionComplete && !HasFact(s.resolutions, c))
            && (r == Denied(DocumentPackageRequiredDenied, at, SubmissionPackageRequired, None, None)
                <==> state == a == IncentivesComplete && b == DocumentComplete && forall p | p in s.packages :: p.caseId != c)
            && (r == Denied(ManualSubmissionRequiredDenied, at, ManualFallbackRequired, None, None)
                <==> state == a == DocumentComplete && b == ManualSubmissionRequired
                     && forall f | f in s.fallbacks :: f.caseId != c)
            && (r == Denied(ProofBundleRequiredDenied, at, ProofBundleRequired, None, None)
                <==> state == a == DocumentComplete && b == Submitted && !Proven(s, c))
  {
    hide Decide, EdgeGate, HasFact, Proven, HasPackage, LatestFallback, SubmittedGate, ApprovalGate, RequirementGate,
      ComplianceGate, IncentivesGate;
    EdgesAnswer(s, req, pick);
    RecordsAnswer(s, req, pick);
    DecisionEvents(s, req, pick);
    ApprovalEvents(s, req, pick);
    RecordEvents(s, req, pick);
    RecordsMissing(s, req);
    SubmittedAnswers(s, req);
  }

  lemma UnknownEdge(s: Store, req: TransitionRequest, pick: nat)
    ensures EdgeGate(s, req, pick).eventType == StateTransitionDenied <==> !PathEdge(req.fromState, req.toState)
    ensures EdgeGate(s, req, pick).eventType == StateTransitionDenied ==>
              EdgeGate(s, req, pick) == Denied(StateTransitionDenied, req.requestedAt, UnknownTransition, None, None)
  {
    EdgesAreThePath(req);
    GateKinds(s, req, pick);
    hide ApprovalGate, RequirementGate, ComplianceGate, IncentivesGate, SubmittedGate, HasPackage, HasFact, LatestFallback, Edge,
      PathEdge;
  }

  lemma EdgesAreThePath(req: TransitionRequest)
    ensures PathEdge(req.fromState, req.toState)
            <==> || Edge(req, ReviewPending, ApprovedForSubmission) || Edge(req, IntakePending, IntakeComplete)
                 || Edge(req, IntakeComplete, JurisdictionComplete) || Edge(req, JurisdictionComplete, ResearchComplete)
                 || Edge(req, ResearchComplete, ComplianceComplete) || Edge(req, ComplianceComplete, IncentivesComplete)
                 || Edge(req, IncentivesComplete, DocumentComplete) || Edge(req, DocumentComplete, ManualSubmissionRequired)
                 || Edge(req, DocumentComplete, Submitted) || Edge(req, Submitted, CommentReviewPending)
                 || Edge(req, CommentReviewPending, CorrectionPending) || Edge(req, CorrectionPending, ResubmissionPending)
                 || Edge(req, ResubmissionPending, DocumentComplete)
  {
  }

  /** Why a request is refused whatever the tables hold: the case is elsewhere, the hold is
      left for SUBMITTED, or the path has no such edge. */
  lemma PathRefusedIff(s: Store, req: TransitionRequest, pick: nat)
    requires req.caseId in s.cases
    ensures var r, c, at := Decide(s, req, pick), req.caseId, req.requestedAt;
            var state, a, b := s.cases[c].caseState, req.fromState, req.toState;
            && (r == Denied(StateTransitionDenied, at, FromStateMismatch, None, None) <==> state != a)
            && (r == Denied(StateTransitionDenied, at, ForbiddenTransition, None, None)
                <==> state == a == EmergencyHold && b == Submitted)
            && (r == Denied(StateTransitionDenied, at, UnknownTransition, None, None)
                <==> state == a && a != EmergencyHold && b != EmergencyHold && !PathEdge(a, b))
  {
    UnknownEdge(s, req, pick);
    hide EdgeGate, PathEdge;
  }

  // ------------------------------------------------------------------- what is written

  /** A first call adds one ledger row and one audit row, with the fields of its request and
      answer, and moves its case if the answer is applied; it changes nothing else. */
  lemma CommitInFull(s: Store, req: TransitionRequest, pick: nat)
    requires req.caseId in s.cases && forall row | row in s.ledger :: row.transitionId != req.requestId
    ensures var (t, o) := Transition(s, req, pick);
            var r, n, m := Decide(s, req, pick), |s.ledger|, |s.audit|;
            && o == Returned(r)
            && |t.ledger| == n + 1 && t.ledger[..n] == s.ledger
            && t.ledger[n].transitionId == req.requestId && t.ledger[n].caseId == req.caseId
            && t.ledger[n].eventType == r.eventType
            && t.ledger[n].fromState == req.fromState && t.ledger[n].toState == req.toState
            && t.ledger[n].actorType == req.actorType && t.ledger[n].actorId == req.actorId
            && t.ledger[n].correlationId == req.correlationId && t.ledger[n].occurredAt == req.requestedAt
            && t.ledger[n].payload.Some? && Parse(t.ledger[n].payload.value) == Some(r)
            && |t.audit| == m + 1 && t.audit[..m] == s.audit
            && t.audit[m] == AuditRow(req.actorType, req.actorId, req.correlationId, req.requestId, req.requestedAt,
                                      TransitionDetail(req.caseId, req.fromState, req.toState, r.Applied?, r.eventType,
                                                       if r.Denied? then Some(r.reason) else None,
                                                       if r.Denied? then r.guardId else None))
            && t.cases.Keys == s.cases.Keys && (forall c | c in s.cases && c != req.caseId :: t.cases[c] == s.cases[c])
            && t.cases[req.caseId] == CaseRow(if r.Applied? then req.toState else s.cases[req.caseId].caseState,
                                              s.cases[req.caseId].supportLevel, s.cases[req.caseId].currentPackageId)
            && t == s.(cases := t.cases, ledger := t.ledger, audit := t.audit)
  {
    hide Decide, Parse, Dump;
    ParseInvertsDump(Decide(s, req, pick));
  }

  /** A later call answers what the stored row of its id says; where the row has no payload
      it is refused with the row's own event. */
  lemma ReplayInFull(s: Store, req: TransitionRequest, pick: nat, row: LedgerRow)
    requires FindRow(s.ledger, req.requestId) == Some(row)
    ensures var (t, o) := Transition(s, req, pick);
            && t == s
            && (row.payload.None? ==>
                  o == Returned(Denied(row.eventType, req.requestedAt, LedgerPayloadMissing, None, None)))
            && (forall r: TransitionResult :: row.payload == Some(Dump(r)) ==> o == Returned(r))
            && (row.payload.Some? ==> (o.Raised? <==> Parse(row.payload.value).None?))
  {
    hide Decide, Parse, Dump;
    forall r: TransitionResult ensures Parse(Dump(r)) == Some(r) { ParseInvertsDump(r); }
  }

  /** A call for a case that does not exist raises, and writes nothing. */
  lemma MissingInFull(s: Store, req: TransitionRequest, pick: nat)
    requires req.caseId !in s.cases && forall row | row in s.ledger :: row.transitionId != req.requestId
    ensures Transition(s, req, pick) == (s, Raised(LookupError))
  {
  }

  lemma ProvenIff(s: Store, c: string)
    ensures Proven(s, c)
            <==> (forall f | f in s.fallbacks :: f.caseId != c)
                 || exists f :: f in s.fallbacks && f.caseId == c && f.proofConfirmed && f.proofArtifactId != None
                                && LatestFallback(s.fallbacks, c) == Some(f)
  {
    var f := LatestFallback(s.fallbacks, c);
    if f.Some? { assert f.value in s.fallbacks; }
  }
}
