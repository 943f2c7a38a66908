/** The guarded state transition: what the guard decides, what one call commits, and
    the activity itself. */
module Transitions {
  import opened Contracts
  import opened Tables

  // ------------------------------------------------------- the guard, declaratively

  function Accepted(req: TransitionRequest): TransitionResult {
    Applied(CaseStateChanged, req.requestedAt)
  }

  function Refused(req: TransitionRequest, event: EventType, reason: Reason,
                   guardId: Option<GuardId> := None): TransitionResult
  {
    Denied(event, req.requestedAt, reason, guardId,
           if guardId.Some? then Some(InvariantsOf(guardId.value)) else None)
  }

  /** The named review exists, belongs to the case and accepts. */
  predicate ReviewAccepts(s: Store, req: TransitionRequest) {
    && req.requiredReviewId.Some?
    && req.requiredReviewId.value != ""
    && var review := FindReview(s.reviews, req.requiredReviewId.value);
    && review.Some?
    && review.value.caseId == req.caseId
    && review.value.outcome != Block
  }

  ghost predicate OpenBlocker(s: Store, caseId: string) {
    exists id | id in s.contradictions ::
      && s.contradictions[id].caseId == caseId
      && s.contradictions[id].blocking
      && s.contradictions[id].open
  }

  /** An override was given that exists, belongs to the case, had not expired and names
      this very transition. */
  predicate Overridden(s: Store, req: TransitionRequest) {
    && req.overrideId.Some?
    && var id := req.overrideId.value;
    && id in s.overrides
    && s.overrides[id].caseId == req.caseId
    && s.overrides[id].expiresAt > req.requestedAt
    && TransitionSurface(req.fromState, req.toState) in s.overrides[id].surfaces
  }

  /** The override named exists and is the case's own. */
  predicate OwnOverride(s: Store, req: TransitionRequest)
    requires req.overrideId.Some?
  {
    req.overrideId.value in s.overrides && s.overrides[req.overrideId.value].caseId == req.caseId
  }

  function OverrideDenial(s: Store, req: TransitionRequest): Option<Reason>
    requires req.overrideId.Some?
  {
    var id := req.overrideId.value;
    if id !in s.overrides || s.overrides[id].caseId != req.caseId then Some(OverrideMissing)
    else if s.overrides[id].expiresAt <= req.requestedAt then Some(OverrideExpired)
    else if TransitionSurface(req.fromState, req.toState) !in s.overrides[id].surfaces
    then Some(OverrideOutOfScope)
    else None
  }

  function ReviewGate(s: Store, req: TransitionRequest): TransitionResult {
    if ReviewAccepts(s, req) then Accepted(req)
    else Refused(req, ApprovalGateDenied, ReviewDecisionRequired, Some(ReviewGuard))
  }

  ghost function ApprovalGate(s: Store, req: TransitionRequest): TransitionResult {
    if req.overrideId.Some? then
      var denial := OverrideDenial(s, req);
      if denial.Some? then Refused(req, OverrideDenied, denial.value, Some(OverrideGuard))
      else ReviewGate(s, req)
    else if OpenBlocker(s, req.caseId) then
      Refused(req, ContradictionAdvanceDenied, BlockingContradictionUnresolved,
              Some(ContradictionGuard))
    else ReviewGate(s, req)
  }

  /** The requirement-set query has no order: `pick` says which row it returned. */
  function PickedRequirement(s: Store, caseId: string, pick: nat): Option<Fact<string>> {
    var rows := OfCase(s.requirements, caseId);
    if rows == [] then None else Some(rows[pick % |rows|])
  }

  function RequirementGate(s: Store, req: TransitionRequest, pick: nat): TransitionResult {
    match PickedRequirement(s, req.caseId, pick)
    case None =>
      Refused(req, RequirementsRequiredDenied, RequirementSetRequired, Some(RequirementsGuard))
    case Some(row) =>
      if row.body == "FRESH" then Accepted(req)
      else Refused(req, RequirementsFreshnessDenied, RequirementSetStale, Some(RequirementsGuard))
  }

  ghost function ComplianceGate(s: Store, req: TransitionRequest): TransitionResult {
    if !HasFact(s.compliance, req.caseId) then
      Refused(req, ComplianceRequiredDenied, ComplianceEvaluationRequired, Some(ComplianceGuard))
    else if FreshSince(s.compliance, req.caseId, req.requestedAt - 30 * DAY) then Accepted(req)
    else Refused(req, ComplianceFreshnessDenied, ComplianceEvaluationStale, Some(ComplianceGuard))
  }

  ghost function IncentivesGate(s: Store, req: TransitionRequest): TransitionResult {
    if !HasFact(s.incentives, req.caseId) then
      Refused(req, IncentivesRequiredDenied, IncentiveAssessmentRequired, Some(IncentivesGuard))
    else if FreshSince(s.incentives, req.caseId, req.requestedAt - 3 * DAY) then Accepted(req)
    else Refused(req, IncentivesFreshnessDenied, IncentiveAssessmentStale, Some(IncentivesGuard))
  }

  ghost predicate HasPackage(s: Store, caseId: string) {
    exists p | p in s.packages :: p.caseId == caseId
  }

  function SubmittedGate(s: Store, req: TransitionRequest): TransitionResult {
    match LatestFallback(s.fallbacks, req.caseId)
    case None => Accepted(req)
    case Some(f) =>
      if f.proofConfirmed && f.proofArtifactId.Some? then Accepted(req)
      else Refused(req, ProofBundleRequiredDenied, ProofBundleRequired)
  }

  /** The case never fell back, or the proof of its newest fallback is confirmed and stored. */
  ghost predicate Proven(s: Store, c: string) {
    || (forall f | f in s.fallbacks :: f.caseId != c)
    || (var f := LatestFallback(s.fallbacks, c);
        f.Some? && f.value.proofConfirmed && f.value.proofArtifactId.Some?)
  }

  predicate Edge(req: TransitionRequest, fromState: CaseState, toState: CaseState) {
    req.fromState == fromState && req.toState == toState
  }

  /** The gate on an edge between two states, neither of them the hold. */
  ghost function EdgeGate(s: Store, req: TransitionRequest, pick: nat): TransitionResult {
    if Edge(req, ReviewPending, ApprovedForSubmission) then ApprovalGate(s, req)
    else if Edge(req, IntakePending, IntakeComplete) then
      (if req.caseId in s.projects then Accepted(req)
       else Refused(req, IntakeProjectRequiredDenied, ProjectRequired))
    else if Edge(req, IntakeComplete, JurisdictionComplete) then
      (if HasFact(s.resolutions, req.caseId) then Accepted(req)
       else Refused(req, JurisdictionRequiredDenied, JurisdictionResolutionRequired))
    else if Edge(req, JurisdictionComplete, ResearchComplete) then RequirementGate(s, req, pick)
    else if Edge(req, ResearchComplete, ComplianceComplete) then ComplianceGate(s, req)
    else if Edge(req, ComplianceComplete, IncentivesComplete) then IncentivesGate(s, req)
    else if Edge(req, IncentivesComplete, DocumentComplete) then
      (if HasPackage(s, req.caseId) then Accepted(req)
       else Refused(req, DocumentPackageRequiredDenied, SubmissionPackageRequired))
    else if Edge(req, DocumentComplete, ManualSubmissionRequired) then
      (if LatestFallback(s.fallbacks, req.caseId).Some? then Accepted(req)
       else Refused(req, ManualSubmissionRequiredDenied, ManualFallbackRequired))
    else if Edge(req, DocumentComplete, Submitted) then SubmittedGate(s, req)
    else if Edge(req, Submitted, CommentReviewPending) then Accepted(req)
    else if Edge(req, CommentReviewPending, CorrectionPending) then Accepted(req)
    else if Edge(req, CorrectionPending, ResubmissionPending) then Accepted(req)
    else if Edge(req, ResubmissionPending, DocumentComplete) then Accepted(req)
    else Refused(req, StateTransitionDenied, UnknownTransition)
  }

  /** What the guard answers, read off the tables at one instant. */
  ghost function Decide(s: Store, req: TransitionRequest, pick: nat): TransitionResult
    requires req.caseId in s.cases
  {
    if s.cases[req.caseId].caseState != req.fromState then
      Refused(req, StateTransitionDenied, FromStateMismatch)
    else if req.toState == EmergencyHold then Accepted(req)
    else if req.fromState == EmergencyHold then
      if req.toState == Submitted then Refused(req, StateTransitionDenied, ForbiddenTransition)
      else Accepted(req)
    else EdgeGate(s, req, pick)
  }

  // ------------------------------------------------------------ what a call commits

  function LedgerRowFor(req: TransitionRequest, r: TransitionResult): LedgerRow {
    LedgerRow(req.requestId, req.caseId, r.eventType, req.fromState, req.toState,
              req.actorType, req.actorId, req.correlationId, req.requestedAt, Some(Dump(r)))
  }

  function AuditRowFor(req: TransitionRequest, r: TransitionResult): AuditRow {
    AuditRow(req.actorType, req.actorId, req.correlationId, req.requestId, req.requestedAt,
             TransitionDetail(req.caseId, req.fromState, req.toState, r.Applied?, r.eventType,
                              if r.Denied? then Some(r.reason) else None,
                              if r.Denied? then r.guardId else None))
  }

  function Moved(cases: map<string, CaseRow>, req: TransitionRequest, r: TransitionResult)
    : map<string, CaseRow>
    requires req.caseId in cases
  {
    if r.Applied? then cases[req.caseId := cases[req.caseId].(caseState := req.toState)] else cases
  }

  /** One transaction: the case state, one audit row and one ledger row, together. */
  function Commit(s: Store, req: TransitionRequest, r: TransitionResult): Store
    requires req.caseId in s.cases
  {
    s.(cases := Moved(s.cases, req, r),
       ledger := s.ledger + [LedgerRowFor(req, r)],
       audit := s.audit + [AuditRowFor(req, r)])
  }

  /** What a stored row answers to a later call with its id. */
  function Recorded(row: LedgerRow, req: TransitionRequest): Outcome<TransitionResult> {
    match row.payload
    case None => Returned(Refused(req, row.eventType, LedgerPayloadMissing))
    case Some(p) =>
      match Parse(p)
      case Some(r) => Returned(r)
      case None => Raised(ValidationError)
  }

  /** A whole call, with nothing else running. */
  ghost function Transition(s: Store, req: TransitionRequest, pick: nat)
    : (Store, Outcome<TransitionResult>)
  {
    match FindRow(s.ledger, req.requestId)
    case Some(row) => (s, Recorded(row, req))
    case None =>
      if req.caseId !in s.cases then (s, Raised(LookupError))
      else
        var r := Decide(s, req, pick);
        (Commit(s, req, r), Returned(r))
  }

  /** The ledger makes a call repeatable: once it has committed, any later call with the
      same request returns the same result and changes nothing, even though the case has
      moved on and whatever row an unordered query now returns. */
  lemma TransitionIsIdempotent(s: Store, req: TransitionRequest, pick: nat, again: nat)
    ensures var (s', o) := Transition(s, req, pick);
            Transition(s', req, again) == (s', o)
  {
    if FindRow(s.ledger, req.requestId).None? && req.caseId in s.cases {
      var r := Decide(s, req, pick);
      FindRowAppended(s.ledger, LedgerRowFor(req, r));
      ParseInvertsDump(r);
    }
  }

  // -------------------------------------------------------------- the queries it makes

  method QueryLatest(rows: seq<Fact<int>>, caseId: string) returns (latest: Option<Fact<int>>)
    ensures latest.None? <==> !HasFact(rows, caseId)
    ensures latest.Some? ==> latest.value in rows && latest.value.caseId == caseId
    ensures latest.Some? ==> forall f | f in rows && f.caseId == caseId :: f.body <= latest.value.body
  {
    latest := None;
    for i := 0 to |rows|
      invariant latest.None? <==> forall f | f in rows[..i] :: f.caseId != caseId
      invariant latest.Some? ==> latest.value in rows[..i] && latest.value.caseId == caseId
      invariant latest.Some? ==>
                  forall f | f in rows[..i] && f.caseId == caseId :: f.body <= latest.value.body
    {
      assert rows[..i + 1] == rows[..i] + [rows[i]];
      if rows[i].caseId == caseId && (latest.None? || latest.value.body < rows[i].body) {
        latest := Some(rows[i]);
      }
    }
    assert rows[..|rows|] == rows;
  }

  method QueryAny<T(!new)>(rows: seq<Fact<T>>, caseId: string) returns (found: bool)
    ensures found <==> HasFact(rows, caseId)
  {
    found := false;
    for i := 0 to |rows|
      invariant found <==> exists f | f in rows[..i] :: f.caseId == caseId
    {
      assert rows[..i + 1] == rows[..i] + [rows[i]];
      if rows[i].caseId == caseId { found := true; }
    }
    assert rows[..|rows|] == rows;
  }

  method QueryPackage(packages: seq<PackageRow>, caseId: string) returns (found: bool)
    ensures found <==> exists p | p in packages :: p.caseId == caseId
  {
    found := false;
    for i := 0 to |packages|
      invariant found <==> exists p | p in packages[..i] :: p.caseId == caseId
    {
      assert packages[..i + 1] == packages[..i] + [packages[i]];
      if packages[i].caseId == caseId { found := true; }
    }
    assert packages[..|packages|] == packages;
  }

  method QueryBlocker(db: Database, caseId: string) returns (found: bool)
    ensures found <==> OpenBlocker(db.Tables(), caseId)
  {
    var rows, rest := db.contradictions, db.contradictions.Keys;
    found := false;
    while rest != {}
      invariant rest <= rows.Keys
      invariant found <==> exists id | id in rows.Keys - rest ::
                             rows[id].caseId == caseId && rows[id].blocking && rows[id].open
      decreases rest
    {
      var id :| id in rest;
      rest := rest - {id};
      assert id in rows.Keys - rest;
      if rows[id].caseId == caseId && rows[id].blocking && rows[id].open { found := true; }
    }
    assert rows.Keys - rest == rows.Keys;
  }

  // ---------------------------------------------------------------------- the activity

  method ApplyReviewGate(db: Database, req: TransitionRequest) returns (result: TransitionResult)
    ensures result == ReviewGate(db.Tables(), req)
  {
    var review: Option<ReviewRow> := None;
    if req.requiredReviewId.Some? && req.requiredReviewId.value != "" {
      review := FindReview(db.reviews, req.requiredReviewId.value);
    }
    if review.None? || review.value.caseId != req.caseId || review.value.outcome == Block {
      result := Refused(req, ApprovalGateDenied, ReviewDecisionRequired, Some(ReviewGuard));
    } else {
      result := Accepted(req);
    }
  }

  method ValidateOverride(db: Database, req: TransitionRequest) returns (denial: Option<Reason>)
    requires req.overrideId.Some?
    ensures denial.None? <==> Overridden(db.Tables(), req)
    ensures denial == Some(OverrideMissing) <==> !OwnOverride(db.Tables(), req)
    ensures denial == Some(OverrideExpired)
            <==> OwnOverride(db.Tables(), req) && db.overrides[req.overrideId.value].expiresAt <= req.requestedAt
    ensures denial == Some(OverrideOutOfScope)
            <==> OwnOverride(db.Tables(), req) && db.overrides[req.overrideId.value].expiresAt > req.requestedAt
                 && TransitionSurface(req.fromState, req.toState) !in db.overrides[req.overrideId.value].surfaces
  {
    var id := req.overrideId.value;
    if id !in db.overrides || db.overrides[id].caseId != req.caseId {
      return Some(OverrideMissing);
    }
    if db.overrides[id].expiresAt <= req.requestedAt {
      return Some(OverrideExpired);
    }
    if TransitionSurface(req.fromState, req.toState) !in db.overrides[id].surfaces {
      return Some(OverrideOutOfScope);
    }
    return None;
  }

  method ApplyApprovalGate(db: Database, req: TransitionRequest) returns (result: TransitionResult)
    ensures result == ApprovalGate(db.Tables(), req)
  {
    if req.overrideId.Some? {
      var denial := ValidateOverride(db, req);
      if denial.Some? {
        result := Refused(req, OverrideDenied, denial.value, Some(OverrideGuard));
      } else {
        result := ApplyReviewGate(db, req);
      }
    } else {
      var blocked := QueryBlocker(db, req.caseId);
      if blocked {
        result := Refused(req, ContradictionAdvanceDenied, BlockingContradictionUnresolved,
                          Some(ContradictionGuard));
      } else {
        result := ApplyReviewGate(db, req);
      }
    }
  }

  /** The latest-record test of the compliance and incentives gates. */
  method LatestIsFresh(rows: seq<Fact<int>>, req: TransitionRequest, days: nat)
    returns (present: bool, recent: bool)
    ensures present <==> HasFact(rows, req.caseId)
    ensures recent <==> FreshSince(rows, req.caseId, req.requestedAt - days * DAY)
  {
    var latest := QueryLatest(rows, req.caseId);
    present := latest.Some?;
    recent := latest.Some? && !(latest.value.body < req.requestedAt - days * DAY);
  }

  method ApplyComplianceGate(db: Database, req: TransitionRequest) returns (result: TransitionResult)
    ensures result == ComplianceGate(db.Tables(), req)
  {
    var present, recent := LatestIsFresh(db.compliance, req, 30);
    if !present {
      result := Refused(req, ComplianceRequiredDenied, ComplianceEvaluationRequired, Some(ComplianceGuard));
    } else if !recent {
      result := Refused(req, ComplianceFreshnessDenied, ComplianceEvaluationStale, Some(ComplianceGuard));
    } else {
      result := Accepted(req);
    }
  }

  method ApplyIncentivesGate(db: Database, req: TransitionRequest) returns (result: TransitionResult)
    ensures result == IncentivesGate(db.Tables(), req)
  {
    var present, recent := LatestIsFresh(db.incentives, req, 3);
    if !present {
      result := Refused(req, IncentivesRequiredDenied, IncentiveAssessmentRequired, Some(IncentivesGuard));
    } else if !recent {
      result := Refused(req, IncentivesFreshnessDenied, IncentiveAssessmentStale, Some(IncentivesGuard));
    } else {
      result := Accepted(req);
    }
  }

  method ApplySubmittedGate(db: Database, req: TransitionRequest) returns (result: TransitionResult)
    ensures result.Applied? <==> Proven(db.Tables(), req.caseId)
    ensures result.Applied? ==> result == Accepted(req)
    ensures result.Denied? ==> result == Refused(req, ProofBundleRequiredDenied, ProofBundleRequired)
    ensures result.Denied? ==> exists f :: f in db.fallbacks && f.caseId == req.caseId
                                           && !(f.proofConfirmed && f.proofArtifactId.Some?)
  {
    var fallback := LatestFallback(db.fallbacks, req.caseId);
    if fallback.Some? && (!fallback.value.proofConfirmed || fallback.value.proofArtifactId.None?) {
      result := Refused(req, ProofBundleRequiredDenied, ProofBundleRequired);
    } else {
      result := Accepted(req);
    }
  }

  lemma SubmittedGateMeans(s: Store, req: TransitionRequest)
    ensures SubmittedGate(s, req)
            == if Proven(s, req.caseId) then Accepted(req)
               else Refused(req, ProofBundleRequiredDenied, ProofBundleRequired)
  {
  }

  method ApplyEdgeGate(db: Database, req: TransitionRequest, pick: nat) returns (result: TransitionResult)
    ensures result == EdgeGate(db.Tables(), req, pick)
  {
    hide ApprovalGate, ComplianceGate, IncentivesGate, RequirementGate, SubmittedGate, Proven;
    SubmittedGateMeans(db.Tables(), req);
    if Edge(req, ReviewPending, ApprovedForSubmission) {
      result := ApplyApprovalGate(db, req);
    } else if Edge(req, IntakePending, IntakeComplete) {
      result := if req.caseId in db.projects then Accepted(req)
                else Refused(req, IntakeProjectRequiredDenied, ProjectRequired);
    } else if Edge(req, IntakeComplete, JurisdictionComplete) {
      var found := QueryAny(db.resolutions, req.caseId);
      result := if found then Accepted(req)
                else Refused(req, JurisdictionRequiredDenied, JurisdictionResolutionRequired);
    } else if Edge(req, JurisdictionComplete, ResearchComplete) {
      result := RequirementGate(db.Tables(), req, pick);
    } else if Edge(req, ResearchComplete, ComplianceComplete) {
      result := ApplyComplianceGate(db, req);
    } else if Edge(req, ComplianceComplete, IncentivesComplete) {
      result := ApplyIncentivesGate(db, req);
    } else if Edge(req, IncentivesComplete, DocumentComplete) {
      var found := QueryPackage(db.packages, req.caseId);
      result := if found then Accepted(req)
                else Refused(req, DocumentPackageRequiredDenied, SubmissionPackageRequired);
    } else if Edge(req, DocumentComplete, ManualSubmissionRequired) {
      var fallback := LatestFallback(db.fallbacks, req.caseId);
      result := if fallback.Some? then Accepted(req)
                else Refused(req, ManualSubmissionRequiredDenied, ManualFallbackRequired);
    } else if Edge(req, DocumentComplete, Submitted) {
      result := ApplySubmittedGate(db, req);
    } else if Edge(req, Submitted, CommentReviewPending) {
      result := Accepted(req);
    } else if Edge(req, CommentReviewPending, CorrectionPending) {
      result := Accepted(req);
    } else if Edge(req, CorrectionPending, ResubmissionPending) {
      result := Accepted(req);
    } else if Edge(req, ResubmissionPending, DocumentComplete) {
      result := Accepted(req);
    } else {
      result := Refused(req, StateTransitionDenied, UnknownTransition);
    }
  }

  /** The checks made under the case lock, in the order the activity makes them. */
  method EvaluateGuard(db: Database, req: TransitionRequest, pick: nat) returns (result: TransitionResult)
    requires req.caseId in db.cases
    ensures result == Decide(db.Tables(), req, pick)
  {
    if db.cases[req.caseId].caseState != req.fromState {
      result := Refused(req, StateTransitionDenied, FromStateMismatch);
    } else if req.toState == EmergencyHold {
      result := Accepted(req);
    } else if req.fromState == EmergencyHold && req.toState == Submitted {
      result := Refused(req, StateTransitionDenied, ForbiddenTransition);
    } else if req.fromState == EmergencyHold {
      result := Accepted(req);
    } else {
      result := ApplyEdgeGate(db, req, pick);
    }
  }

  /** `apply_state_transition` with no other transaction interleaved; `failpoint` says
      whether the test failpoint after the commit fires. */
  method ApplyStateTransition(db: Database, req: TransitionRequest, pick: nat, failpoint: bool)
    returns (outcome: Outcome<TransitionResult>)
    modifies db
    ensures db.Tables() == Transition(old(db.Tables()), req, pick).0
    ensures var o := Transition(old(db.Tables()), req, pick).1;
            outcome == if failpoint && o.Returned? then Raised(FailpointFired) else o
  {
    var existing := FindRow(db.ledger, req.requestId);
    if existing.Some? {
      outcome := Recorded(existing.value, req);
    } else if req.caseId !in db.cases {
      outcome := Raised(LookupError);
    } else {
      var result := EvaluateGuard(db, req, pick);
      if result.Applied? {
        db.cases := db.cases[req.caseId := db.cases[req.caseId].(caseState := req.toState)];
      }
      db.audit := db.audit + [AuditRowFor(req, result)];
      db.ledger := db.ledger + [LedgerRowFor(req, result)];
      outcome := Returned(result);
    }
    if failpoint && outcome.Returned? {
      outcome := Raised(FailpointFired);
    }
  }
}
