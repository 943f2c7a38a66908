/** The payload contracts of the permit-case workflow: case states, transition
    requests and results, and the JSON payload a result is stored as. */
module Contracts {

  datatype Option<+T> = None | Some(value: T)

  /** What an activity does: return a value, or raise. */
  datatype Outcome<+T> = Returned(value: T) | Raised(error: Error)

  datatype Error =
    | LookupError
    | RuntimeError
    | FailpointFired
    | IntegrityError
    | StorageError
    | ValidationError

  // Instants are microseconds since the epoch, UTC.
  const DAY: int := 86_400_000_000

  datatype CaseState =
    | Draft | IntakePending | IntakeComplete | JurisdictionPending | JurisdictionComplete
    | ResearchPending | ResearchComplete | CompliancePending | ComplianceComplete
    | IncentivesPending | IncentivesComplete | DocumentPending | DocumentComplete
    | ReviewPending | Blocked | ApprovedForSubmission | SubmissionPending | Submitted
    | CommentReviewPending | CorrectionPending | ResubmissionPending | Approved | Closed
    | Cancelled | ManualSubmissionRequired | EmergencyHold | RolledBack

  /** What an override may cover: a transition, written `FROM->TO`, or something else. */
  datatype Surface = TransitionSurface(fromState: CaseState, toState: CaseState) | OtherSurface(name: string)

  datatype TransitionRequest = TransitionRequest(
    requestId: string,
    caseId: string,
    fromState: CaseState,
    toState: CaseState,
    actorType: string,
    actorId: string,
    correlationId: string,
    requiredReviewId: Option<string>,
    overrideId: Option<string>,
    requestedAt: int)

  datatype EventType =
    | CaseStateChanged | StateTransitionDenied | ApprovalGateDenied | ContradictionAdvanceDenied
    | OverrideDenied | IntakeProjectRequiredDenied | JurisdictionRequiredDenied
    | RequirementsRequiredDenied | RequirementsFreshnessDenied | ComplianceRequiredDenied
    | ComplianceFreshnessDenied | IncentivesRequiredDenied | IncentivesFreshnessDenied
    | DocumentPackageRequiredDenied | ManualSubmissionRequiredDenied | ProofBundleRequiredDenied

  datatype Reason =
    | FromStateMismatch | ForbiddenTransition | UnknownTransition | ReviewDecisionRequired
    | BlockingContradictionUnresolved | OverrideMissing | OverrideExpired | OverrideOutOfScope
    | ProjectRequired | JurisdictionResolutionRequired | RequirementSetRequired
    | RequirementSetStale | ComplianceEvaluationRequired | ComplianceEvaluationStale
    | IncentiveAssessmentRequired | IncentiveAssessmentStale | SubmissionPackageRequired
    | ManualFallbackRequired | ProofBundleRequired | LedgerPayloadMissing

  // The stable guard-assertion ids: INV-SPS-STATE-002, -CONTRA-001, -EMERG-001, -RULE-001,
  // -COMP-001 and -INC-001.
  datatype GuardId =
    ReviewGuard | ContradictionGuard | OverrideGuard | RequirementsGuard | ComplianceGuard | IncentivesGuard

  /** The invariant ids the guard registry lists for a guard; the registry is fixed, so a list
      is named by its guard. */
  datatype Invariants = InvariantsOf(guard: GuardId)

  datatype TransitionResult =
    | Applied(eventType: EventType, appliedAt: int)
    | Denied(eventType: EventType, deniedAt: int, reason: Reason, guardId: Option<GuardId>,
             invariants: Option<Invariants>)

  // ---------------------------------------------------------------- payloads

  datatype Field =
    | ResultTag | EventTypeField | AppliedAt | DeniedAt | DenialReason | GuardAssertionId | BusinessInvariants
    | OtherField(name: string)

  datatype Json =
    JNull | JApplied | JDenied | JEvent(event: EventType) | JReason(reason: Reason)
    | JGuard(guardId: GuardId) | JInvariants(list: Invariants) | JTime(at: int) | JOther(text: string)

  type Payload = map<Field, Json>

  /** `result.model_dump(mode="json")`: every field, absent ones as null. */
  function Dump(r: TransitionResult): Payload {
    match r
    case Applied(e, at) =>
      map[ResultTag := JApplied, EventTypeField := JEvent(e), AppliedAt := JTime(at)]
    case Denied(e, at, reason, guardId, invariants) =>
      map[ResultTag := JDenied, EventTypeField := JEvent(e), DeniedAt := JTime(at),
          DenialReason := JReason(reason),
          GuardAssertionId := if guardId.Some? then JGuard(guardId.value) else JNull,
          BusinessInvariants := if invariants.Some? then JInvariants(invariants.value) else JNull]
  }

  // Each arm of the result union forbids extra fields, defaults its own literal tag
  // and requires the rest.
  const APPLIED_FIELDS: set<Field> := {ResultTag, EventTypeField, AppliedAt}
  const DENIED_FIELDS: set<Field> :=
    {ResultTag, EventTypeField, DeniedAt, DenialReason, GuardAssertionId, BusinessInvariants}

  predicate TagIs(p: Payload, tag: Json) {
    ResultTag in p ==> p[ResultTag] == tag
  }

  function ParseApplied(p: Payload): Option<TransitionResult> {
    if p.Keys <= APPLIED_FIELDS && TagIs(p, JApplied)
       && EventTypeField in p && p[EventTypeField].JEvent?
       && AppliedAt in p && p[AppliedAt].JTime?
    then Some(Applied(p[EventTypeField].event, p[AppliedAt].at))
    else None
  }

  function ParseDenied(p: Payload): Option<TransitionResult> {
    if p.Keys <= DENIED_FIELDS && TagIs(p, JDenied)
       && EventTypeField in p && p[EventTypeField].JEvent?
       && DeniedAt in p && p[DeniedAt].JTime?
       && DenialReason in p && p[DenialReason].JReason?
       && (GuardAssertionId in p ==> p[GuardAssertionId].JGuard? || p[GuardAssertionId].JNull?)
       && (BusinessInvariants in p ==> p[BusinessInvariants].JInvariants? || p[BusinessInvariants].JNull?)
    then Some(Denied(p[EventTypeField].event, p[DeniedAt].at, p[DenialReason].reason,
                     if GuardAssertionId in p && p[GuardAssertionId].JGuard?
                     then Some(p[GuardAssertionId].guardId) else None,
                     if BusinessInvariants in p && p[BusinessInvariants].JInvariants?
                     then Some(p[BusinessInvariants].list) else None))
    else None
  }

  /** `parse_state_transition_result`: validation against the union of the two arms. */
  function Parse(p: Payload): Option<TransitionResult> {
    if ParseApplied(p).Some? then ParseApplied(p) else ParseDenied(p)
  }

  /** A stored result reads back as itself. */
  lemma ParseInvertsDump(r: TransitionResult)
    ensures Parse(Dump(r)) == Some(r)
  {
    if r.Denied? {
      assert DeniedAt in Dump(r).Keys && DeniedAt !in APPLIED_FIELDS;
    }
  }

  /** No payload validates against both arms, so the order the union tries them in
      cannot change what a stored row means. */
  lemma ArmsAreExclusive(p: Payload)
    ensures ParseApplied(p).None? || ParseDenied(p).None?
  {
    if ParseApplied(p).Some? {
      assert AppliedAt in p.Keys && AppliedAt !in DENIED_FIELDS;
    }
  }

  /** The fields of a payload are those stored for a result, some perhaps left out. */
  predicate Abridges(p: Payload, r: TransitionResult) {
    && (forall f | f in p :: f in Dump(r) && p[f] == Dump(r)[f])
    && (forall f | f in Dump(r) && f !in p :: f == ResultTag || Dump(r)[f] == JNull)
  }

  lemma AppliedParsesIff(p: Payload, r: TransitionResult)
    ensures ParseApplied(p) == Some(r) <==> r.Applied? && Abridges(p, r)
  {
    if r.Applied? && Abridges(p, r) {
      assert EventTypeField in Dump(r) && AppliedAt in Dump(r);
      assert p.Keys <= APPLIED_FIELDS;
    }
    if ParseApplied(p) == Some(r) {
      assert forall f | f in p :: f in APPLIED_FIELDS;
    }
  }

  lemma DeniedParsesIff(p: Payload, r: TransitionResult)
    ensures ParseDenied(p) == Some(r) <==> r.Denied? && Abridges(p, r)
  {
    if r.Denied? && Abridges(p, r) {
      assert EventTypeField in Dump(r) && DeniedAt in Dump(r) && DenialReason in Dump(r);
      assert GuardAssertionId in Dump(r) && BusinessInvariants in Dump(r);
      assert p.Keys <= DENIED_FIELDS;
    }
    if ParseDenied(p) == Some(r) {
      assert forall f | f in p :: f in DENIED_FIELDS;
    }
  }

  /** A payload is read as a result exactly if its fields are those stored for it, but that
      the tag and what is stored as null may be missing. */
  lemma ParsesIff(p: Payload, r: TransitionResult)
    ensures Parse(p) == Some(r) <==> Abridges(p, r)
  {
    AppliedParsesIff(p, r);
    DeniedParsesIff(p, r);
    ArmsAreExclusive(p);
    hide ParseApplied, ParseDenied, Abridges;
  }
}
