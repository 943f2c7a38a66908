/** Where a run of the workflow can end, and what a resubmission does. */
module WorkflowOutcomes {
  import opened Contracts
  import opened Tables
  import opened RequestIds
  import opened Transitions
  import opened Activities
  import opened Workflow
  import Evidence
  import PackageHistories
  import Packages
  import Registry
  import Strings
  import Submission
  import SubmissionHistories

  // ------------------------------------------------------------------ fresh request ids

  /** No transition of this leg has been committed yet. */
  predicate Unlogged(c: Config, s: Store, leg: Leg, attempt: nat) {
    FindRow(s.ledger, LegId(c, leg, attempt)).None?
  }

  /** The run has committed no transition: its ids are new. */
  ghost predicate NewRun(c: Config, s: Store) {
    forall leg: Leg, attempt: nat :: Unlogged(c, s, leg, attempt)
  }

  /** Within one run, requests of different legs or attempts have different ids. */
  lemma LegsApart(c: Config, a: Leg, m: nat, b: Leg, n: nat)
    requires a.step != b.step || m != n
    ensures LegId(c, a, m) != LegId(c, b, n)
  {
    if LegId(c, a, m) == LegId(c, b, n) {
      var head := CaseWorkflow(c) + "/" + c.runId + "/";
      assert LegId(c, a, m) == head + (a.step + "/" + Label(m)) && LegId(c, b, n) == head + (b.step + "/" + Label(n));
      Strings.SuffixCancels(head, a.step + "/" + Label(m), b.step + "/" + Label(n));
      CutLabel(a.step, m, b.step, n);
    }
  }

  lemma StepsDiffer()
    ensures JURISDICTION.step != INCENTIVES.step && RESEARCH.step != INCENTIVES.step && COMPLIANCE.step != INCENTIVES.step
    ensures DOCUMENT.step != SUBMIT.step && RESUBMISSION.step != SUBMIT.step
    ensures DOCUMENT.step != MANUAL.step && RESUBMISSION.step != MANUAL.step
  {
    assert JURISDICTION.step[0] != INCENTIVES.step[0] && RESEARCH.step[0] != INCENTIVES.step[0];
    assert COMPLIANCE.step[0] != INCENTIVES.step[0];
    assert DOCUMENT.step[0] != SUBMIT.step[0] && RESUBMISSION.step[0] != SUBMIT.step[0];
    assert DOCUMENT.step[0] != MANUAL.step[0] && RESUBMISSION.step[0] != MANUAL.step[0];
  }

  // ----------------------------------------------------------- what one transition does

  predicate At(c: Config, s: Store, state: CaseState) {
    c.caseId in s.cases && s.cases[c.caseId].caseState == state
  }

  lemma AppliedMoves(s: Store, req: TransitionRequest, pick: nat)
    requires FindRow(s.ledger, req.requestId).None?
    ensures var (t, o) := Transition(s, req, pick);
            o.Returned? && o.value.Applied? ==>
              && req.caseId in s.cases && s.cases[req.caseId].caseState == req.fromState
              && req.caseId in t.cases && t.cases[req.caseId].caseState == req.toState
  {
    hide LedgerRowFor, AuditRowFor, EdgeGate;
  }

  lemma OtherRowsStay(s: Store, req: TransitionRequest, pick: nat, id: string)
    requires id != req.requestId && FindRow(s.ledger, id).None?
    ensures FindRow(Transition(s, req, pick).0.ledger, id).None?
  {
    hide Decide, AuditRowFor, Recorded;
  }

  /** A new request that is answered as applied found the case in the state it names and
      left it in the one it asks for. */
  lemma MoveReaches(c: Config, s: Store, leg: Leg, attempt: nat, review: Option<string>)
    requires Usable(c) && Unlogged(c, s, leg, attempt)
    ensures var (t, o) := Move(c, s, RequestFor(c, leg, attempt, review));
            o.Returned? && o.value.Applied? ==> At(c, s, leg.fromState) && At(c, t, leg.toState)
  {
    hide Transition, IdOf, Usable;
    var req := RequestFor(c, leg, attempt, review);
    AppliedMoves(s, req, c.draws(req.requestId).pick);
  }

  lemma MoveKeepsUnlogged(c: Config, s: Store, leg: Leg, m: nat, review: Option<string>, other: Leg, n: nat)
    requires Usable(c) && Unlogged(c, s, other, n) && LegId(c, leg, m) != LegId(c, other, n)
    ensures Unlogged(c, Move(c, s, RequestFor(c, leg, m, review)).0, other, n)
  {
    hide Transition, IdOf, Usable;
    var req := RequestFor(c, leg, m, review);
    OtherRowsStay(s, req, c.draws(req.requestId).pick, LegId(c, other, n));
  }

  lemma MustReaches(c: Config, s: Store, leg: Leg)
    requires Usable(c) && Unlogged(c, s, leg, 1)
    ensures var (t, o) := Must(c, s, leg);
            o.Returned? ==> o.value.Applied? && At(c, s, leg.fromState) && At(c, t, leg.toState)
  {
    hide Move, Unlogged, At, Usable, RequestFor;
    MoveReaches(c, s, leg, 1, None);
  }

  lemma MustKeeps(c: Config, s: Store, leg: Leg, other: Leg)
    requires Usable(c) && Unlogged(c, s, other, 1) && LegId(c, leg, 1) != LegId(c, other, 1)
    ensures Unlogged(c, Must(c, s, leg).0, other, 1)
  {
    hide Move, Unlogged, Usable, RequestFor;
    MoveKeepsUnlogged(c, s, leg, 1, None, other, 1);
  }

  lemma FactsKeepLedger(s: Store, x: Surroundings, kind: FactKind, caseId: string)
    ensures StoreFacts(s, x, kind, caseId).0.ledger == s.ledger
  {
    hide Evidence.Persist;
  }

  lemma PackageKeepsLedger(s: Store, env: Packages.Env, req: Packages.PackageRequest, d: Packages.Draw)
    requires Packages.Drawn(env, req, d)
    ensures Packages.Persist(s, env, req, d).0.ledger == s.ledger
  {
    hide Packages.Drawn, Packages.ArtifactsWith, Packages.DocumentRows, Packages.Persist, Packages.PackageFor,
      Packages.Uploads, Registry.Objects;
    PackageHistories.PersistShape(s, env, req, d);
  }

  lemma WorkKeepsLedger(s: Store, env: Submission.Env, req: Submission.AdapterRequest, d: Submission.Draw)
    requires Submission.Drawn(env, d)
    ensures Submission.DoWork(s, env, req, d).0.ledger == s.ledger
  {
    hide Submission.KeyTaken, Submission.NeedsFallback, Submission.FallbackKeyTaken, Submission.FallbackFor,
      Submission.ReceiptRow, Submission.FindPackageRow, Submission.PendingRow, Submission.Sent, Submission.Fallen,
      Submission.FallbackResult, Submission.SentResult, Submission.ReceiptText, Registry.Name, Submission.Drawn;
  }

  lemma AdapterKeepsLedger(s: Store, env: Submission.Env, req: Submission.AdapterRequest, d: Submission.Draw)
    requires Submission.Drawn(env, d)
    ensures Submission.Adapt(s, env, req, d, false).0.ledger == s.ledger
  {
    hide Submission.Load, Submission.Reload, Submission.Marked, Submission.DoWork, Submission.Drawn;
    WorkKeepsLedger(s, env, req, d);
  }

  /** Only transitions write the ledger. */
  lemma DoKeepsLedger(c: Config, s: Store, id: string, a: Activity)
    requires Usable(c) && Concerns(c.caseId, a) && !a.ApplyTransition?
    ensures Do(c, s, id, a).0.ledger == s.ledger
  {
    hide StoreFacts, Packages.Persist, Submission.Adapt, SubmissionHistories.Keyed, Transition;
    match a {
      case PersistFacts(kind, caseId) => FactsKeepLedger(s, c.x, kind, caseId);
      case PersistPackage(req) => PackageKeepsLedger(s, PackageEnv(c.x), req, c.draws(id).package);
      case Adapt(caseId, run, p) =>
        AdapterKeepsLedger(s, SubmissionEnv(c.x), SubmissionHistories.Keyed(caseId, run, p), c.draws(id).submission);
      case _ =>
    }
  }

  // ------------------------------------------------------------------ where branches end

  /** A run that ended here returned an applied transition and left the case at a state. */
  ghost predicate EndsAt(c: Config, t: Store, o: Outcome<WorkflowResult>, state: CaseState) {
    o.Returned? ==> o.value.finalResult.Applied? && At(c, t, state)
  }

  lemma SingleEnds(c: Config, s: Store, leg: Leg)
    requires Usable(c) && Unlogged(c, s, leg, 1)
    ensures var (t, o) := Must(c, s, leg);
            EndsAt(c, t, Single(c, leg, o), leg.toState) && EndsAt(c, t, WithIntake(Single(c, leg, o)), leg.toState)
  {
    hide Must, Unlogged, Usable;
    MustReaches(c, s, leg);
    var (t, o) := Must(c, s, leg);
    assert EndsAt(c, t, Single(c, leg, o), leg.toState);
  }

  lemma StageReaches(c: Config, s: Store, kind: FactKind, activity: string, leg: Leg)
    requires Usable(c) && Unlogged(c, s, leg, 1)
    ensures var (t, o) := Stage(c, s, kind, activity, leg);
            o.Returned? ==> o.value.Applied? && At(c, t, leg.toState)
  {
    hide Do, Must, At, Usable, LegId, IdOf;
    DoKeepsLedger(c, s, IdOf(c, activity, 1), PersistFacts(kind, c.caseId));
    MustReaches(c, Do(c, s, IdOf(c, activity, 1), PersistFacts(kind, c.caseId)).0, leg);
  }

  lemma StageKeeps(c: Config, s: Store, kind: FactKind, activity: string, leg: Leg, other: Leg)
    requires Usable(c) && Unlogged(c, s, other, 1) && LegId(c, leg, 1) != LegId(c, other, 1)
    ensures Unlogged(c, Stage(c, s, kind, activity, leg).0, other, 1)
  {
    hide Do, Must, Usable, LegId, IdOf;
    DoKeepsLedger(c, s, IdOf(c, activity, 1), PersistFacts(kind, c.caseId));
    MustKeeps(c, Do(c, s, IdOf(c, activity, 1), PersistFacts(kind, c.caseId)).0, leg, other);
  }

  lemma IncentivesApart(c: Config)
    ensures LegId(c, JURISDICTION, 1) != LegId(c, INCENTIVES, 1)
    ensures LegId(c, RESEARCH, 1) != LegId(c, INCENTIVES, 1)
    ensures LegId(c, COMPLIANCE, 1) != LegId(c, INCENTIVES, 1)
  {
    hide LegId;
    StepsDiffer();
    LegsApart(c, JURISDICTION, 1, INCENTIVES, 1);
    LegsApart(c, RESEARCH, 1, INCENTIVES, 1);
    LegsApart(c, COMPLIANCE, 1, INCENTIVES, 1);
  }

  lemma ResearchReaches(c: Config, s: Store)
    requires Usable(c) && Unlogged(c, s, INCENTIVES, 1)
    ensures var (t, o) := FromResearch(c, s); o.Returned? ==> o.value.Applied? && At(c, t, IncentivesComplete)
  {
    hide Stage, At, Usable, LegId, Unlogged;
    IncentivesApart(c);
    StageKeeps(c, s, ComplianceEvaluations, "persist_compliance", COMPLIANCE, INCENTIVES);
    var t := Stage(c, s, ComplianceEvaluations, "persist_compliance", COMPLIANCE).0;
    StageReaches(c, t, IncentiveAssessments, "persist_incentives", INCENTIVES);
  }

  lemma JurisdictionReaches(c: Config, s: Store)
    requires Usable(c) && Unlogged(c, s, INCENTIVES, 1)
    ensures var (t, o) := FromJurisdiction(c, s); o.Returned? ==> o.value.Applied? && At(c, t, IncentivesComplete)
  {
    hide Stage, At, Usable, LegId, Unlogged, FromResearch;
    IncentivesApart(c);
    StageKeeps(c, s, RequirementSets, "persist_requirements", RESEARCH, INCENTIVES);
    ResearchReaches(c, Stage(c, s, RequirementSets, "persist_requirements", RESEARCH).0);
  }

  lemma IntakeCompleteEnds(c: Config, s: Store)
    requires Usable(c) && Unlogged(c, s, INCENTIVES, 1)
    ensures var (t, o) := FromIntakeComplete(c, s); EndsAt(c, t, o, IncentivesComplete)
  {
    hide Stage, Usable, LegId, Unlogged, FromJurisdiction;
    IncentivesApart(c);
    StageKeeps(c, s, Jurisdictions, "persist_jurisdiction", JURISDICTION, INCENTIVES);
    var (t, o) := Stage(c, s, Jurisdictions, "persist_jurisdiction", JURISDICTION);
    JurisdictionReaches(c, t);
    var (u, last) := FromJurisdiction(c, t);
  }

  lemma ComplianceCompleteEnds(c: Config, s: Store)
    requires Usable(c) && Unlogged(c, s, INCENTIVES, 1)
    ensures var (t, o) := FromComplianceComplete(c, s); EndsAt(c, t, o, IncentivesComplete)
  {
    hide Stage, Usable, LegId, Unlogged;
    StageReaches(c, s, IncentiveAssessments, "persist_incentives", INCENTIVES);
    var (t, o) := IncentivesStage(c, s);
  }

  /** Neither leg out of DOCUMENT_COMPLETE has been committed. */
  predicate Unsent(c: Config, s: Store) {
    Unlogged(c, s, SUBMIT, 1) && Unlogged(c, s, MANUAL, 1)
  }

  ghost predicate EndsSent(c: Config, t: Store, o: Outcome<WorkflowResult>) {
    o.Returned? ==> o.value.finalResult.Applied? && (At(c, t, Submitted) || At(c, t, ManualSubmissionRequired))
  }

  lemma SubmittingEnds(c: Config, s: Store, leg: Leg, initialId: Option<string>, initial: Option<TransitionResult>)
    requires Usable(c) && Unlogged(c, s, leg, 1) && (leg == SUBMIT || leg == MANUAL)
    ensures var (t, r) := Must(c, s, leg); EndsSent(c, t, Submitting(c, initialId, initial, leg, r))
  {
    hide Must, Usable, LegId, Unlogged;
    MustReaches(c, s, leg);
    var (t, r) := Must(c, s, leg);
    assert EndsSent(c, t, Submitting(c, initialId, initial, leg, r));
  }

  lemma SubmissionEnds(c: Config, s: Store, packageId: string, initialId: Option<string>, initial: Option<TransitionResult>)
    requires Usable(c) && Unsent(c, s)
    ensures var (t, o) := SubmissionStep(c, s, packageId, initialId, initial); EndsSent(c, t, o)
  {
    hide Do, Must, Usable, LegId, IdOf, EndsSent, Submitting;
    var a := Adapt(c.caseId, c.runId, packageId);
    var t := Do(c, s, IdOf(c, ADAPTER_STEP, 1), a).0;
    DoKeepsLedger(c, s, IdOf(c, ADAPTER_STEP, 1), a);
    SubmittingEnds(c, t, SUBMIT, initialId, initial);
    SubmittingEnds(c, t, MANUAL, initialId, initial);
    RaisedEnds(c, t);
  }

  lemma RaisedEnds(c: Config, t: Store)
    ensures forall e :: EndsSent(c, t, Raised(e))
  {
  }

  lemma SentApart(c: Config)
    ensures LegId(c, DOCUMENT, 1) != LegId(c, SUBMIT, 1) && LegId(c, DOCUMENT, 1) != LegId(c, MANUAL, 1)
    ensures LegId(c, RESUBMISSION, 1) != LegId(c, SUBMIT, 1) && LegId(c, RESUBMISSION, 1) != LegId(c, MANUAL, 1)
  {
    hide LegId;
    StepsDiffer();
    LegsApart(c, DOCUMENT, 1, SUBMIT, 1);
    LegsApart(c, DOCUMENT, 1, MANUAL, 1);
    LegsApart(c, RESUBMISSION, 1, SUBMIT, 1);
    LegsApart(c, RESUBMISSION, 1, MANUAL, 1);
  }

  lemma PackageKeepsUnsent(c: Config, s: Store, attempt: nat)
    requires Usable(c) && Unsent(c, s)
    ensures Unsent(c, MakePackage(c, s, attempt).0)
  {
    hide Do, Usable, LegId, IdOf;
    var id := IdOf(c, PACKAGE, attempt);
    DoKeepsLedger(c, s, id, PersistPackage(Packages.PackageRequest(id, c.caseId)));
  }

  lemma AfterPackageEnds(c: Config, s: Store, packageId: string)
    requires Usable(c) && Unsent(c, s)
    ensures var (t, o) := AfterPackage(c, s, packageId); EndsSent(c, t, o)
  {
    hide Do, Must, At, Usable, LegId, SubmissionStep;
    DoKeepsLedger(c, s, "fetch", FetchState(c.caseId));
    var (t, o) := Do(c, s, "fetch", FetchState(c.caseId));
    SentApart(c);
    MustKeeps(c, t, DOCUMENT, SUBMIT);
    MustKeeps(c, t, DOCUMENT, MANUAL);
    var (u, r) := Must(c, t, DOCUMENT);
    SubmissionEnds(c, t, packageId, None, None);
    if r.Returned? { SubmissionEnds(c, u, packageId, Some(LegId(c, DOCUMENT, 1)), Some(r.value)); }
  }

  lemma IncentivesCompleteEnds(c: Config, s: Store)
    requires Usable(c) && Unsent(c, s)
    ensures var (t, o) := FromIncentivesComplete(c, s); EndsSent(c, t, o)
  {
    hide MakePackage, AfterPackage, Usable, Unsent, At;
    PackageKeepsUnsent(c, s, 1);
    var (t, o) := MakePackage(c, s, 1);
    if o.Returned? { AfterPackageEnds(c, t, o.value); }
  }

  lemma DocumentCompleteEnds(c: Config, s: Store)
    requires Usable(c) && Unsent(c, s)
    ensures var (t, o) := FromDocumentComplete(c, s); EndsSent(c, t, o)
  {
    hide MakePackage, SubmissionStep, Usable, Unsent, At;
    PackageKeepsUnsent(c, s, 1);
    var (t, o) := MakePackage(c, s, 1);
    if o.Returned? { SubmissionEnds(c, t, o.value, None, None); }
  }

  lemma ResubmissionEnds(c: Config, s: Store)
    requires Usable(c) && Unsent(c, s)
    ensures var (t, o) := FromResubmission(c, s); EndsSent(c, t, o)
  {
    hide Must, MakePackage, SubmissionStep, Usable, Unlogged, At, LegId;
    SentApart(c);
    MustKeeps(c, s, RESUBMISSION, SUBMIT);
    MustKeeps(c, s, RESUBMISSION, MANUAL);
    var (t, r) := Must(c, s, RESUBMISSION);
    PackageKeepsUnsent(c, t, 2);
    var (u, o) := MakePackage(c, t, 2);
    if r.Returned? && o.Returned? {
      SubmissionEnds(c, u, o.value, Some(LegId(c, RESUBMISSION, 1)), Some(r.value));
    }
  }

  lemma ReviewEnds(c: Config, s: Store, v: Review)
    requires Usable(c) && Unlogged(c, s, APPROVAL, 1) && Unlogged(c, s, APPROVAL, 2)
    ensures var (t, o) := FromReview(c, s, v); EndsAt(c, t, o, ApprovedForSubmission)
  {
    hide Move, Usable, LegId, RequestFor;
    LegsApart(c, APPROVAL, 1, APPROVAL, 2);
    MoveReaches(c, s, APPROVAL, 1, None);
    MoveKeepsUnlogged(c, s, APPROVAL, 1, None, APPROVAL, 2);
    var t, signal := Waited(Move(c, s, RequestFor(c, APPROVAL, 1, None)).0, v), FirstSignal(v);
    MoveReaches(c, t, APPROVAL, 2, signal.decisionId);
  }

  /** The states a run that starts at a state can return from. */
  function Ends(start: CaseState): set<CaseState> {
    match start
    case IntakePending => {IntakeComplete}
    case IntakeComplete => {IncentivesComplete}
    case ComplianceComplete => {IncentivesComplete}
    case IncentivesComplete => {Submitted, ManualSubmissionRequired}
    case DocumentComplete => {Submitted, ManualSubmissionRequired}
    case ResubmissionPending => {Submitted, ManualSubmissionRequired}
    case CommentReviewPending => {CorrectionPending}
    case Submitted => {}
    case CorrectionPending => {}
    case _ => {ApprovedForSubmission}
  }

  lemma BranchEnds(c: Config, s: Store, start: CaseState, v: Review)
    requires Usable(c) && NewRun(c, s)
    ensures var (t, o) := FromState(c, s, start, v);
            o.Returned? ==>
              && o.value.finalResult.Applied?
              && c.caseId in t.cases && t.cases[c.caseId].caseState in Ends(start)
  {
    hide FromIntakeComplete, FromComplianceComplete, FromIncentivesComplete, FromDocumentComplete, FromResubmission,
      FromReview, Must, Usable, Unlogged, LegId;
    assert Unlogged(c, s, INTAKE, 1) && Unlogged(c, s, INCENTIVES, 1) && Unlogged(c, s, CORRECTION, 1);
    assert Unlogged(c, s, SUBMIT, 1) && Unlogged(c, s, MANUAL, 1);
    assert Unlogged(c, s, APPROVAL, 1) && Unlogged(c, s, APPROVAL, 2);
    match start {
      case IntakePending => SingleEnds(c, s, INTAKE);
      case IntakeComplete => IntakeCompleteEnds(c, s);
      case ComplianceComplete => ComplianceCompleteEnds(c, s);
      case IncentivesComplete => IncentivesCompleteEnds(c, s);
      case DocumentComplete => DocumentCompleteEnds(c, s);
      case ResubmissionPending => ResubmissionEnds(c, s);
      case CommentReviewPending => SingleEnds(c, s, CORRECTION);
      case Submitted =>
      case CorrectionPending =>
      case _ => ReviewEnds(c, s, v);
    }
  }

  /** The state a run finds: a case that did not exist is created for review. */
  function StartOf(c: Config, s: Store): CaseState {
    if c.caseId in s.cases then s.cases[c.caseId].caseState else ReviewPending
  }

  /** A new run that returns has had its final transition applied, and leaves the case in
      an end state of the one it started from; none returns from SUBMITTED or
      CORRECTION_PENDING, where the result cannot be built. */
  lemma RunEnds(c: Config, s: Store, v: Review)
    requires Usable(c) && NewRun(c, s)
    ensures var (t, o) := Flow(c, s, v);
            o.Returned? ==>
              && o.value.finalResult.Applied?
              && c.caseId in t.cases && t.cases[c.caseId].caseState in Ends(StartOf(c, s))
  {
    hide FromState, Usable, Ends, LegId;
    var t := Do(c, s, "ensure", EnsureCase(c.caseId)).0;
    forall leg: Leg, attempt: nat ensures Unlogged(c, t, leg, attempt) {
      assert Unlogged(c, s, leg, attempt);
    }
    assert Do(c, t, "fetch", FetchState(c.caseId)) == (t, Returned(CaseAt(StartOf(c, s))));
    BranchEnds(c, t, StartOf(c, s), v);
  }

  /** A run on a case at SUBMITTED or CORRECTION_PENDING changes nothing and fails to build
      its result, since that has no initial transition to name. */
  lemma NoResultFromWaitingStates(c: Config, s: Store, v: Review)
    requires Usable(c) && (At(c, s, Submitted) || At(c, s, CorrectionPending))
    ensures Flow(c, s, v) == (s, Raised(ValidationError))
  {
    hide Usable;
  }

  // ------------------------------------------------------------------- resubmission

  /** The submission step of a case that already has an attempt, from any earlier run: it
      makes no new attempt and no new receipt, and moves the case by the outcome of the old
      one. A resubmitted case is thus marked SUBMITTED again on its first receipt. */
  lemma ResubmissionReusesTheAttempt(c: Config, s: Store, packageId: string, initialId: Option<string>,
                                     initial: Option<TransitionResult>, id: string)
    requires Usable(c)
    requires SubmissionHistories.Callable(s, SubmissionEnv(c.x), c.caseId, c.runId, packageId,
                                          c.draws(IdOf(c, ADAPTER_STEP, 1)).submission)
    requires id in s.attempts && s.attempts[id].caseId == c.caseId
    ensures var (t, o) := SubmissionStep(c, s, packageId, initialId, initial);
            && t.attempts == s.attempts && t.artifacts == s.artifacts && t.fallbacks == s.fallbacks
            && (s.attempts[id].status == SubmittedAttempt ==> t == Must(c, s, SUBMIT).0)
            && (s.attempts[id].status == ManualFallback ==> t == Must(c, s, MANUAL).0)
            && (s.attempts[id].status == FailedAttempt ==> (t, o) == (s, Raised(RuntimeError)))
  {
    hide Usable, Submission.Adapt, SubmissionHistories.Sound, SubmissionHistories.Keyed, Move, Submission.Load, LegId;
    var env, d := SubmissionEnv(c.x), c.draws(IdOf(c, ADAPTER_STEP, 1)).submission;
    SubmissionHistories.LaterCallsGetTheAttempt(s, env, c.caseId, c.runId, packageId, d, id);
    SubmissionHistories.LoadAnswers(s, c.x.cfg, id);
    StatusOutcome(s, c.x, id);
    MustKeepsAttempts(c, s, SUBMIT);
    MustKeepsAttempts(c, s, MANUAL);
  }

  lemma StatusOutcome(s: Store, x: Surroundings, id: string)
    requires SubmissionHistories.Sound(s, x.cfg) && id in s.attempts
    ensures s.attempts[id].status != PendingAttempt
    ensures s.attempts[id].outcome == Some(match s.attempts[id].status
                                           case SubmittedAttempt => Success
                                           case ManualFallback => UnsupportedWorkflow
                                           case _ => AdapterFailed)
  {
    assert SubmissionHistories.Settled(s, x.cfg, id, s.attempts[id]);
  }

  lemma MustKeepsAttempts(c: Config, s: Store, leg: Leg)
    requires Usable(c)
    ensures var t := Must(c, s, leg).0;
            t.attempts == s.attempts && t.artifacts == s.artifacts && t.fallbacks == s.fallbacks
  {
    hide Usable, Decide, LedgerRowFor, AuditRowFor, Recorded, LegId;
  }
}
