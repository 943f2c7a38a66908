/** The permit-case workflow: what a run without crashes does, and the run whose
    activities crash and are retried while other cases commit, proved to do the same to the
    rows of its case, but for objects in storage that no row points at. */
module Workflow {
  import opened Contracts
  import opened Tables
  import opened RequestIds
  import opened Transitions
  import opened Activities
  import opened Retries
  import opened Views
  import opened Neighbours
  import Evidence
  import Packages
  import PackageRaces
  import PackageHistories
  import Registry
  import Submission
  import SubmissionHistories

  /** A ReviewDecision signal; an old client may send no decision id. */
  datatype ReviewSignal = ReviewSignal(decisionId: Option<string>, outcome: ReviewOutcome, reviewerId: string)

  datatype WorkflowResult = WorkflowResult(
    caseId: string,
    correlationId: string,
    intakeRequestId: Option<string>,
    intakeResult: Option<TransitionResult>,
    initialRequestId: string,
    initialResult: TransitionResult,
    reviewDecisionId: Option<string>,
    reviewSignal: Option<ReviewSignal>,
    finalRequestId: string,
    finalResult: TransitionResult)

  /** One run of the workflow of a case: its clock when a request is made, and what each
      activity draws when it commits. */
  datatype Config = Config(
    x: Surroundings,
    caseId: string,
    runId: string,
    now: string -> int,
    draws: string -> Draws)

  function CaseWorkflow(c: Config): string {
    SubmissionHistories.WorkflowOf(c.caseId)
  }

  function IdOf(c: Config, step: string, attempt: nat): string {
    RequestId(CaseWorkflow(c), c.runId, step, attempt)
  }

  function CorrelationId(c: Config): string {
    CaseWorkflow(c) + ":" + c.runId
  }

  /** What any draw of the run must look like to be used by any activity of it. */
  predicate WellFormed(x: Surroundings, caseId: string, d: Draws) {
    && Packages.Drawn(PackageEnv(x), Packages.PackageRequest("", caseId), d.package)
    && Submission.Drawn(SubmissionEnv(x), d.submission)
  }

  ghost predicate Usable(c: Config) {
    forall id: string :: WellFormed(c.x, c.caseId, c.draws(id))
  }

  predicate Concerns(caseId: string, a: Activity) {
    a.PersistPackage? ==> a.req.caseId == caseId
  }

  /** A guarded transition of the workflow, by the name its request ids carry. */
  datatype Leg = Leg(step: string, fromState: CaseState, toState: CaseState)

  const INTAKE := Leg("intake_pending_to_intake_complete", IntakePending, IntakeComplete)
  const JURISDICTION := Leg("intake_complete_to_jurisdiction_complete", IntakeComplete, JurisdictionComplete)
  const RESEARCH := Leg("jurisdiction_complete_to_research_complete", JurisdictionComplete, ResearchComplete)
  const COMPLIANCE := Leg("research_complete_to_compliance_complete", ResearchComplete, ComplianceComplete)
  const INCENTIVES := Leg("compliance_complete_to_incentives_complete", ComplianceComplete, IncentivesComplete)
  const DOCUMENT := Leg("incentives_complete_to_document_complete", IncentivesComplete, DocumentComplete)
  const SUBMIT := Leg("document_complete_to_submitted", DocumentComplete, Submitted)
  const MANUAL := Leg("document_complete_to_manual_submission_required", DocumentComplete, ManualSubmissionRequired)
  const CORRECTION := Leg("comment_review_pending_to_correction_pending", CommentReviewPending, CorrectionPending)
  const RESUBMISSION := Leg("resubmission_pending_to_document_complete", ResubmissionPending, DocumentComplete)
  const APPROVAL := Leg("review_pending_to_approved_for_submission", ReviewPending, ApprovedForSubmission)

  // --------------------------------------------------------------- a run without crashes

  ghost function Do(c: Config, s: Store, id: string, a: Activity): (Store, Outcome<Value>)
    requires Usable(c) && Concerns(c.caseId, a)
  {
    Perform(s, c.x, a, c.draws(id))
  }

  function LegId(c: Config, leg: Leg, attempt: nat): string {
    IdOf(c, leg.step, attempt)
  }

  function RequestFor(c: Config, leg: Leg, attempt: nat, review: Option<string>): TransitionRequest {
    var id := LegId(c, leg, attempt);
    TransitionRequest(id, c.caseId, leg.fromState, leg.toState, "system_guard", "system-guard", CorrelationId(c), review, None, c.now(id))
  }

  function Moved(o: Outcome<Value>): Outcome<TransitionResult> {
    match o
    case Returned(TransitionSays(r)) => Returned(r)
    case Raised(e) => Raised(e)
    case _ => Raised(RuntimeError)
  }

  function Insist(o: Outcome<TransitionResult>): Outcome<TransitionResult> {
    if o.Returned? && o.value.Denied? then Raised(RuntimeError) else o
  }

  /** `_apply_transition`. */
  ghost function Move(c: Config, s: Store, req: TransitionRequest): (Store, Outcome<TransitionResult>)
    requires Usable(c)
  {
    var (t, o) := Do(c, s, req.requestId, ApplyTransition(req));
    (t, Moved(o))
  }

  /** A transition the run cannot go on without. */
  ghost function Must(c: Config, s: Store, leg: Leg): (Store, Outcome<TransitionResult>)
    requires Usable(c)
  {
    var (t, o) := Move(c, s, RequestFor(c, leg, 1, None));
    (t, Insist(o))
  }

  /** Store gate evidence, then pass the gate. */
  ghost function Stage(c: Config, s: Store, kind: FactKind, activity: string, leg: Leg)
    : (Store, Outcome<TransitionResult>)
    requires Usable(c)
  {
    var (t, o) := Do(c, s, IdOf(c, activity, 1), PersistFacts(kind, c.caseId));
    if o.Raised? then (t, Raised(o.error)) else Must(c, t, leg)
  }

  const PACKAGE := "persist_submission_package"

  /** Building the result payload: the initial and final requests are required fields. */
  function Built(c: Config, initialId: Option<string>, initial: Option<TransitionResult>,
                 finalId: Option<string>, final: Option<TransitionResult>): Outcome<WorkflowResult>
  {
    if initialId.None? || initial.None? || finalId.None? || final.None? then Raised(ValidationError)
    else Returned(WorkflowResult(c.caseId, CorrelationId(c), None, None, initialId.value, initial.value, None, None,
                                 finalId.value, final.value))
  }

  function Single(c: Config, leg: Leg, o: Outcome<TransitionResult>): Outcome<WorkflowResult> {
    if o.Raised? then Raised(o.error)
    else Built(c, Some(LegId(c, leg, 1)), Some(o.value), Some(LegId(c, leg, 1)), Some(o.value))
  }

  function WithIntake(r: Outcome<WorkflowResult>): Outcome<WorkflowResult> {
    if r.Raised? then r
    else Returned(r.value.(intakeRequestId := Some(r.value.initialRequestId), intakeResult := Some(r.value.initialResult)))
  }

  ghost function FromIntakePending(c: Config, s: Store): (Store, Outcome<WorkflowResult>)
    requires Usable(c)
  {
    var (t, o) := Must(c, s, INTAKE);
    (t, WithIntake(Single(c, INTAKE, o)))
  }

  ghost function IncentivesStage(c: Config, s: Store): (Store, Outcome<TransitionResult>)
    requires Usable(c)
  {
    Stage(c, s, IncentiveAssessments, "persist_incentives", INCENTIVES)
  }

  ghost function FromResearch(c: Config, s: Store): (Store, Outcome<TransitionResult>)
    requires Usable(c)
  {
    var (t, o) := Stage(c, s, ComplianceEvaluations, "persist_compliance", COMPLIANCE);
    if o.Raised? then (t, o) else IncentivesStage(c, t)
  }

  ghost function FromJurisdiction(c: Config, s: Store): (Store, Outcome<TransitionResult>)
    requires Usable(c)
  {
    var (t, o) := Stage(c, s, RequirementSets, "persist_requirements", RESEARCH);
    if o.Raised? then (t, o) else FromResearch(c, t)
  }

  function Spanning(c: Config, first: Leg, initial: TransitionResult, o: Outcome<TransitionResult>): Outcome<WorkflowResult> {
    if o.Raised? then Raised(o.error)
    else Built(c, Some(LegId(c, first, 1)), Some(initial), Some(LegId(c, INCENTIVES, 1)), Some(o.value))
  }

  ghost function FromIntakeComplete(c: Config, s: Store): (Store, Outcome<WorkflowResult>)
    requires Usable(c)
  {
    var (t, o) := Stage(c, s, Jurisdictions, "persist_jurisdiction", JURISDICTION);
    if o.Raised? then (t, Raised(o.error))
    else
      var (u, last) := FromJurisdiction(c, t);
      (u, Spanning(c, JURISDICTION, o.value, last))
  }

  ghost function FromComplianceComplete(c: Config, s: Store): (Store, Outcome<WorkflowResult>)
    requires Usable(c)
  {
    var (t, o) := IncentivesStage(c, s);
    (t, Single(c, INCENTIVES, o))
  }

  function Packaged(o: Outcome<Value>): Outcome<string> {
    match o
    case Returned(PackageIs(id)) => Returned(id)
    case Raised(e) => Raised(e)
    case _ => Raised(RuntimeError)
  }

  ghost function MakePackage(c: Config, s: Store, attempt: nat): (Store, Outcome<string>)
    requires Usable(c)
  {
    var id := IdOf(c, PACKAGE, attempt);
    var (t, o) := Do(c, s, id, PersistPackage(Packages.PackageRequest(id, c.caseId)));
    (t, Packaged(o))
  }

  function Submitting(c: Config, initialId: Option<string>, initial: Option<TransitionResult>, leg: Leg,
                      o: Outcome<TransitionResult>): Outcome<WorkflowResult>
  {
    if o.Raised? then Raised(o.error)
    else
      var id := LegId(c, leg, 1);
      Built(c, Some(if initialId.Some? then initialId.value else id),
            Some(if initial.Some? then initial.value else o.value), Some(id), Some(o.value))
  }

  /** `_run_submission_step`: always submission attempt 1. */
  ghost function SubmissionStep(c: Config, s: Store, packageId: string, initialId: Option<string>, initial: Option<TransitionResult>)
    : (Store, Outcome<WorkflowResult>)
    requires Usable(c)
  {
    var (t, o) := Do(c, s, IdOf(c, ADAPTER_STEP, 1), Adapt(c.caseId, c.runId, packageId));
    match o
    case Raised(e) => (t, Raised(e))
    case Returned(AdapterSays(UnsupportedWorkflow)) =>
      var (u, r) := Must(c, t, MANUAL);
      (u, Submitting(c, initialId, initial, MANUAL, r))
    case Returned(AdapterSays(Success)) =>
      var (u, r) := Must(c, t, SUBMIT);
      (u, Submitting(c, initialId, initial, SUBMIT, r))
    case _ => (t, Raised(RuntimeError))
  }

  ghost function AfterPackage(c: Config, s: Store, packageId: string): (Store, Outcome<WorkflowResult>)
    requires Usable(c)
  {
    var (t, o) := Do(c, s, "fetch", FetchState(c.caseId));
    if o.Raised? then (t, Raised(o.error))
    else if o.value == CaseAt(DocumentComplete) then SubmissionStep(c, t, packageId, None, None)
    else
      var (u, r) := Must(c, t, DOCUMENT);
      if r.Raised? then (u, Raised(r.error))
      else SubmissionStep(c, u, packageId, Some(LegId(c, DOCUMENT, 1)), Some(r.value))
  }

  ghost function FromIncentivesComplete(c: Config, s: Store): (Store, Outcome<WorkflowResult>)
    requires Usable(c)
  {
    var (t, o) := MakePackage(c, s, 1);
    if o.Raised? then (t, Raised(o.error)) else AfterPackage(c, t, o.value)
  }

  ghost function FromDocumentComplete(c: Config, s: Store): (Store, Outcome<WorkflowResult>)
    requires Usable(c)
  {
    var (t, o) := MakePackage(c, s, 1);
    if o.Raised? then (t, Raised(o.error)) else SubmissionStep(c, t, o.value, None, None)
  }

  ghost function FromCommentReview(c: Config, s: Store): (Store, Outcome<WorkflowResult>)
    requires Usable(c)
  {
    var (t, o) := Must(c, s, CORRECTION);
    (t, Single(c, CORRECTION, o))
  }

  ghost function FromResubmission(c: Config, s: Store): (Store, Outcome<WorkflowResult>)
    requires Usable(c)
  {
    var (t, r) := Must(c, s, RESUBMISSION);
    if r.Raised? then (t, Raised(r.error))
    else
      var (u, o) := MakePackage(c, t, 2);
      if o.Raised? then (u, Raised(o.error))
      else SubmissionStep(c, u, o.value, Some(LegId(c, RESUBMISSION, 1)), Some(r.value))
  }

  /** What is known when the wait for a review ends: the first signal, and the decisions the
      review endpoint stored meanwhile. */
  datatype Review = Review(pending: Option<ReviewSignal>, arriving: ReviewSignal, posted: seq<ReviewRow>)

  function FirstSignal(v: Review): ReviewSignal {
    if v.pending.Some? then v.pending.value else v.arriving
  }

  function Waited(s: Store, v: Review): Store {
    if v.pending.Some? then s else s.(reviews := s.reviews + v.posted)
  }

  function Reviewed(c: Config, initial: TransitionResult, signal: ReviewSignal, o: Outcome<TransitionResult>): Outcome<WorkflowResult> {
    if o.Raised? then Raised(o.error)
    else
      var r := Built(c, Some(LegId(c, APPROVAL, 1)), Some(initial), Some(LegId(c, APPROVAL, 2)), Some(o.value));
      if r.Raised? then r
      else Returned(r.value.(reviewDecisionId := signal.decisionId, reviewSignal := Some(signal)))
  }

  ghost function AfterReview(c: Config, s: Store, v: Review, initial: TransitionResult): (Store, Outcome<WorkflowResult>)
    requires Usable(c)
  {
    var t, signal := Waited(s, v), FirstSignal(v);
    if signal.decisionId.None? then (t, Raised(RuntimeError))
    else
      var (u, o) := Move(c, t, RequestFor(c, APPROVAL, 2, signal.decisionId));
      (u, Reviewed(c, initial, signal, Insist(o)))
  }

  ghost function FromReview(c: Config, s: Store, v: Review): (Store, Outcome<WorkflowResult>)
    requires Usable(c)
  {
    var (t, o) := Move(c, s, RequestFor(c, APPROVAL, 1, None));
    if o.Raised? then (t, Raised(o.error))
    else if o.value.Applied? then (t, Single(c, APPROVAL, o))
    else if o.value.eventType != ApprovalGateDenied then (t, Raised(RuntimeError))
    else AfterReview(c, t, v, o.value)
  }

  ghost function FromState(c: Config, s: Store, state: CaseState, v: Review): (Store, Outcome<WorkflowResult>)
    requires Usable(c)
  {
    match state
    case IntakePending => FromIntakePending(c, s)
    case IntakeComplete => FromIntakeComplete(c, s)
    case ComplianceComplete => FromComplianceComplete(c, s)
    case IncentivesComplete => FromIncentivesComplete(c, s)
    case DocumentComplete => FromDocumentComplete(c, s)
    case Submitted => (s, Built(c, None, None, None, None))
    case CommentReviewPending => FromCommentReview(c, s)
    case CorrectionPending => (s, Built(c, None, None, None, None))
    case ResubmissionPending => FromResubmission(c, s)
    case _ => FromReview(c, s, v)
  }

  /** `PermitCaseWorkflow.run` when no activity ever crashes. */
  ghost function Flow(c: Config, s: Store, v: Review): (Store, Outcome<WorkflowResult>)
    requires Usable(c)
  {
    var t := Do(c, s, "ensure", EnsureCase(c.caseId)).0;
    var (u, o) := Do(c, t, "fetch", FetchState(c.caseId));
    match o
    case Returned(CaseAt(state)) => FromState(c, u, state, v)
    case Raised(e) => (u, Raised(e))
    case _ => (u, Raised(RuntimeError))
  }

  lemma FromStateCases(c: Config, s: Store, state: CaseState, v: Review)
    requires Usable(c)
    ensures FromState(c, s, state, v)
            == if state == IntakePending then FromIntakePending(c, s)
               else if state == IntakeComplete then FromIntakeComplete(c, s)
               else if state == ComplianceComplete then FromComplianceComplete(c, s)
               else if state == IncentivesComplete then FromIncentivesComplete(c, s)
               else if state == DocumentComplete then FromDocumentComplete(c, s)
               else if state == Submitted || state == CorrectionPending then (s, Built(c, None, None, None, None))
               else if state == CommentReviewPending then FromCommentReview(c, s)
               else if state == ResubmissionPending then FromResubmission(c, s)
               else FromReview(c, s, v)
  {
    hide FromIntakePending, FromIntakeComplete, FromComplianceComplete, FromIncentivesComplete, FromDocumentComplete,
      FromCommentReview, FromResubmission, FromReview, Usable, Built;
  }

  // ------------------------------------------------------------------ a run with crashes

  class PermitCaseWorkflow {
    const db: Database
    const x: Surroundings
    const caseId: string
    const runId: string
    const now: string -> int
    const crashes: string -> seq<Trial>      // the attempts of each activity that die
    const last: string -> Draws              // what the attempt that answers draws
    const view: View                         // the cases it is looked at with, and their ids
    const others: string -> Others           // what other cases commit before each attempt
    var reviewDecision: Option<ReviewSignal>

    constructor (db: Database, x: Surroundings, caseId: string, runId: string, now: string -> int,
                 crashes: string -> seq<Trial>, last: string -> Draws, view: View, others: string -> Others)
      ensures this.db == db && this.x == x && this.caseId == caseId && this.runId == runId
      ensures this.now == now && this.crashes == crashes && this.last == last
      ensures this.view == view && this.others == others
      ensures reviewDecision == None
    {
      this.db, this.x, this.caseId, this.runId, this.now := db, x, caseId, runId, now;
      this.crashes, this.last, this.reviewDecision := crashes, last, None;
      this.view, this.others := view, others;
    }

    /** The run without crashes this one is compared to: it draws, at each activity, what
        the first attempt here to commit draws. */
    function Smooth(): Config {
      Config(x, caseId, runId, now, id => Effective(crashes(id), last(id)))
    }

    /** What the cases in view see of the database. */
    ghost function Here(): Store
      reads db
    {
      Slice(view, db.Tables())
    }

    /** They see what the run without crashes has, but for content no row points at. */
    ghost predicate Mirrors(s: Store)
      reads db
    {
      Alike(s, Here(), x.cfg) && Separate(view, db.Tables())
    }

    /** This run has come to where the one without crashes has, with the same answer. */
    ghost predicate Follows<T(!new)>(r: (Store, Outcome<T>), o: Outcome<T>)
      reads db
    {
      Mirrors(r.0) && o == r.1
    }

    ghost predicate Uses(d: Draws) {
      exists id: string :: d == last(id) || exists i :: 0 <= i < |crashes(id)| && d == crashes(id)[i].draws
    }

    /** Ids drawn anywhere in the run are well-formed, new, and no receipt's is also drawn
        for a package. */
    ghost predicate New(s: Store, d: Draws) {
      && WellFormed(x, caseId, d)
      && PackageHistories.FreshDraw(s, d.package)
      && NoReceipt(s, d)
    }

    predicate NoReceipt(s: Store, d: Draws) {
      d.submission.receiptId !in s.artifacts
    }

    predicate Apart(d: Draws, e: Draws) {
      d.submission.receiptId != e.package.manifestArtifact && d.submission.receiptId !in e.package.artifacts
    }

    /** The ids this run makes itself. */
    ghost predicate IdsMine() {
      && view.owns(caseId) && RecordsMine(view, x, caseId)
      && (forall step: string, attempt: nat :: view.mine(IdOf(Smooth(), step, attempt)))
      && view.mine(AttemptId(CaseWorkflow(Smooth()), runId, 1)) && view.mine(SubmitKey(caseId, 1))
      && view.mine(FallbackId(AttemptId(CaseWorkflow(Smooth()), runId, 1)))
    }

    /** The ids it draws, and where their content goes. */
    ghost predicate DrawMine(d: Draws) {
      && PackageMine(view, d.package) && view.mine(d.submission.receiptId)
      && (Registry.ValidEvidenceId(d.submission.receiptId) ==> view.stores(Registry.Name(x.cfg, d.submission.receiptId)))
      && forall id | id == d.package.manifestArtifact || id in d.package.artifacts ::
           Registry.ValidEvidenceId(id) ==> view.stores(Registry.Name(x.cfg, id))
    }

    /** Its case is in view, its ids are of the view, and what the others commit is outside. */
    ghost predicate Secluded() {
      && IdsMine()
      && (forall d | Uses(d) :: DrawMine(d))
      && (forall id: string, n: nat :: Foreign(view, others(id)(n)))
    }

    ghost predicate DrawsFit() {
      && '/' !in runId && Secluded()
      && (forall d | Uses(d) :: WellFormed(x, caseId, d))
      && (forall d, e | Uses(d) && Uses(e) :: Apart(d, e))
    }

    /** The database the run starts from. */
    ghost predicate Ready(s: Store) {
      && SubmissionHistories.Sound(s, x.cfg)
      && forall d | Uses(d) :: New(s, d)
    }

    /** The database the submission step needs. */
    ghost predicate Sendable(s: Store, packageId: string) {
      && SubmissionHistories.Sound(s, x.cfg) && caseId in s.cases
      && Submission.FindPackageRow(s.packages, packageId).Some?
      && forall d | Uses(d) :: NoReceipt(s, d)
    }

    lemma EffectiveIsUsed(trials: seq<Trial>, final: Draws)
      requires Uses(final) && forall i | 0 <= i < |trials| :: Uses(trials[i].draws)
      ensures Uses(Effective(trials, final))
    {
      if trials != [] {
        assert forall i | 0 <= i < |trials| - 1 :: trials[1..][i] == trials[i + 1];
        EffectiveIsUsed(trials[1..], final);
      }
    }

    lemma SmoothUses(id: string)
      ensures Uses(Smooth().draws(id)) && Uses(last(id))
      ensures forall i | 0 <= i < |crashes(id)| :: Uses(crashes(id)[i].draws)
    {
      EffectiveIsUsed(crashes(id), last(id));
    }

    lemma SmoothIsUsable()
      requires DrawsFit()
      ensures Usable(Smooth())
    {
      hide WellFormed, Apart, Uses;
      forall id: string ensures WellFormed(x, caseId, Smooth().draws(id)) {
        SmoothUses(id);
      }
    }

    // -------------------------------------------------- what the database keeps offering

    /** Everything the package and submission steps look at is the same. */
    ghost predicate SameStock(s: Store, t: Store) {
      && t.artifacts == s.artifacts && t.packages == s.packages && s.cases.Keys <= t.cases.Keys
      && SubmissionHistories.Elsewhere(s, t, x.cfg)
    }

    lemma StockAlike(s: Store, t: Store, u: Store)
      requires SameStock(s, t) && Alike(t, u, x.cfg)
      ensures SameStock(s, u)
    {
      hide Registry.ValidEvidenceId, Registry.Name;
    }

    lemma StockKeeps(s: Store, t: Store)
      requires SameStock(s, t)
      ensures Ready(s) ==> Ready(t)
      ensures forall p :: Sendable(s, p) ==> Sendable(t, p)
    {
      hide SubmissionHistories.Settled, SubmissionHistories.KeyedRow, WellFormed, Uses, SubmissionHistories.Elsewhere;
      if SubmissionHistories.Sound(s, x.cfg) {
        SubmissionHistories.ElsewhereKeeps(s, t, x.cfg);
      }
    }

    lemma FactsStock(s: Store, kind: FactKind, c: string)
      ensures SameStock(s, StoreFacts(s, x, kind, c).0)
    {
      hide Evidence.Persist;
    }

    lemma CommitStock(s: Store, req: TransitionRequest, r: TransitionResult)
      requires req.caseId in s.cases
      ensures SameStock(s, Commit(s, req, r))
    {
      hide LedgerRowFor, AuditRowFor;
    }

    lemma TransitionStock(s: Store, req: TransitionRequest, pick: nat)
      ensures SameStock(s, Transition(s, req, pick).0)
    {
      hide Decide, Commit, Recorded, FindRow;
      if req.caseId in s.cases { CommitStock(s, req, Decide(s, req, pick)); }
    }

    lemma PlainActivity(s: Store, a: Activity, d: Draws)
      requires !a.PersistPackage? && !a.Adapt?
      ensures SameStock(s, Perform(s, x, a, d).0)
      ensures a == EnsureCase(caseId) ==> caseId in Perform(s, x, a, d).0.cases
    {
      hide StoreFacts, Transition;
      match a {
        case PersistFacts(kind, c) => FactsStock(s, kind, c);
        case ApplyTransition(req) => TransitionStock(s, req, d.pick);
        case _ =>
      }
    }

    lemma PackagedIsSendable(s: Store, req: Packages.PackageRequest, d: Draws)
      requires DrawsFit() && Ready(s) && caseId in s.cases && req.caseId == caseId && Uses(d)
      ensures Fits(x, PersistPackage(req), d)
      ensures var (t, o) := Perform(s, x, PersistPackage(req), d);
              o.Returned? ==> o.value.PackageIs? && Sendable(t, o.value.packageId)
    {
      hide SubmissionHistories.Sound, Packages.Persist, Uses, Submission.FindPackageRow;
      assert New(s, d);
      var env := PackageEnv(x);
      PackageHistories.PersistIsIdempotent(s, env, req, d.package, d.package);
      PackageHistories.PersistAdds(s, env, req, d.package);
      var t := Packages.Persist(s, env, req, d.package).0;
      SubmissionHistories.ElsewhereKeeps(s, t, x.cfg);
      forall e | Uses(e) ensures NoReceipt(t, e) {
        assert New(s, e) && Apart(e, d);
      }
    }

    // ------------------------------------------------------------------- the steps

    /** Execute an activity; however its attempts crash, and whatever other cases commit
        meanwhile, the rows of its case and the answer are those of the run without crashes. */
    method Act(ghost s: Store, id: string, a: Activity) returns (o: Outcome<Value>)
      requires DrawsFit() && Concerns(caseId, a) && Mirrors(s)
      requires AllSafe(Here(), x, a, crashes(id), last(id)) && AllWithin(view, x, a, crashes(id), last(id))
      modifies db
      ensures Usable(Smooth())
      ensures Follows(Do(Smooth(), s, id, a), o)
      ensures Follows(Do(Smooth(), old(Here()), id, a), o)
    {
      OthersAreForeign(id);
      SmoothIsUsable();
      hide DrawsFit, AllSafe, AllWithin, Perform, Safe, Uses, Alike, Slice, Separate, Foreign;
      ghost var before, here, d := db.Tables(), Here(), Effective(crashes(id), last(id));
      RetriesCollapse(here, x, a, crashes(id), last(id));
      PerformAlike(s, here, x, a, d);
      AmongIsAlone(view, before, x, a, crashes(id), last(id), others(id));
      o := Execute(db, x, a, crashes(id), last(id), others(id));
      AlikeTransitive(Perform(s, x, a, d).0, Perform(here, x, a, d).0, Here(), x.cfg);
    }

    lemma OthersAreForeign(id: string)
      requires DrawsFit()
      ensures forall n :: Foreign(view, others(id)(n))
    {
    }

    /** An activity of this case that draws nothing. */
    ghost predicate Plain(a: Activity) {
      match a
      case EnsureCase(c) => c == caseId
      case FetchState(c) => c == caseId
      case PersistFacts(_, c) => c == caseId
      case ApplyTransition(req) => OwnRequest(req)
      case _ => false
    }

    predicate OwnRequest(req: TransitionRequest) {
      && req.caseId == caseId && view.mine(req.requestId)
      && (req.requiredReviewId.Some? ==> view.mine(req.requiredReviewId.value))
    }

    lemma PlainIsWithin(id: string, a: Activity)
      requires DrawsFit() && Plain(a)
      ensures AllWithin(view, x, a, crashes(id), last(id))
    {
      hide RecordsMine, Uses, WellFormed;
    }

    lemma RequestIsOwn(leg: Leg, attempt: nat, review: Option<string>)
      requires DrawsFit() && (review.Some? ==> view.mine(review.value))
      ensures OwnRequest(RequestFor(Smooth(), leg, attempt, review))
    {
      hide Uses, WellFormed, IdOf;
    }

    lemma PlainIsSafe(s: Store, id: string, a: Activity)
      requires !a.PersistPackage? && !a.Adapt?
      ensures AllSafe(s, x, a, crashes(id), last(id))
    {
    }

    lemma CasesAlike(s: Store, t: Store)
      requires Alike(s, t, x.cfg)
      ensures t.cases == s.cases
    {
    }

    /** An activity that draws nothing. */
    method ActPlainly(ghost s: Store, id: string, a: Activity) returns (o: Outcome<Value>)
      requires DrawsFit() && Plain(a) && Mirrors(s)
      modifies db
      ensures Usable(Smooth())
      ensures Follows(Do(Smooth(), s, id, a), o)
      ensures SameStock(old(Here()), Here())
      ensures a == EnsureCase(caseId) ==> caseId in Here().cases
    {
      hide DrawsFit, AllSafe, AllWithin, Perform, SameStock, Alike, Slice, Separate;
      ghost var before, d := Here(), Smooth().draws(id);
      PlainIsSafe(before, id, a);
      PlainIsWithin(id, a);
      PlainActivity(before, a, d);
      o := Act(s, id, a);
      StockAlike(before, Perform(before, x, a, d).0, Here());
      CasesAlike(Perform(before, x, a, d).0, Here());
    }

    method ApplyTransitionStep(ghost s: Store, req: TransitionRequest) returns (o: Outcome<TransitionResult>)
      requires DrawsFit() && Mirrors(s) && OwnRequest(req)
      modifies db
      ensures Usable(Smooth())
      ensures Follows(Move(Smooth(), s, req), o)
      ensures SameStock(old(Here()), Here())
    {
      hide DrawsFit, Do, SameStock, Alike, Slice, Separate;
      var v := ActPlainly(s, req.requestId, ApplyTransition(req));
      o := match v
        case Returned(TransitionSays(r)) => Returned(r)
        case Raised(e) => Raised(e)
        case _ => Raised(RuntimeError);
    }

    method MustApply(ghost s: Store, leg: Leg) returns (o: Outcome<TransitionResult>)
      requires DrawsFit() && Mirrors(s)
      modifies db
      ensures Usable(Smooth())
      ensures Follows(Must(Smooth(), s, leg), o)
      ensures SameStock(old(Here()), Here())
    {
      RequestIsOwn(leg, 1, None);
      hide DrawsFit, Move, SameStock, RequestFor, Smooth, Usable, Alike, Slice, Separate, OwnRequest;
      o := ApplyTransitionStep(s, RequestFor(Smooth(), leg, 1, None));
      if o.Returned? && o.value.Denied? { o := Raised(RuntimeError); }
    }

    method RunStage(ghost s: Store, kind: FactKind, activity: string, leg: Leg)
      returns (o: Outcome<TransitionResult>)
      requires DrawsFit() && Mirrors(s)
      modifies db
      ensures Usable(Smooth())
      ensures Follows(Stage(Smooth(), s, kind, activity, leg), o)
    {
      assert Smooth().caseId == caseId;
      hide DrawsFit, Do, Must, SameStock, IdOf, Alike, Slice, Separate;
      SmoothIsUsable();
      ghost var t := Do(Smooth(), s, IdOf(Smooth(), activity, 1), PersistFacts(kind, caseId)).0;
      var stored := ActPlainly(s, IdOf(Smooth(), activity, 1), PersistFacts(kind, caseId));
      if stored.Raised? {
        o := Raised(stored.error);
      } else {
        o := MustApply(t, leg);
      }
    }

    method RunIncentives(ghost s: Store) returns (o: Outcome<TransitionResult>)
      requires DrawsFit() && Mirrors(s)
      modifies db
      ensures Usable(Smooth())
      ensures Follows(IncentivesStage(Smooth(), s), o)
    {
      hide DrawsFit, Stage, Alike, Slice, Separate;
      o := RunStage(s, IncentiveAssessments, "persist_incentives", INCENTIVES);
    }

    method RunIntakeComplete(ghost s: Store) returns (o: Outcome<WorkflowResult>)
      requires DrawsFit() && Mirrors(s)
      modifies db
      ensures Usable(Smooth())
      ensures Follows(FromIntakeComplete(Smooth(), s), o)
    {
      hide DrawsFit, Stage, IncentivesStage, IdOf, Alike, Slice, Separate;
      SmoothIsUsable();
      ghost var located := Stage(Smooth(), s, Jurisdictions, "persist_jurisdiction", JURISDICTION).0;
      ghost var required := Stage(Smooth(), located, RequirementSets, "persist_requirements", RESEARCH).0;
      ghost var evaluated := Stage(Smooth(), required, ComplianceEvaluations, "persist_compliance", COMPLIANCE).0;
      var first := RunStage(s, Jurisdictions, "persist_jurisdiction", JURISDICTION);
      if first.Raised? { return Raised(first.error); }
      var research := RunStage(located, RequirementSets, "persist_requirements", RESEARCH);
      if research.Raised? { return Raised(research.error); }
      var compliance := RunStage(required, ComplianceEvaluations, "persist_compliance", COMPLIANCE);
      if compliance.Raised? { return Raised(compliance.error); }
      var incentives := RunIncentives(evaluated);
      o := Spanning(Smooth(), JURISDICTION, first.value, incentives);
    }

    lemma PackageIsSafe(s: Store, id: string, req: Packages.PackageRequest)
      requires DrawsFit() && Ready(s) && caseId in s.cases && req.caseId == caseId
      ensures AllSafe(s, x, PersistPackage(req), crashes(id), last(id))
    {
      hide SubmissionHistories.Sound, Apart;
      SmoothUses(id);
      hide Uses;
      assert New(s, last(id)) && forall i | 0 <= i < |crashes(id)| :: New(s, crashes(id)[i].draws);
    }

    lemma SendableAlike(s: Store, t: Store, packageId: string)
      requires Alike(s, t, x.cfg) && Sendable(s, packageId)
      ensures Sendable(t, packageId)
    {
      hide SubmissionHistories.Sound, Submission.FindPackageRow, Uses, Registry.ValidEvidenceId, Registry.Name;
      SubmissionHistories.ElsewhereKeeps(s, t, x.cfg);
    }

    lemma PackageIsWithin(id: string, req: Packages.PackageRequest)
      requires DrawsFit() && req.caseId == caseId
      ensures AllWithin(view, x, PersistPackage(req), crashes(id), last(id))
    {
      SmoothUses(id);
      PackageDrawWithin(last(id), req);
      forall i | 0 <= i < |crashes(id)| ensures Within(view, x, PersistPackage(req), crashes(id)[i].draws) {
        PackageDrawWithin(crashes(id)[i].draws, req);
      }
    }

    lemma PackageDrawWithin(d: Draws, req: Packages.PackageRequest)
      requires DrawsFit() && req.caseId == caseId && Uses(d)
      ensures Within(view, x, PersistPackage(req), d)
    {
      assert WellFormed(x, caseId, d) && DrawMine(d);
      hide Uses, Registry.Name, Registry.ValidEvidenceId, RecordsMine, Packages.Uploads, IdsMine;
      PackageRaces.UploadIds(PackageEnv(x), req, d.package);
    }

    method PersistPackageStep(ghost s: Store, attempt: nat) returns (o: Outcome<string>)
      requires DrawsFit() && Ready(Here()) && caseId in Here().cases && Mirrors(s)
      modifies db
      ensures Usable(Smooth())
      ensures Follows(MakePackage(Smooth(), s, attempt), o)
      ensures o.Returned? ==> Sendable(Here(), o.value)
    {
      hide DrawsFit, Ready, Sendable, AllSafe, AllWithin, Perform, IdOf, Uses, Alike, Slice, Separate;
      var id := IdOf(Smooth(), PACKAGE, attempt);
      var req := Packages.PackageRequest(id, caseId);
      ghost var before := Here();
      PackageIsSafe(before, id, req);
      PackageIsWithin(id, req);
      SmoothUses(id);
      PackagedIsSendable(before, req, Smooth().draws(id));
      var v := Act(s, id, PersistPackage(req));
      o := match v
        case Returned(PackageIs(p)) => Returned(p)
        case Raised(e) => Raised(e)
        case _ => Raised(RuntimeError);
      if o.Returned? {
        SendableAlike(Perform(before, x, PersistPackage(req), Smooth().draws(id)).0, Here(), o.value);
      }
    }

    lemma AdapterIsSafe(s: Store, id: string, packageId: string)
      requires DrawsFit() && Sendable(s, packageId)
      ensures AllSafe(s, x, Adapt(caseId, runId, packageId), crashes(id), last(id))
    {
      hide SubmissionHistories.Sound, Apart, Submission.FindPackageRow;
      SmoothUses(id);
      hide Uses;
      assert WellFormed(x, caseId, last(id)) && NoReceipt(s, last(id));
      assert forall i | 0 <= i < |crashes(id)| ::
        WellFormed(x, caseId, crashes(id)[i].draws) && NoReceipt(s, crashes(id)[i].draws);
    }

    /** A package that the step finds is of a case in view. */
    lemma SendableIsMine(packageId: string)
      requires Sendable(Here(), packageId) && Separate(view, db.Tables())
      ensures view.mine(packageId)
    {
      hide SubmissionHistories.Sound, Uses;
      OnlyIn(db.packages, Parcels(view));
    }

    lemma AdapterIsWithin(id: string, packageId: string)
      requires DrawsFit() && view.mine(packageId)
      ensures AllWithin(view, x, Adapt(caseId, runId, packageId), crashes(id), last(id))
    {
      SmoothUses(id);
      AdapterDrawWithin(last(id), packageId);
      forall i | 0 <= i < |crashes(id)|
        ensures Within(view, x, Adapt(caseId, runId, packageId), crashes(id)[i].draws)
      {
        AdapterDrawWithin(crashes(id)[i].draws, packageId);
      }
    }

    lemma AdapterDrawWithin(d: Draws, packageId: string)
      requires DrawsFit() && Uses(d) && view.mine(packageId)
      ensures Within(view, x, Adapt(caseId, runId, packageId), d)
    {
      assert WellFormed(x, caseId, d) && DrawMine(d);
      assert view.mine(IdOf(Smooth(), ADAPTER_STEP, 1));
      hide Uses, Registry.Name, Registry.ValidEvidenceId, RecordsMine, SubmitKey, FallbackId, RequestId;
    }

    method RunSubmissionStep(ghost s: Store, packageId: string, initialId: Option<string>, initial: Option<TransitionResult>)
      returns (o: Outcome<WorkflowResult>)
      requires DrawsFit() && Sendable(Here(), packageId) && Mirrors(s)
      modifies db
      ensures Usable(Smooth())
      ensures Follows(SubmissionStep(Smooth(), s, packageId, initialId, initial), o)
    {
      hide DrawsFit, Sendable, AllSafe, AllWithin, Do, Must, IdOf, SameStock, Alike, Slice, Separate;
      var id := IdOf(Smooth(), ADAPTER_STEP, 1);
      SmoothIsUsable();
      ghost var sent := Do(Smooth(), s, id, Adapt(caseId, runId, packageId)).0;
      AdapterIsSafe(Here(), id, packageId);
      SendableIsMine(packageId);
      AdapterIsWithin(id, packageId);
      var v := Act(s, id, Adapt(caseId, runId, packageId));
      if v.Raised? {
        o := Raised(v.error);
      } else if v.value == AdapterSays(UnsupportedWorkflow) {
        var r := MustApply(sent, MANUAL);
        o := Submitting(Smooth(), initialId, initial, MANUAL, r);
      } else if v.value == AdapterSays(Success) {
        var r := MustApply(sent, SUBMIT);
        o := Submitting(Smooth(), initialId, initial, SUBMIT, r);
      } else {
        o := Raised(RuntimeError);
      }
    }

    method RunIncentivesComplete(ghost s: Store) returns (o: Outcome<WorkflowResult>)
      requires DrawsFit() && Ready(Here()) && caseId in Here().cases && Mirrors(s)
      modifies db
      ensures Usable(Smooth())
      ensures Follows(FromIncentivesComplete(Smooth(), s), o)
    {
      hide DrawsFit, Ready, Sendable, MakePackage, AfterPackage, Alike, Slice, Separate;
      SmoothIsUsable();
      ghost var packaged := MakePackage(Smooth(), s, 1).0;
      var package := PersistPackageStep(s, 1);
      if package.Raised? { return Raised(package.error); }
      o := RunAfterPackage(packaged, package.value);
    }

    method RunAfterPackage(ghost s: Store, packageId: string) returns (o: Outcome<WorkflowResult>)
      requires DrawsFit() && Sendable(Here(), packageId) && Mirrors(s)
      modifies db
      ensures Usable(Smooth())
      ensures Follows(AfterPackage(Smooth(), s, packageId), o)
    {
      hide DrawsFit, Ready, Sendable, Do, Must, SubmissionStep, IdOf, SameStock, Alike, Slice, Separate;
      SmoothIsUsable();
      ghost var packaged, fetched := Here(), Do(Smooth(), s, "fetch", FetchState(caseId)).0;
      var snapshot := ActPlainly(s, "fetch", FetchState(caseId));
      StockKeeps(packaged, Here());
      if snapshot.Raised? { return Raised(snapshot.error); }
      if snapshot.value == CaseAt(DocumentComplete) {
        o := RunSubmissionStep(fetched, packageId, None, None);
      } else {
        ghost var before, completed := Here(), Must(Smooth(), fetched, DOCUMENT).0;
        var r := MustApply(fetched, DOCUMENT);
        StockKeeps(before, Here());
        if r.Raised? { return Raised(r.error); }
        o := RunSubmissionStep(completed, packageId, Some(LegId(Smooth(), DOCUMENT, 1)), Some(r.value));
      }
    }

    method RunDocumentComplete(ghost s: Store) returns (o: Outcome<WorkflowResult>)
      requires DrawsFit() && Ready(Here()) && caseId in Here().cases && Mirrors(s)
      modifies db
      ensures Usable(Smooth())
      ensures Follows(FromDocumentComplete(Smooth(), s), o)
    {
      hide DrawsFit, Ready, Sendable, MakePackage, SubmissionStep, Alike, Slice, Separate;
      SmoothIsUsable();
      ghost var packaged := MakePackage(Smooth(), s, 1).0;
      var package := PersistPackageStep(s, 1);
      if package.Raised? { return Raised(package.error); }
      o := RunSubmissionStep(packaged, package.value, None, None);
    }

    method RunResubmission(ghost s: Store) returns (o: Outcome<WorkflowResult>)
      requires DrawsFit() && Ready(Here()) && caseId in Here().cases && Mirrors(s)
      modifies db
      ensures Usable(Smooth())
      ensures Follows(FromResubmission(Smooth(), s), o)
    {
      hide DrawsFit, Ready, Sendable, Must, MakePackage, SubmissionStep, IdOf, SameStock, Alike, Slice, Separate;
      SmoothIsUsable();
      ghost var before, moved := Here(), Must(Smooth(), s, RESUBMISSION).0;
      ghost var packaged := MakePackage(Smooth(), moved, 2).0;
      var r := MustApply(s, RESUBMISSION);
      StockKeeps(before, Here());
      SameCases(before, Here());
      if r.Raised? { return Raised(r.error); }
      var package := PersistPackageStep(moved, 2);
      if package.Raised? { return Raised(package.error); }
      o := RunSubmissionStep(packaged, package.value, Some(LegId(Smooth(), RESUBMISSION, 1)), Some(r.value));
    }

    /** The ReviewDecision signal handler: the first signal is kept. */
    method ReceiveReviewDecision(signal: ReviewSignal)
      modifies this`reviewDecision
      ensures reviewDecision == Some(if old(reviewDecision).Some? then old(reviewDecision).value else signal)
    {
      if reviewDecision.None? { reviewDecision := Some(signal); }
    }

    lemma WaitedSeen(s: Store, v: Review)
      requires Separate(view, s) && PostedHere(v)
      ensures Slice(view, Waited(s, v)) == Waited(Slice(view, s), v) && Separate(view, Waited(s, v))
    {
      var t := s.(reviews := s.reviews + v.posted);
      assert Separate(view, t) by { PostedApart(s, v); }
      hide Only, Kept, Under, Separate;
      OnlyAppended(s.reviews, v.posted, Reviews(view));
      OnlyKept(v.posted, Reviews(view));
    }

    lemma PostedApart(s: Store, v: Review)
      requires Separate(view, s) && PostedHere(v)
      ensures Separate(view, s.(reviews := s.reviews + v.posted))
    {
      hide FactsApart, PackagesApart, AttemptsApart, FallbacksApart;
    }

    /** The decisions waited for are of cases in view. */
    ghost predicate PostedHere(v: Review) {
      && (forall r | r in v.posted :: view.owns(r.caseId))
      && (FirstSignal(v).decisionId.Some? ==> view.mine(FirstSignal(v).decisionId.value))
    }

    /** The wait: until a signal is there, the review endpoint stores decisions, and then
        signals. */
    method WaitForReview(v: Review)
      requires v.pending == reviewDecision && PostedHere(v) && Separate(view, db.Tables())
      modifies db`reviews, this`reviewDecision
      ensures Here() == Waited(old(Here()), v) && Separate(view, db.Tables())
      ensures reviewDecision == Some(FirstSignal(v))
    {
      WaitedSeen(db.Tables(), v);
      hide Slice, Separate, PostedHere;
      if reviewDecision.None? {
        db.reviews := db.reviews + v.posted;
        ReceiveReviewDecision(v.arriving);
      }
    }

    lemma WaitedAlike(s: Store, t: Store, v: Review)
      requires Alike(s, t, x.cfg)
      ensures Alike(Waited(s, v), Waited(t, v), x.cfg)
    {
      hide Registry.ValidEvidenceId, Registry.Name;
    }

    method RunReview(ghost s: Store, v: Review) returns (o: Outcome<WorkflowResult>)
      requires DrawsFit() && v.pending == reviewDecision && PostedHere(v) && Mirrors(s)
      modifies db, this`reviewDecision
      ensures Usable(Smooth())
      ensures Follows(FromReview(Smooth(), s, v), o)
    {
      hide DrawsFit, Move, RequestFor, IdOf, Waited, SameStock, Alike, Slice, Separate;
      SmoothIsUsable();
      ghost var asked := Move(Smooth(), s, RequestFor(Smooth(), APPROVAL, 1, None)).0;
      RequestIsOwn(APPROVAL, 1, None);
      var first := ApplyTransitionStep(s, RequestFor(Smooth(), APPROVAL, 1, None));
      if first.Raised? { return Raised(first.error); }
      if first.value.Applied? { return Single(Smooth(), APPROVAL, first); }
      if first.value.eventType != ApprovalGateDenied { return Raised(RuntimeError); }
      WaitedAlike(asked, Here(), v);
      WaitForReview(v);
      var signal := reviewDecision.value;
      if signal.decisionId.None? { return Raised(RuntimeError); }
      RequestIsOwn(APPROVAL, 2, signal.decisionId);
      var second := ApplyTransitionStep(Waited(asked, v), RequestFor(Smooth(), APPROVAL, 2, signal.decisionId));
      o := Reviewed(Smooth(), first.value, signal, Insist(second));
    }

    method RunIntakePending(ghost s: Store) returns (o: Outcome<WorkflowResult>)
      requires DrawsFit() && Mirrors(s)
      modifies db
      ensures Usable(Smooth())
      ensures Follows(FromIntakePending(Smooth(), s), o)
    {
      hide DrawsFit, Must, IdOf, SameStock, Alike, Slice, Separate;
      var r := MustApply(s, INTAKE);
      o := WithIntake(Single(Smooth(), INTAKE, r));
    }

    method RunComplianceComplete(ghost s: Store) returns (o: Outcome<WorkflowResult>)
      requires DrawsFit() && Mirrors(s)
      modifies db
      ensures Usable(Smooth())
      ensures Follows(FromComplianceComplete(Smooth(), s), o)
    {
      hide DrawsFit, IncentivesStage, IdOf, Alike, Slice, Separate;
      var r := RunIncentives(s);
      o := Single(Smooth(), INCENTIVES, r);
    }

    method RunCommentReview(ghost s: Store) returns (o: Outcome<WorkflowResult>)
      requires DrawsFit() && Mirrors(s)
      modifies db
      ensures Usable(Smooth())
      ensures Follows(FromCommentReview(Smooth(), s), o)
    {
      hide DrawsFit, Must, IdOf, SameStock, Alike, Slice, Separate;
      var r := MustApply(s, CORRECTION);
      o := Single(Smooth(), CORRECTION, r);
    }

    /** The states in which a run waits for others: it has nothing to do. */
    method RunNothing(ghost s: Store) returns (o: Outcome<WorkflowResult>)
      requires Mirrors(s)
      ensures Follows((s, Built(Smooth(), None, None, None, None)), o)
    {
      o := Built(Smooth(), None, None, None, None);
    }

    method RunUnpackaged(ghost s: Store, state: CaseState, ghost v: Review) returns (o: Outcome<WorkflowResult>)
      requires DrawsFit() && Mirrors(s)
      requires state == IntakePending || state == IntakeComplete || state == ComplianceComplete
      modifies db
      ensures Usable(Smooth())
      ensures Follows(FromState(Smooth(), s, state, v), o)
    {
      SmoothIsUsable();
      FromStateCases(Smooth(), s, state, v);
      hide *;
      if state == IntakePending { o := RunIntakePending(s); }
      else if state == IntakeComplete { o := RunIntakeComplete(s); }
      else { o := RunComplianceComplete(s); }
    }

    method RunPackaging(ghost s: Store, state: CaseState, ghost v: Review) returns (o: Outcome<WorkflowResult>)
      requires DrawsFit() && Ready(Here()) && caseId in Here().cases && Mirrors(s)
      requires state == IncentivesComplete || state == DocumentComplete
      modifies db
      ensures Usable(Smooth())
      ensures Follows(FromState(Smooth(), s, state, v), o)
    {
      SmoothIsUsable();
      FromStateCases(Smooth(), s, state, v);
      hide *;
      if state == IncentivesComplete { o := RunIncentivesComplete(s); }
      else { o := RunDocumentComplete(s); }
    }

    method RunReturned(ghost s: Store, ghost v: Review) returns (o: Outcome<WorkflowResult>)
      requires DrawsFit() && Ready(Here()) && caseId in Here().cases && Mirrors(s)
      modifies db
      ensures Usable(Smooth())
      ensures Follows(FromState(Smooth(), s, ResubmissionPending, v), o)
    {
      SmoothIsUsable();
      FromStateCases(Smooth(), s, ResubmissionPending, v);
      hide *;
      o := RunResubmission(s);
    }

    method RunElsewise(ghost s: Store, state: CaseState, v: Review) returns (o: Outcome<WorkflowResult>)
      requires DrawsFit() && v.pending == reviewDecision && PostedHere(v) && Mirrors(s)
      requires state != IntakePending && state != IntakeComplete && state != ComplianceComplete
      requires state != IncentivesComplete && state != DocumentComplete && state != ResubmissionPending
      modifies db, this`reviewDecision
      ensures Usable(Smooth())
      ensures Follows(FromState(Smooth(), s, state, v), o)
    {
      SmoothIsUsable();
      FromStateCases(Smooth(), s, state, v);
      hide *;
      if state == Submitted || state == CorrectionPending {
        o := RunNothing(s);
      } else if state == CommentReviewPending {
        o := RunCommentReview(s);
      } else {
        o := RunReview(s, v);
      }
    }

    method RunFrom(ghost s: Store, state: CaseState, v: Review) returns (o: Outcome<WorkflowResult>)
      requires DrawsFit() && Ready(Here()) && caseId in Here().cases && v.pending == reviewDecision && PostedHere(v) && Mirrors(s)
      modifies db, this`reviewDecision
      ensures Usable(Smooth())
      ensures Follows(FromState(Smooth(), s, state, v), o)
    {
      hide *;
      if state == IntakePending || state == IntakeComplete || state == ComplianceComplete {
        o := RunUnpackaged(s, state, v);
      } else if state == IncentivesComplete || state == DocumentComplete {
        o := RunPackaging(s, state, v);
      } else if state == ResubmissionPending {
        o := RunReturned(s, v);
      } else {
        o := RunElsewise(s, state, v);
      }
    }

    /** `run`, from any start state, under any schedule of crashes of its activities, and
        whatever other cases commit before each attempt: the rows it leaves of its case, the
        content behind them and what it returns or raises are those of the run in which
        nothing crashes and the database holds no other case. With the whole database in view
        there are no others, and this is about all of its rows. */
    method Run(v: Review) returns (o: Outcome<WorkflowResult>)
      requires DrawsFit() && Ready(Here()) && v.pending == reviewDecision && PostedHere(v)
      requires Separate(view, db.Tables())
      modifies db, this`reviewDecision
      ensures Usable(Smooth())
      ensures var (t, expected) := Flow(Smooth(), old(Here()), v);
              Alike(t, Here(), x.cfg) && Separate(view, db.Tables()) && o == expected
    {
      hide DrawsFit, Ready, Do, FromState, SameStock, Alike, Slice, Separate;
      SmoothIsUsable();
      ghost var before := Here();
      ghost var t := Do(Smooth(), before, "ensure", EnsureCase(caseId)).0;
      ghost var u := Do(Smooth(), t, "fetch", FetchState(caseId)).0;
      SelfAlike(before, x.cfg);
      var created := ActPlainly(before, "ensure", EnsureCase(caseId));
      StockKeeps(before, Here());
      ghost var ensured := Here();
      var snapshot := ActPlainly(t, "fetch", FetchState(caseId));
      StockKeeps(ensured, Here());
      SameCases(ensured, Here());
      match snapshot {
        case Returned(CaseAt(state)) => o := RunFrom(u, state, v);
        case Raised(e) => o := Raised(e);
        case _ => o := Raised(RuntimeError);
      }
    }

    lemma SameCases(s: Store, t: Store)
      requires SameStock(s, t)
      ensures caseId in s.cases ==> caseId in t.cases
    {
    }
  }
}
