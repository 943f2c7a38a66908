/** When a new run of the workflow that packages and submits returns, and what it leaves, read
    off the tables it starts from, the adapters and what it draws. */
module RunSubmissions {
  import opened Contracts
  import opened Tables
  import opened RequestIds
  import opened Transitions
  import opened Histories
  import opened Guarantees
  import opened Activities
  import opened Workflow
  import opened WorkflowOutcomes
  import opened RunResults
  import Contents
  import FirstCalls
  import PackageHistories
  import Packages
  import Registry
  import Submission
  import SubmissionHistories

  // --------------------------------------------------------------- what decides the run

  ghost predicate Tried(s: Store, c: string, status: AttemptStatus) {
    exists id :: id in s.attempts && s.attempts[id].caseId == c && s.attempts[id].status == status
  }

  ghost predicate Untried(s: Store, c: string) {
    forall id | id in s.attempts :: s.attempts[id].caseId != c
  }

  /** The support levels whose cases are submitted by hand. */
  predicate Falls(level: string) {
    level == "UNSUPPORTED" || level == "PARTIALLY_SUPPORTED_READ_ONLY"
  }

  /** The state the case ends in: DOCUMENT_COMPLETE where its attempt failed, SUBMITTED where
      that was submitted or where there is none and the support level allows it. */
  ghost function Ending(s: Store, c: string): CaseState
    requires c in s.cases
  {
    if Tried(s, c, FailedAttempt) then DocumentComplete
    else if Tried(s, c, SubmittedAttempt) || (Untried(s, c) && !Falls(s.cases[c].supportLevel)) then Submitted
    else ManualSubmissionRequired
  }

  function Drew(c: Config, n: nat): Packages.Draw {
    c.draws(IdFor(c, "persist_submission_package", n)).package
  }

  function Receipt(c: Config): string {
    c.draws(IdFor(c, "submission_adapter", 1)).submission.receiptId
  }

  /** What a packaging run relies on: the attempts are sound, its package is not there yet,
      and the ids it draws are new. */
  ghost predicate Packable(c: Config, s: Store, n: nat) {
    && SubmissionHistories.Sound(s, c.x.cfg) && '/' !in c.runId && c.caseId in s.cases
    && PackageHistories.FreshDraw(s, Drew(c, n))
    && (forall p | p in s.packages :: !(p.caseId == c.caseId && p.requestId == IdFor(c, "persist_submission_package", n)))
    && Receipt(c) !in s.artifacts && Receipt(c) != Drew(c, n).manifestArtifact && Receipt(c) !in Drew(c, n).artifacts
  }

  // ----------------------------------------------------------------------- the package

  /** One package of the case, its documents and their evidence were added, and the case
      points at it, at DOCUMENT_COMPLETE. */
  ghost predicate PackageAdded(c: Config, s: Store, n: nat, t: Store) {
    var spec, d := c.x.compile(c.caseId), Drew(c, n);
    var p, m := |s.packages|, |s.documents|;
    && |t.packages| == p + 1 && t.packages[..p] == s.packages
    && t.packages[p] == PackageRow(d.packageId, c.caseId, IdFor(c, "persist_submission_package", n), spec.version,
                                   d.manifestArtifact, t.packages[p].manifestDigest)
    && |t.documents| == m + |spec.documents| && t.documents[..m] == s.documents
  }

  function DrawnIds(d: Packages.Draw): set<string> {
    {d.manifestArtifact} + set i | 0 <= i < |d.artifacts| :: d.artifacts[i]
  }

  ghost predicate Packed(c: Config, s: Store, n: nat, t: Store) {
    var d := Drew(c, n);
    && PackageAdded(c, s, n, t)
    && t.artifacts.Keys == s.artifacts.Keys + DrawnIds(d)
    && c.caseId in s.cases
    && t.cases == s.cases[c.caseId := CaseRow(DocumentComplete, s.cases[c.caseId].supportLevel, Some(d.packageId))]
    && t == s.(packages := t.packages, documents := t.documents, artifacts := t.artifacts, cases := t.cases, objects := t.objects)
  }

  lemma StepIds(c: Config, n: nat)
    ensures IdOf(c, PACKAGE, n) == IdFor(c, "persist_submission_package", n)
    ensures IdOf(c, ADAPTER_STEP, 1) == IdFor(c, "submission_adapter", 1)
  {
    hide RequestId;
  }

  lemma PackableIsWritable(c: Config, s: Store, n: nat)
    requires Usable(c) && Packable(c, s, n)
    ensures var req := Packages.PackageRequest(IdFor(c, "persist_submission_package", n), c.caseId);
            PackageHistories.Writable(s, PackageEnv(c.x), req, Drew(c, n))
  {
    hide SubmissionHistories.Sound, PackageHistories.FreshDraw, IdFor;
    var id := IdFor(c, "persist_submission_package", n);
    assert WellFormed(c.x, c.caseId, c.draws(id));
  }

  lemma MakePackageIs(c: Config, s: Store, n: nat)
    requires Usable(c) && Packable(c, s, n)
    ensures var req := Packages.PackageRequest(IdFor(c, "persist_submission_package", n), c.caseId);
            && Packages.Drawn(PackageEnv(c.x), req, Drew(c, n))
            && var (t, o) := Packages.Persist(s, PackageEnv(c.x), req, Drew(c, n));
            MakePackage(c, s, n) == (t, o)
  {
    StepIds(c, n);
    PackableIsWritable(c, s, n);
    hide Usable, Packable, IdFor, IdOf, Packages.Persist, StoreFacts, Submission.Adapt, Transition, SubmissionHistories.Keyed,
      WithCase, Packages.Drawn, PackageHistories.FreshDraw, Packages.FindPackage, Submission.Drawn;
    var req := Packages.PackageRequest(IdFor(c, "persist_submission_package", n), c.caseId);
    var (t, o) := Packages.Persist(s, PackageEnv(c.x), req, Drew(c, n));
  }

  lemma PersistRows(s: Store, env: Packages.Env, req: Packages.PackageRequest, d: Packages.Draw)
    requires PackageHistories.Writable(s, env, req, d) && env.compile(req.caseId).documents != []
    ensures var (t, o) := Packages.Persist(s, env, req, d);
            var spec, p, m, row := env.compile(req.caseId), |s.packages|, |s.documents|, s.cases[req.caseId];
            && o == Returned(d.packageId)
            && |t.packages| == p + 1 && t.packages[..p] == s.packages
            && t.packages[p] == PackageRow(d.packageId, req.caseId, req.requestId, spec.version, d.manifestArtifact,
                                           t.packages[p].manifestDigest)
            && |t.documents| == m + |spec.documents| && t.documents[..m] == s.documents
            && t.artifacts.Keys == s.artifacts.Keys + DrawnIds(d)
            && t.cases == s.cases[req.caseId := CaseRow(if row.caseState == IncentivesComplete then DocumentComplete
                                                        else row.caseState, row.supportLevel, Some(d.packageId))]
            && t == s.(packages := t.packages, documents := t.documents, artifacts := t.artifacts, cases := t.cases,
                       objects := t.objects)
  {
    hide Packages.Drawn, Packages.Persist, Packages.ManifestOf, Registry.StorageUri, Registry.ObjectKey, Registry.Name,
      Registry.ValidEvidenceId, PackageHistories.FreshDraw, Packages.FindPackage;
    Contents.PackageInFull(s, env, req, d);
  }

  lemma PackageMade(c: Config, s: Store, n: nat)
    requires Usable(c) && Packable(c, s, n) && c.x.compile(c.caseId).documents != []
    requires At(c, s, IncentivesComplete) || At(c, s, DocumentComplete)
    ensures var (t, o) := MakePackage(c, s, n);
            o == Returned(Drew(c, n).packageId) && Packed(c, s, n, t)
  {
    PackableIsWritable(c, s, n);
    MakePackageIs(c, s, n);
    hide Usable, Packable, IdFor, MakePackage, PackageHistories.Writable, Packages.Drawn, Packages.Persist, DrawnIds;
    var req := Packages.PackageRequest(IdFor(c, "persist_submission_package", n), c.caseId);
    PersistRows(s, PackageEnv(c.x), req, Drew(c, n));
    var (t, o) := Packages.Persist(s, PackageEnv(c.x), req, Drew(c, n));
  }

  lemma PackedIsCallable(c: Config, s: Store, n: nat)
    requires Usable(c) && Packable(c, s, n) && c.x.compile(c.caseId).documents != []
    requires At(c, s, IncentivesComplete) || At(c, s, DocumentComplete)
    ensures var t := MakePackage(c, s, n).0;
            && SubmissionHistories.Callable(t, SubmissionEnv(c.x), c.caseId, c.runId, Drew(c, n).packageId,
                                            c.draws(IdFor(c, "submission_adapter", 1)).submission)
            && Receipt(c) !in t.artifacts && At(c, t, DocumentComplete)
            && t.attempts == s.attempts && t.fallbacks == s.fallbacks
  {
    ReceiptDrawn(c, "submission_adapter");
    PackageMade(c, s, n);
    PackageKeepsSound(c, s, n);
    NotDrawn(c, s, n);
    hide Usable, IdFor, Drew, Receipt, Packable, MakePackage, PackageAdded, SubmissionHistories.Sound, Submission.Drawn, DrawnIds,
      Submission.FindPackageRow;
    NewPackageFound(c, s, n, MakePackage(c, s, n).0);
  }

  lemma PackageKeepsSound(c: Config, s: Store, n: nat)
    requires Usable(c) && Packable(c, s, n)
    ensures var t := MakePackage(c, s, n).0;
            SubmissionHistories.Sound(t, c.x.cfg) && t.attempts == s.attempts && t.fallbacks == s.fallbacks
  {
    MakePackageIs(c, s, n);
    hide Usable, IdFor, MakePackage, Packages.Persist, SubmissionHistories.Sound, PackageHistories.FreshDraw, Packages.Drawn,
      Registry.KeepsEvidence;
    var req := Packages.PackageRequest(IdFor(c, "persist_submission_package", n), c.caseId);
    PackageHistories.PersistAdds(s, PackageEnv(c.x), req, Drew(c, n));
    var t := Packages.Persist(s, PackageEnv(c.x), req, Drew(c, n)).0;
    SubmissionHistories.ElsewhereKeeps(s, t, c.x.cfg);
  }

  lemma NotDrawn(c: Config, s: Store, n: nat)
    requires Packable(c, s, n)
    ensures Receipt(c) !in s.artifacts && Receipt(c) !in DrawnIds(Drew(c, n))
    ensures '/' !in c.runId
  {
    hide SubmissionHistories.Sound, IdFor, PackageHistories.FreshDraw;
  }

  lemma ReceiptDrawn(c: Config, step: string)
    requires Usable(c)
    ensures Submission.Drawn(SubmissionEnv(c.x), c.draws(IdFor(c, step, 1)).submission)
  {
    hide IdFor;
    assert WellFormed(c.x, c.caseId, c.draws(IdFor(c, step, 1)));
  }

  lemma NewPackageFound(c: Config, s: Store, n: nat, t: Store)
    requires PackageAdded(c, s, n, t)
    ensures Submission.FindPackageRow(t.packages, Drew(c, n).packageId).Some?
  {
    hide IdFor;
    assert t.packages[|s.packages|] in t.packages;
  }

  // ----------------------------------------------------------------------- the adapter

  /** The attempt rows: a case without an attempt is given one, with its fallback where it is
      submitted by hand; any other case is given nothing. */
  ghost predicate AttemptRows(c: Config, s: Store, packageId: string, t: Store) {
    var id := "permit-case/" + c.caseId + "/" + c.runId + "/submission_attempt/attempt-1";
    && c.caseId in s.cases
    && if !Untried(s, c.caseId) then t.attempts == s.attempts && t.fallbacks == s.fallbacks
       else
         var sent, n := Ending(s, c.caseId) == Submitted, |s.fallbacks|;
         && id in t.attempts && t.attempts == s.attempts[id := t.attempts[id]]
         && t.attempts[id].caseId == c.caseId && t.attempts[id].packageId == packageId
         && t.attempts[id].status == (if sent then SubmittedAttempt else ManualFallback)
         && (if sent then t.fallbacks == s.fallbacks
             else
               && |t.fallbacks| == n + 1 && t.fallbacks[..n] == s.fallbacks
               && t.fallbacks[n].caseId == c.caseId && t.fallbacks[n].packageId == packageId
               && t.fallbacks[n].attemptId == id)
  }

  /** A receipt is stored exactly for a first attempt that is submitted. */
  ghost function ReceiptIds(c: Config, s: Store): set<string>
    requires c.caseId in s.cases
  {
    if Untried(s, c.caseId) && Ending(s, c.caseId) == Submitted then {Receipt(c)} else {}
  }

  ghost predicate AttemptAdded(c: Config, s: Store, packageId: string, t: Store) {
    && AttemptRows(c, s, packageId, t)
    && t.artifacts.Keys == s.artifacts.Keys + ReceiptIds(c, s)
    && t == s.(attempts := t.attempts, fallbacks := t.fallbacks, artifacts := t.artifacts, objects := t.objects)
  }

  lemma UntriedEnding(s: Store, c: string)
    requires c in s.cases && Untried(s, c)
    ensures !Tried(s, c, FailedAttempt) && !Tried(s, c, SubmittedAttempt)
    ensures var level := s.cases[c].supportLevel;
            Ending(s, c) == if Falls(level) then ManualSubmissionRequired else Submitted
  {
  }

  lemma AttemptIdInFull(c: Config, packageId: string)
    ensures SubmissionHistories.Keyed(c.caseId, c.runId, packageId).attemptId
            == "permit-case/" + c.caseId + "/" + c.runId + "/submission_attempt/attempt-1"
  {
    FirstCalls.IdsInFull(c.caseId, c.runId, "submission_attempt", 1);
  }

  function Told(ending: CaseState): AdapterOutcome {
    if ending == DocumentComplete then AdapterFailed else if ending == Submitted then Success else UnsupportedWorkflow
  }

  lemma FallsIff(row: CaseRow)
    ensures Submission.NeedsFallback(row) <==> Falls(row.supportLevel)
  {
    var shown := "UNKNOWN";
    assert shown[2] != "UNSUPPORTED"[2] && |shown| != |"PARTIALLY_SUPPORTED_READ_ONLY"|;
  }

  lemma FirstTryRows(s: Store, env: Submission.Env, c: string, run: string, p: string, draw: Submission.Draw)
    requires SubmissionHistories.Callable(s, env, c, run, p, draw) && draw.receiptId !in s.artifacts && Untried(s, c)
    ensures var (t, o) := Submission.Adapt(s, env, SubmissionHistories.Keyed(c, run, p), draw, false);
            var id, n, falls := SubmissionHistories.Keyed(c, run, p).attemptId, |s.fallbacks|, Falls(s.cases[c].supportLevel);
            && o.Returned? && o.value.outcome == (if falls then UnsupportedWorkflow else Success)
            && id in t.attempts && t.attempts == s.attempts[id := t.attempts[id]]
            && t.attempts[id].caseId == c && t.attempts[id].packageId == p
            && t.attempts[id].status == (if falls then ManualFallback else SubmittedAttempt)
            && (!falls ==> t.artifacts.Keys == s.artifacts.Keys + {draw.receiptId} && t.fallbacks == s.fallbacks)
            && (falls ==>
                  && t.artifacts == s.artifacts && t.objects == s.objects
                  && |t.fallbacks| == n + 1 && t.fallbacks[..n] == s.fallbacks
                  && t.fallbacks[n].caseId == c && t.fallbacks[n].packageId == p && t.fallbacks[n].attemptId == id)
            && t == s.(attempts := t.attempts, fallbacks := t.fallbacks, artifacts := t.artifacts, objects := t.objects)
  {
    hide Submission.Adapt, RequestId, AttemptId, SubmitKey, FallbackId, SubmissionHistories.Sound, Submission.Attachments,
      Submission.Drawn, Submission.Sources, Submission.FindPackageRow, Submission.NeedsFallback, Submission.SupportLevel,
      Submission.ReceiptText, Submission.TrackingId, Submission.ReceiptRow, Falls, Registry.Name;
    SubmissionHistories.NoAttempt(s, c);
    FallsIff(s.cases[c]);
    SubmissionHistories.FirstCallMakesTheAttempt(s, env, c, run, p, draw);
  }

  lemma FirstTry(c: Config, s: Store, p: string)
    requires var d := c.draws(IdFor(c, "submission_adapter", 1)).submission;
             SubmissionHistories.Callable(s, SubmissionEnv(c.x), c.caseId, c.runId, p, d)
    requires Receipt(c) !in s.artifacts && Untried(s, c.caseId)
    ensures var d := c.draws(IdFor(c, "submission_adapter", 1)).submission;
            var (t, o) := Submission.Adapt(s, SubmissionEnv(c.x), SubmissionHistories.Keyed(c.caseId, c.runId, p), d, false);
            o.Returned? && o.value.outcome == Told(Ending(s, c.caseId)) && AttemptAdded(c, s, p, t)
  {
    UntriedEnding(s, c.caseId);
    AttemptIdInFull(c, p);
    hide IdFor, Submission.Adapt, SubmissionHistories.Keyed, SubmissionHistories.Sound, Ending, Tried, Falls, Untried,
      Submission.Drawn, Submission.FindPackageRow;
    var d := c.draws(IdFor(c, "submission_adapter", 1)).submission;
    FirstTryRows(s, SubmissionEnv(c.x), c.caseId, c.runId, p, d);
  }

  lemma TriedEnding(s: Store, cfg: Registry.Settings, c: string, id: string)
    requires SubmissionHistories.Sound(s, cfg) && c in s.cases && id in s.attempts && s.attempts[id].caseId == c
    ensures !Untried(s, c)
    ensures Tried(s, c, FailedAttempt) <==> s.attempts[id].status == FailedAttempt
    ensures Tried(s, c, SubmittedAttempt) <==> s.attempts[id].status == SubmittedAttempt
    ensures Ending(s, c) == if s.attempts[id].status == FailedAttempt then DocumentComplete
                            else if s.attempts[id].status == SubmittedAttempt then Submitted else ManualSubmissionRequired
  {
    hide SubmissionHistories.Settled, SubmissionHistories.KeyedRow, SubmissionHistories.FallbacksOwned;
    if Tried(s, c, FailedAttempt) {
      var other :| other in s.attempts && s.attempts[other].caseId == c && s.attempts[other].status == FailedAttempt;
      assert other == id;
    }
    if Tried(s, c, SubmittedAttempt) {
      var other :| other in s.attempts && s.attempts[other].caseId == c && s.attempts[other].status == SubmittedAttempt;
      assert other == id;
    }
  }

  lemma NothingAdded(c: Config, s: Store, p: string)
    requires c.caseId in s.cases && !Untried(s, c.caseId)
    ensures AttemptAdded(c, s, p, s)
  {
    hide Untried, Ending;
  }

  lemma LaterTry(c: Config, s: Store, p: string, id: string)
    requires var d := c.draws(IdFor(c, "submission_adapter", 1)).submission;
             SubmissionHistories.Callable(s, SubmissionEnv(c.x), c.caseId, c.runId, p, d)
    requires id in s.attempts && s.attempts[id].caseId == c.caseId
    ensures var d := c.draws(IdFor(c, "submission_adapter", 1)).submission;
            var (t, o) := Submission.Adapt(s, SubmissionEnv(c.x), SubmissionHistories.Keyed(c.caseId, c.runId, p), d, false);
            o.Returned? && o.value.outcome == Told(Ending(s, c.caseId)) && AttemptAdded(c, s, p, t)
  {
    TriedEnding(s, c.x.cfg, c.caseId, id);
    StatusOutcome(s, c.x, id);
    NothingAdded(c, s, p);
    hide IdFor, Submission.Adapt, SubmissionHistories.Keyed, SubmissionHistories.Sound, Submission.Load, Ending, AttemptAdded;
    var d := c.draws(IdFor(c, "submission_adapter", 1)).submission;
    SubmissionHistories.LaterCallsGetTheAttempt(s, SubmissionEnv(c.x), c.caseId, c.runId, p, d, id);
    SubmissionHistories.LoadAnswers(s, c.x.cfg, id);
  }

  lemma AdapterIs(c: Config, s: Store, p: string)
    requires Usable(c)
    ensures var env, d := SubmissionEnv(c.x), c.draws(IdFor(c, "submission_adapter", 1)).submission;
            && Submission.Drawn(env, d)
            && var (t, o) := Submission.Adapt(s, env, SubmissionHistories.Keyed(c.caseId, c.runId, p), d, false);
            Do(c, s, IdOf(c, ADAPTER_STEP, 1), Adapt(c.caseId, c.runId, p))
            == (t, if o.Returned? then Returned(AdapterSays(o.value.outcome)) else Raised(o.error))
  {
    StepIds(c, 1);
    ReceiptDrawn(c, "submission_adapter");
    hide Usable, IdFor, IdOf, Packages.Persist, StoreFacts, Submission.Adapt, Transition, SubmissionHistories.Keyed,
      WithCase, Packages.Drawn, Submission.Drawn;
    var env, d := SubmissionEnv(c.x), c.draws(IdFor(c, "submission_adapter", 1)).submission;
    var (t, o) := Submission.Adapt(s, env, SubmissionHistories.Keyed(c.caseId, c.runId, p), d, false);
  }

  /** The adapter call of a run answers by the ending of its case; afterwards the gates out of
      DOCUMENT_COMPLETE stand as it says. */
  lemma AdapterInFull(c: Config, s: Store, p: string)
    requires Usable(c) && Receipt(c) !in s.artifacts
    requires var d := c.draws(IdFor(c, "submission_adapter", 1)).submission;
             SubmissionHistories.Callable(s, SubmissionEnv(c.x), c.caseId, c.runId, p, d)
    ensures var (t, o) := Do(c, s, IdOf(c, ADAPTER_STEP, 1), Adapt(c.caseId, c.runId, p));
            && o == Returned(AdapterSays(Told(Ending(s, c.caseId)))) && AttemptAdded(c, s, p, t)
  {
    AdapterIs(c, s, p);
    hide Usable, Do, IdFor, IdOf, Submission.Adapt, SubmissionHistories.Keyed, SubmissionHistories.Sound, Ending,
      AttemptAdded, Told;
    var d := c.draws(IdFor(c, "submission_adapter", 1)).submission;
    if id :| id in s.attempts && s.attempts[id].caseId == c.caseId {
      LaterTry(c, s, p, id);
    } else {
      FirstTry(c, s, p);
    }
  }

  lemma AttemptKeepsCases(c: Config, s: Store, p: string, t: Store)
    requires AttemptAdded(c, s, p, t)
    ensures t.cases == s.cases && t.ledger == s.ledger
  {
    hide Ending, Untried;
  }

  lemma GatesStand(c: Config, s: Store, p: string)
    requires Usable(c) && Receipt(c) !in s.artifacts && At(c, s, DocumentComplete)
    requires var d := c.draws(IdFor(c, "submission_adapter", 1)).submission;
             SubmissionHistories.Callable(s, SubmissionEnv(c.x), c.caseId, c.runId, p, d)
    ensures var t := Do(c, s, IdOf(c, ADAPTER_STEP, 1), Adapt(c.caseId, c.runId, p)).0;
            && At(c, t, DocumentComplete)
            && (Ending(s, c.caseId) == Submitted ==> OpenFor(c, t, SUBMIT))
            && (Ending(s, c.caseId) == ManualSubmissionRequired ==> OpenFor(c, t, MANUAL))
  {
    AdapterIs(c, s, p);
    AdapterInFull(c, s, p);
    hide Usable, Do, IdFor, IdOf, Submission.Adapt, SubmissionHistories.Keyed, SubmissionHistories.Sound, Ending, OpenFor,
      AttemptAdded, Untried;
    var env, d := SubmissionEnv(c.x), c.draws(IdFor(c, "submission_adapter", 1)).submission;
    var (t, o) := Submission.Adapt(s, env, SubmissionHistories.Keyed(c.caseId, c.runId, p), d, false);
    AttemptKeepsCases(c, s, p, t);
    SubmissionHistories.AnswerIsTheAttempt(s, env, c.caseId, c.runId, p, d);
    AnsweredGate(c, t, SUBMIT, o.value.attemptId);
    AnsweredGate(c, t, MANUAL, o.value.attemptId);
  }

  /** The gate of a leg out of DOCUMENT_COMPLETE, by the case's attempt. */
  lemma AnsweredGate(c: Config, s: Store, leg: Leg, id: string)
    requires SubmissionHistories.Sound(s, c.x.cfg) && At(c, s, DocumentComplete) && (leg == SUBMIT || leg == MANUAL)
    requires id in s.attempts && s.attempts[id].caseId == c.caseId
    ensures OpenFor(c, s, leg) <==> ((leg == SUBMIT) <==> s.attempts[id].status == SubmittedAttempt)
  {
    RequestInFull(c, leg);
    hide SubmissionHistories.Sound, RequestFor, LegId, GateOpen, Decide;
    var req, pick := RequestFor(c, leg, 1, None), c.draws(LegId(c, leg, 1)).pick;
    SubmissionHistories.GatesOf(s, c.x.cfg, req, pick, id);
    PathDecision(s, req, pick);
  }

  // ------------------------------------------------------------------ package, then submit

  function LastLeg(ending: CaseState): Leg {
    if ending == Submitted then SUBMIT else MANUAL
  }

  lemma SubmissionInFull(c: Config, s: Store, p: string, initialId: Option<string>, initial: Option<TransitionResult>)
    requires Usable(c) && Receipt(c) !in s.artifacts && At(c, s, DocumentComplete) && Unsent(c, s)
    requires var d := c.draws(IdFor(c, "submission_adapter", 1)).submission;
             SubmissionHistories.Callable(s, SubmissionEnv(c.x), c.caseId, c.runId, p, d)
    ensures var (t, o) := SubmissionStep(c, s, p, initialId, initial);
            var ending, leg := Ending(s, c.caseId), LastLeg(Ending(s, c.caseId));
            && o == (if ending == DocumentComplete then Raised(RuntimeError)
                     else Submitting(c, initialId, initial, leg, Returned(Applied(CaseStateChanged, c.now(LegId(c, leg, 1))))))
            && AttemptRows(c, s, p, t)
            && t.artifacts.Keys == s.artifacts.Keys + ReceiptIds(c, s)
            && t == s.(attempts := t.attempts, fallbacks := t.fallbacks, artifacts := t.artifacts, objects := t.objects,
                       cases := Row(s, c.caseId, ending), ledger := t.ledger, audit := t.audit)
  {
    AdapterInFull(c, s, p);
    GatesStand(c, s, p);
    EndingIsOne(s, c.caseId);
    hide Usable, Do, IdFor, IdOf, LegId, SubmissionHistories.Callable, Ending, OpenFor, Must, Submitting, AttemptRows, ReceiptIds,
      Unlogged, Row, AttemptAdded, SubmissionStep;
    var (u, told) := Do(c, s, IdOf(c, ADAPTER_STEP, 1), Adapt(c.caseId, c.runId, p));
    StepBranches(c, s, p, initialId, initial);
    if Ending(s, c.caseId) == DocumentComplete {
      RowSame(s, c.caseId);
      UnfoldAdded(c, s, p, u);
    } else {
      LegPasses(c, s, p, u, LastLeg(Ending(s, c.caseId)));
    }
  }

  lemma UnfoldAdded(c: Config, s: Store, p: string, t: Store)
    requires AttemptAdded(c, s, p, t)
    ensures AttemptRows(c, s, p, t) && t.artifacts.Keys == s.artifacts.Keys + ReceiptIds(c, s) && t.cases == s.cases
    ensures t == s.(attempts := t.attempts, fallbacks := t.fallbacks, artifacts := t.artifacts, objects := t.objects,
                    cases := t.cases, ledger := t.ledger, audit := t.audit)
  {
    hide AttemptRows, ReceiptIds;
  }

  lemma StepBranches(c: Config, s: Store, p: string, initialId: Option<string>, initial: Option<TransitionResult>)
    requires Usable(c)
    ensures var (t, o) := Do(c, s, IdOf(c, ADAPTER_STEP, 1), Adapt(c.caseId, c.runId, p));
            var step := SubmissionStep(c, s, p, initialId, initial);
            && (o == Returned(AdapterSays(Success)) ==>
                  var (u, r) := Must(c, t, SUBMIT); step == (u, Submitting(c, initialId, initial, SUBMIT, r)))
            && (o == Returned(AdapterSays(UnsupportedWorkflow)) ==>
                  var (u, r) := Must(c, t, MANUAL); step == (u, Submitting(c, initialId, initial, MANUAL, r)))
            && (o == Returned(AdapterSays(AdapterFailed)) ==> step == (t, Raised(RuntimeError)))
  {
    hide Usable, Do, IdOf, LegId, Must, Submitting;
  }

  lemma RowsOf(c: Config, s: Store, p: string, t: Store, u: Store)
    requires AttemptRows(c, s, p, t) && u.attempts == t.attempts && u.fallbacks == t.fallbacks
    ensures AttemptRows(c, s, p, u)
  {
    hide Ending, Untried;
  }

  lemma LegPasses(c: Config, s: Store, p: string, u: Store, leg: Leg)
    requires Usable(c) && AttemptAdded(c, s, p, u) && At(c, s, DocumentComplete) && Unsent(c, s)
    requires (leg == SUBMIT || leg == MANUAL) && OpenFor(c, u, leg)
    ensures var (t, r) := Must(c, u, leg);
            && r == Returned(Applied(CaseStateChanged, c.now(LegId(c, leg, 1))))
            && AttemptRows(c, s, p, t)
            && t.artifacts.Keys == s.artifacts.Keys + ReceiptIds(c, s)
            && t == s.(attempts := t.attempts, fallbacks := t.fallbacks, artifacts := t.artifacts, objects := t.objects,
                       cases := Row(s, c.caseId, leg.toState), ledger := t.ledger, audit := t.audit)
  {
    UnfoldAdded(c, s, p, u);
    AttemptKeepsCases(c, s, p, u);
    StillUnlogged(c, s, u);
    hide Usable, LegId, OpenFor, Must, AttemptRows, ReceiptIds, Unlogged, Row, AttemptAdded;
    SameRow(s, u, c.caseId);
    MustInFull(c, u, leg);
    RowsOf(c, s, p, u, Must(c, u, leg).0);
  }

  lemma EndingIsOne(s: Store, c: string)
    requires c in s.cases
    ensures Ending(s, c) == DocumentComplete || Ending(s, c) == Submitted || Ending(s, c) == ManualSubmissionRequired
  {
    hide Tried, Untried, Falls;
  }

  lemma StillUnlogged(c: Config, s: Store, t: Store)
    requires t.ledger == s.ledger && Unsent(c, s)
    ensures Unsent(c, t)
  {
    hide LegId;
  }

  // ------------------------------------------------------------------------ whole runs

  /** The case is packaged and its attempt decides: the run returns unless that failed, with
      the case at SUBMITTED or MANUAL_SUBMISSION_REQUIRED. */
  ghost predicate SendLeaves(c: Config, s: Store, n: nat, initial: Option<string>, t: Store, o: Outcome<WorkflowResult>) {
    && c.caseId in s.cases
    && var d, ending := Drew(c, n), Ending(s, c.caseId);
       var last := IdFor(c, if ending == Submitted then "document_complete_to_submitted"
                            else "document_complete_to_manual_submission_required", 1);
    && o == (if ending == DocumentComplete then Raised(RuntimeError)
             else Returned(ResultOf(c, if initial.Some? then initial.value else last, last)))
    && PackageAdded(c, s, n, t)
    && AttemptRows(c, s, d.packageId, t)
    && t.artifacts.Keys == s.artifacts.Keys + DrawnIds(d) + ReceiptIds(c, s)
    && t.cases == s.cases[c.caseId := CaseRow(ending, s.cases[c.caseId].supportLevel, Some(d.packageId))]
    && t == s.(packages := t.packages, documents := t.documents, artifacts := t.artifacts, objects := t.objects,
               attempts := t.attempts, fallbacks := t.fallbacks, cases := t.cases, ledger := t.ledger, audit := t.audit)
  }

  lemma SameAttempts(c: Config, s: Store, u: Store)
    requires u.attempts == s.attempts && u.fallbacks == s.fallbacks && c.caseId in s.cases && c.caseId in u.cases
    requires u.cases[c.caseId].supportLevel == s.cases[c.caseId].supportLevel
    ensures Ending(u, c.caseId) == Ending(s, c.caseId) && ReceiptIds(c, u) == ReceiptIds(c, s)
    ensures forall p, t :: AttemptRows(c, u, p, t) <==> AttemptRows(c, s, p, t)
  {
    hide Falls;
  }

  lemma SubmittedResult(c: Config, initial: Option<string>, ending: CaseState)
    ensures var leg := LastLeg(ending);
            var last := IdFor(c, if ending == Submitted then "document_complete_to_submitted"
                                 else "document_complete_to_manual_submission_required", 1);
            var first := if initial.Some? then Some(Applied(CaseStateChanged, c.now(initial.value))) else None;
            Submitting(c, initial, first, leg, Returned(Applied(CaseStateChanged, c.now(LegId(c, leg, 1)))))
            == Returned(ResultOf(c, if initial.Some? then initial.value else last, last))
  {
    LegIdsInFull(c);
    hide LegId, IdFor;
  }

  lemma PackageAddedStays(c: Config, s: Store, n: nat, u: Store, t: Store)
    requires PackageAdded(c, s, n, u) && t.packages == u.packages && t.documents == u.documents
    ensures PackageAdded(c, s, n, t)
  {
    hide IdFor;
  }

  lemma PackageLogs(c: Config, s: Store, n: nat)
    requires Usable(c) && Packable(c, s, n) && c.x.compile(c.caseId).documents != []
    requires At(c, s, IncentivesComplete) || At(c, s, DocumentComplete)
    ensures var (u, o) := MakePackage(c, s, n);
            && o == Returned(Drew(c, n).packageId)
            && PackageAdded(c, s, n, u) && u.ledger == s.ledger && At(c, u, DocumentComplete)
            && u.artifacts.Keys == s.artifacts.Keys + DrawnIds(Drew(c, n))
            && Ending(u, c.caseId) == Ending(s, c.caseId) && ReceiptIds(c, u) == ReceiptIds(c, s)
            && (forall p, t :: AttemptRows(c, u, p, t) <==> AttemptRows(c, s, p, t))
            && (forall ending :: Row(u, c.caseId, ending)
                                 == s.cases[c.caseId := CaseRow(ending, s.cases[c.caseId].supportLevel, Some(Drew(c, n).packageId))])
            && u == s.(packages := u.packages, documents := u.documents, artifacts := u.artifacts, cases := u.cases,
                       objects := u.objects)
  {
    hide Usable, Packable, Drew, MakePackage, Packed, PackageAdded, DrawnIds, Ending, ReceiptIds, AttemptRows, Row;
    PackageMade(c, s, n);
    Unpacked(c, s, n, MakePackage(c, s, n).0);
    SameAttempts(c, s, MakePackage(c, s, n).0);
  }

  lemma Unpacked(c: Config, s: Store, n: nat, u: Store)
    requires Packed(c, s, n, u)
    ensures PackageAdded(c, s, n, u) && u.ledger == s.ledger && At(c, u, DocumentComplete)
    ensures u.artifacts.Keys == s.artifacts.Keys + DrawnIds(Drew(c, n))
    ensures u.attempts == s.attempts && u.fallbacks == s.fallbacks && c.caseId in s.cases
    ensures u.cases[c.caseId].supportLevel == s.cases[c.caseId].supportLevel
    ensures forall ending :: Row(u, c.caseId, ending)
                             == s.cases[c.caseId := CaseRow(ending, s.cases[c.caseId].supportLevel, Some(Drew(c, n).packageId))]
    ensures u == s.(packages := u.packages, documents := u.documents, artifacts := u.artifacts, cases := u.cases,
                    objects := u.objects)
  {
    hide PackageAdded, DrawnIds, Drew;
  }

  lemma PackageThenSubmission(c: Config, s: Store, n: nat, initial: Option<string>)
    requires Usable(c) && Packable(c, s, n) && c.x.compile(c.caseId).documents != [] && Unsent(c, s)
    requires At(c, s, IncentivesComplete) || At(c, s, DocumentComplete)
    ensures var first := if initial.Some? then Some(Applied(CaseStateChanged, c.now(initial.value))) else None;
            var (t, o) := SubmissionStep(c, MakePackage(c, s, n).0, Drew(c, n).packageId, initial, first);
            SendLeaves(c, s, n, initial, t, o)
  {
    PackageLogs(c, s, n);
    PackedIsCallable(c, s, n);
    hide Usable, Packable, Drew, Receipt, SubmissionHistories.Callable, SubmissionStep, MakePackage, PackageAdded, DrawnIds,
      Ending, ReceiptIds, AttemptRows, Unlogged, Row, LegId, IdFor, Submitting, ResultOf;
    var u := MakePackage(c, s, n).0;
    var first := if initial.Some? then Some(Applied(CaseStateChanged, c.now(initial.value))) else None;
    StillUnlogged(c, s, u);
    SubmissionInFull(c, u, Drew(c, n).packageId, initial, first);
    SubmittedResult(c, initial, Ending(s, c.caseId));
    PackageAddedStays(c, s, n, u, SubmissionStep(c, u, Drew(c, n).packageId, initial, first).0);
  }

  lemma NewRunUnsent(c: Config, s: Store)
    requires NewRun(c, s)
    ensures Unsent(c, s) && Unlogged(c, s, RESUBMISSION, 1)
  {
    hide LegId;
    Unused(c, s, SUBMIT, 1);
    Unused(c, s, MANUAL, 1);
    Unused(c, s, RESUBMISSION, 1);
  }

  lemma NoDocuments(c: Config, s: Store, n: nat)
    requires Usable(c) && Packable(c, s, n) && c.x.compile(c.caseId).documents == []
    ensures MakePackage(c, s, n) == (s, Raised(LookupError))
  {
    MakePackageIs(c, s, n);
    hide Usable, Packable, MakePackage, Packages.Drawn, Packages.Write, Packages.Uploads, IdFor;
  }

  /** What a run that packages leaves: nothing without documents. */
  ghost predicate PackagingLeaves(c: Config, s: Store, n: nat, initial: Option<string>, t: Store, o: Outcome<WorkflowResult>) {
    if c.x.compile(c.caseId).documents == [] then
      && o == Raised(LookupError) && c.caseId in s.cases
      && t == s.(cases := if initial.Some? then Row(s, c.caseId, DocumentComplete) else s.cases, ledger := t.ledger,
                 audit := t.audit)
    else SendLeaves(c, s, n, initial, t, o)
  }

  lemma DocumentBranch(c: Config, s: Store)
    requires Usable(c) && NewRun(c, s) && Packable(c, s, 1) && At(c, s, DocumentComplete)
    ensures var (t, o) := FromDocumentComplete(c, s); PackagingLeaves(c, s, 1, None, t, o)
  {
    NewRunUnsent(c, s);
    hide Usable, NewRun, Packable, MakePackage, SubmissionStep, SendLeaves, Unlogged, Drew;
    if c.x.compile(c.caseId).documents == [] {
      NoDocuments(c, s, 1);
    } else {
      PackageMade(c, s, 1);
      PackageThenSubmission(c, s, 1, None);
      var (t, o) := SubmissionStep(c, MakePackage(c, s, 1).0, Drew(c, 1).packageId, None, None);
    }
  }

  lemma Fetched(c: Config, s: Store, p: string)
    requires Usable(c) && At(c, s, DocumentComplete)
    ensures AfterPackage(c, s, p) == SubmissionStep(c, s, p, None, None)
  {
    hide Usable, SubmissionStep, Must, LegId;
    var (t, o) := SubmissionStep(c, s, p, None, None);
  }

  lemma IncentivesBranch(c: Config, s: Store)
    requires Usable(c) && NewRun(c, s) && Packable(c, s, 1) && At(c, s, IncentivesComplete)
    ensures var (t, o) := FromIncentivesComplete(c, s); PackagingLeaves(c, s, 1, None, t, o)
  {
    NewRunUnsent(c, s);
    hide Usable, NewRun, Packable, MakePackage, AfterPackage, SubmissionStep, SendLeaves, Unlogged, Drew, Packed;
    if c.x.compile(c.caseId).documents == [] {
      NoDocuments(c, s, 1);
    } else {
      PackageMade(c, s, 1);
      Unpacked(c, s, 1, MakePackage(c, s, 1).0);
      Fetched(c, MakePackage(c, s, 1).0, Drew(c, 1).packageId);
      PackageThenSubmission(c, s, 1, None);
      var (t, o) := SubmissionStep(c, MakePackage(c, s, 1).0, Drew(c, 1).packageId, None, None);
    }
  }

  lemma MovedPackable(c: Config, s: Store, u: Store, n: nat)
    requires Packable(c, s, n) && c.caseId in s.cases
    requires u == s.(cases := Row(s, c.caseId, DocumentComplete), ledger := u.ledger, audit := u.audit)
    ensures Packable(c, u, n) && At(c, u, DocumentComplete)
  {
    hide SubmissionHistories.Sound, IdFor, Drew, Receipt;
    SubmissionHistories.ElsewhereKeeps(s, u, c.x.cfg);
  }

  lemma MovedLeaves(c: Config, s: Store, u: Store, n: nat, initial: Option<string>, t: Store, o: Outcome<WorkflowResult>)
    requires c.caseId in s.cases && u == s.(cases := Row(s, c.caseId, DocumentComplete), ledger := u.ledger, audit := u.audit)
    requires SendLeaves(c, u, n, initial, t, o)
    ensures SendLeaves(c, s, n, initial, t, o)
  {
    hide Ending, ReceiptIds, AttemptRows, DrawnIds, Drew, IdFor, ResultOf;
    SameAttempts(c, s, u);
  }

  lemma ResubmissionMoves(c: Config, s: Store)
    requires Usable(c) && NewRun(c, s) && At(c, s, ResubmissionPending)
    ensures var (t, r) := Must(c, s, RESUBMISSION);
            && r == Returned(Applied(CaseStateChanged, c.now(LegId(c, RESUBMISSION, 1)))) && Unsent(c, t)
            && t == s.(cases := Row(s, c.caseId, DocumentComplete), ledger := t.ledger, audit := t.audit)
  {
    NewRunUnsent(c, s);
    hide Usable, NewRun, LegId, OpenFor, Must, Unlogged, Row;
    SentApart(c);
    MustKeeps(c, s, RESUBMISSION, SUBMIT);
    MustKeeps(c, s, RESUBMISSION, MANUAL);
    MustInFull(c, s, RESUBMISSION);
    GateOfLeg(c, s, RESUBMISSION);
  }

  lemma MovedThenSent(c: Config, s: Store, u: Store, id: string)
    requires Usable(c) && Packable(c, s, 2) && Unsent(c, u) && c.x.compile(c.caseId).documents != []
    requires c.caseId in s.cases && u == s.(cases := Row(s, c.caseId, DocumentComplete), ledger := u.ledger, audit := u.audit)
    ensures MakePackage(c, u, 2).1 == Returned(Drew(c, 2).packageId)
    ensures var (t, o) := SubmissionStep(c, MakePackage(c, u, 2).0, Drew(c, 2).packageId, Some(id),
                                         Some(Applied(CaseStateChanged, c.now(id))));
            SendLeaves(c, s, 2, Some(id), t, o)
  {
    MovedPackable(c, s, u, 2);
    hide Usable, Packable, MakePackage, SubmissionStep, SendLeaves, Unsent, Drew, Packed, Row;
    PackageMade(c, u, 2);
    PackageThenSubmission(c, u, 2, Some(id));
    var (t, o) := SubmissionStep(c, MakePackage(c, u, 2).0, Drew(c, 2).packageId, Some(id),
                                 Some(Applied(CaseStateChanged, c.now(id))));
    MovedLeaves(c, s, u, 2, Some(id), t, o);
  }

  lemma ResubmissionUnfolds(c: Config, s: Store)
    requires Usable(c)
    ensures var (u, r) := Must(c, s, RESUBMISSION);
            var (w, p) := MakePackage(c, u, 2);
            r.Returned? ==>
              FromResubmission(c, s) == if p.Raised? then (w, Raised(p.error))
                                        else SubmissionStep(c, w, p.value, Some(LegId(c, RESUBMISSION, 1)), Some(r.value))
  {
    hide Usable, Must, MakePackage, SubmissionStep, LegId;
    var (u, r) := Must(c, s, RESUBMISSION);
  }

  lemma ResubmissionBranch(c: Config, s: Store)
    requires Usable(c) && NewRun(c, s) && Packable(c, s, 2) && At(c, s, ResubmissionPending)
    ensures var (t, o) := FromResubmission(c, s);
            PackagingLeaves(c, s, 2, Some(IdFor(c, "resubmission_pending_to_document_complete", 1)), t, o)
  {
    hide Usable, NewRun, Packable, Must, MakePackage, SubmissionStep, FromResubmission, SendLeaves, Unlogged, Unsent, Drew, LegId,
      IdFor, Row;
    LegIdsInFull(c);
    ResubmissionMoves(c, s);
    ResubmissionUnfolds(c, s);
    var (u, r) := Must(c, s, RESUBMISSION);
    if c.x.compile(c.caseId).documents == [] {
      MovedPackable(c, s, u, 2);
      NoDocuments(c, u, 2);
    } else {
      MovedThenSent(c, s, u, LegId(c, RESUBMISSION, 1));
    }
  }

  /** A new run at INCENTIVES_COMPLETE or DOCUMENT_COMPLETE packages the case and submits it:
      it raises exactly if there are no documents, or the case has an attempt that failed. */
  lemma RunsThatPackage(c: Config, s: Store, v: Review)
    requires Usable(c) && NewRun(c, s) && Packable(c, s, 1) && (At(c, s, IncentivesComplete) || At(c, s, DocumentComplete))
    ensures var (t, o) := Flow(c, s, v); PackagingLeaves(c, s, 1, None, t, o)
  {
    hide Flow, FromIncentivesComplete, FromDocumentComplete, Usable, NewRun, Packable, PackagingLeaves;
    FlowBranchesLate(c, s, v);
    if At(c, s, IncentivesComplete) { IncentivesBranch(c, s); } else { DocumentBranch(c, s); }
  }

  /** So does one at RESUBMISSION_PENDING, with its second package, after moving the case
      back to DOCUMENT_COMPLETE. */
  lemma RunFromResubmission(c: Config, s: Store, v: Review)
    requires Usable(c) && NewRun(c, s) && Packable(c, s, 2) && At(c, s, ResubmissionPending)
    ensures var (t, o) := Flow(c, s, v);
            PackagingLeaves(c, s, 2, Some(IdFor(c, "resubmission_pending_to_document_complete", 1)), t, o)
  {
    hide Flow, FromResubmission, Usable, NewRun, Packable, PackagingLeaves, IdFor;
    FlowBranchesLate(c, s, v);
    ResubmissionBranch(c, s);
  }
}
