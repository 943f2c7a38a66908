/** What stays true of submission attempts over every run of workflow-keyed adapter calls,
    from any workflow runs, interleaved and failing anywhere. */
module SubmissionHistories {
  import opened Contracts
  import opened Tables
  import opened Registry
  import opened RequestIds
  import opened Submission
  import opened Transitions

  const FAMILY := "CITY_PORTAL_FAMILY_A"

  function WorkflowOf(caseId: string): string {
    WORKFLOW_PREFIX + caseId
  }

  /** The request of the workflow's submission step: always attempt 1, in every run and
      in every resubmission. */
  function Keyed(caseId: string, run: string, packageId: string): AdapterRequest {
    AdapterRequest(RequestId(WorkflowOf(caseId), run, ADAPTER_STEP, 1), AttemptId(WorkflowOf(caseId), run, 1),
                   caseId, packageId, FAMILY, SubmitKey(caseId, 1), 1)
  }

  // ---------------------------------------------------------------------- the invariant

  /** The keys of an attempt are those of some run of its case's workflow. */
  ghost predicate KeyedRow(id: string, a: AttemptRow) {
    && a.idempotencyKey == SubmitKey(a.caseId, 1)
    && a.number == 1
    && exists run :: '/' !in run && id == AttemptId(WorkflowOf(a.caseId), run, 1)
                     && a.requestId == RequestId(WorkflowOf(a.caseId), run, ADAPTER_STEP, 1)
  }

  /** A stored receipt of this attempt that reads back with its digest. */
  predicate HasReceipt(s: Store, cfg: Settings, id: string, a: AttemptRow) {
    && a.receiptId.Some?
    && ValidEvidenceId(a.receiptId.value)
    && a.receiptId.value in s.artifacts
    && var r := s.artifacts[a.receiptId.value];
    && r.artifactClass == ReceiptClass && r.linkedObjectId == id && r.caseId == a.caseId
    && r.storageUri == StorageUri(Name(cfg, a.receiptId.value))
    && Name(cfg, a.receiptId.value) in s.objects
    && cfg.digest(s.objects[Name(cfg, a.receiptId.value)]) == r.checksum
  }

  predicate FallbackRecorded(s: Store, id: string, a: AttemptRow) {
    exists i :: 0 <= i < |s.fallbacks| && FallbackIs(s.fallbacks[i], id, a)
  }

  predicate FallbackIs(f: FallbackRow, id: string, a: AttemptRow) {
    f.fallbackId == FallbackId(id) && f.attemptId == id && f.caseId == a.caseId
  }

  /** No attempt is left pending; it is submitted exactly if it names its stored receipt,
      and otherwise its manual fallback is stored. */
  predicate Settled(s: Store, cfg: Settings, id: string, a: AttemptRow) {
    && a.status != PendingAttempt
    && (a.status == SubmittedAttempt <==> HasReceipt(s, cfg, id, a))
    && (a.status == SubmittedAttempt <==> a.receiptId.Some?)
    && (a.status != SubmittedAttempt <==> FallbackRecorded(s, id, a))
    && a.outcome == Some(match a.status
                         case SubmittedAttempt => Success
                         case ManualFallback => UnsupportedWorkflow
                         case _ => AdapterFailed)
  }

  predicate OneAttemptPerCase(s: Store) {
    forall a, b | a in s.attempts && b in s.attempts && s.attempts[a].caseId == s.attempts[b].caseId :: a == b
  }

  /** Every fallback belongs to an attempt of its case that was not submitted, and to no
      other fallback's. */
  predicate FallbacksOwned(s: Store) {
    && (forall i | 0 <= i < |s.fallbacks| :: FallbackOwned(s, s.fallbacks[i]))
    && (forall i, j | 0 <= i < j < |s.fallbacks| :: s.fallbacks[i].attemptId != s.fallbacks[j].attemptId)
  }

  predicate FallbackOwned(s: Store, f: FallbackRow) {
    && f.attemptId in s.attempts
    && FallbackIs(f, f.attemptId, s.attempts[f.attemptId])
    && s.attempts[f.attemptId].status != SubmittedAttempt
    && !f.proofConfirmed
  }

  ghost predicate Sound(s: Store, cfg: Settings) {
    && OneAttemptPerCase(s)
    && FallbacksOwned(s)
    && (forall id | id in s.attempts :: KeyedRow(id, s.attempts[id]))
    && (forall id | id in s.attempts :: Settled(s, cfg, id, s.attempts[id]))
  }

  // --------------------------------------------------------------------------- steps

  /** A commit of another part of the system: attempts and fallbacks come only from the
      adapter, and stored evidence is left alone. */
  ghost predicate Elsewhere(s: Store, t: Store, cfg: Settings) {
    t.attempts == s.attempts && t.fallbacks == s.fallbacks && KeepsEvidence(s, t, cfg)
  }

  /** One transaction of one call: the work (whatever the call had looked up before), the
      error handler, or something else. Lookups change nothing. */
  datatype Step =
    | Work(caseId: string, run: string, packageId: string, draw: Draw)
    | Fail(caseId: string, run: string, packageId: string)
    | Other(next: Store)

  ghost predicate Allowed(s: Store, env: Env, step: Step) {
    match step
    case Work(c, run, p, draw) => '/' !in run && Drawn(env, draw) && draw.receiptId !in s.artifacts
    case Fail(c, run, p) => '/' !in run
    case Other(next) => Elsewhere(s, next, env.cfg)
  }

  ghost function After(s: Store, env: Env, step: Step): Store
    requires step.Work? ==> Drawn(env, step.draw)
  {
    match step
    case Work(c, run, p, draw) => DoWork(s, env, Keyed(c, run, p), draw).0
    case Fail(c, run, p) => MarkFailed(s, Keyed(c, run, p))
    case Other(next) => next
  }

  ghost predicate Legal(s: Store, env: Env, steps: seq<Step>)
    decreases |steps|
  {
    steps == [] || (Allowed(s, env, steps[0]) && Legal(After(s, env, steps[0]), env, steps[1..]))
  }

  ghost function Run(s: Store, env: Env, steps: seq<Step>): Store
    requires Legal(s, env, steps)
    decreases |steps|
  {
    if steps == [] then s else Run(After(s, env, steps[0]), env, steps[1..])
  }

  /** A whole call is at most its work and then its error handler. */
  lemma CallIsSteps(s: Store, env: Env, c: string, run: string, p: string, draw: Draw, broken: bool)
    requires Drawn(env, draw)
    ensures var t := Adapt(s, env, Keyed(c, run, p), draw, broken).0;
            var worked := After(s, env, Work(c, run, p, draw));
            || t == s
            || t == worked
            || t == After(s, env, Fail(c, run, p))
            || t == After(worked, env, Fail(c, run, p))
  {
    hide Keyed, DoWork, MarkFailed, Load, Reload;
  }

  // ----------------------------------------------------------- keys determine the case

  lemma KeysOfCase(caseId: string, run: string, packageId: string, id: string, a: AttemptRow)
    requires '/' !in run && KeyedRow(id, a)
    ensures var req := Keyed(caseId, run, packageId);
            (SharesKey(a, req) || id == req.attemptId) <==> a.caseId == caseId
  {
    hide RequestId, SubmitKey;
    StepsPlain();
    var other :| '/' !in other && id == AttemptId(WorkflowOf(a.caseId), other, 1)
                 && a.requestId == RequestId(WorkflowOf(a.caseId), other, ADAPTER_STEP, 1);
    var req := Keyed(caseId, run, packageId);
    if a.idempotencyKey == req.idempotencyKey { SubmitKeyInjective(a.caseId, 1, caseId, 1); }
    if a.requestId == req.requestId {
      RequestIdInjective(WorkflowOf(a.caseId), other, ADAPTER_STEP, 1, WorkflowOf(caseId), run, ADAPTER_STEP, 1);
      Strings.SuffixCancels(WORKFLOW_PREFIX, a.caseId, caseId);
    }
    if id == req.attemptId {
      RequestIdInjective(WorkflowOf(a.caseId), other, ATTEMPT_STEP, 1, WorkflowOf(caseId), run, ATTEMPT_STEP, 1);
      Strings.SuffixCancels(WORKFLOW_PREFIX, a.caseId, caseId);
    }
  }

  ghost predicate HasAttempt(s: Store, caseId: string) {
    exists id :: id in s.attempts && s.attempts[id].caseId == caseId
  }

  /** The keys of a call are taken exactly if its case has an attempt, from whatever run. */
  lemma TakenIffAttempted(s: Store, cfg: Settings, c: string, run: string, p: string)
    requires Sound(s, cfg) && '/' !in run
    ensures KeyTaken(s.attempts, Keyed(c, run, p)) <==> HasAttempt(s, c)
    ensures forall id | id in s.attempts :: Matches(s.attempts[id], Keyed(c, run, p)) <==> s.attempts[id].caseId == c
  {
    hide Keyed, Settled, FallbacksOwned, OneAttemptPerCase, KeyedRow;
    forall id | id in s.attempts
      ensures SharesKey(s.attempts[id], Keyed(c, run, p)) || id == Keyed(c, run, p).attemptId
              <==> s.attempts[id].caseId == c
      ensures Matches(s.attempts[id], Keyed(c, run, p)) <==> s.attempts[id].caseId == c
    {
      KeysOfCase(c, run, p, id, s.attempts[id]);
      KeyShared(c, run, p, id, s.attempts[id]);
    }
  }

  lemma KeyShared(c: string, run: string, p: string, id: string, a: AttemptRow)
    requires KeyedRow(id, a)
    ensures a.caseId == c ==> a.idempotencyKey == Keyed(c, run, p).idempotencyKey
    ensures Keyed(c, run, p).caseId == c
  {
    hide RequestId, SubmitKey;
  }

  lemma NoFallbackWithoutAttempt(s: Store, caseId: string)
    requires FallbacksOwned(s) && !HasAttempt(s, caseId)
    ensures forall i | 0 <= i < |s.fallbacks| :: s.fallbacks[i].caseId != caseId
  {
  }

  /** With no attempt of the case there is none of its fallback's keys either. */
  lemma FallbackKeysFree(s: Store, cfg: Settings, c: string, run: string, p: string, row: PackageRow)
    requires Sound(s, cfg) && '/' !in run && !HasAttempt(s, c)
    ensures !FallbackKeyTaken(s.fallbacks, FallbackId(Keyed(c, run, p).attemptId), c, row)
  {
    hide RequestId, SubmitKey, FallbackId, Settled, KeyedRow;
    NoFallbackWithoutAttempt(s, c);
    forall i | 0 <= i < |s.fallbacks| ensures s.fallbacks[i].fallbackId != FallbackId(Keyed(c, run, p).attemptId) {
      var f := s.fallbacks[i];
      assert FallbackOwned(s, f);
      if f.fallbackId == FallbackId(Keyed(c, run, p).attemptId) {
        FallbackIdInjective(f.attemptId, Keyed(c, run, p).attemptId);
        KeysOfCase(c, run, p, f.attemptId, s.attempts[f.attemptId]);
      }
    }
  }

  // ------------------------------------------------------------- every step keeps it

  lemma SettledElsewhere(s: Store, t: Store, cfg: Settings, id: string, a: AttemptRow)
    requires Settled(s, cfg, id, a) && t.fallbacks == s.fallbacks && KeepsEvidence(s, t, cfg)
    ensures Settled(t, cfg, id, a)
  {
    hide ValidEvidenceId, StorageUri, Name;
    if a.status != SubmittedAttempt {
      var i :| 0 <= i < |s.fallbacks| && FallbackIs(s.fallbacks[i], id, a);
      assert FallbackIs(t.fallbacks[i], id, a);
    }
  }

  lemma ElsewhereKeeps(s: Store, t: Store, cfg: Settings)
    requires Sound(s, cfg) && Elsewhere(s, t, cfg)
    ensures Sound(t, cfg)
  {
    hide Settled, KeyedRow, KeepsEvidence;
    forall id | id in t.attempts ensures Settled(t, cfg, id, t.attempts[id]) {
      SettledElsewhere(s, t, cfg, id, s.attempts[id]);
    }
  }

  /** A new keyed row for a case without one keeps attempts keyed and one per case. */
  lemma NewAttemptKeyed(s: Store, t: Store, cfg: Settings, c: string, run: string, p: string, row: AttemptRow)
    requires Sound(s, cfg) && '/' !in run && !HasAttempt(s, c)
    requires t.attempts == s.attempts[Keyed(c, run, p).attemptId := row]
    requires row.caseId == c && row.requestId == Keyed(c, run, p).requestId
    requires row.idempotencyKey == Keyed(c, run, p).idempotencyKey && row.number == 1
    ensures Keyed(c, run, p).attemptId !in s.attempts
    ensures OneAttemptPerCase(t) && forall id | id in t.attempts :: KeyedRow(id, t.attempts[id])
  {
    hide RequestId, SubmitKey, Settled, FallbacksOwned;
    var req := Keyed(c, run, p);
    if req.attemptId in s.attempts { KeysOfCase(c, run, p, req.attemptId, s.attempts[req.attemptId]); }
  }

  lemma FallbackStaysRecorded(s: Store, t: Store, id: string, a: AttemptRow, f: FallbackRow)
    requires t.fallbacks == s.fallbacks + [f] && f.attemptId != id
    ensures FallbackRecorded(t, id, a) <==> FallbackRecorded(s, id, a)
  {
    if FallbackRecorded(s, id, a) {
      var i :| 0 <= i < |s.fallbacks| && FallbackIs(s.fallbacks[i], id, a);
      assert FallbackIs(t.fallbacks[i], id, a);
    }
  }

  ghost predicate Workable(s: Store, env: Env, c: string, run: string, draw: Draw) {
    && Sound(s, env.cfg) && '/' !in run && Drawn(env, draw) && draw.receiptId !in s.artifacts
    && c in s.cases && !HasAttempt(s, c)
  }

  lemma FallbackOwnership(s: Store, env: Env, c: string, run: string, p: string, draw: Draw, row: PackageRow)
    requires Workable(s, env, c, run, draw) && row.packageId == p
    ensures FallbacksOwned(WithFallback(s, env, Keyed(c, run, p), draw, row))
  {
    hide RequestId, SubmitKey, FallbackId, Settled, KeyedRow, Attachments, SupportLevel, ValidEvidenceId;
    var t, req := WithFallback(s, env, Keyed(c, run, p), draw, row), Keyed(c, run, p);
    NewAttemptKeyed(s, t, env.cfg, c, run, p, t.attempts[req.attemptId]);
    assert forall i | 0 <= i < |s.fallbacks| :: FallbackOwned(s, s.fallbacks[i]);
    forall i | 0 <= i < |t.fallbacks| ensures FallbackOwned(t, t.fallbacks[i]) {
      if i < |s.fallbacks| { assert t.fallbacks[i] == s.fallbacks[i]; }
    }
  }

  lemma FallbackKeeps(s: Store, env: Env, c: string, run: string, p: string, draw: Draw, row: PackageRow)
    requires Workable(s, env, c, run, draw) && row.packageId == p
    ensures Sound(WithFallback(s, env, Keyed(c, run, p), draw, row), env.cfg)
  {
    hide RequestId, SubmitKey, FallbackId, KeyedRow, Attachments, SupportLevel, ValidEvidenceId, StorageUri,
      OneAttemptPerCase, FallbacksOwned;
    var t, req := WithFallback(s, env, Keyed(c, run, p), draw, row), Keyed(c, run, p);
    FallbackOwnership(s, env, c, run, p, draw, row);
    NewAttemptKeyed(s, t, env.cfg, c, run, p, t.attempts[req.attemptId]);
    forall id | id in t.attempts ensures Settled(t, env.cfg, id, t.attempts[id]) {
      if id == req.attemptId {
        assert FallbackIs(t.fallbacks[|s.fallbacks|], id, t.attempts[id]);
      } else {
        FallbackStaysRecorded(s, t, id, s.attempts[id], FallbackFor(s, env, req, row, draw.now));
        assert Settled(s, env.cfg, id, s.attempts[id]);
      }
    }
  }

  lemma ReceiptEvidence(s: Store, env: Env, req: AdapterRequest, draw: Draw, row: PackageRow)
    requires Drawn(env, draw) && draw.receiptId !in s.artifacts && req.caseId in s.cases
    ensures KeepsEvidence(s, WithReceipt(s, env, req, draw, row), env.cfg)
    ensures var t := WithReceipt(s, env, req, draw, row);
            HasReceipt(t, env.cfg, req.attemptId, t.attempts[req.attemptId])
  {
    hide ReceiptText, StorageUri, ObjectKey, ValidEvidenceId, TrackingId;
    forall id | id in s.artifacts && ValidEvidenceId(id)
      ensures Name(env.cfg, id) != Name(env.cfg, draw.receiptId)
    {
      if Name(env.cfg, id) == Name(env.cfg, draw.receiptId) { NameInjective(env.cfg, id, draw.receiptId); }
    }
  }

  lemma NoFallbackOf(s: Store, id: string, a: AttemptRow)
    requires FallbacksOwned(s) && id !in s.attempts
    ensures !FallbackRecorded(s, id, a)
  {
    assert forall i | 0 <= i < |s.fallbacks| :: FallbackOwned(s, s.fallbacks[i]);
  }

  lemma SendKeeps(s: Store, env: Env, c: string, run: string, p: string, draw: Draw, row: PackageRow)
    requires Workable(s, env, c, run, draw) && row.packageId == p
    ensures Sound(WithReceipt(s, env, Keyed(c, run, p), draw, row), env.cfg)
  {
    hide RequestId, SubmitKey, FallbackId, KeyedRow, ReceiptRow, SupportLevel, ValidEvidenceId, StorageUri,
      OneAttemptPerCase, KeepsEvidence, TrackingId, FallbackRecorded, HasReceipt;
    var t, req := WithReceipt(s, env, Keyed(c, run, p), draw, row), Keyed(c, run, p);
    NewAttemptKeyed(s, t, env.cfg, c, run, p, t.attempts[req.attemptId]);
    ReceiptEvidence(s, env, req, draw, row);
    NoFallbackOf(s, req.attemptId, t.attempts[req.attemptId]);
    SameFallbacks(s, t, req.attemptId, t.attempts[req.attemptId]);
    forall id | id in s.attempts ensures Settled(t, env.cfg, id, s.attempts[id]) {
      SettledElsewhere(s, t, env.cfg, id, s.attempts[id]);
    }
    assert forall i | 0 <= i < |s.fallbacks| :: FallbackOwned(s, s.fallbacks[i]);
    assert forall i | 0 <= i < |t.fallbacks| :: FallbackOwned(t, t.fallbacks[i]);
  }

  lemma SameFallbacks(s: Store, t: Store, id: string, a: AttemptRow)
    requires t.fallbacks == s.fallbacks
    ensures FallbackRecorded(t, id, a) <==> FallbackRecorded(s, id, a)
  {
  }

  lemma WorkKeeps(s: Store, env: Env, c: string, run: string, p: string, draw: Draw)
    requires Sound(s, env.cfg) && '/' !in run && Drawn(env, draw) && draw.receiptId !in s.artifacts
    ensures Sound(DoWork(s, env, Keyed(c, run, p), draw).0, env.cfg)
  {
    hide RequestId, SubmitKey, FallbackId, Sound, WithFallback, WithReceipt, NeedsFallback, FallbackKeyTaken, KeyTaken;
    TakenIffAttempted(s, env.cfg, c, run, p);
    var found := FindPackageRow(s.packages, p);
    if c in s.cases && found.Some? && !HasAttempt(s, c) {
      FallbackKeysFree(s, env.cfg, c, run, p, found.value);
      FallbackKeeps(s, env, c, run, p, draw, found.value);
      SendKeeps(s, env, c, run, p, draw, found.value);
    }
  }

  lemma FailedOwnership(s: Store, req: AdapterRequest)
    requires FallbacksOwned(s)
    ensures FallbacksOwned(MarkFailed(s, req))
  {
    hide FallbackId;
    var t := MarkFailed(s, req);
    assert forall i | 0 <= i < |s.fallbacks| :: FallbackOwned(s, s.fallbacks[i]);
    assert forall i | 0 <= i < |t.fallbacks| :: FallbackOwned(t, t.fallbacks[i]);
  }

  /** The handler changes attempt rows only, and only those that were not submitted. */
  lemma OnlyMarks(s: Store, req: AdapterRequest)
    ensures var t := MarkFailed(s, req);
            && t.fallbacks == s.fallbacks && t.artifacts == s.artifacts && t.objects == s.objects
            && t.attempts.Keys == s.attempts.Keys
            && forall id | id in s.attempts ::
                 t.attempts[id] == s.attempts[id]
                 || (s.attempts[id].status != SubmittedAttempt && t.attempts[id] == Broken(s.attempts[id]))
  {
  }

  lemma OneAttemptStays(s: Store, req: AdapterRequest)
    requires OneAttemptPerCase(s)
    ensures OneAttemptPerCase(MarkFailed(s, req))
  {
    hide MarkFailed;
    OnlyMarks(s, req);
  }

  lemma FailKeeps(s: Store, cfg: Settings, req: AdapterRequest)
    requires Sound(s, cfg)
    ensures Sound(MarkFailed(s, req), cfg)
  {
    hide KeyedRow, Settled, FallbacksOwned, Broken, OneAttemptPerCase, MarkFailed;
    var t := MarkFailed(s, req);
    OnlyMarks(s, req);
    FailedOwnership(s, req);
    OneAttemptStays(s, req);
    forall id | id in t.attempts ensures KeyedRow(id, t.attempts[id]) && Settled(t, cfg, id, t.attempts[id]) {
      FailedSettled(s, t, cfg, id, s.attempts[id], t.attempts[id]);
    }
  }

  lemma FailedSettled(s: Store, t: Store, cfg: Settings, id: string, a: AttemptRow, b: AttemptRow)
    requires KeyedRow(id, a) && Settled(s, cfg, id, a)
    requires t.fallbacks == s.fallbacks && t.artifacts == s.artifacts && t.objects == s.objects
    requires b == a || (a.status != SubmittedAttempt && b == Broken(a))
    ensures KeyedRow(id, b) && Settled(t, cfg, id, b)
  {
    hide RequestId, SubmitKey, FallbackId, ValidEvidenceId, StorageUri, Name;
    if a.status != SubmittedAttempt {
      var i :| 0 <= i < |s.fallbacks| && FallbackIs(s.fallbacks[i], id, a);
      assert FallbackIs(t.fallbacks[i], id, b);
    }
  }

  lemma StepKeeps(s: Store, env: Env, step: Step)
    requires Sound(s, env.cfg) && Allowed(s, env, step)
    ensures Sound(After(s, env, step), env.cfg)
  {
    hide Sound, DoWork, MarkFailed, Elsewhere, Keyed;
    match step {
      case Work(c, run, p, draw) => WorkKeeps(s, env, c, run, p, draw);
      case Fail(c, run, p) => FailKeeps(s, env.cfg, Keyed(c, run, p));
      case Other(next) => ElsewhereKeeps(s, next, env.cfg);
    }
  }

  lemma {:induction false} RunKeeps(s: Store, env: Env, steps: seq<Step>)
    requires Sound(s, env.cfg) && Legal(s, env, steps)
    ensures Sound(Run(s, env, steps), env.cfg)
    decreases |steps|
  {
    hide Sound, Elsewhere, DoWork, MarkFailed, Keyed;
    if steps != [] {
      StepKeeps(s, env, steps[0]);
      RunKeeps(After(s, env, steps[0]), env, steps[1..]);
    }
  }

  /** Over every run, across workflow runs and resubmissions: at most one attempt per case,
      never pending, submitted exactly with its receipt, otherwise with its fallback. */
  lemma SubmissionsStaySound(env: Env, steps: seq<Step>)
    requires Legal(EMPTY, env, steps)
    ensures Sound(Run(EMPTY, env, steps), env.cfg)
  {
    RunKeeps(EMPTY, env, steps);
  }

  // ------------------------------------------------------------------- whole calls

  lemma {:induction false} RunAppended(s: Store, env: Env, steps: seq<Step>, step: Step)
    requires Legal(s, env, steps) && Allowed(Run(s, env, steps), env, step)
    ensures Legal(s, env, steps + [step]) && Run(s, env, steps + [step]) == After(Run(s, env, steps), env, step)
    decreases |steps|
  {
    hide Elsewhere, DoWork, MarkFailed, Keyed;
    if steps == [] {
      assert [step][1..] == [];
    } else {
      RunAppended(After(s, env, steps[0]), env, steps[1..], step);
      assert (steps + [step])[1..] == steps[1..] + [step];
    }
  }

  /** A commit that a whole call, or another part of the system, makes. */
  datatype Event =
    | Called(caseId: string, run: string, packageId: string, draw: Draw, broken: bool)
    | Elsewise(next: Store)

  ghost predicate MayHappen(s: Store, env: Env, e: Event) {
    match e
    case Called(c, run, p, draw, _) => Allowed(s, env, Work(c, run, p, draw))
    case Elsewise(next) => Allowed(s, env, Other(next))
  }

  ghost function Happened(s: Store, env: Env, e: Event): Store
    requires e.Called? ==> Drawn(env, e.draw)
  {
    match e
    case Called(c, run, p, draw, broken) => Adapt(s, env, Keyed(c, run, p), draw, broken).0
    case Elsewise(next) => next
  }

  ghost predicate Possible(s: Store, env: Env, events: seq<Event>)
    decreases |events|
  {
    events == [] || (MayHappen(s, env, events[0]) && Possible(Happened(s, env, events[0]), env, events[1..]))
  }

  ghost function Ended(s: Store, env: Env, events: seq<Event>): Store
    requires Possible(s, env, events)
    decreases |events|
  {
    if events == [] then s else Ended(Happened(s, env, events[0]), env, events[1..])
  }

  /** What happens after a legal run is itself the end of a legal run: a whole call, broken or
      not, with its lookup, its work, its reload and its error handler, is at most two steps. */
  lemma EventIsSteps(s: Store, env: Env, steps: seq<Step>, e: Event) returns (longer: seq<Step>)
    requires Legal(s, env, steps) && MayHappen(Run(s, env, steps), env, e)
    ensures Legal(s, env, longer) && Run(s, env, longer) == Happened(Run(s, env, steps), env, e)
  {
    hide Legal, Run, Adapt, DoWork, MarkFailed, Elsewhere, Keyed;
    var now := Run(s, env, steps);
    match e {
      case Called(c, run, p, draw, broken) =>
        var work, fail := Work(c, run, p, draw), Fail(c, run, p);
        var reached := Happened(now, env, e);
        CallIsSteps(now, env, c, run, p, draw, broken);
        RunAppended(s, env, steps, work);
        RunAppended(s, env, steps, fail);
        RunAppended(s, env, steps + [work], fail);
        longer := if reached == now then steps
                  else if reached == After(now, env, work) then steps + [work]
                  else if reached == After(now, env, fail) then steps + [fail]
                  else steps + [work] + [fail];
      case Elsewise(next) =>
        RunAppended(s, env, steps, Other(next));
        longer := steps + [Other(next)];
    }
  }

  lemma {:induction false} EventsAreSteps(s: Store, env: Env, steps: seq<Step>, events: seq<Event>)
    returns (longer: seq<Step>)
    requires Legal(s, env, steps) && Possible(Run(s, env, steps), env, events)
    ensures Legal(s, env, longer) && Run(s, env, longer) == Ended(Run(s, env, steps), env, events)
    decreases |events|
  {
    hide Legal, Run, Happened, MayHappen;
    longer := steps;
    if events != [] {
      longer := EventIsSteps(s, env, steps, events[0]);
      longer := EventsAreSteps(s, env, longer, events[1..]);
    }
  }

  /** Over every sequence of whole calls, broken or not, and other commits, attempts are as
      sound as over the interleaved steps. */
  lemma CallsStaySound(env: Env, events: seq<Event>)
    requires Possible(EMPTY, env, events)
    ensures Sound(Ended(EMPTY, env, events), env.cfg)
  {
    hide Sound, Possible, Ended;
    assert Legal(EMPTY, env, []) && Run(EMPTY, env, []) == EMPTY;
    var steps := EventsAreSteps(EMPTY, env, [], events);
    SubmissionsStaySound(env, steps);
  }

  // ------------------------------------------------------------ what calls answer

  /** How an attempt row may change: not at all, or from unsubmitted to failed. */
  predicate Ages(s: Store, t: Store, id: string)
    requires id in s.attempts
  {
    && id in t.attempts
    && (t.attempts[id] == s.attempts[id]
        || (s.attempts[id].status != SubmittedAttempt && t.attempts[id] == Broken(s.attempts[id])))
  }

  lemma StepAges(s: Store, env: Env, step: Step, id: string)
    requires Allowed(s, env, step) && id in s.attempts
    ensures Ages(s, After(s, env, step), id)
  {
    hide Keyed, FallbackKeyTaken, NeedsFallback, FindPackageRow, ReceiptRow, FallbackFor, KeepsEvidence, Broken, MarkFailed;
    if step.Fail? { OnlyMarks(s, Keyed(step.caseId, step.run, step.packageId)); }
  }

  /** A submitted attempt never changes again, whatever happens; any other can only be
      marked failed. */
  lemma {:induction false} SubmittedIsAbsorbing(s: Store, env: Env, steps: seq<Step>, id: string)
    requires Legal(s, env, steps) && id in s.attempts
    ensures Ages(s, Run(s, env, steps), id)
    decreases |steps|
  {
    hide Elsewhere, DoWork, MarkFailed, Keyed;
    if steps != [] {
      StepAges(s, env, steps[0], id);
      SubmittedIsAbsorbing(After(s, env, steps[0]), env, steps[1..], id);
    }
  }

  lemma {:induction false} AtMostOneFallback(rows: seq<FallbackRow>, id: string)
    requires forall i, j | 0 <= i < j < |rows| :: rows[i].attemptId != rows[j].attemptId
    ensures |FallbacksOf(rows, id)| <= 1
    ensures FallbacksOf(rows, id) == [] <==> forall f | f in rows :: f.attemptId != id
    ensures forall f | f in FallbacksOf(rows, id) :: f in rows && f.attemptId == id
  {
    if rows != [] {
      var n := |rows| - 1;
      AtMostOneFallback(rows[..n], id);
      assert rows == rows[..n] + [rows[n]];
      if rows[n].attemptId == id {
        assert forall f | f in rows[..n] :: f.attemptId != id;
      }
    }
  }

  function FallbackOf(id: string, a: AttemptRow): Option<string> {
    if a.status == SubmittedAttempt then None else Some(FallbackId(id))
  }

  /** The fallback of an attempt is found exactly if it was not submitted. */
  lemma FallbackFound(s: Store, cfg: Settings, id: string)
    requires Sound(s, cfg) && id in s.attempts
    ensures var rows := FallbacksOf(s.fallbacks, id);
            && |rows| <= 1
            && (if rows == [] then None else Some(rows[0].fallbackId)) == FallbackOf(id, s.attempts[id])
  {
    hide KeyedRow, FallbackId, HasReceipt, OneAttemptPerCase, FallbacksOf;
    AtMostOneFallback(s.fallbacks, id);
    assert Settled(s, cfg, id, s.attempts[id]);
    var rows := FallbacksOf(s.fallbacks, id);
    if rows != [] {
      var i :| 0 <= i < |s.fallbacks| && s.fallbacks[i] == rows[0];
      assert FallbackOwned(s, s.fallbacks[i]);
    } else {
      assert forall i | 0 <= i < |s.fallbacks| :: s.fallbacks[i] in s.fallbacks;
    }
  }

  /** Reading an attempt back never raises, and names its fallback exactly if it was not
      submitted. */
  lemma LoadAnswers(s: Store, cfg: Settings, id: string)
    requires Sound(s, cfg) && id in s.attempts
    ensures var a := s.attempts[id];
            && a.outcome.Some?
            && Load(s, id) == Returned(AdapterResult(id, a.status, a.outcome.value, a.trackingId, a.receiptId,
                                                     a.submittedAt, FallbackOf(id, a), a.supportLevel, a.failureClass))
  {
    hide KeyedRow, FallbackOf, HasReceipt, FallbackRecorded, FallbacksOf, FallbacksOwned, OneAttemptPerCase;
    FallbackFound(s, cfg, id);
    assert Settled(s, cfg, id, s.attempts[id]);
  }

  /** The attempt of a case, once it has one. */
  lemma ReloadFindsTheAttempt(s: Store, cfg: Settings, c: string, run: string, p: string, id: string)
    requires Sound(s, cfg) && '/' !in run && id in s.attempts && s.attempts[id].caseId == c
    ensures Reload(s, Keyed(c, run, p)) == Load(s, id)
  {
    hide Keyed, KeyedRow, Settled, FallbacksOwned, Load;
    TakenIffAttempted(s, cfg, c, run, p);
    assert Matches(s.attempts[id], Keyed(c, run, p));
  }

  /** A database in which a keyed call finds what it needs. */
  ghost predicate Callable(s: Store, env: Env, c: string, run: string, p: string, draw: Draw) {
    && Sound(s, env.cfg) && '/' !in run && Drawn(env, draw)
    && c in s.cases && FindPackageRow(s.packages, p).Some?
  }

  /** A case that has an attempt, made by whatever run, gets that attempt back from every
      later call, a resubmission's too, and the call changes nothing. */
  lemma LaterCallsGetTheAttempt(s: Store, env: Env, c: string, run: string, p: string, draw: Draw, id: string)
    requires Callable(s, env, c, run, p, draw) && id in s.attempts && s.attempts[id].caseId == c
    ensures Adapt(s, env, Keyed(c, run, p), draw, false) == (s, Load(s, id)) && Load(s, id).Returned?
  {
    hide RequestId, SubmitKey, Sound, Load, Reload, MarkFailed;
    SoundKeys(s, env.cfg, id);
    LoadAnswers(s, env.cfg, id);
    TakenIffAttempted(s, env.cfg, c, run, p);
    ReloadFindsTheAttempt(s, env.cfg, c, run, p, id);
    var req := Keyed(c, run, p);
    if req.attemptId in s.attempts {
      SoundKeys(s, env.cfg, req.attemptId);
      KeysOfCase(c, run, p, req.attemptId, s.attempts[req.attemptId]);
      SameAttempt(s, env.cfg, id, req.attemptId);
    }
  }

  lemma SoundKeys(s: Store, cfg: Settings, id: string)
    requires Sound(s, cfg) && id in s.attempts
    ensures KeyedRow(id, s.attempts[id])
  {
  }

  lemma SameAttempt(s: Store, cfg: Settings, a: string, b: string)
    requires Sound(s, cfg) && a in s.attempts && b in s.attempts && s.attempts[a].caseId == s.attempts[b].caseId
    ensures a == b
  {
    hide KeyedRow, Settled, FallbacksOwned;
  }

  /** The first call of a case makes its attempt; it cannot lose on any key. */
  lemma FirstCallMakesTheAttempt(s: Store, env: Env, c: string, run: string, p: string, draw: Draw)
    requires Callable(s, env, c, run, p, draw) && draw.receiptId !in s.artifacts && !HasAttempt(s, c)
    ensures var req, row := Keyed(c, run, p), FindPackageRow(s.packages, p).value;
            Adapt(s, env, req, draw, false)
            == if NeedsFallback(s.cases[c])
               then (WithFallback(s, env, req, draw, row), Returned(FallbackResult(s, req)))
               else (WithReceipt(s, env, req, draw, row), Returned(SentResult(s, req, draw)))
  {
    hide RequestId, SubmitKey, FallbackId, Sound, WithFallback, WithReceipt, NeedsFallback, FallbackKeyTaken, KeyTaken,
      FallbackResult, SentResult, Load, Reload;
    TakenIffAttempted(s, env.cfg, c, run, p);
    FallbackKeysFree(s, env.cfg, c, run, p, FindPackageRow(s.packages, p).value);
    KeyTakenByItself(s, Keyed(c, run, p));
  }

  lemma KeyTakenByItself(s: Store, req: AdapterRequest)
    requires !KeyTaken(s.attempts, req)
    ensures req.attemptId !in s.attempts
  {
  }

  /** A retry answers exactly what the call that made the attempt answered, if and only if
      the case's support level is not empty: the stored row keeps the raw level, the first
      answer replaces an empty one. */
  lemma RetryAnswersTheSame(s: Store, env: Env, c: string, run: string, p: string, draw: Draw, again: Draw)
    requires Callable(s, env, c, run, p, draw) && draw.receiptId !in s.artifacts && !HasAttempt(s, c)
    requires Drawn(env, again)
    ensures var (t, first) := Adapt(s, env, Keyed(c, run, p), draw, false);
            var (u, second) := Adapt(t, env, Keyed(c, run, p), again, false);
            && u == t
            && first.Returned? && second.Returned?
            && second.value == first.value.(supportLevel := s.cases[c].supportLevel)
            && (second == first <==> s.cases[c].supportLevel != "")
  {
    hide Keyed, Adapt, Sound, HasAttempt, Load, FallbackResult, SentResult, WithFallback, WithReceipt;
    var req := Keyed(c, run, p);
    var (t, first) := Adapt(s, env, req, draw, false);
    FirstCallMakesTheAttempt(s, env, c, run, p, draw);
    FirstCallKeeps(s, env, c, run, p, draw);
    MadeAttemptLoads(s, t, env, c, run, p, draw, first);
    LaterCallsGetTheAttempt(t, env, c, run, p, again, req.attemptId);
  }

  lemma MadeAttemptLoads(s: Store, t: Store, env: Env, c: string, run: string, p: string, draw: Draw,
                         first: Outcome<AdapterResult>)
    requires Callable(s, env, c, run, p, draw) && Sound(t, env.cfg)
    requires var req, row := Keyed(c, run, p), FindPackageRow(s.packages, p).value;
             (t, first) == if NeedsFallback(s.cases[c])
                           then (WithFallback(s, env, req, draw, row), Returned(FallbackResult(s, req)))
                           else (WithReceipt(s, env, req, draw, row), Returned(SentResult(s, req, draw)))
    ensures var id := Keyed(c, run, p).attemptId;
            && id in t.attempts && t.attempts[id].caseId == c
            && t.cases == s.cases && t.packages == s.packages
            && Load(t, id) == Returned(first.value.(supportLevel := s.cases[c].supportLevel))
            && (s.cases[c].supportLevel != "" <==> first.value.supportLevel == s.cases[c].supportLevel)
  {
    hide RequestId, SubmitKey, FallbackId, NeedsFallback, FallbackFor, ReceiptRow, TrackingId, Sound, Load;
    LoadAnswers(t, env.cfg, Keyed(c, run, p).attemptId);
  }

  lemma FirstCallKeeps(s: Store, env: Env, c: string, run: string, p: string, draw: Draw)
    requires Callable(s, env, c, run, p, draw) && draw.receiptId !in s.artifacts && !HasAttempt(s, c)
    ensures Sound(Adapt(s, env, Keyed(c, run, p), draw, false).0, env.cfg)
  {
    hide Sound, WithFallback, WithReceipt, NeedsFallback, Keyed, HasAttempt, DoWork, Adapt;
    var row := FindPackageRow(s.packages, p).value;
    FirstCallMakesTheAttempt(s, env, c, run, p, draw);
    FallbackKeeps(s, env, c, run, p, draw, row);
    SendKeeps(s, env, c, run, p, draw, row);
  }

  // ------------------------------------------------------- the adapter and the gates

  /** A case has a fallback exactly if its attempt was not submitted, and its proof is
      never confirmed. */
  lemma FallbackIffNotSubmitted(s: Store, cfg: Settings, c: string, id: string)
    requires Sound(s, cfg) && id in s.attempts && s.attempts[id].caseId == c
    ensures var f := LatestFallback(s.fallbacks, c);
            && (f.Some? <==> s.attempts[id].status != SubmittedAttempt)
            && (f.Some? ==> !f.value.proofConfirmed)
  {
    hide KeyedRow, HasReceipt, FallbackId, LatestFallback;
    var f := LatestFallback(s.fallbacks, c);
    assert Settled(s, cfg, id, s.attempts[id]);
    if f.Some? {
      var i :| 0 <= i < |s.fallbacks| && s.fallbacks[i] == f.value;
      assert FallbackOwned(s, s.fallbacks[i]);
      SameAttempt(s, cfg, id, f.value.attemptId);
    } else {
      assert forall i | 0 <= i < |s.fallbacks| :: s.fallbacks[i] in s.fallbacks;
    }
  }

  lemma GatesOf(s: Store, cfg: Settings, req: TransitionRequest, pick: nat, id: string)
    requires Sound(s, cfg) && id in s.attempts && s.attempts[id].caseId == req.caseId
    requires req.caseId in s.cases && s.cases[req.caseId].caseState == DocumentComplete == req.fromState
    ensures req.toState == Submitted
            ==> (Decide(s, req, pick).Applied? <==> s.attempts[id].status == SubmittedAttempt)
    ensures req.toState == ManualSubmissionRequired
            ==> (Decide(s, req, pick).Applied? <==> s.attempts[id].status != SubmittedAttempt)
  {
    hide Sound, LatestFallback;
    FallbackIffNotSubmitted(s, cfg, req.caseId, id);
  }

  /** What a call answers is the attempt of its case, as it is stored. */
  lemma AnswerIsTheAttempt(s: Store, env: Env, c: string, run: string, p: string, draw: Draw)
    requires Callable(s, env, c, run, p, draw) && draw.receiptId !in s.artifacts
    ensures var (t, o) := Adapt(s, env, Keyed(c, run, p), draw, false);
            && Sound(t, env.cfg)
            && o.Returned? && o.value.attemptId in t.attempts && t.attempts[o.value.attemptId].caseId == c
            && (o.value.outcome == Success <==> t.attempts[o.value.attemptId].status == SubmittedAttempt)
  {
    hide Keyed, Adapt, Sound, Load, WithFallback, WithReceipt, NeedsFallback, HasAttempt, KeyedRow;
    if id :| id in s.attempts && s.attempts[id].caseId == c {
      LaterCallsGetTheAttempt(s, env, c, run, p, draw, id);
      LoadAnswers(s, env.cfg, id);
      SettledOutcome(s, env.cfg, id);
    } else {
      NoAttempt(s, c);
      FirstCallMakesTheAttempt(s, env, c, run, p, draw);
      FirstCallKeeps(s, env, c, run, p, draw);
      FirstOutcome(s, env, c, run, p, draw);
    }
  }

  lemma NoAttempt(s: Store, c: string)
    requires forall id | id in s.attempts :: s.attempts[id].caseId != c
    ensures !HasAttempt(s, c)
  {
  }

  lemma SettledOutcome(s: Store, cfg: Settings, id: string)
    requires Sound(s, cfg) && id in s.attempts
    ensures s.attempts[id].outcome == Some(Success) <==> s.attempts[id].status == SubmittedAttempt
  {
    assert Settled(s, cfg, id, s.attempts[id]);
  }

  lemma FirstOutcome(s: Store, env: Env, c: string, run: string, p: string, draw: Draw)
    requires Callable(s, env, c, run, p, draw)
    ensures var req, row := Keyed(c, run, p), FindPackageRow(s.packages, p).value;
            var a, b := WithFallback(s, env, req, draw, row), WithReceipt(s, env, req, draw, row);
            && FallbackResult(s, req).attemptId == SentResult(s, req, draw).attemptId == req.attemptId
            && req.attemptId in a.attempts && a.attempts[req.attemptId].caseId == c
            && req.attemptId in b.attempts && b.attempts[req.attemptId].caseId == c
            && a.attempts[req.attemptId].status == ManualFallback && FallbackResult(s, req).outcome == UnsupportedWorkflow
            && b.attempts[req.attemptId].status == SubmittedAttempt && SentResult(s, req, draw).outcome == Success
  {
    hide RequestId, SubmitKey, FallbackId, FallbackFor, ReceiptRow, TrackingId, Sound;
  }

  /** Adapter and guard agree, in every later database: after a call has answered, a case
      at DOCUMENT_COMPLETE may move to SUBMITTED if and only if the answer was SUCCESS, and
      to MANUAL_SUBMISSION_REQUIRED if and only if it was not. */
  lemma AdapterAgreesWithGates(s: Store, env: Env, c: string, run: string, p: string, draw: Draw,
                               steps: seq<Step>, req: TransitionRequest, pick: nat)
    requires Callable(s, env, c, run, p, draw) && draw.receiptId !in s.artifacts
    requires Legal(Adapt(s, env, Keyed(c, run, p), draw, false).0, env, steps)
    requires var u := Run(Adapt(s, env, Keyed(c, run, p), draw, false).0, env, steps);
             c in u.cases && u.cases[c].caseState == DocumentComplete
    requires req.caseId == c && req.fromState == DocumentComplete
    ensures var (t, o) := Adapt(s, env, Keyed(c, run, p), draw, false);
            var u := Run(t, env, steps);
            && o.Returned?
            && (req.toState == Submitted ==> (Decide(u, req, pick).Applied? <==> o.value.outcome == Success))
            && (req.toState == ManualSubmissionRequired
                ==> (Decide(u, req, pick).Applied? <==> o.value.outcome != Success))
  {
    hide Keyed, Adapt, Sound, Decide;
    AnswerIsTheAttempt(s, env, c, run, p, draw);
    var (t, o) := Adapt(s, env, Keyed(c, run, p), draw, false);
    RunKeeps(t, env, steps);
    SubmittedIsAbsorbing(t, env, steps, o.value.attemptId);
    GatesOf(Run(t, env, steps), env.cfg, req, pick, o.value.attemptId);
  }

  /** Calling again answers the same outcome and changes nothing, whatever it draws. */
  lemma CallIsRepeatable(s: Store, env: Env, c: string, run: string, p: string, draw: Draw, again: Draw)
    requires Callable(s, env, c, run, p, draw) && draw.receiptId !in s.artifacts && Drawn(env, again)
    ensures var (t, o) := Adapt(s, env, Keyed(c, run, p), draw, false);
            var (u, o') := Adapt(t, env, Keyed(c, run, p), again, false);
            u == t && o.Returned? && o'.Returned? && o'.value.outcome == o.value.outcome
  {
    hide Keyed, Adapt, Sound, Load, HasAttempt;
    if id :| id in s.attempts && s.attempts[id].caseId == c {
      LaterCallsGetTheAttempt(s, env, c, run, p, draw, id);
      LaterCallsGetTheAttempt(s, env, c, run, p, again, id);
    } else {
      NoAttempt(s, c);
      RetryAnswersTheSame(s, env, c, run, p, draw, again);
    }
  }

  /** A retry that fails before its first read, while the error handler still reaches the
      database, leaves the case's attempt as it was exactly if it was submitted; a manual
      fallback is turned into a failure, with its package still stored. */
  lemma BrokenRetry(s: Store, env: Env, c: string, run: string, p: string, draw: Draw)
    requires Sound(s, env.cfg) && Drawn(env, draw) && Keyed(c, run, p).attemptId in s.attempts
    requires s.attempts[Keyed(c, run, p).attemptId].status != FailedAttempt
    ensures var id := Keyed(c, run, p).attemptId;
            var (t, o) := Adapt(s, env, Keyed(c, run, p), draw, true);
            && o == Raised(StorageError) && id in t.attempts
            && (t.attempts[id] == s.attempts[id] <==> s.attempts[id].status == SubmittedAttempt)
            && (s.attempts[id].status != SubmittedAttempt ==>
                  t.attempts[id].status == FailedAttempt && FallbackRecorded(t, id, t.attempts[id]))
  {
    hide Keyed, KeyedRow, OneAttemptPerCase, FallbackRecorded, HasReceipt;
    var id := Keyed(c, run, p).attemptId;
    var t := MarkFailed(s, Keyed(c, run, p));
    FailKeeps(s, env.cfg, Keyed(c, run, p));
    assert Settled(t, env.cfg, id, t.attempts[id]);
  }
}
