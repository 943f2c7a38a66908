/** Activities whose worker dies, at any point before or after the commit, and which are
    retried until one attempt answers. */
module Retries {
  import opened Contracts
  import opened Tables
  import opened Registry
  import opened Transitions
  import opened Activities
  import Evidence
  import Packages
  import PackageHistories
  import Submission
  import SubmissionHistories

  // --------------------------------------------------- rows, and the content behind them

  predicate SameContent(m: map<ObjectName, Content>, n: map<ObjectName, Content>, name: ObjectName) {
    (name in m <==> name in n) && (name in m ==> m[name] == n[name])
  }

  /** The same rows, and the same content behind every evidence row; the object stores may
      differ in content no row points at. */
  ghost predicate Alike(s: Store, t: Store, cfg: Settings) {
    && t == s.(objects := t.objects)
    && forall id | id in s.artifacts && ValidEvidenceId(id) :: SameContent(s.objects, t.objects, Name(cfg, id))
  }

  lemma AlikeTransitive(s: Store, t: Store, u: Store, cfg: Settings)
    requires Alike(s, t, cfg) && Alike(t, u, cfg)
    ensures Alike(s, u, cfg)
  {
    hide ValidEvidenceId, Name;
  }

  /** Stores that agree on a name, or uploads that write it, agree on it afterwards. */
  lemma {:induction false} UploadsAgree(cfg: Settings, m: map<ObjectName, Content>, n: map<ObjectName, Content>, log: Log,
                                        name: ObjectName)
    requires forall e | e in log :: ValidEvidenceId(e.0)
    requires SameContent(m, n, name) || exists e :: e in log && Name(cfg, e.0) == name
    ensures SameContent(Objects(cfg, m, log), Objects(cfg, n, log), name)
  {
    hide ValidEvidenceId, Name;
    if log != [] {
      var k := |log| - 1;
      assert log == log[..k] + [log[k]];
      if Name(cfg, log[k].0) != name { UploadsAgree(cfg, m, n, log[..k], name); }
    }
  }

  lemma {:induction false} UploadsElsewhere(cfg: Settings, m: map<ObjectName, Content>, log: Log, name: ObjectName)
    requires forall e | e in log :: ValidEvidenceId(e.0) && Name(cfg, e.0) != name
    ensures SameContent(m, Objects(cfg, m, log), name)
  {
    hide ValidEvidenceId, Name;
    if log != [] { UploadsElsewhere(cfg, m, log[..|log| - 1], name); }
  }

  // ------------------------------------------------------------- what is registered when

  predicate Generates(s: Store, env: Packages.Env, req: Packages.PackageRequest) {
    env.compile(req.caseId).documents != [] && Packages.FindPackage(s.packages, req.caseId, req.requestId).None?
  }

  ghost predicate Sends(s: Store, req: Submission.AdapterRequest) {
    && req.caseId in s.cases && Submission.FindPackageRow(s.packages, req.packageId).Some?
    && !Submission.KeyTaken(s.attempts, req) && !Submission.NeedsFallback(s.cases[req.caseId])
  }

  function Documents(s: Store, env: Packages.Env, req: Packages.PackageRequest, draw: Packages.Draw): (log: Log)
    requires Packages.Drawn(env, req, draw)
    ensures forall e | e in log :: ValidEvidenceId(e.0)
  {
    if Generates(s, env, req) then Packages.Uploads(env, req, draw) else []
  }

  ghost function Receipts(s: Store, env: Submission.Env, req: Submission.AdapterRequest, draw: Submission.Draw): (log: Log)
    requires Submission.Drawn(env, draw)
    ensures forall e | e in log :: ValidEvidenceId(e.0)
  {
    if Sends(s, req) then [(draw.receiptId, Submission.ReceiptText(req))] else []
  }

  /** What one execution of an activity uploads, in order, before its transaction commits. */
  ghost function Registrations(s: Store, x: Surroundings, a: Activity, d: Draws): (log: Log)
    requires Fits(x, a, d)
    ensures forall e | e in log :: ValidEvidenceId(e.0)
  {
    match a
    case PersistPackage(req) => Documents(s, PackageEnv(x), req, d.package)
    case Adapt(c, run, p) => Receipts(s, SubmissionEnv(x), SubmissionHistories.Keyed(c, run, p), d.submission)
    case _ => []
  }

  // -------------------------------------------------- activities do not read the objects

  lemma OneUpload(cfg: Settings, m: map<ObjectName, Content>, id: string, content: Content)
    ensures Objects(cfg, m, []) == m
    ensures ValidEvidenceId(id) ==> Objects(cfg, m, [(id, content)]) == m[Name(cfg, id) := content]
  {
    hide ValidEvidenceId, Name;
    assert [(id, content)][..0] == [];
  }

  lemma WriteBlind(s: Store, m: map<ObjectName, Content>, env: Packages.Env, req: Packages.PackageRequest, draw: Packages.Draw)
    requires Packages.Drawn(env, req, draw)
    ensures var (t, o) := Packages.Write(s, env, req, draw);
            t.objects == s.objects && Packages.Write(s.(objects := m), env, req, draw) == (t.(objects := m), o)
  {
    hide Packages.FindPackage, Packages.HasPackageId, Packages.NoCollision, Packages.ArtifactsWith,
      Packages.DocumentRows, Packages.PackageFor, Packages.Repointed, Packages.Drawn;
  }

  lemma PersistBlind(s: Store, m: map<ObjectName, Content>, env: Packages.Env, req: Packages.PackageRequest, draw: Packages.Draw)
    requires Packages.Drawn(env, req, draw)
    ensures var (t, o) := Packages.Persist(s, env, req, draw);
            Packages.Persist(s.(objects := m), env, req, draw)
            == (t.(objects := Objects(env.cfg, m, Documents(s, env, req, draw))), o)
  {
    OneUpload(env.cfg, m, "", "");
    hide Packages.Uploads, Objects, Packages.FindPackage, Packages.Write, Packages.Drawn;
    if Generates(s, env, req) {
      var log := Packages.Uploads(env, req, draw);
      var u := s.(objects := Objects(env.cfg, s.objects, log));
      WriteBlind(u, Objects(env.cfg, m, log), env, req, draw);
      assert Packages.Uploaded(s.(objects := m), env, req, draw) == u.(objects := Objects(env.cfg, m, log));
    }
  }

  lemma LoadBlind(s: Store, m: map<ObjectName, Content>, id: string)
    requires id in s.attempts
    ensures Submission.Load(s.(objects := m), id) == Submission.Load(s, id)
  {
  }

  lemma ReloadBlind(s: Store, m: map<ObjectName, Content>, req: Submission.AdapterRequest)
    ensures Submission.Reload(s.(objects := m), req) == Submission.Reload(s, req)
  {
    hide Submission.Matches, Submission.Load;
    forall id | id in s.attempts ensures Submission.Load(s.(objects := m), id) == Submission.Load(s, id) {
      LoadBlind(s, m, id);
    }
  }

  lemma RowsBlind(s: Store, m: map<ObjectName, Content>, env: Submission.Env, req: Submission.AdapterRequest,
                  draw: Submission.Draw, row: PackageRow)
    requires Submission.Drawn(env, draw) && req.caseId in s.cases
    ensures Submission.WithFallback(s.(objects := m), env, req, draw, row)
            == Submission.WithFallback(s, env, req, draw, row).(objects := m)
    ensures Submission.WithReceipt(s.(objects := m), env, req, draw, row)
            == Submission.WithReceipt(s, env, req, draw, row)
                 .(objects := m[Name(env.cfg, draw.receiptId) := Submission.ReceiptText(req)])
    ensures Submission.FallbackResult(s.(objects := m), req) == Submission.FallbackResult(s, req)
    ensures Submission.SentResult(s.(objects := m), req, draw) == Submission.SentResult(s, req, draw)
  {
    hide ValidEvidenceId, Name, Submission.ReceiptText, Submission.ReceiptRow, Submission.SupportLevel, Submission.Sources;
  }

  lemma WorkBlind(s: Store, m: map<ObjectName, Content>, env: Submission.Env, req: Submission.AdapterRequest,
                  draw: Submission.Draw)
    requires Submission.Drawn(env, draw)
    ensures var (t, o) := Submission.DoWork(s, env, req, draw);
            Submission.DoWork(s.(objects := m), env, req, draw)
            == (t.(objects := Objects(env.cfg, m, Receipts(s, env, req, draw))), o)
  {
    OneUpload(env.cfg, m, draw.receiptId, Submission.ReceiptText(req));
    hide Objects, Submission.FindPackageRow, Submission.KeyTaken, Submission.FallbackKeyTaken, Submission.NeedsFallback,
      Submission.ReceiptText, ValidEvidenceId, Name, Submission.WithFallback, Submission.WithReceipt,
      Submission.FallbackResult, Submission.SentResult;
    var p := Submission.FindPackageRow(s.packages, req.packageId);
    if req.caseId in s.cases && p.Some? { RowsBlind(s, m, env, req, draw, p.value); }
  }

  lemma HandledBlind(s: Store, m: map<ObjectName, Content>, req: Submission.AdapterRequest, o: Outcome<Submission.AdapterResult>)
    ensures var (t, p) := Submission.Handled(s, req, o);
            p == o && Submission.Handled(s.(objects := m), req, o) == (t.(objects := m), o)
  {
    hide Submission.Marked;
  }

  lemma MadeSendsNothing(s: Store, env: Submission.Env, req: Submission.AdapterRequest, draw: Submission.Draw)
    requires Submission.Drawn(env, draw) && Submission.KeyTaken(s.attempts, req)
    ensures Receipts(s, env, req, draw) == []
  {
  }

  lemma FirstAdaptBlind(s: Store, m: map<ObjectName, Content>, env: Submission.Env, req: Submission.AdapterRequest,
                        draw: Submission.Draw)
    requires Submission.Drawn(env, draw) && req.attemptId !in s.attempts
    ensures var (t, o) := Submission.Adapt(s, env, req, draw, false);
            Submission.Adapt(s.(objects := m), env, req, draw, false)
            == (t.(objects := Objects(env.cfg, m, Receipts(s, env, req, draw))), o)
  {
    hide Submission.DoWork, Submission.Reload, Submission.Handled, Objects, Receipts, Submission.Drawn;
    var n := Objects(env.cfg, m, Receipts(s, env, req, draw));
    WorkBlind(s, m, env, req, draw);
    var (t, work) := Submission.DoWork(s, env, req, draw);
    if work.Committed? {
      assert Submission.Adapt(s, env, req, draw, false) == (t, Returned(work.result));
    } else {
      var o := if work.Absent? then Raised(LookupError) else Submission.Reload(t, req);
      ReloadBlind(t, n, req);
      HandledBlind(t, n, req, o);
      assert Submission.DoWork(s.(objects := m), env, req, draw) == (t.(objects := n), work);
      assert Submission.Adapt(s.(objects := m), env, req, draw, false) == Submission.Handled(t.(objects := n), req, o);
    }
  }

  lemma AdaptBlind(s: Store, m: map<ObjectName, Content>, env: Submission.Env, req: Submission.AdapterRequest,
                   draw: Submission.Draw)
    requires Submission.Drawn(env, draw)
    ensures var (t, o) := Submission.Adapt(s, env, req, draw, false);
            Submission.Adapt(s.(objects := m), env, req, draw, false)
            == (t.(objects := Objects(env.cfg, m, Receipts(s, env, req, draw))), o)
  {
    OneUpload(env.cfg, m, draw.receiptId, "");
    hide Submission.DoWork, Submission.Reload, Submission.Load, Submission.Handled, Objects, Receipts, Submission.Drawn;
    if req.attemptId in s.attempts {
      MadeSendsNothing(s, env, req, draw);
      LoadBlind(s, m, req.attemptId);
      HandledBlind(s, m, req, Submission.Load(s, req.attemptId));
    } else {
      FirstAdaptBlind(s, m, env, req, draw);
    }
  }

  lemma ApprovalBlind(s: Store, m: map<ObjectName, Content>, req: TransitionRequest)
    ensures ApprovalGate(s.(objects := m), req) == ApprovalGate(s, req)
  {
    hide Refused, Accepted;
    assert OpenBlocker(s.(objects := m), req.caseId) <==> OpenBlocker(s, req.caseId);
  }

  lemma SubmittedBlind(s: Store, m: map<ObjectName, Content>, req: TransitionRequest)
    ensures SubmittedGate(s.(objects := m), req) == SubmittedGate(s, req)
    ensures HasPackage(s.(objects := m), req.caseId) <==> HasPackage(s, req.caseId)
  {
    hide Refused, Accepted;
  }

  lemma EvidenceBlind(s: Store, m: map<ObjectName, Content>, req: TransitionRequest, pick: nat)
    ensures RequirementGate(s.(objects := m), req, pick) == RequirementGate(s, req, pick)
    ensures ComplianceGate(s.(objects := m), req) == ComplianceGate(s, req)
    ensures IncentivesGate(s.(objects := m), req) == IncentivesGate(s, req)
  {
    hide Refused, Accepted;
  }

  lemma EdgeBlind(s: Store, m: map<ObjectName, Content>, req: TransitionRequest, pick: nat)
    ensures EdgeGate(s.(objects := m), req, pick) == EdgeGate(s, req, pick)
  {
    hide Refused, Accepted, ApprovalGate, RequirementGate, ComplianceGate, IncentivesGate, SubmittedGate, HasPackage, Edge;
    ApprovalBlind(s, m, req);
    SubmittedBlind(s, m, req);
    EvidenceBlind(s, m, req, pick);
  }

  lemma TransitionBlind(s: Store, m: map<ObjectName, Content>, req: TransitionRequest, pick: nat)
    ensures var (t, o) := Transition(s, req, pick);
            Transition(s.(objects := m), req, pick) == (t.(objects := m), o)
  {
    hide EdgeGate, Recorded, FindRow, Refused, Accepted, LedgerRowFor, AuditRowFor, Transitions.Moved;
    EdgeBlind(s, m, req, pick);
  }

  lemma FactsBlind(s: Store, m: map<ObjectName, Content>, x: Surroundings, kind: FactKind, c: string)
    ensures var (t, o) := StoreFacts(s, x, kind, c);
            StoreFacts(s.(objects := m), x, kind, c) == (t.(objects := m), o)
  {
    hide Evidence.Persist;
  }

  /** An activity leaves the same rows and answers the same whatever is in the object store,
      and adds to it what it registers. */
  lemma PerformBlind(s: Store, m: map<ObjectName, Content>, x: Surroundings, a: Activity, d: Draws)
    requires Fits(x, a, d)
    ensures var (t, o) := Perform(s, x, a, d);
            Perform(s.(objects := m), x, a, d) == (t.(objects := Objects(x.cfg, m, Registrations(s, x, a, d))), o)
  {
    OneUpload(x.cfg, m, "", "");
    hide StoreFacts, Packages.Persist, Submission.Adapt, Transition, SubmissionHistories.Keyed, WithCase, Packages.Drawn,
      Submission.Drawn, Objects, Documents, Receipts;
    match a {
      case EnsureCase(c) =>
      case FetchState(c) =>
      case PersistFacts(kind, c) => FactsBlind(s, m, x, kind, c);
      case PersistPackage(req) => PersistBlind(s, m, PackageEnv(x), req, d.package);
      case Adapt(c, run, p) => AdaptBlind(s, m, SubmissionEnv(x), SubmissionHistories.Keyed(c, run, p), d.submission);
      case ApplyTransition(req) => TransitionBlind(s, m, req, d.pick);
    }
  }

  lemma PackageRows(s: Store, env: Packages.Env, req: Packages.PackageRequest, draw: Packages.Draw, id: string)
    requires Packages.Drawn(env, req, draw) && id in Packages.Persist(s, env, req, draw).0.artifacts && id !in s.artifacts
    ensures exists e :: e in Documents(s, env, req, draw) && e.0 == id
  {
    hide Packages.FindPackage, Packages.HasPackageId, Packages.NoCollision, Packages.ArtifactsWith, Packages.ManifestOf,
      Packages.DocumentRows, Packages.PackageFor, Packages.Repointed, Packages.Rendered, Objects, ValidEvidenceId;
    var log, n := Packages.Uploads(env, req, draw), |draw.artifacts|;
    Packages.KeysWith(s.artifacts, env, req, draw, n);
    if id == draw.manifestArtifact {
      assert log[n].0 == id;
    } else {
      var k :| 0 <= k < n && draw.artifacts[k] == id;
      assert log[k].0 == id;
    }
  }

  lemma WorkRows(s: Store, env: Submission.Env, req: Submission.AdapterRequest, draw: Submission.Draw)
    requires Submission.Drawn(env, draw)
    ensures var t := Submission.DoWork(s, env, req, draw).0;
            t.artifacts == s.artifacts
            || (Sends(s, req) && t.artifacts == s.artifacts[draw.receiptId := Submission.ReceiptRow(env, req, draw)])
  {
    hide Submission.KeyTaken, Submission.NeedsFallback, Submission.FindPackageRow, Submission.ReceiptText,
      Submission.ReceiptRow, Submission.FallbackKeyTaken, ValidEvidenceId;
  }

  lemma AdaptRows(s: Store, env: Submission.Env, req: Submission.AdapterRequest, draw: Submission.Draw)
    requires Submission.Drawn(env, draw)
    ensures var t := Submission.Adapt(s, env, req, draw, false).0;
            t.artifacts == s.artifacts || t.artifacts == Submission.DoWork(s, env, req, draw).0.artifacts
  {
    hide Submission.DoWork, Submission.Marked, Submission.Load, Submission.Reload, Submission.Drawn;
  }

  lemma ReceiptRows(s: Store, env: Submission.Env, req: Submission.AdapterRequest, draw: Submission.Draw, id: string)
    requires Submission.Drawn(env, draw) && id in Submission.Adapt(s, env, req, draw, false).0.artifacts && id !in s.artifacts
    ensures exists e :: e in Receipts(s, env, req, draw) && e.0 == id
  {
    hide Sends, Submission.DoWork, Submission.Adapt, Submission.ReceiptText, Submission.ReceiptRow, Submission.Drawn;
    WorkRows(s, env, req, draw);
    AdaptRows(s, env, req, draw);
    assert Receipts(s, env, req, draw)[0].0 == id;
  }

  /** A new evidence row is one whose content was registered. */
  lemma RowsAreRegistered(s: Store, x: Surroundings, a: Activity, d: Draws, id: string)
    requires Fits(x, a, d) && id in Perform(s, x, a, d).0.artifacts && id !in s.artifacts
    ensures exists e :: e in Registrations(s, x, a, d) && e.0 == id
  {
    hide StoreFacts, Packages.Persist, Submission.Adapt, Transition, SubmissionHistories.Keyed, WithCase, Packages.Drawn,
      Submission.Drawn, Documents, Receipts;
    match a {
      case PersistFacts(kind, c) => FactsKeepEvidence(s, x, kind, c);
      case PersistPackage(req) => PackageRows(s, PackageEnv(x), req, d.package, id);
      case Adapt(c, run, p) => ReceiptRows(s, SubmissionEnv(x), SubmissionHistories.Keyed(c, run, p), d.submission, id);
      case ApplyTransition(req) => TransitionKeepsEvidence(s, req, d.pick);
      case _ =>
    }
  }

  lemma FactsKeepEvidence(s: Store, x: Surroundings, kind: FactKind, c: string)
    ensures StoreFacts(s, x, kind, c).0.artifacts == s.artifacts
  {
    hide Evidence.Persist;
  }

  lemma TransitionKeepsEvidence(s: Store, req: TransitionRequest, pick: nat)
    ensures Transition(s, req, pick).0.artifacts == s.artifacts
  {
    hide Decide, Recorded, FindRow;
  }

  /** Alike stores stay alike under the same activity, and it answers the same. */
  lemma PerformAlike(s: Store, t: Store, x: Surroundings, a: Activity, d: Draws)
    requires Alike(s, t, x.cfg) && Fits(x, a, d)
    ensures Alike(Perform(s, x, a, d).0, Perform(t, x, a, d).0, x.cfg)
    ensures Perform(t, x, a, d).1 == Perform(s, x, a, d).1
  {
    hide Perform, Fits, Objects, Registrations, ValidEvidenceId, Name, SameContent;
    PerformBlind(s, s.objects, x, a, d);
    PerformBlind(s, t.objects, x, a, d);
    assert s.(objects := s.objects) == s;
    var (u, o) := Perform(s, x, a, d);
    var log := Registrations(s, x, a, d);
    forall id | id in u.artifacts && ValidEvidenceId(id)
      ensures SameContent(Objects(x.cfg, s.objects, log), Objects(x.cfg, t.objects, log), Name(x.cfg, id))
    {
      if id !in s.artifacts { RowsAreRegistered(s, x, a, d, id); }
      UploadsAgree(x.cfg, s.objects, t.objects, log, Name(x.cfg, id));
    }
  }

  // -------------------------------------------------------------- attempts that die

  /** An attempt whose worker dies: before its transaction commits, after so many of its
      uploads, or after the commit. */
  datatype Trial = Trial(draws: Draws, committed: bool, uploads: nat)

  /** What an attempt that dies before its commit leaves. */
  ghost function Stranded(s: Store, x: Surroundings, a: Activity, trial: Trial): Store
    requires Fits(x, a, trial.draws)
  {
    var log := Registrations(s, x, a, trial.draws);
    s.(objects := Objects(x.cfg, s.objects, if trial.uploads < |log| then log[..trial.uploads] else log))
  }

  ghost function Left(s: Store, x: Surroundings, a: Activity, trial: Trial): Store
    requires Fits(x, a, trial.draws)
  {
    if trial.committed then Perform(s, x, a, trial.draws).0 else Stranded(s, x, a, trial)
  }

  /** The draws of the attempt that commits first. */
  function Effective(trials: seq<Trial>, last: Draws): Draws {
    if trials == [] then last
    else if trials[0].committed then trials[0].draws
    else Effective(trials[1..], last)
  }

  ghost predicate AllSafe(s: Store, x: Surroundings, a: Activity, trials: seq<Trial>, last: Draws) {
    Safe(s, x, a, last) && forall i | 0 <= i < |trials| :: Safe(s, x, a, trials[i].draws)
  }

  /** What a schedule of attempts leaves and answers: those that die leave what they
      committed or uploaded behind, the last one answers. */
  ghost function Attempted(s: Store, x: Surroundings, a: Activity, trials: seq<Trial>, last: Draws)
    : (Store, Outcome<Value>)
    requires Fits(x, a, last) && forall i | 0 <= i < |trials| :: Fits(x, a, trials[i].draws)
    decreases |trials|
  {
    if trials == [] then Perform(s, x, a, last) else Attempted(Left(s, x, a, trials[0]), x, a, trials[1..], last)
  }

  lemma SafeFits(s: Store, x: Surroundings, a: Activity, d: Draws)
    requires Safe(s, x, a, d)
    ensures Fits(x, a, d)
  {
  }

  lemma AllFit(s: Store, x: Surroundings, a: Activity, trials: seq<Trial>, last: Draws)
    requires AllSafe(s, x, a, trials, last)
    ensures Fits(x, a, last) && forall i | 0 <= i < |trials| :: Fits(x, a, trials[i].draws)
  {
    hide Safe, Fits;
    SafeFits(s, x, a, last);
    forall i | 0 <= i < |trials| ensures Fits(x, a, trials[i].draws) { SafeFits(s, x, a, trials[i].draws); }
  }

  lemma AlikeIsElsewhere(s: Store, t: Store, cfg: Settings)
    requires Alike(s, t, cfg)
    ensures SubmissionHistories.Elsewhere(s, t, cfg)
  {
    hide ValidEvidenceId, Name;
  }

  lemma SafeAlike(s: Store, t: Store, x: Surroundings, a: Activity, d: Draws)
    requires Alike(s, t, x.cfg) && Safe(s, x, a, d)
    ensures Safe(t, x, a, d)
  {
    hide ValidEvidenceId, Name, SubmissionHistories.Sound, SameContent, Packages.NoCollision, Packages.HasPackageId,
      Submission.FindPackageRow, SubmissionHistories.Elsewhere;
    AlikeIsElsewhere(s, t, x.cfg);
    if a.Adapt? { SubmissionHistories.ElsewhereKeeps(s, t, x.cfg); }
  }

  lemma RegistrationsAreFresh(s: Store, x: Surroundings, a: Activity, d: Draws)
    requires Safe(s, x, a, d) && Fits(x, a, d)
    ensures forall e | e in Registrations(s, x, a, d) :: e.0 !in s.artifacts
  {
    hide ValidEvidenceId, SubmissionHistories.Sound, Packages.HasPackageId, Submission.FindPackageRow, Sends, Generates,
      Packages.Rendered, Packages.ManifestOf, Submission.ReceiptText, SubmissionHistories.Keyed;
  }

  lemma FreshUploadsAlike(s: Store, cfg: Settings, log: Log)
    requires forall e | e in log :: ValidEvidenceId(e.0) && e.0 !in s.artifacts
    ensures Alike(s, s.(objects := Objects(cfg, s.objects, log)), cfg)
  {
    hide ValidEvidenceId, Name, SameContent, Objects;
    forall id | id in s.artifacts && ValidEvidenceId(id)
      ensures SameContent(s.objects, Objects(cfg, s.objects, log), Name(cfg, id))
    {
      forall e | e in log ensures Name(cfg, e.0) != Name(cfg, id) {
        if Name(cfg, e.0) == Name(cfg, id) { NameInjective(cfg, e.0, id); }
      }
      UploadsElsewhere(cfg, s.objects, log, Name(cfg, id));
    }
  }

  /** Dying before the commit leaves an alike store. */
  lemma StrandedAlike(s: Store, x: Surroundings, a: Activity, trial: Trial)
    requires Safe(s, x, a, trial.draws) && Fits(x, a, trial.draws)
    ensures Alike(s, Stranded(s, x, a, trial), x.cfg)
  {
    RegistrationsAreFresh(s, x, a, trial.draws);
    hide Safe, Fits, Registrations, ValidEvidenceId, Objects, Alike;
    var log := Registrations(s, x, a, trial.draws);
    FreshUploadsAlike(s, x.cfg, if trial.uploads < |log| then log[..trial.uploads] else log);
  }

  // ------------------------------------------------------------------ crash and retry

  lemma KeyedNothingLeft(s: Store, env: Submission.Env, c: string, run: string, p: string, d: Submission.Draw, e: Submission.Draw)
    requires SubmissionHistories.Callable(s, env, c, run, p, d) && d.receiptId !in s.artifacts && Submission.Drawn(env, e)
    ensures var req := SubmissionHistories.Keyed(c, run, p);
            Receipts(Submission.Adapt(s, env, req, d, false).0, env, req, e) == []
  {
    assert SubmissionHistories.Keyed(c, run, p).caseId == c;
    hide SubmissionHistories.Keyed, Submission.Adapt, SubmissionHistories.Sound, Submission.Load, SubmissionHistories.HasAttempt,
      Receipts, Submission.WithFallback, Submission.WithReceipt, Submission.FallbackResult, Submission.SentResult;
    var req := SubmissionHistories.Keyed(c, run, p);
    SubmissionHistories.TakenIffAttempted(s, env.cfg, c, run, p);
    if SubmissionHistories.HasAttempt(s, c) {
      AttemptedLater(s, env, c, run, p, d);
      MadeSendsNothing(s, env, req, e);
    } else {
      SubmissionHistories.FirstCallMakesTheAttempt(s, env, c, run, p, d);
      MadeIsTaken(s, env, req, d, Submission.FindPackageRow(s.packages, p).value);
      MadeSendsNothing(Submission.Adapt(s, env, req, d, false).0, env, req, e);
    }
  }

  lemma AttemptedLater(s: Store, env: Submission.Env, c: string, run: string, p: string, d: Submission.Draw)
    requires SubmissionHistories.Callable(s, env, c, run, p, d) && SubmissionHistories.HasAttempt(s, c)
    ensures Submission.Adapt(s, env, SubmissionHistories.Keyed(c, run, p), d, false).0 == s
  {
    hide SubmissionHistories.Keyed, Submission.Adapt, SubmissionHistories.Sound, Submission.Load;
    var id :| id in s.attempts && s.attempts[id].caseId == c;
    SubmissionHistories.LaterCallsGetTheAttempt(s, env, c, run, p, d, id);
  }

  lemma MadeIsTaken(s: Store, env: Submission.Env, req: Submission.AdapterRequest, draw: Submission.Draw, row: PackageRow)
    requires Submission.Drawn(env, draw) && req.caseId in s.cases
    ensures Submission.KeyTaken(Submission.WithFallback(s, env, req, draw, row).attempts, req)
    ensures Submission.KeyTaken(Submission.WithReceipt(s, env, req, draw, row).attempts, req)
  {
  }

  lemma PackagedNothingLeft(s: Store, env: Packages.Env, req: Packages.PackageRequest, d: Packages.Draw, e: Packages.Draw)
    requires Packages.Drawn(env, req, d) && Packages.Drawn(env, req, e)
    requires PackageHistories.FreshDraw(s, d) && req.caseId in s.cases
    ensures Documents(Packages.Persist(s, env, req, d).0, env, req, e) == []
  {
    hide Packages.Drawn, Packages.Uploads, Objects, Packages.NoCollision, Packages.HasPackageId, Packages.DocumentRows,
      Packages.ArtifactsWith, Packages.ManifestEntry;
    if Generates(s, env, req) {
      var t := Packages.Persist(s, env, req, d).0;
      assert t.packages[|s.packages|] == Packages.PackageFor(env, req, d);
    }
  }

  /** Once an activity has committed, it uploads nothing when executed again. */
  lemma NothingLeft(s: Store, x: Surroundings, a: Activity, d: Draws, e: Draws)
    requires Safe(s, x, a, d) && Fits(x, a, d) && Fits(x, a, e)
    ensures Registrations(Perform(s, x, a, d).0, x, a, e) == []
  {
    hide StoreFacts, Packages.Persist, Submission.Adapt, Transition, SubmissionHistories.Keyed, WithCase, Packages.Drawn,
      Submission.Drawn, Documents, Receipts, PackageHistories.FreshDraw, SubmissionHistories.Callable;
    match a {
      case PersistPackage(req) => PackagedNothingLeft(s, PackageEnv(x), req, d.package, e.package);
      case Adapt(c, run, p) => KeyedNothingLeft(s, SubmissionEnv(x), c, run, p, d.submission, e.submission);
      case _ =>
    }
  }

  /** Once an attempt has committed, the ones after it change nothing. */
  lemma LeftAlone(s: Store, x: Surroundings, a: Activity, d: Draws, trial: Trial)
    requires Safe(s, x, a, d) && Fits(x, a, d) && Fits(x, a, trial.draws)
    ensures Left(Perform(s, x, a, d).0, x, a, trial) == Perform(s, x, a, d).0
  {
    hide Perform, Safe, Fits, Registrations;
    RepeatIsHarmless(s, x, a, d, trial.draws);
    NothingLeft(s, x, a, d, trial.draws);
    OneUpload(x.cfg, Perform(s, x, a, d).0.objects, "", "");
  }

  lemma {:induction false} CommittedOnce(s: Store, x: Surroundings, a: Activity, d: Draws, trials: seq<Trial>, last: Draws)
    requires Safe(s, x, a, d)
    requires Fits(x, a, last) && forall i | 0 <= i < |trials| :: Fits(x, a, trials[i].draws)
    ensures Fits(x, a, d) && Attempted(Perform(s, x, a, d).0, x, a, trials, last) == Perform(s, x, a, d)
    decreases |trials|
  {
    hide Perform, Safe, Fits, Left;
    SafeFits(s, x, a, d);
    if trials == [] {
      RepeatIsHarmless(s, x, a, d, last);
    } else {
      LeftAlone(s, x, a, d, trials[0]);
      assert forall i | 0 <= i < |trials| - 1 :: trials[1..][i] == trials[i + 1];
      CommittedOnce(s, x, a, d, trials[1..], last);
    }
  }

  lemma AllSafeAlike(s: Store, t: Store, x: Surroundings, a: Activity, trials: seq<Trial>, last: Draws)
    requires Alike(s, t, x.cfg) && AllSafe(s, x, a, trials, last)
    ensures AllSafe(t, x, a, trials, last)
  {
    hide Alike, Safe;
    SafeAlike(s, t, x, a, last);
    forall i | 0 <= i < |trials| ensures Safe(t, x, a, trials[i].draws) { SafeAlike(s, t, x, a, trials[i].draws); }
  }

  lemma EffectiveFits(x: Surroundings, a: Activity, trials: seq<Trial>, last: Draws)
    requires Fits(x, a, last) && forall i | 0 <= i < |trials| :: Fits(x, a, trials[i].draws)
    ensures Fits(x, a, Effective(trials, last))
  {
    hide Fits;
    if trials != [] && !trials[0].committed {
      assert forall i | 0 <= i < |trials| - 1 :: trials[1..][i] == trials[i + 1];
      EffectiveFits(x, a, trials[1..], last);
    }
  }

  /** However many attempts of an activity die, at whatever point before or after their
      commit, the rows left, the content behind every evidence row, and the answer are those
      of one execution; all that can be left besides are objects no row points at. */
  lemma {:induction false} RetriesCollapse(s: Store, x: Surroundings, a: Activity, trials: seq<Trial>, last: Draws)
    requires AllSafe(s, x, a, trials, last)
    ensures Fits(x, a, last) && forall i | 0 <= i < |trials| :: Fits(x, a, trials[i].draws)
    ensures Fits(x, a, Effective(trials, last))
    ensures var (t, o) := Attempted(s, x, a, trials, last);
            var (u, p) := Perform(s, x, a, Effective(trials, last));
            Alike(u, t, x.cfg) && o == p
    decreases |trials|
  {
    hide Perform, Safe, Fits, Alike, Stranded;
    AllFit(s, x, a, trials, last);
    EffectiveFits(x, a, trials, last);
    SelfAlike(Perform(s, x, a, Effective(trials, last)).0, x.cfg);
    if trials != [] {
      assert forall i | 0 <= i < |trials| - 1 :: trials[1..][i] == trials[i + 1];
      if trials[0].committed {
        CommittedOnce(s, x, a, trials[0].draws, trials[1..], last);
      } else {
        var u := Stranded(s, x, a, trials[0]);
        StrandedAlike(s, x, a, trials[0]);
        AllSafeAlike(s, u, x, a, trials, last);
        RetriesCollapse(u, x, a, trials[1..], last);
        PerformAlike(s, u, x, a, Effective(trials, last));
        AlikeTransitive(Perform(s, x, a, Effective(trials, last)).0, Perform(u, x, a, Effective(trials, last)).0,
                        Attempted(u, x, a, trials[1..], last).0, x.cfg);
      }
    }
  }

  lemma SelfAlike(s: Store, cfg: Settings)
    ensures Alike(s, s, cfg)
  {
  }

  // ---------------------------------------------------------------------- in place

  method UploadSome(db: Database, cfg: Settings, log: Log, n: nat)
    requires ValidSettings(cfg) && n <= |log| && forall e | e in log :: ValidEvidenceId(e.0)
    modifies db`objects
    ensures db.objects == Objects(cfg, old(db.objects), log[..n])
  {
    assert forall i | 0 <= i < |log| :: log[i] in log;
    for i := 0 to n
      invariant db.objects == Objects(cfg, old(db.objects), log[..i])
    {
      assert log[..i + 1][..i] == log[..i];
      var entry := Register(db, cfg, log[i].0, log[i].1);
    }
  }

  /** What an attempt would register, found out as it finds out. */
  method FindRegistrations(db: Database, x: Surroundings, a: Activity, d: Draws) returns (log: Log)
    requires Fits(x, a, d)
    ensures log == Registrations(db.Tables(), x, a, d)
    ensures log != [] ==> ValidSettings(x.cfg)
  {
    hide Packages.Uploads, Submission.KeyTaken, Submission.NeedsFallback, Submission.ReceiptText, ValidEvidenceId;
    match a {
      case PersistPackage(req) =>
        var existing := Packages.ScanForRequest(db.packages, req);
        log := if PackageEnv(x).compile(req.caseId).documents != [] && existing.None?
               then Packages.Uploads(PackageEnv(x), req, d.package) else [];
      case Adapt(c, run, p) =>
        var req := SubmissionHistories.Keyed(c, run, p);
        var taken := Submission.CheckKeys(db.attempts, req);
        log := if c in db.cases && Submission.FindPackageRow(db.packages, p).Some? && !taken
                  && !Submission.NeedsFallback(db.cases[c])
               then [(d.submission.receiptId, Submission.ReceiptText(req))] else [];
      case _ => log := [];
    }
  }

  /** An attempt whose worker dies. */
  method Die(db: Database, x: Surroundings, a: Activity, trial: Trial)
    requires Fits(x, a, trial.draws)
    modifies db
    ensures db.Tables() == Left(old(db.Tables()), x, a, trial)
  {
    hide Perform, Fits, Registrations, Objects;
    if trial.committed {
      var lost := PerformInPlace(db, x, a, trial.draws);
    } else {
      var log := FindRegistrations(db, x, a, trial.draws);
      var n := if trial.uploads < |log| then trial.uploads else |log|;
      assert n == |log| ==> log[..n] == log;
      if log == [] {
        OneUpload(x.cfg, db.objects, "", "");
      } else {
        UploadSome(db, x.cfg, log, n);
      }
    }
  }

  /** What others commit before each attempt, by how many attempts are still to die. */
  type Others = nat -> Store -> Store

  /** A schedule of attempts among the commits of others. */
  ghost function Among(s: Store, x: Surroundings, a: Activity, trials: seq<Trial>, last: Draws, others: Others)
    : (Store, Outcome<Value>)
    requires Fits(x, a, last) && forall i | 0 <= i < |trials| :: Fits(x, a, trials[i].draws)
    decreases |trials|
  {
    var u := others(|trials|)(s);
    if trials == [] then Perform(u, x, a, last) else Among(Left(u, x, a, trials[0]), x, a, trials[1..], last, others)
  }

  /** The engine retrying one attempt after another, while others commit. */
  method Execute(db: Database, x: Surroundings, a: Activity, trials: seq<Trial>, last: Draws, others: Others)
    returns (o: Outcome<Value>)
    requires Fits(x, a, last) && forall i | 0 <= i < |trials| :: Fits(x, a, trials[i].draws)
    modifies db
    ensures (db.Tables(), o) == Among(old(db.Tables()), x, a, trials, last, others)
    decreases |trials|
  {
    hide Perform, Fits, Left;
    db.Become(others(|trials|)(db.Tables()));
    if trials == [] {
      o := PerformInPlace(db, x, a, last);
    } else {
      Die(db, x, a, trials[0]);
      o := Execute(db, x, a, trials[1..], last, others);
    }
  }
}
