/** What the activities of other cases commit is outside a view: workflows of different cases
    do not disturb each other. */
module Strangers {
  import opened Contracts
  import opened Tables
  import opened Registry
  import opened RequestIds
  import opened Transitions
  import opened Activities
  import opened Retries
  import opened Views
  import opened Neighbours
  import Evidence
  import PackageHistories
  import Packages
  import Submission
  import SubmissionHistories

  // -------------------------------------------------------------- rows that are not kept

  lemma {:induction false} OnlyNone<T>(rows: seq<T>, keep: T -> bool)
    requires forall r | r in rows :: !keep(r)
    ensures Only(rows, keep) == []
  {
    if rows != [] { OnlyNone(rows[..|rows| - 1], keep); }
  }

  lemma OnlyUnchanged<T>(rows: seq<T>, more: seq<T>, keep: T -> bool)
    requires forall r | r in more :: !keep(r)
    ensures Only(rows + more, keep) == Only(rows, keep)
  {
    OnlyAppended(rows, more, keep);
    OnlyNone(more, keep);
  }

  lemma KeptUnchanged<K, V>(m: map<K, V>, k: K, x: V, keep: V -> bool)
    requires !keep(x) && (k in m ==> !keep(m[k]))
    ensures Kept(m[k := x], keep) == Kept(m, keep)
  {
  }

  lemma UnderUnchanged<K, V>(m: map<K, V>, k: K, x: V, keep: K -> bool)
    requires !keep(k)
    ensures Under(m[k := x], keep) == Under(m, keep)
  {
  }

  lemma {:induction false} ObjectsUnchanged(v: View, cfg: Settings, m: map<ObjectName, Content>, log: Log)
    requires forall e | e in log :: ValidEvidenceId(e.0) && !v.stores(Name(cfg, e.0))
    ensures Under(Objects(cfg, m, log), v.stores) == Under(m, v.stores)
  {
    hide ValidEvidenceId, Name;
    if log != [] {
      assert log[|log| - 1] in log;
      ObjectsUnchanged(v, cfg, m, log[..|log| - 1]);
    }
  }

  // ----------------------------------------------------------------- outside the view

  ghost predicate RecordsOutside(v: View, x: Surroundings, c: string) {
    && (forall r | r in x.jurisdictions(c) :: !v.mine(r.id))
    && (forall r | r in x.requirements(c) :: !v.mine(r.id))
    && (forall r | r in x.compliance(c) :: !v.mine(r.id))
    && (forall r | r in x.incentives(c) :: !v.mine(r.id))
  }

  predicate PackageOutside(v: View, d: Packages.Draw) {
    !v.mine(d.packageId) && !v.mine(d.manifestArtifact) && forall i | 0 <= i < |d.artifacts| :: !v.mine(d.artifacts[i])
  }

  ghost predicate LogOutside(v: View, cfg: Settings, log: Log) {
    forall e | e in log :: ValidEvidenceId(e.0) && !v.stores(Name(cfg, e.0))
  }

  ghost predicate AdapterOutside(v: View, env: Submission.Env, req: Submission.AdapterRequest, d: Submission.Draw) {
    && Submission.Drawn(env, d)
    && !v.owns(req.caseId) && !v.mine(req.attemptId) && !v.mine(req.requestId) && !v.mine(req.idempotencyKey)
    && !v.mine(FallbackId(req.attemptId)) && !v.mine(d.receiptId) && !v.stores(Name(env.cfg, d.receiptId))
  }

  /** The case of an activity, and every id it writes, is another's. */
  ghost predicate Outside(v: View, x: Surroundings, a: Activity, d: Draws) {
    && Fits(x, a, d)
    && match a
       case EnsureCase(c) => !v.owns(c)
       case FetchState(c) => true
       case PersistFacts(_, c) => !v.owns(c) && RecordsOutside(v, x, c)
       case PersistPackage(req) =>
         && !v.owns(req.caseId) && PackageOutside(v, d.package)
         && LogOutside(v, x.cfg, Packages.Uploads(PackageEnv(x), req, d.package))
       case Adapt(c, run, p) => AdapterOutside(v, SubmissionEnv(x), SubmissionHistories.Keyed(c, run, p), d.submission)
       case ApplyTransition(req) => !v.owns(req.caseId) && !v.mine(req.requestId)
  }

  /** Nothing in view has changed. */
  ghost predicate Unseen(v: View, s: Store, t: Store) {
    Slice(v, t) == Slice(v, s) && Separate(v, t)
  }

  lemma EnsureUnseen(v: View, s: Store, c: string)
    requires Separate(v, s) && !v.owns(c)
    ensures Unseen(v, s, s.(cases := WithCase(s.cases, c)))
  {
    hide Only, Kept, Under, FactsApart, PackagesApart, AttemptsApart, FallbacksApart;
    UnderUnchanged(s.cases, c, CaseRow(ReviewPending, "FULLY_SUPPORTED", None), v.owns);
  }

  lemma CommitUnseen(v: View, s: Store, req: TransitionRequest, r: TransitionResult)
    requires Separate(v, s) && !v.owns(req.caseId) && !v.mine(req.requestId) && req.caseId in s.cases
    ensures Unseen(v, s, Commit(s, req, r))
  {
    hide Only, Kept, Under, Dump, FactsApart, PackagesApart, AttemptsApart, FallbacksApart;
    UnderUnchanged(s.cases, req.caseId, s.cases[req.caseId].(caseState := req.toState), v.owns);
    OnlyUnchanged(s.ledger, [LedgerRowFor(req, r)], Ledger(v));
    OnlyUnchanged(s.audit, [AuditRowFor(req, r)], Audit(v));
  }

  lemma RecordsUnseen<T(!new)>(v: View, rows: seq<Fact<T>>, known: bool, c: string, records: seq<Evidence.Record<T>>,
                               reload: Evidence.Reload)
    requires FactsApart(v, rows) && !v.owns(c) && forall r | r in records :: !v.mine(r.id)
    ensures var after := Evidence.Persist(rows, known, c, records, reload).0;
            Only(after, Facts(v)) == Only(rows, Facts(v)) && FactsApart(v, after)
  {
    hide Evidence.Pending, Evidence.Selected, Evidence.DistinctIds, Evidence.Taken, Only;
    var pending := Evidence.Pending(rows, c, records);
    Evidence.PendingRows(rows, c, records);
    assert forall f | f in pending :: Evidence.Record(f.id, f.body) in records && !v.mine(Evidence.Record(f.id, f.body).id);
    OnlyUnchanged(rows, pending, Facts(v));
  }

  lemma FactsUnseen(v: View, s: Store, x: Surroundings, kind: FactKind, c: string)
    requires Separate(v, s) && !v.owns(c) && RecordsOutside(v, x, c)
    ensures Unseen(v, s, StoreFacts(s, x, kind, c).0)
  {
    hide Evidence.Persist, Only, Kept, Under, FactsApart, PackagesApart, AttemptsApart, FallbacksApart;
    var known := c in s.cases;
    RecordsUnseen(v, s.resolutions, known, c, x.jurisdictions(c), Evidence.ByCase);
    RecordsUnseen(v, s.requirements, known, c, x.requirements(c), Evidence.ByCase);
    RecordsUnseen(v, s.compliance, known, c, x.compliance(c), Evidence.ByIds);
    RecordsUnseen(v, s.incentives, known, c, x.incentives(c), Evidence.ByIds);
  }

  lemma UploadedUnseen(v: View, s: Store, cfg: Settings, log: Log)
    requires Separate(v, s) && LogOutside(v, cfg, log)
    ensures Unseen(v, s, s.(objects := Objects(cfg, s.objects, log)))
  {
    ObjectsUnchanged(v, cfg, s.objects, log);
    hide Only, Kept, Under, Objects, FactsApart, PackagesApart, AttemptsApart, FallbacksApart;
  }

  lemma {:induction false} NewArtifactsOf(artifacts: map<string, ArtifactRow>, env: Packages.Env,
                                          req: Packages.PackageRequest, d: Packages.Draw, n: nat, id: string)
    requires Packages.Drawn(env, req, d) && n <= |d.artifacts|
    ensures var after := Packages.ArtifactsWith(artifacts, env, req, d, n);
            id in after ==> after[id].caseId == req.caseId || (id in artifacts && after[id] == artifacts[id])
  {
    hide Packages.Drawn, Packages.Document, Packages.ManifestEntry;
    if n > 0 { NewArtifactsOf(artifacts, env, req, d, n - 1, id); }
  }

  lemma ArtifactsKept(v: View, artifacts: map<string, ArtifactRow>, env: Packages.Env, req: Packages.PackageRequest,
                      d: Packages.Draw)
    requires Packages.Drawn(env, req, d) && !v.owns(req.caseId) && Packages.NoCollision(artifacts, d, |d.artifacts|)
    ensures Kept(Packages.ArtifactsWith(artifacts, env, req, d, |d.artifacts|), Artifacts(v)) == Kept(artifacts, Artifacts(v))
  {
    var n := |d.artifacts|;
    var after := Packages.ArtifactsWith(artifacts, env, req, d, n);
    forall id: string
      ensures id in artifacts ==> id in after && after[id] == artifacts[id]
      ensures id in after ==> after[id].caseId == req.caseId || (id in artifacts && after[id] == artifacts[id])
    {
      PackageHistories.ArtifactsAt(artifacts, env, req, d, n, id);
      NewArtifactsOf(artifacts, env, req, d, n, id);
    }
    hide Packages.ArtifactsWith, Packages.Drawn, Packages.NoCollision;
  }

  lemma {:induction false} ArtifactsOutside(v: View, artifacts: map<string, ArtifactRow>, env: Packages.Env,
                                            req: Packages.PackageRequest, d: Packages.Draw, n: nat, id: string)
    requires Packages.Drawn(env, req, d) && n <= |d.artifacts| && PackageOutside(v, d)
    requires id in artifacts && !v.owns(artifacts[id].caseId) ==> !v.mine(id)
    ensures var after := Packages.ArtifactsWith(artifacts, env, req, d, n);
            id in after && !v.owns(after[id].caseId) ==> !v.mine(id)
  {
    hide Packages.Drawn, Packages.Document, Packages.ManifestEntry;
    if n > 0 { ArtifactsOutside(v, artifacts, env, req, d, n - 1, id); }
  }

  lemma WrittenUnseen(v: View, s: Store, env: Packages.Env, req: Packages.PackageRequest, d: Packages.Draw)
    requires Separate(v, s) && Packages.Drawn(env, req, d) && !v.owns(req.caseId) && req.caseId in s.cases
    requires PackageOutside(v, d) && Packages.NoCollision(s.artifacts, d, |d.artifacts|)
    ensures Unseen(v, s, Packages.Written(s, env, req, d))
  {
    hide Only, Kept, Under, Packages.Drawn, Packages.ArtifactsWith, Packages.ManifestEntry, Packages.Document,
      Packages.NoCollision, FactsApart, AttemptsApart, FallbacksApart;
    var n := |d.artifacts|;
    var row, rows := Packages.PackageFor(env, req, d), Packages.DocumentRows(env, req, d, n);
    ArtifactsKept(v, s.artifacts, env, req, d);
    forall id: string
      ensures var after := Packages.ArtifactsWith(s.artifacts, env, req, d, n);
              id in after && !v.owns(after[id].caseId) ==> !v.mine(id)
    {
      ArtifactsOutside(v, s.artifacts, env, req, d, n, id);
    }
    OnlyUnchanged(s.packages, [row], Parcels(v));
    forall r | r in rows ensures !Views.Documents(v)(r) {
      var i :| 0 <= i < n && rows[i] == r;
    }
    OnlyUnchanged(s.documents, rows, Views.Documents(v));
    UnderUnchanged(s.cases, req.caseId, Packages.Repointed(s.cases[req.caseId], d.packageId), v.owns);
  }

  lemma UnseenTwice(v: View, s: Store, t: Store, u: Store)
    requires Unseen(v, s, t) && Unseen(v, t, u)
    ensures Unseen(v, s, u)
  {
    hide Slice, Separate;
  }

  lemma PackageUnseen(v: View, s: Store, env: Packages.Env, req: Packages.PackageRequest, d: Packages.Draw)
    requires Separate(v, s) && Packages.Drawn(env, req, d) && !v.owns(req.caseId) && PackageOutside(v, d)
    requires LogOutside(v, env.cfg, Packages.Uploads(env, req, d))
    ensures Unseen(v, s, Packages.Persist(s, env, req, d).0)
  {
    hide Slice, Separate, Packages.Drawn, Packages.FindPackage, Packages.HasPackageId, Packages.NoCollision,
      Packages.Written, Packages.Uploads, Objects, PackageOutside, LogOutside;
    var u := Packages.Uploaded(s, env, req, d);
    UploadedUnseen(v, s, env.cfg, Packages.Uploads(env, req, d));
    if req.caseId in u.cases && Packages.NoCollision(u.artifacts, d, |d.artifacts|) {
      WrittenUnseen(v, u, env, req, d);
      UnseenTwice(v, s, u, Packages.Written(u, env, req, d));
    }
  }

  lemma FallbackSliced(v: View, s: Store, env: Submission.Env, req: Submission.AdapterRequest, d: Submission.Draw, p: PackageRow)
    requires !v.owns(req.caseId) && req.caseId in s.cases && req.attemptId !in s.attempts
    ensures Slice(v, Submission.WithFallback(s, env, req, d, p)) == Slice(v, s)
  {
    var row, f := Submission.Fallen(Submission.PendingRow(s, req, p)), Submission.FallbackFor(s, env, req, p, d.now);
    assert row.caseId == req.caseId && f.caseId == req.caseId;
    hide Only, Under, Kept, Submission.FallbackFor, Submission.PendingRow, Submission.Fallen;
    KeptUnchanged(s.attempts, req.attemptId, row, Attempts(v));
    OnlyUnchanged(s.fallbacks, [f], Fallbacks(v));
  }

  lemma FallbackUnseen(v: View, s: Store, env: Submission.Env, req: Submission.AdapterRequest, d: Submission.Draw, p: PackageRow)
    requires Separate(v, s) && AdapterOutside(v, env, req, d) && req.caseId in s.cases && req.attemptId !in s.attempts
    ensures Unseen(v, s, Submission.WithFallback(s, env, req, d, p))
  {
    FallbackSliced(v, s, env, req, d, p);
    hide Slice, FactsApart, PackagesApart, Submission.Attachments, Submission.Sources, Submission.SupportLevel, FallbackId,
      ValidEvidenceId, Name;
  }

  lemma ReceiptUploadUnseen(v: View, s: Store, env: Submission.Env, req: Submission.AdapterRequest, d: Submission.Draw)
    requires Separate(v, s) && AdapterOutside(v, env, req, d)
    ensures Unseen(v, s, Submission.Uploaded(s, env, req, d))
  {
    hide Only, Kept, Under, Submission.ReceiptText, ValidEvidenceId, Name, FactsApart, PackagesApart, AttemptsApart,
      FallbacksApart, FallbackId;
    UnderUnchanged(s.objects, Name(env.cfg, d.receiptId), Submission.ReceiptText(req), v.stores);
  }

  lemma ReceiptSliced(v: View, s: Store, env: Submission.Env, req: Submission.AdapterRequest, d: Submission.Draw, p: PackageRow)
    requires Submission.Drawn(env, d) && !v.owns(req.caseId) && req.caseId in s.cases
    requires req.attemptId !in s.attempts && d.receiptId !in s.artifacts
    ensures Slice(v, Submission.WithReceipt(s, env, req, d, p)) == Slice(v, Submission.Uploaded(s, env, req, d))
  {
    var row, r := Submission.Sent(Submission.PendingRow(s, req, p), req, d), Submission.ReceiptRow(env, req, d);
    assert row.caseId == req.caseId && r.caseId == req.caseId;
    hide Only, Under, Kept, Submission.PendingRow, Submission.Sent, Submission.ReceiptRow, Submission.ReceiptText, Name,
      ValidEvidenceId;
    KeptUnchanged(s.attempts, req.attemptId, row, Attempts(v));
    KeptUnchanged(s.artifacts, d.receiptId, r, Artifacts(v));
  }

  lemma ReceiptUnseen(v: View, s: Store, env: Submission.Env, req: Submission.AdapterRequest, d: Submission.Draw, p: PackageRow)
    requires Separate(v, s) && AdapterOutside(v, env, req, d) && req.caseId in s.cases
    requires req.attemptId !in s.attempts && d.receiptId !in s.artifacts
    ensures Unseen(v, s, Submission.WithReceipt(s, env, req, d, p))
  {
    ReceiptUploadUnseen(v, s, env, req, d);
    ReceiptSliced(v, s, env, req, d, p);
    hide Slice, FactsApart, PackagesApart, FallbacksApart, Submission.SupportLevel, Submission.ReceiptText,
      Submission.TrackingId, FallbackId, ValidEvidenceId, Name;
  }

  lemma FreeKey(s: Store, req: Submission.AdapterRequest)
    ensures !Submission.KeyTaken(s.attempts, req) ==> req.attemptId !in s.attempts
  {
  }

  lemma WorkUnseen(v: View, s: Store, env: Submission.Env, req: Submission.AdapterRequest, d: Submission.Draw)
    requires Separate(v, s) && AdapterOutside(v, env, req, d)
    ensures Unseen(v, s, Submission.DoWork(s, env, req, d).0)
  {
    FreeKey(s, req);
    hide Slice, Separate, AdapterOutside, Submission.FindPackageRow, Submission.KeyTaken, Submission.FallbackKeyTaken,
      Submission.NeedsFallback, Submission.WithFallback, Submission.WithReceipt, Submission.Uploaded, FallbackId,
      Submission.FallbackResult, Submission.SentResult;
    var found := Submission.FindPackageRow(s.packages, req.packageId);
    ReceiptUploadUnseen(v, s, env, req, d);
    if req.caseId in s.cases && found.Some? && req.attemptId !in s.attempts {
      FallbackUnseen(v, s, env, req, d, found.value);
      if d.receiptId !in s.artifacts { ReceiptUnseen(v, s, env, req, d, found.value); }
    }
  }

  lemma HandledUnseen(v: View, s: Store, req: Submission.AdapterRequest, o: Outcome<Submission.AdapterResult>)
    requires Separate(v, s) && !v.mine(req.attemptId)
    ensures Unseen(v, s, Submission.Handled(s, req, o).0)
  {
    hide Only, Under, Kept, FactsApart, PackagesApart, FallbacksApart;
    if req.attemptId in s.attempts {
      KeptUnchanged(s.attempts, req.attemptId, Submission.Broken(s.attempts[req.attemptId]), Attempts(v));
    }
  }

  lemma AdaptUnseen(v: View, s: Store, env: Submission.Env, req: Submission.AdapterRequest, d: Submission.Draw)
    requires Separate(v, s) && AdapterOutside(v, env, req, d)
    ensures Unseen(v, s, Submission.Adapt(s, env, req, d, false).0)
  {
    WorkUnseen(v, s, env, req, d);
    hide Slice, Separate, Submission.DoWork, Submission.Reload, Submission.Load, Submission.Handled, FallbackId,
      ValidEvidenceId, Name;
    if req.attemptId in s.attempts {
      HandledUnseen(v, s, req, Submission.Load(s, req.attemptId));
    } else {
      var (t, work) := Submission.DoWork(s, env, req, d);
      if !work.Committed? {
        var o := if work.Absent? then Raised(LookupError) else Submission.Reload(t, req);
        HandledUnseen(v, t, req, o);
        UnseenTwice(v, s, t, Submission.Handled(t, req, o).0);
      }
    }
  }

  // -------------------------------------------------------------- activities of others

  lemma PerformUnseen(v: View, s: Store, x: Surroundings, a: Activity, d: Draws)
    requires Separate(v, s) && Outside(v, x, a, d)
    ensures Unseen(v, s, Perform(s, x, a, d).0)
  {
    hide Slice, Separate, StoreFacts, Packages.Persist, Submission.Adapt, SubmissionHistories.Keyed, WithCase, Decide, Commit,
      FindRow, PackageOutside, AdapterOutside, RecordsOutside, LogOutside, Packages.Drawn, Submission.Drawn;
    match a {
      case EnsureCase(c) => EnsureUnseen(v, s, c);
      case FetchState(c) =>
      case PersistFacts(kind, c) => FactsUnseen(v, s, x, kind, c);
      case PersistPackage(req) => PackageUnseen(v, s, PackageEnv(x), req, d.package);
      case Adapt(c, run, p) => AdaptUnseen(v, s, SubmissionEnv(x), SubmissionHistories.Keyed(c, run, p), d.submission);
      case ApplyTransition(req) =>
        if req.caseId in s.cases { CommitUnseen(v, s, req, Decide(s, req, d.pick)); }
    }
  }

  lemma RegistrationsOutside(v: View, s: Store, x: Surroundings, a: Activity, d: Draws)
    requires Outside(v, x, a, d)
    ensures LogOutside(v, x.cfg, Registrations(s, x, a, d))
  {
    hide SubmissionHistories.Keyed, PackageOutside, RecordsOutside, Packages.Drawn, Packages.Uploads, ValidEvidenceId, Name,
      Submission.ReceiptText, Sends, Generates, FallbackId;
  }

  /** Whatever an activity of another case commits, or leaves when its worker dies, nothing
      in view changes: what the workflows of other cases do is foreign in the sense that a
      run is proved undisturbed by. */
  lemma NeighboursAreForeign(v: View, x: Surroundings, a: Activity, trial: Trial)
    requires Outside(v, x, a, trial.draws)
    ensures Foreign(v, (s: Store) => Left(s, x, a, trial))
  {
    hide Slice, Separate, Perform, Registrations, Objects;
    forall s | Separate(v, s) ensures Unseen(v, s, Left(s, x, a, trial)) {
      if trial.committed {
        PerformUnseen(v, s, x, a, trial.draws);
      } else {
        RegistrationsOutside(v, s, x, a, trial.draws);
        var log := Registrations(s, x, a, trial.draws);
        UploadedUnseen(v, s, x.cfg, if trial.uploads < |log| then log[..trial.uploads] else log);
      }
    }
  }

  /** Commits of others one after another are commits of others. */
  lemma ForeignInTurn(v: View, f: Store -> Store, g: Store -> Store)
    requires Foreign(v, f) && Foreign(v, g)
    ensures Foreign(v, (s: Store) => g(f(s)))
  {
    hide Slice, Separate;
    forall s | Separate(v, s) ensures Unseen(v, s, g(f(s))) {
      assert Unseen(v, s, f(s)) && Unseen(v, f(s), g(f(s)));
    }
  }
}
