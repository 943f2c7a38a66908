/** The modelled writers as steps of the transition protocol: what they commit is what the
    protocol allows beside its attempts, so its theorems hold of databases they write. */
module ProtocolWriters {
  import opened Contracts
  import opened Tables
  import opened Transitions
  import opened Protocol
  import opened Interleavings
  import Activities
  import Evidence
  import Independence
  import Packages
  import PackageHistories
  import Registry
  import Retries
  import Submission
  import SubmissionHistories

  // ---------------------------------------------------------- commits that only accrue

  lemma AuditUntouched(audit: seq<AuditRow>, row: AuditRow)
    requires !row.detail.TransitionDetail?
    ensures TransitionAudits(audit + [row]) == TransitionAudits(audit)
  {
    assert (audit + [row])[..|audit|] == audit;
  }

  lemma NothingAccrues(s: Store)
    ensures Accrues(s, s)
  {
  }

  lemma PostedAccrues(s: Store, review: ReviewRow, row: AuditRow)
    requires TransitionAudits(s.audit + [row]) == TransitionAudits(s.audit)
    ensures Accrues(s, s.(reviews := s.reviews + [review], audit := s.audit + [row]))
  {
    hide TransitionAudits;
  }

  /** A posted review decision adds its row, and no transition audit event. */
  lemma ReviewPostAccrues(s: Store, req: Independence.ReviewRequest, now: int)
    ensures Accrues(s, Independence.Post(s, req, now).0)
  {
    AuditUntouched(s.audit, Independence.AuditFor(req, now));
    PostedAccrues(s, Independence.RowFor(req, Independence.Check(s.reviews, req, now).1, now), Independence.AuditFor(req, now));
    hide Independence.Check, Independence.FindKey, FindReview, Independence.RowFor, Independence.AuditFor, TransitionAudits, Accrues;
    NothingAccrues(s);
  }

  /** A persist loop adds evidence rows of one kind. */
  lemma FactsAccrue(s: Store, x: Activities.Surroundings, kind: Activities.FactKind, c: string)
    ensures Accrues(s, Activities.StoreFacts(s, x, kind, c).0)
  {
    hide Evidence.Pending, Evidence.DistinctIds, Evidence.Selected, Evidence.IdsOf;
  }

  lemma ObjectsAccrue(s: Store, objects: map<ObjectName, Content>)
    ensures Accrues(s, s.(objects := objects))
  {
  }

  lemma AttemptsAccrue(s: Store, attempts: map<string, AttemptRow>)
    ensures Accrues(s, s.(attempts := attempts))
  {
  }

  lemma FallbackAccrues(s: Store, env: Submission.Env, req: Submission.AdapterRequest, d: Submission.Draw, p: PackageRow)
    requires req.caseId in s.cases
    ensures Accrues(s, Submission.WithFallback(s, env, req, d, p))
  {
    hide Submission.FallbackFor, Submission.PendingRow, Submission.Fallen;
  }

  lemma ReceiptAccrues(s: Store, env: Submission.Env, req: Submission.AdapterRequest, d: Submission.Draw, p: PackageRow)
    requires Submission.Drawn(env, d) && req.caseId in s.cases
    ensures Accrues(s, Submission.WithReceipt(s, env, req, d, p))
  {
    hide Submission.ReceiptRow, Submission.PendingRow, Submission.Sent, Submission.ReceiptText, Registry.Name,
      Submission.Drawn;
  }

  /** The adapter's transaction adds an attempt with its fallback or receipt. */
  lemma AdapterWorkAccrues(s: Store, env: Submission.Env, req: Submission.AdapterRequest, d: Submission.Draw)
    requires Submission.Drawn(env, d)
    ensures Accrues(s, Submission.DoWork(s, env, req, d).0)
  {
    hide Accrues, Submission.KeyTaken, Submission.NeedsFallback, Submission.FallbackKeyTaken, Submission.WithFallback,
      Submission.WithReceipt, Submission.FindPackageRow, Submission.FallbackResult, Submission.SentResult,
      Submission.ReceiptText, Registry.Name, Submission.Drawn;
    ObjectsAccrue(s, s.objects);
    ObjectsAccrue(s, Submission.Uploaded(s, env, req, d).objects);
    var p := Submission.FindPackageRow(s.packages, req.packageId);
    if req.caseId in s.cases && p.Some? {
      FallbackAccrues(s, env, req, d, p.value);
      ReceiptAccrues(s, env, req, d, p.value);
    }
  }

  /** Its error handler changes attempt rows only. */
  lemma AdapterFailureAccrues(s: Store, req: Submission.AdapterRequest)
    ensures Accrues(s, Submission.MarkFailed(s, req))
  {
    hide Accrues, Submission.Marked;
    AttemptsAccrue(s, Submission.Marked(s.attempts, req.attemptId));
  }

  /** The workflow's first activity may open a case, for review. */
  lemma EnsureAccrues(s: Store, c: string)
    ensures Accrues(s, s.(cases := Activities.WithCase(s.cases, c)))
  {
  }

  /** The intake endpoint opens a case at INTAKE_PENDING, with its project. */
  lemma IntakeAccrues(s: Store, c: string, projectId: string)
    requires c !in s.cases && c !in s.projects
    ensures Accrues(s, s.(cases := s.cases[c := CaseRow(IntakePending, "FULLY_SUPPORTED", None)],
                          projects := s.projects[c := projectId]))
  {
  }

  // -------------------------------------------------------------- activities as runs

  /** Nobody holds or shares a case. */
  predicate Idle(w: World) {
    w.locks == map[] && w.drafts == map[]
  }

  lemma AccrueReaches(w: World, next: Store) returns (v: World)
    requires Reachable(w) && Idle(w) && Accrues(w.store, next)
    ensures Reachable(v) && Idle(v) && v.store == next && v.attempts == w.attempts && v.requests == w.requests
  {
    hide Accrues, Legal, Run;
    v := w.(store := next, origin := Origins(w.origin, next.cases));
    StepReaches(w, Accrue(next));
  }

  lemma DocumentsAccrue(s: Store, t: Store)
    requires t == s.(documents := t.documents, artifacts := t.artifacts)
    ensures Accrues(s, t)
  {
  }

  /** A package transaction with nothing in between: its read, its write, and the rows the
      protocol does not look at. */
  lemma PackageWriteReaches(w: World, env: Packages.Env, req: Packages.PackageRequest, d: Packages.Draw) returns (v: World)
    requires Reachable(w) && Idle(w) && Packages.Drawn(env, req, d) && req.caseId in w.store.cases
    ensures Reachable(v) && Idle(v) && v.store == Packages.Written(w.store, env, req, d) && v.requests == w.requests
  {
    hide Reachable, Legal, Run, Accrues, Packages.Drawn, Packages.ArtifactsWith, Packages.DocumentRows,
      Packages.ManifestEntry;
    var row := Packages.PackageFor(env, req, d);
    var observed := w.store.cases[req.caseId].caseState;
    var reading := w.(drafts := map[0 := PackageTx(row, observed, |w.journal|)]);
    assert reading == Perform(w, ReadCase(0, row));
    StepReaches(w, ReadCase(0, row));
    var written := DoWrite(reading, 0);
    StepReaches(reading, WritePackage(0));
    var next := Packages.Written(w.store, env, req, d);
    assert written.store.cases == next.cases && written.store.packages == next.packages;
    assert next == written.store.(documents := next.documents, artifacts := next.artifacts);
    DocumentsAccrue(written.store, next);
    v := AccrueReaches(written, next);
  }

  lemma PersistReaches(w: World, env: Packages.Env, req: Packages.PackageRequest, d: Packages.Draw) returns (v: World)
    requires Reachable(w) && Idle(w) && Packages.Drawn(env, req, d)
    ensures Reachable(v) && Idle(v) && v.store == Packages.Persist(w.store, env, req, d).0 && v.requests == w.requests
  {
    hide Reachable, Packages.Drawn, Packages.Persist, Packages.Written, Accrues;
    PackageHistories.PersistShape(w.store, env, req, d);
    var t, u := Packages.Persist(w.store, env, req, d).0, Packages.Uploaded(w.store, env, req, d);
    if t == w.store {
      v := w;
    } else {
      ObjectsAccrue(w.store, u.objects);
      v := AccrueReaches(w, u);
      if t != u {
        v := PackageWriteReaches(v, env, req, d);
      }
    }
  }

  lemma AdaptReaches(w: World, env: Submission.Env, req: Submission.AdapterRequest, d: Submission.Draw, broken: bool)
    returns (v: World)
    requires Reachable(w) && Idle(w) && Submission.Drawn(env, d)
    ensures Reachable(v) && Idle(v) && v.store == Submission.Adapt(w.store, env, req, d, broken).0
    ensures v.requests == w.requests
  {
    hide Reachable, Accrues, Submission.DoWork, Submission.Drawn, Submission.Load, Submission.Reload, Submission.MarkFailed;
    var t := Submission.Adapt(w.store, env, req, d, broken).0;
    var u := Submission.DoWork(w.store, env, req, d).0;
    AdapterWorkAccrues(w.store, env, req, d);
    AdapterFailureAccrues(w.store, req);
    AdapterFailureAccrues(u, req);
    if t == w.store {
      v := w;
    } else if t == Submission.MarkFailed(w.store, req) {
      v := AccrueReaches(w, t);
    } else {
      v := AccrueReaches(w, u);
      if t != u { v := AccrueReaches(v, t); }
    }
  }

  lemma CallReaches(w: World, id: nat, req: TransitionRequest, pick: nat) returns (v: World)
    requires Reachable(w) && Idle(w) && MayCall(w, id, req)
    ensures Reachable(v) && Idle(v) && v.store == Transition(w.store, req, pick).0
    ensures v.requests == w.requests[req.requestId := req]
  {
    hide Reachable, Decide, Transition, FindRow;
    v := AfterCall(w, id, req, pick);
    CallAloneIsARun(w, id, req, pick);
  }

  /** Every activity the workflow executes, made alone, is a run of the protocol: whatever
      the theorems say of reachable databases holds of the ones a workflow leaves. */
  lemma ActivityReaches(w: World, id: nat, x: Activities.Surroundings, a: Activities.Activity, d: Activities.Draws)
    returns (v: World)
    requires Reachable(w) && Idle(w) && Activities.Fits(x, a, d)
    requires a.ApplyTransition? ==> MayCall(w, id, a.transition)
    ensures Reachable(v) && Idle(v) && v.store == Activities.Perform(w.store, x, a, d).0
    ensures v.requests == if a.ApplyTransition? then w.requests[a.transition.requestId := a.transition] else w.requests
  {
    hide Reachable, Accrues, Packages.Persist, Submission.Adapt, Transition, Activities.StoreFacts, Activities.WithCase,
      MayCall, Packages.Drawn, Submission.Drawn;
    match a {
      case EnsureCase(c) =>
        EnsureAccrues(w.store, c);
        v := AccrueReaches(w, w.store.(cases := Activities.WithCase(w.store.cases, c)));
      case FetchState(c) =>
        v := w;
      case PersistFacts(kind, c) =>
        FactsAccrue(w.store, x, kind, c);
        v := AccrueReaches(w, Activities.StoreFacts(w.store, x, kind, c).0);
      case PersistPackage(req) =>
        v := PersistReaches(w, Activities.PackageEnv(x), req, d.package);
      case Adapt(c, run, p) =>
        v := AdaptReaches(w, Activities.SubmissionEnv(x), SubmissionHistories.Keyed(c, run, p), d.submission, false);
      case ApplyTransition(req) =>
        v := CallReaches(w, id, req, d.pick);
    }
  }

  /** So does every attempt whose worker dies, with what it uploaded or committed. */
  lemma DyingReaches(w: World, id: nat, x: Activities.Surroundings, a: Activities.Activity, trial: Retries.Trial)
    returns (v: World)
    requires Reachable(w) && Idle(w) && Activities.Fits(x, a, trial.draws)
    requires a.ApplyTransition? ==> MayCall(w, id, a.transition)
    ensures Reachable(v) && Idle(v) && v.store == Retries.Left(w.store, x, a, trial)
  {
    hide Reachable, Accrues, Activities.Perform, Activities.Fits, MayCall, Retries.Registrations, Registry.Objects;
    if trial.committed {
      v := ActivityReaches(w, id, x, a, trial.draws);
    } else {
      ObjectsAccrue(w.store, Retries.Stranded(w.store, x, a, trial).objects);
      v := AccrueReaches(w, Retries.Stranded(w.store, x, a, trial));
    }
  }
}
