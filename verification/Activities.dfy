/** The activities as the workflow engine executes them, and what executing one again does. */
module Activities {
  import opened Contracts
  import opened Tables
  import opened Registry
  import opened Transitions
  import Evidence
  import Packages
  import PackageHistories
  import Submission
  import SubmissionHistories

  // ------------------------------------------------------------------- surroundings

  /** Storage settings and the runtime adapters. */
  datatype Surroundings = Surroundings(
    cfg: Settings,
    encode: Packages.Manifest -> Content,
    compile: string -> Packages.Compilation,
    plan: (string, string) -> Option<set<Submission.Source>>,
    jurisdictions: string -> seq<Evidence.Record<()>>,
    requirements: string -> seq<Evidence.Record<string>>,
    compliance: string -> seq<Evidence.Record<int>>,
    incentives: string -> seq<Evidence.Record<int>>)

  function PackageEnv(x: Surroundings): Packages.Env {
    Packages.Env(x.cfg, x.encode, x.compile)
  }

  function SubmissionEnv(x: Surroundings): Submission.Env {
    Submission.Env(x.cfg, x.plan)
  }

  datatype FactKind = Jurisdictions | RequirementSets | ComplianceEvaluations | IncentiveAssessments

  datatype Activity =
    | EnsureCase(caseId: string)
    | FetchState(caseId: string)
    | PersistFacts(kind: FactKind, caseId: string)
    | PersistPackage(req: Packages.PackageRequest)
    | Adapt(caseId: string, run: string, packageId: string)
    | ApplyTransition(transition: TransitionRequest)

  /** What the workflow reads off an activity's answer. */
  datatype Value =
    | Nothing
    | CaseAt(state: CaseState)
    | PackageIs(packageId: string)
    | AdapterSays(outcome: AdapterOutcome)
    | TransitionSays(result: TransitionResult)

  /** What one attempt draws: the row an unordered query returns, ids, the time. */
  datatype Draws = Draws(pick: nat, package: Packages.Draw, submission: Submission.Draw)

  predicate Fits(x: Surroundings, a: Activity, d: Draws) {
    && (a.PersistPackage? ==> Packages.Drawn(PackageEnv(x), a.req, d.package))
    && (a.Adapt? ==> Submission.Drawn(SubmissionEnv(x), d.submission))
  }

  // ------------------------------------------------------------------- one execution

  function WithCase(cases: map<string, CaseRow>, caseId: string): map<string, CaseRow> {
    if caseId in cases then cases else cases[caseId := CaseRow(ReviewPending, "FULLY_SUPPORTED", None)]
  }

  function Quiet<T>(o: Outcome<T>): Outcome<Value> {
    if o.Returned? then Returned(Nothing) else Raised(o.error)
  }

  ghost function StoreFacts(s: Store, x: Surroundings, kind: FactKind, c: string): (Store, Outcome<Value>) {
    match kind
    case Jurisdictions =>
      var (rows, o) := Evidence.Persist(s.resolutions, c in s.cases, c, x.jurisdictions(c), Evidence.ByCase);
      (s.(resolutions := rows), Quiet(o))
    case RequirementSets =>
      var (rows, o) := Evidence.Persist(s.requirements, c in s.cases, c, x.requirements(c), Evidence.ByCase);
      (s.(requirements := rows), Quiet(o))
    case ComplianceEvaluations =>
      var (rows, o) := Evidence.Persist(s.compliance, c in s.cases, c, x.compliance(c), Evidence.ByIds);
      (s.(compliance := rows), Quiet(o))
    case IncentiveAssessments =>
      var (rows, o) := Evidence.Persist(s.incentives, c in s.cases, c, x.incentives(c), Evidence.ByIds);
      (s.(incentives := rows), Quiet(o))
  }

  /** An activity executed once, to its commit. */
  ghost function Perform(s: Store, x: Surroundings, a: Activity, d: Draws): (Store, Outcome<Value>)
    requires Fits(x, a, d)
  {
    match a
    case EnsureCase(c) => (s.(cases := WithCase(s.cases, c)), Returned(Nothing))
    case FetchState(c) =>
      (s, if c in s.cases then Returned(CaseAt(s.cases[c].caseState)) else Raised(LookupError))
    case PersistFacts(kind, c) => StoreFacts(s, x, kind, c)
    case PersistPackage(req) =>
      var (t, o) := Packages.Persist(s, PackageEnv(x), req, d.package);
      (t, if o.Returned? then Returned(PackageIs(o.value)) else Raised(o.error))
    case Adapt(c, run, p) =>
      var (t, o) := Submission.Adapt(s, SubmissionEnv(x), SubmissionHistories.Keyed(c, run, p), d.submission, false);
      (t, if o.Returned? then Returned(AdapterSays(o.value.outcome)) else Raised(o.error))
    case ApplyTransition(req) =>
      var (t, o) := Transition(s, req, d.pick);
      (t, if o.Returned? then Returned(TransitionSays(o.value)) else Raised(o.error))
  }

  method EnsureCaseExists(db: Database, caseId: string)
    modifies db`cases
    ensures db.cases == WithCase(old(db.cases), caseId)
  {
    if caseId !in db.cases {
      db.cases := db.cases[caseId := CaseRow(ReviewPending, "FULLY_SUPPORTED", None)];
    }
  }

  method PersistFactsInPlace(db: Database, x: Surroundings, kind: FactKind, c: string) returns (o: Outcome<Value>)
    modifies db
    ensures db.Tables() == StoreFacts(old(db.Tables()), x, kind, c).0
    ensures o == StoreFacts(old(db.Tables()), x, kind, c).1
  {
    hide Evidence.Persist;
    match kind {
      case Jurisdictions =>
        var rows, r := Evidence.PersistRecords(db.resolutions, c in db.cases, c, x.jurisdictions(c), Evidence.ByCase);
        db.resolutions := rows;
        o := Quiet(r);
      case RequirementSets =>
        var rows, r := Evidence.PersistRecords(db.requirements, c in db.cases, c, x.requirements(c), Evidence.ByCase);
        db.requirements := rows;
        o := Quiet(r);
      case ComplianceEvaluations =>
        var rows, r := Evidence.PersistRecords(db.compliance, c in db.cases, c, x.compliance(c), Evidence.ByIds);
        db.compliance := rows;
        o := Quiet(r);
      case IncentiveAssessments =>
        var rows, r := Evidence.PersistRecords(db.incentives, c in db.cases, c, x.incentives(c), Evidence.ByIds);
        db.incentives := rows;
        o := Quiet(r);
    }
  }

  method PerformInPlace(db: Database, x: Surroundings, a: Activity, d: Draws) returns (o: Outcome<Value>)
    requires Fits(x, a, d)
    modifies db
    ensures db.Tables() == Perform(old(db.Tables()), x, a, d).0
    ensures o == Perform(old(db.Tables()), x, a, d).1
  {
    hide StoreFacts, Packages.Persist, Submission.Adapt, Transition, SubmissionHistories.Keyed, WithCase;
    match a {
      case EnsureCase(c) =>
        EnsureCaseExists(db, c);
        o := Returned(Nothing);
      case FetchState(c) =>
        o := if c in db.cases then Returned(CaseAt(db.cases[c].caseState)) else Raised(LookupError);
      case PersistFacts(kind, c) =>
        o := PersistFactsInPlace(db, x, kind, c);
      case PersistPackage(req) =>
        var r := Packages.PersistSubmissionPackage(db, PackageEnv(x), req, d.package);
        o := if r.Returned? then Returned(PackageIs(r.value)) else Raised(r.error);
      case Adapt(c, run, p) =>
        var r := Submission.DeterministicSubmissionAdapter(
                   db, SubmissionEnv(x), SubmissionHistories.Keyed(c, run, p), d.submission, false);
        o := if r.Returned? then Returned(AdapterSays(r.value.outcome)) else Raised(r.error);
      case ApplyTransition(req) =>
        var r := ApplyStateTransition(db, req, d.pick, false);
        o := if r.Returned? then Returned(TransitionSays(r.value)) else Raised(r.error);
    }
  }

  // --------------------------------------------------------------------- repetition

  /** What an activity relies on: ids it draws are new, and the database is one the
      submission protocol reaches. */
  ghost predicate Safe(s: Store, x: Surroundings, a: Activity, d: Draws) {
    && Fits(x, a, d)
    && (a.PersistPackage? ==> a.req.caseId in s.cases && PackageHistories.FreshDraw(s, d.package))
    && (a.Adapt? ==>
          && SubmissionHistories.Callable(s, SubmissionEnv(x), a.caseId, a.run, a.packageId, d.submission)
          && d.submission.receiptId !in s.artifacts)
  }

  lemma FactsRepeat(s: Store, x: Surroundings, kind: FactKind, c: string)
    ensures var (t, o) := StoreFacts(s, x, kind, c);
            StoreFacts(t, x, kind, c) == (t, o)
  {
    hide Evidence.Persist;
    Evidence.PersistIsIdempotent(s.resolutions, c in s.cases, c, x.jurisdictions(c), Evidence.ByCase);
    Evidence.PersistIsIdempotent(s.requirements, c in s.cases, c, x.requirements(c), Evidence.ByCase);
    Evidence.PersistIsIdempotent(s.compliance, c in s.cases, c, x.compliance(c), Evidence.ByIds);
    Evidence.PersistIsIdempotent(s.incentives, c in s.cases, c, x.incentives(c), Evidence.ByIds);
  }

  lemma PackageRepeats(s: Store, env: Packages.Env, req: Packages.PackageRequest, d: Packages.Draw, e: Packages.Draw)
    requires Packages.Drawn(env, req, d) && Packages.Drawn(env, req, e)
    requires PackageHistories.FreshDraw(s, d) && req.caseId in s.cases
    ensures var (t, o) := Packages.Persist(s, env, req, d);
            Packages.Persist(t, env, req, e) == (t, o)
  {
    hide Packages.Drawn, Packages.Written, Packages.Uploads, Packages.NoCollision, Objects;
    PackageHistories.PersistIsIdempotent(s, env, req, d, e);
  }

  /** Executing an activity again, with whatever it then draws, changes nothing and tells
      the workflow the same. */
  lemma RepeatIsHarmless(s: Store, x: Surroundings, a: Activity, d: Draws, e: Draws)
    requires Safe(s, x, a, d) && Fits(x, a, e)
    ensures var (t, o) := Perform(s, x, a, d);
            Perform(t, x, a, e) == (t, o)
  {
    hide StoreFacts, Packages.Persist, Submission.Adapt, Transition, SubmissionHistories.Keyed,
      Packages.Drawn, PackageHistories.FreshDraw;
    match a {
      case EnsureCase(c) =>
      case FetchState(c) =>
      case PersistFacts(kind, c) => FactsRepeat(s, x, kind, c);
      case PersistPackage(req) => PackageRepeats(s, PackageEnv(x), req, d.package, e.package);
      case Adapt(c, run, p) =>
        SubmissionHistories.CallIsRepeatable(s, SubmissionEnv(x), c, run, p, d.submission, e.submission);
      case ApplyTransition(req) => TransitionIsIdempotent(s, req, d.pick, e.pick);
    }
  }
}
