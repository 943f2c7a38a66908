/** Activities of some cases among the commits of all the others: what the first see is what
    they would see alone. */
module Neighbours {
  import opened Contracts
  import opened Tables
  import opened Registry
  import opened Activities
  import opened Retries
  import opened Views
  import Packages
  import Submission
  import SubmissionHistories
  import Transitions

  /** Every case, row and id an activity uses is theirs. */
  ghost predicate Within(v: View, x: Surroundings, a: Activity, d: Draws) {
    && Fits(x, a, d)
    && match a
       case EnsureCase(c) => v.owns(c)
       case FetchState(c) => v.owns(c)
       case PersistFacts(_, c) => v.owns(c) && RecordsMine(v, x, c)
       case PersistPackage(req) =>
         && v.owns(req.caseId) && PackageMine(v, d.package)
         && LogMine(v, x.cfg, Packages.Uploads(PackageEnv(x), req, d.package))
       case Adapt(c, run, p) => AdapterMine(v, SubmissionEnv(x), SubmissionHistories.Keyed(c, run, p), d.submission)
       case ApplyTransition(req) =>
         && v.owns(req.caseId) && v.mine(req.requestId)
         && (req.requiredReviewId.Some? ==> v.mine(req.requiredReviewId.value))
  }

  /** An activity does on the rows of its cases what it does on the whole database. */
  lemma PerformSeen(v: View, s: Store, x: Surroundings, a: Activity, d: Draws)
    requires Separate(v, s) && Within(v, x, a, d)
    ensures var (t, o) := Perform(s, x, a, d);
            Perform(Slice(v, s), x, a, d) == (Slice(v, t), o) && Separate(v, t)
  {
    hide Slice, Separate, StoreFacts, Packages.Persist, Submission.Adapt, Transitions.Transition,
      SubmissionHistories.Keyed, WithCase, PackageMine, AdapterMine, RecordsMine, LogMine, Packages.Drawn, Submission.Drawn;
    match a {
      case EnsureCase(c) => EnsureSeen(v, s, c);
      case FetchState(c) => OwnCaseSeen(v, s, c);
      case PersistFacts(kind, c) => FactsSeen(v, s, x, kind, c);
      case PersistPackage(req) => PackageSeen(v, s, PackageEnv(x), req, d.package);
      case Adapt(c, run, p) => AdaptSeen(v, s, SubmissionEnv(x), SubmissionHistories.Keyed(c, run, p), d.submission);
      case ApplyTransition(req) => TransitionSeen(v, s, req, d.pick);
    }
  }

  lemma RegistrationsSeen(v: View, s: Store, x: Surroundings, a: Activity, d: Draws)
    requires Separate(v, s) && Within(v, x, a, d)
    ensures Registrations(Slice(v, s), x, a, d) == Registrations(s, x, a, d)
    ensures LogMine(v, x.cfg, Registrations(s, x, a, d))
  {
    hide Slice, Separate, SubmissionHistories.Keyed, PackageMine, RecordsMine, Packages.Drawn, Submission.Drawn,
      Packages.Uploads, ValidEvidenceId, Name, Packages.Persist, Submission.ReceiptText, Sends, Generates;
    match a {
      case PersistPackage(req) => PackageSeen(v, s, PackageEnv(x), req, d.package);
      case Adapt(c, run, p) => ReceiptsSeen(v, s, SubmissionEnv(x), SubmissionHistories.Keyed(c, run, p), d.submission);
      case _ =>
    }
  }

  lemma WithinFits(v: View, x: Surroundings, a: Activity, d: Draws)
    requires Within(v, x, a, d)
    ensures Fits(x, a, d)
  {
  }

  lemma StrandedSeen(v: View, s: Store, x: Surroundings, a: Activity, trial: Trial)
    requires Separate(v, s) && Within(v, x, a, trial.draws)
    ensures Fits(x, a, trial.draws)
    ensures Stranded(Slice(v, s), x, a, trial) == Slice(v, Stranded(s, x, a, trial)) && Separate(v, Stranded(s, x, a, trial))
  {
    WithinFits(v, x, a, trial.draws);
    hide Slice, Separate, Within, Fits, Registrations, Objects, ValidEvidenceId, Name;
    RegistrationsSeen(v, s, x, a, trial.draws);
    var log := Registrations(s, x, a, trial.draws);
    var part := if trial.uploads < |log| then log[..trial.uploads] else log;
    PartIsMine(v, x.cfg, log, part);
    hide LogMine;
    UploadedSeen(v, s, x.cfg, part);
  }

  lemma PartIsMine(v: View, cfg: Settings, log: Log, part: Log)
    requires LogMine(v, cfg, log) && part <= log
    ensures LogMine(v, cfg, part)
  {
    hide ValidEvidenceId, Name;
    assert forall e | e in part :: e in log;
  }

  lemma LeftSeen(v: View, s: Store, x: Surroundings, a: Activity, trial: Trial)
    requires Separate(v, s) && Within(v, x, a, trial.draws)
    ensures Fits(x, a, trial.draws)
    ensures Left(Slice(v, s), x, a, trial) == Slice(v, Left(s, x, a, trial)) && Separate(v, Left(s, x, a, trial))
  {
    WithinFits(v, x, a, trial.draws);
    hide Slice, Separate, Within, Fits, Perform, Stranded;
    if trial.committed {
      PerformSeen(v, s, x, a, trial.draws);
    } else {
      StrandedSeen(v, s, x, a, trial);
    }
  }

  /** Commits of the other cases. */
  ghost predicate Foreign(v: View, f: Store -> Store) {
    forall s {:trigger f(s)} :: Separate(v, s) ==> Slice(v, f(s)) == Slice(v, s) && Separate(v, f(s))
  }

  ghost predicate AllWithin(v: View, x: Surroundings, a: Activity, trials: seq<Trial>, last: Draws) {
    Within(v, x, a, last) && forall i | 0 <= i < |trials| :: Within(v, x, a, trials[i].draws)
  }

  lemma AllWithinFit(v: View, x: Surroundings, a: Activity, trials: seq<Trial>, last: Draws)
    requires AllWithin(v, x, a, trials, last)
    ensures Fits(x, a, last) && forall i | 0 <= i < |trials| :: Fits(x, a, trials[i].draws)
  {
    hide Within, Fits;
    WithinFits(v, x, a, last);
    forall i | 0 <= i < |trials| ensures Fits(x, a, trials[i].draws) { WithinFits(v, x, a, trials[i].draws); }
  }

  /** Whatever other cases commit before each attempt, a schedule of dying and retried
      attempts leaves the rows of its cases, and answers, as if they were alone. */
  lemma {:induction false} AmongIsAlone(v: View, s: Store, x: Surroundings, a: Activity, trials: seq<Trial>, last: Draws,
                                        others: Others)
    requires Separate(v, s) && AllWithin(v, x, a, trials, last) && forall n :: Foreign(v, others(n))
    ensures Fits(x, a, last) && forall i | 0 <= i < |trials| :: Fits(x, a, trials[i].draws)
    ensures var (t, o) := Among(s, x, a, trials, last, others);
            Attempted(Slice(v, s), x, a, trials, last) == (Slice(v, t), o) && Separate(v, t)
    decreases |trials|
  {
    hide Slice, Separate, Within, Fits, Perform, Left;
    AllWithinFit(v, x, a, trials, last);
    assert Foreign(v, others(|trials|));
    var u := others(|trials|)(s);
    if trials == [] {
      PerformSeen(v, u, x, a, last);
    } else {
      LeftSeen(v, u, x, a, trials[0]);
      assert forall i | 0 <= i < |trials| - 1 :: trials[1..][i] == trials[i + 1];
      AmongIsAlone(v, Left(u, x, a, trials[0]), x, a, trials[1..], last, others);
    }
  }

  /** Everything, for a database that only this run touches. */
  const WHOLE: View := View(_ => true, _ => true, _ => true)

  lemma WholeFacts(s: Store)
    ensures Only(s.resolutions, Facts(WHOLE)) == s.resolutions && Only(s.requirements, Facts(WHOLE)) == s.requirements
    ensures Only(s.compliance, Facts(WHOLE)) == s.compliance && Only(s.incentives, Facts(WHOLE)) == s.incentives
  {
    hide Only;
    OnlyKept(s.resolutions, Facts(WHOLE));
    OnlyKept(s.requirements, Facts(WHOLE));
    OnlyKept(s.compliance, Facts(WHOLE));
    OnlyKept(s.incentives, Facts(WHOLE));
  }

  lemma WholeRows(s: Store)
    ensures Only(s.reviews, Reviews(WHOLE)) == s.reviews && Only(s.packages, Parcels(WHOLE)) == s.packages
    ensures Only(s.documents, Views.Documents(WHOLE)) == s.documents && Only(s.fallbacks, Fallbacks(WHOLE)) == s.fallbacks
    ensures Only(s.ledger, Ledger(WHOLE)) == s.ledger && Only(s.audit, Audit(WHOLE)) == s.audit
  {
    hide Only;
    OnlyKept(s.reviews, Reviews(WHOLE));
    OnlyKept(s.packages, Parcels(WHOLE));
    OnlyKept(s.documents, Views.Documents(WHOLE));
    OnlyKept(s.fallbacks, Fallbacks(WHOLE));
    OnlyKept(s.ledger, Ledger(WHOLE));
    OnlyKept(s.audit, Audit(WHOLE));
  }

  lemma WholeMaps(s: Store)
    ensures Under(s.cases, WHOLE.owns) == s.cases && Under(s.projects, WHOLE.owns) == s.projects
    ensures Kept(s.contradictions, Contradictions(WHOLE)) == s.contradictions
    ensures Kept(s.overrides, Overrides(WHOLE)) == s.overrides && Kept(s.artifacts, Artifacts(WHOLE)) == s.artifacts
    ensures Kept(s.attempts, Attempts(WHOLE)) == s.attempts && Under(s.objects, WHOLE.stores) == s.objects
  {
  }

  lemma WholeSeparate(s: Store)
    ensures Separate(WHOLE, s)
  {
  }

  /** With the whole database in view, what is seen is all there is. */
  lemma WholeSlice(s: Store)
    ensures Slice(WHOLE, s) == s && Separate(WHOLE, s)
  {
    WholeSeparate(s);
    hide Only, Kept, Under, Separate;
    WholeFacts(s);
    WholeRows(s);
    WholeMaps(s);
  }
}
