/** What a set of cases sees of the database: the rows that are theirs. An activity of one of
    them does the same on those rows as on the whole database. */
module Views {
  import opened Contracts
  import opened Tables
  import opened Registry
  import opened RequestIds
  import opened Transitions
  import opened Activities
  import opened Retries
  import Evidence
  import Packages
  import Submission
  import SubmissionHistories

  // -------------------------------------------------------------------- kept rows

  function Only<T>(rows: seq<T>, keep: T -> bool): seq<T> {
    if rows == [] then []
    else
      var n := |rows| - 1;
      Only(rows[..n], keep) + (if keep(rows[n]) then [rows[n]] else [])
  }

  lemma {:induction false} OnlyIn<T>(rows: seq<T>, keep: T -> bool)
    ensures forall r :: r in Only(rows, keep) <==> r in rows && keep(r)
  {
    if rows != [] {
      var n := |rows| - 1;
      OnlyIn(rows[..n], keep);
      assert rows == rows[..n] + [rows[n]];
    }
  }

  lemma {:induction false} OnlyAppended<T>(rows: seq<T>, more: seq<T>, keep: T -> bool)
    ensures Only(rows + more, keep) == Only(rows, keep) + Only(more, keep)
  {
    if more == [] {
      assert rows + more == rows;
    } else {
      var n := |more| - 1;
      assert (rows + more)[..|rows| + n] == rows + more[..n];
      OnlyAppended(rows, more[..n], keep);
    }
  }

  lemma {:induction false} OnlyKept<T>(rows: seq<T>, keep: T -> bool)
    requires forall r | r in rows :: keep(r)
    ensures Only(rows, keep) == rows
  {
    if rows != [] {
      var n := |rows| - 1;
      OnlyKept(rows[..n], keep);
      assert rows == rows[..n] + [rows[n]];
    }
  }

  lemma OnlyOne<T>(row: T, keep: T -> bool)
    requires keep(row)
    ensures Only([row], keep) == [row]
  {
    OnlyKept([row], keep);
  }

  /** The first row, then the rest. */
  lemma OnlyFirst<T>(rows: seq<T>, keep: T -> bool)
    requires rows != []
    ensures Only(rows, keep) == (if keep(rows[0]) then [rows[0]] else []) + Only(rows[1..], keep)
  {
    assert rows == [rows[0]] + rows[1..];
    OnlyAppended([rows[0]], rows[1..], keep);
    assert [rows[0]][..0] == [];
  }

  function Kept<K, V>(m: map<K, V>, keep: V -> bool): map<K, V> {
    map k | k in m && keep(m[k]) :: m[k]
  }

  function Under<K, V>(m: map<K, V>, keep: K -> bool): map<K, V> {
    map k | k in m && keep(k) :: m[k]
  }

  lemma KeptUpdated<K, V>(m: map<K, V>, k: K, x: V, keep: V -> bool)
    requires keep(x)
    ensures Kept(m[k := x], keep) == Kept(m, keep)[k := x]
  {
  }

  lemma UnderUpdated<K, V>(m: map<K, V>, k: K, x: V, keep: K -> bool)
    requires keep(k)
    ensures Under(m[k := x], keep) == Under(m, keep)[k := x]
  {
  }

  // ------------------------------------------------------------------------- views

  /** The cases looked at, the ids that are theirs, and where their content is kept. */
  datatype View = View(owns: string -> bool, mine: string -> bool, stores: ObjectName -> bool)

  function Facts<T>(v: View): Fact<T> -> bool {
    (f: Fact<T>) => v.owns(f.caseId)
  }

  function Reviews(v: View): ReviewRow -> bool {
    (r: ReviewRow) => v.owns(r.caseId)
  }

  function Contradictions(v: View): ContradictionRow -> bool {
    (r: ContradictionRow) => v.owns(r.caseId)
  }

  function Overrides(v: View): OverrideRow -> bool {
    (r: OverrideRow) => v.owns(r.caseId)
  }

  function Parcels(v: View): PackageRow -> bool {
    (p: PackageRow) => v.owns(p.caseId)
  }

  function Documents(v: View): DocumentRow -> bool {
    (d: DocumentRow) => v.mine(d.packageId)
  }

  function Artifacts(v: View): ArtifactRow -> bool {
    (a: ArtifactRow) => v.owns(a.caseId)
  }

  function Attempts(v: View): AttemptRow -> bool {
    (a: AttemptRow) => v.owns(a.caseId)
  }

  function Fallbacks(v: View): FallbackRow -> bool {
    (f: FallbackRow) => v.owns(f.caseId)
  }

  function Ledger(v: View): LedgerRow -> bool {
    (r: LedgerRow) => v.owns(r.caseId)
  }

  function Audit(v: View): AuditRow -> bool {
    (r: AuditRow) => v.owns(r.detail.caseId)
  }

  function Slice(v: View, s: Store): Store {
    Store(Under(s.cases, v.owns), Under(s.projects, v.owns),
          Only(s.resolutions, Facts(v)), Only(s.requirements, Facts(v)), Only(s.compliance, Facts(v)),
          Only(s.incentives, Facts(v)), Only(s.reviews, Reviews(v)), Kept(s.contradictions, Contradictions(v)),
          Kept(s.overrides, Overrides(v)), Only(s.packages, Parcels(v)), Only(s.documents, Documents(v)),
          Kept(s.artifacts, Artifacts(v)), Kept(s.attempts, Attempts(v)), Only(s.fallbacks, Fallbacks(v)),
          Only(s.ledger, Ledger(v)), Only(s.audit, Audit(v)), Under(s.objects, v.stores))
  }

  ghost predicate FactsApart<T(!new)>(v: View, rows: seq<Fact<T>>) {
    forall f | f in rows && !v.owns(f.caseId) :: !v.mine(f.id)
  }

  predicate PackagesApart(v: View, packages: seq<PackageRow>) {
    forall p | p in packages :: v.mine(p.packageId) <==> v.owns(p.caseId)
  }

  predicate AttemptsApart(v: View, attempts: map<string, AttemptRow>) {
    forall id | id in attempts ::
      var a := attempts[id];
      && (v.mine(id) <==> v.owns(a.caseId))
      && (!v.owns(a.caseId) ==> !v.mine(a.requestId) && !v.mine(a.idempotencyKey))
  }

  predicate FallbacksApart(v: View, fallbacks: seq<FallbackRow>) {
    forall f | f in fallbacks && !v.owns(f.caseId) :: !v.mine(f.fallbackId) && !v.mine(f.attemptId)
  }

  /** No row of another case has an id of theirs. */
  ghost predicate Separate(v: View, s: Store) {
    && FactsApart(v, s.resolutions) && FactsApart(v, s.requirements)
    && FactsApart(v, s.compliance) && FactsApart(v, s.incentives)
    && (forall r | r in s.reviews && !v.owns(r.caseId) :: !v.mine(r.decisionId))
    && PackagesApart(v, s.packages)
    && (forall id | id in s.artifacts && !v.owns(s.artifacts[id].caseId) :: !v.mine(id))
    && AttemptsApart(v, s.attempts)
    && FallbacksApart(v, s.fallbacks)
    && (forall r | r in s.ledger && !v.owns(r.caseId) :: !v.mine(r.transitionId))
  }

  // -------------------------------------------------------------------- transitions

  lemma {:induction false} RowsFound(v: View, ledger: seq<LedgerRow>, id: string)
    requires v.mine(id) && forall r | r in ledger && !v.owns(r.caseId) :: !v.mine(r.transitionId)
    ensures FindRow(Only(ledger, Ledger(v)), id) == FindRow(ledger, id)
  {
    if ledger != [] {
      OnlyFirst(ledger, Ledger(v));
      RowsFound(v, ledger[1..], id);
      var rest := Only(ledger[1..], Ledger(v));
      assert ([ledger[0]] + rest)[1..] == rest && [] + rest == rest;
    }
  }

  lemma {:induction false} ReviewsFound(v: View, reviews: seq<ReviewRow>, id: string)
    requires v.mine(id) && forall r | r in reviews && !v.owns(r.caseId) :: !v.mine(r.decisionId)
    ensures FindReview(Only(reviews, Reviews(v)), id) == FindReview(reviews, id)
  {
    if reviews != [] {
      OnlyFirst(reviews, Reviews(v));
      ReviewsFound(v, reviews[1..], id);
      var rest := Only(reviews[1..], Reviews(v));
      assert ([reviews[0]] + rest)[1..] == rest && [] + rest == rest;
    }
  }

  lemma {:induction false} CaseRows<T>(v: View, rows: seq<Fact<T>>, c: string)
    requires v.owns(c)
    ensures OfCase(Only(rows, Facts(v)), c) == OfCase(rows, c)
  {
    if rows != [] {
      OnlyFirst(rows, Facts(v));
      CaseRows(v, rows[1..], c);
      var rest := Only(rows[1..], Facts(v));
      assert ([rows[0]] + rest)[1..] == rest && [] + rest == rest;
    }
  }

  lemma CaseFacts<T(!new)>(v: View, rows: seq<Fact<T>>, c: string)
    requires v.owns(c)
    ensures HasFact(Only(rows, Facts(v)), c) <==> HasFact(rows, c)
  {
    OnlyIn(rows, Facts(v));
  }

  lemma CaseFresh(v: View, rows: seq<Fact<int>>, c: string, deadline: int)
    requires v.owns(c)
    ensures FreshSince(Only(rows, Facts(v)), c, deadline) <==> FreshSince(rows, c, deadline)
  {
    OnlyIn(rows, Facts(v));
  }

  lemma {:induction false} LatestFallbacks(v: View, rows: seq<FallbackRow>, c: string)
    requires v.owns(c)
    ensures LatestFallback(Only(rows, Fallbacks(v)), c) == LatestFallback(rows, c)
  {
    if rows != [] {
      var n := |rows| - 1;
      LatestFallbacks(v, rows[..n], c);
      var before := Only(rows[..n], Fallbacks(v));
      assert (before + [rows[n]])[..|before|] == before && before + [] == before;
    }
  }

  lemma BlockersSeen(v: View, s: Store, c: string)
    requires v.owns(c)
    ensures OpenBlocker(Slice(v, s), c) <==> OpenBlocker(s, c)
  {
    var m := Slice(v, s).contradictions;
    if OpenBlocker(s, c) {
      var id :| id in s.contradictions && s.contradictions[id].caseId == c && s.contradictions[id].blocking
                && s.contradictions[id].open;
      assert id in m && m[id] == s.contradictions[id];
    }
  }

  lemma ApprovalSeen(v: View, s: Store, req: TransitionRequest)
    requires v.owns(req.caseId) && forall r | r in s.reviews && !v.owns(r.caseId) :: !v.mine(r.decisionId)
    requires req.requiredReviewId.Some? ==> v.mine(req.requiredReviewId.value)
    ensures ApprovalGate(Slice(v, s), req) == ApprovalGate(s, req)
  {
    hide Refused, Accepted, Only;
    BlockersSeen(v, s, req.caseId);
    hide OpenBlocker;
    if req.requiredReviewId.Some? { ReviewsFound(v, s.reviews, req.requiredReviewId.value); }
  }

  lemma EvidenceSeen(v: View, s: Store, req: TransitionRequest, pick: nat)
    requires v.owns(req.caseId)
    ensures RequirementGate(Slice(v, s), req, pick) == RequirementGate(s, req, pick)
    ensures ComplianceGate(Slice(v, s), req) == ComplianceGate(s, req)
    ensures IncentivesGate(Slice(v, s), req) == IncentivesGate(s, req)
    ensures HasFact(Slice(v, s).resolutions, req.caseId) <==> HasFact(s.resolutions, req.caseId)
  {
    hide Refused, Accepted, Only, OfCase, HasFact, FreshSince;
    CaseRows(v, s.requirements, req.caseId);
    CaseFacts(v, s.resolutions, req.caseId);
    CaseFacts(v, s.compliance, req.caseId);
    CaseFacts(v, s.incentives, req.caseId);
    CaseFresh(v, s.compliance, req.caseId, req.requestedAt - 30 * DAY);
    CaseFresh(v, s.incentives, req.caseId, req.requestedAt - 3 * DAY);
  }

  lemma SubmissionSeen(v: View, s: Store, req: TransitionRequest)
    requires v.owns(req.caseId)
    ensures SubmittedGate(Slice(v, s), req) == SubmittedGate(s, req)
    ensures HasPackage(Slice(v, s), req.caseId) <==> HasPackage(s, req.caseId)
    ensures LatestFallback(Slice(v, s).fallbacks, req.caseId) == LatestFallback(s.fallbacks, req.caseId)
  {
    hide Refused, Accepted, Only, LatestFallback;
    LatestFallbacks(v, s.fallbacks, req.caseId);
    OnlyIn(s.packages, Parcels(v));
  }

  lemma ProjectSeen(v: View, s: Store, c: string)
    requires v.owns(c)
    ensures c in Slice(v, s).projects <==> c in s.projects
  {
  }

  /** Edges decide alike where the gates behind them do. */
  lemma EdgeAgrees(s: Store, t: Store, req: TransitionRequest, pick: nat)
    requires ApprovalGate(t, req) == ApprovalGate(s, req) && RequirementGate(t, req, pick) == RequirementGate(s, req, pick)
    requires ComplianceGate(t, req) == ComplianceGate(s, req) && IncentivesGate(t, req) == IncentivesGate(s, req)
    requires SubmittedGate(t, req) == SubmittedGate(s, req)
    requires req.caseId in t.projects <==> req.caseId in s.projects
    requires HasFact(t.resolutions, req.caseId) <==> HasFact(s.resolutions, req.caseId)
    requires HasPackage(t, req.caseId) <==> HasPackage(s, req.caseId)
    requires LatestFallback(t.fallbacks, req.caseId) == LatestFallback(s.fallbacks, req.caseId)
    ensures EdgeGate(t, req, pick) == EdgeGate(s, req, pick)
  {
    hide Refused, Accepted, ApprovalGate, RequirementGate, ComplianceGate, IncentivesGate, SubmittedGate,
      HasPackage, HasFact, LatestFallback, Edge;
  }

  lemma EdgeSeen(v: View, s: Store, req: TransitionRequest, pick: nat)
    requires v.owns(req.caseId) && forall r | r in s.reviews && !v.owns(r.caseId) :: !v.mine(r.decisionId)
    requires req.requiredReviewId.Some? ==> v.mine(req.requiredReviewId.value)
    ensures EdgeGate(Slice(v, s), req, pick) == EdgeGate(s, req, pick)
  {
    ProjectSeen(v, s, req.caseId);
    hide Slice, ApprovalGate, RequirementGate, ComplianceGate, IncentivesGate, SubmittedGate, HasPackage, HasFact,
      LatestFallback, EdgeGate;
    ApprovalSeen(v, s, req);
    EvidenceSeen(v, s, req, pick);
    SubmissionSeen(v, s, req);
    EdgeAgrees(s, Slice(v, s), req, pick);
  }

  lemma DecisionSeen(v: View, s: Store, req: TransitionRequest, pick: nat)
    requires v.owns(req.caseId) && req.caseId in s.cases
    requires forall r | r in s.reviews && !v.owns(r.caseId) :: !v.mine(r.decisionId)
    requires req.requiredReviewId.Some? ==> v.mine(req.requiredReviewId.value)
    ensures req.caseId in Slice(v, s).cases && Decide(Slice(v, s), req, pick) == Decide(s, req, pick)
  {
    OwnCaseSeen(v, s, req.caseId);
    hide Slice, Refused, Accepted, EdgeGate;
    EdgeSeen(v, s, req, pick);
  }

  lemma CommitSeen(v: View, s: Store, req: TransitionRequest, r: TransitionResult)
    requires v.owns(req.caseId) && req.caseId in s.cases
    ensures req.caseId in Slice(v, s).cases && Slice(v, Commit(s, req, r)) == Commit(Slice(v, s), req, r)
  {
    hide Only, Kept, Dump;
    OnlyAppended(s.ledger, [LedgerRowFor(req, r)], Ledger(v));
    OnlyOne(LedgerRowFor(req, r), Ledger(v));
    OnlyAppended(s.audit, [AuditRowFor(req, r)], Audit(v));
    OnlyOne(AuditRowFor(req, r), Audit(v));
  }

  lemma TransitionSeen(v: View, s: Store, req: TransitionRequest, pick: nat)
    requires Separate(v, s) && v.owns(req.caseId) && v.mine(req.requestId)
    requires req.requiredReviewId.Some? ==> v.mine(req.requiredReviewId.value)
    ensures var (t, o) := Transition(s, req, pick);
            Transition(Slice(v, s), req, pick) == (Slice(v, t), o) && Separate(v, t)
  {
    hide Only, Kept, Decide, Commit, Recorded, FindRow;
    RowsFound(v, s.ledger, req.requestId);
    if req.caseId in s.cases {
      DecisionSeen(v, s, req, pick);
      CommitSeen(v, s, req, Decide(s, req, pick));
      CommitSeparate(v, s, req, Decide(s, req, pick));
    }
  }

  lemma CommitSeparate(v: View, s: Store, req: TransitionRequest, r: TransitionResult)
    requires Separate(v, s) && v.owns(req.caseId) && req.caseId in s.cases
    ensures Separate(v, Commit(s, req, r))
  {
    hide FactsApart, PackagesApart, AttemptsApart, FallbacksApart, Dump;
  }

  // ---------------------------------------------------------------- evidence loops

  lemma TakenSeen<T(!new)>(v: View, rows: seq<Fact<T>>, id: string)
    requires FactsApart(v, rows) && v.mine(id)
    ensures Evidence.Taken(Only(rows, Facts(v)), id) <==> Evidence.Taken(rows, id)
  {
    OnlyIn(rows, Facts(v));
    var own := Only(rows, Facts(v));
    if Evidence.Taken(rows, id) {
      var i :| 0 <= i < |rows| && rows[i].id == id;
      assert rows[i] in own;
      Evidence.MemberTaken(own, rows[i]);
    }
    if Evidence.Taken(own, id) {
      var i :| 0 <= i < |own| && own[i].id == id;
      assert own[i] in rows;
      Evidence.MemberTaken(rows, own[i]);
    }
  }

  lemma {:induction false} PendingSeen<T(!new)>(v: View, rows: seq<Fact<T>>, c: string, records: seq<Evidence.Record<T>>)
    requires FactsApart(v, rows) && v.owns(c) && forall r | r in records :: v.mine(r.id)
    ensures Evidence.Pending(Only(rows, Facts(v)), c, records) == Evidence.Pending(rows, c, records)
    ensures forall f | f in Evidence.Pending(rows, c, records) :: f.caseId == c
  {
    hide Evidence.Taken, FactsApart, Only;
    if records != [] {
      var n := |records| - 1;
      PendingSeen(v, rows, c, records[..n]);
      assert records[n] in records;
      TakenSeen(v, rows, records[n].id);
    }
  }

  lemma {:induction false} SelectedSeen<T(!new)>(v: View, rows: seq<Fact<T>>, c: string, ids: seq<string>,
                                                 reload: Evidence.Reload)
    requires FactsApart(v, rows) && v.owns(c) && forall id | id in ids :: v.mine(id)
    ensures Evidence.Selected(Only(rows, Facts(v)), c, ids, reload) == Evidence.Selected(rows, c, ids, reload)
  {
    if rows != [] {
      var n := |rows| - 1;
      var before := Only(rows[..n], Facts(v));
      SelectedSeen(v, rows[..n], c, ids, reload);
      assert rows[n] in rows;
      assert (before + [rows[n]])[..|before|] == before && before + [] == before;
    }
  }

  lemma RecordsSeen<T(!new)>(v: View, rows: seq<Fact<T>>, caseExists: bool, c: string, records: seq<Evidence.Record<T>>,
                             reload: Evidence.Reload)
    requires FactsApart(v, rows) && v.owns(c) && forall r | r in records :: v.mine(r.id)
    ensures var (after, o) := Evidence.Persist(rows, caseExists, c, records, reload);
            && Evidence.Persist(Only(rows, Facts(v)), caseExists, c, records, reload) == (Only(after, Facts(v)), o)
            && FactsApart(v, after)
  {
    hide Evidence.Pending, Evidence.Selected, Evidence.DistinctIds, Only;
    var pending, ids := Evidence.Pending(rows, c, records), Evidence.IdsOf(records);
    assert forall i | 0 <= i < |ids| :: ids[i] == records[i].id && records[i] in records;
    PendingSeen(v, rows, c, records);
    SelectedSeen(v, rows, c, ids, reload);
    OnlyAppended(rows, pending, Facts(v));
    OnlyKept(pending, Facts(v));
  }

  /** The ids of the evidence a case is given. */
  ghost predicate RecordsMine(v: View, x: Surroundings, c: string) {
    && (forall r | r in x.jurisdictions(c) :: v.mine(r.id))
    && (forall r | r in x.requirements(c) :: v.mine(r.id))
    && (forall r | r in x.compliance(c) :: v.mine(r.id))
    && (forall r | r in x.incentives(c) :: v.mine(r.id))
  }

  lemma FactsSeen(v: View, s: Store, x: Surroundings, kind: FactKind, c: string)
    requires Separate(v, s) && v.owns(c) && RecordsMine(v, x, c)
    ensures var (t, o) := StoreFacts(s, x, kind, c);
            StoreFacts(Slice(v, s), x, kind, c) == (Slice(v, t), o) && Separate(v, t)
  {
    hide Evidence.Persist, Only, Kept, FactsApart, PackagesApart, AttemptsApart, FallbacksApart;
    var known := c in s.cases;
    RecordsSeen(v, s.resolutions, known, c, x.jurisdictions(c), Evidence.ByCase);
    RecordsSeen(v, s.requirements, known, c, x.requirements(c), Evidence.ByCase);
    RecordsSeen(v, s.compliance, known, c, x.compliance(c), Evidence.ByIds);
    RecordsSeen(v, s.incentives, known, c, x.incentives(c), Evidence.ByIds);
  }

  lemma EnsureSeen(v: View, s: Store, c: string)
    requires Separate(v, s) && v.owns(c)
    ensures var t := s.(cases := WithCase(s.cases, c));
            Slice(v, s).(cases := WithCase(Slice(v, s).cases, c)) == Slice(v, t) && Separate(v, t)
  {
    hide Only, Kept, Under, FactsApart, PackagesApart, AttemptsApart, FallbacksApart;
    UnderUpdated(s.cases, c, CaseRow(ReviewPending, "FULLY_SUPPORTED", None), v.owns);
    KnownCase(v, s.cases, c);
  }

  lemma KnownCase(v: View, cases: map<string, CaseRow>, c: string)
    requires v.owns(c)
    ensures c in Under(cases, v.owns) <==> c in cases
  {
  }

  // ----------------------------------------------------------------------- packages

  lemma {:induction false} PackageFound(v: View, packages: seq<PackageRow>, c: string, requestId: string)
    requires v.owns(c)
    ensures Packages.FindPackage(Only(packages, Parcels(v)), c, requestId) == Packages.FindPackage(packages, c, requestId)
  {
    if packages != [] {
      var n := |packages| - 1;
      var before := Only(packages[..n], Parcels(v));
      PackageFound(v, packages[..n], c, requestId);
      assert (before + [packages[n]])[..|before|] == before && before + [] == before;
    }
  }

  lemma PackageIdSeen(v: View, packages: seq<PackageRow>, id: string)
    requires PackagesApart(v, packages) && v.mine(id)
    ensures Packages.HasPackageId(Only(packages, Parcels(v)), id) <==> Packages.HasPackageId(packages, id)
  {
    OnlyIn(packages, Parcels(v));
    var own := Only(packages, Parcels(v));
    if i :| 0 <= i < |packages| && packages[i].packageId == id {
      assert packages[i] in own;
      var j :| 0 <= j < |own| && own[j] == packages[i];
    }
    if j :| 0 <= j < |own| && own[j].packageId == id {
      assert own[j] in packages;
      var i :| 0 <= i < |packages| && packages[i] == own[j];
    }
  }

  /** The ids a package call draws. */
  predicate PackageMine(v: View, d: Packages.Draw) {
    v.mine(d.packageId) && v.mine(d.manifestArtifact) && forall i | 0 <= i < |d.artifacts| :: v.mine(d.artifacts[i])
  }

  lemma CollisionSeen(v: View, artifacts: map<string, ArtifactRow>, d: Packages.Draw)
    requires PackageMine(v, d) && forall id | id in artifacts && !v.owns(artifacts[id].caseId) :: !v.mine(id)
    ensures Packages.NoCollision(Kept(artifacts, Artifacts(v)), d, |d.artifacts|)
            <==> Packages.NoCollision(artifacts, d, |d.artifacts|)
  {
  }

  lemma {:induction false} ArtifactsSeen(v: View, artifacts: map<string, ArtifactRow>, env: Packages.Env,
                                         req: Packages.PackageRequest, d: Packages.Draw, n: nat)
    requires Packages.Drawn(env, req, d) && n <= |d.artifacts| && v.owns(req.caseId)
    ensures Kept(Packages.ArtifactsWith(artifacts, env, req, d, n), Artifacts(v))
            == Packages.ArtifactsWith(Kept(artifacts, Artifacts(v)), env, req, d, n)
  {
    hide Packages.Drawn, Packages.Document, Packages.ManifestEntry;
    if n > 0 { ArtifactsSeen(v, artifacts, env, req, d, n - 1); }
  }

  lemma WrittenSeen(v: View, s: Store, env: Packages.Env, req: Packages.PackageRequest, d: Packages.Draw)
    requires Packages.Drawn(env, req, d) && v.owns(req.caseId) && req.caseId in s.cases && PackageMine(v, d)
    ensures req.caseId in Slice(v, s).cases
    ensures Slice(v, Packages.Written(s, env, req, d)) == Packages.Written(Slice(v, s), env, req, d)
  {
    hide Only, Kept, Packages.Drawn, Packages.ArtifactsWith, Packages.ManifestEntry, Packages.Document, Packages.Repointed;
    var n := |d.artifacts|;
    var row, rows := Packages.PackageFor(env, req, d), Packages.DocumentRows(env, req, d, n);
    ArtifactsSeen(v, s.artifacts, env, req, d, n);
    OnlyAppended(s.packages, [row], Parcels(v));
    OnlyOne(row, Parcels(v));
    OnlyAppended(s.documents, rows, Documents(v));
    forall r | r in rows ensures Documents(v)(r) {
      var i :| 0 <= i < n && rows[i] == r;
    }
    OnlyKept(rows, Documents(v));
  }

  lemma WrittenSeparate(v: View, s: Store, env: Packages.Env, req: Packages.PackageRequest, d: Packages.Draw)
    requires Separate(v, s) && Packages.Drawn(env, req, d) && v.owns(req.caseId) && req.caseId in s.cases && PackageMine(v, d)
    requires Packages.NoCollision(s.artifacts, d, |d.artifacts|)
    ensures Separate(v, Packages.Written(s, env, req, d))
  {
    hide Packages.Drawn, Packages.ManifestEntry, Packages.Document, Packages.Repointed, FactsApart, AttemptsApart,
      FallbacksApart;
    forall id | id in Packages.Written(s, env, req, d).artifacts && !v.owns(Packages.Written(s, env, req, d).artifacts[id].caseId)
      ensures !v.mine(id)
    {
      PackageArtifact(v, s.artifacts, env, req, d, |d.artifacts|, id);
    }
  }

  lemma {:induction false} PackageArtifact(v: View, artifacts: map<string, ArtifactRow>, env: Packages.Env,
                                           req: Packages.PackageRequest, d: Packages.Draw, n: nat, id: string)
    requires Packages.Drawn(env, req, d) && n <= |d.artifacts| && v.owns(req.caseId)
    requires id in Packages.ArtifactsWith(artifacts, env, req, d, n)
    ensures v.owns(Packages.ArtifactsWith(artifacts, env, req, d, n)[id].caseId)
            || (id in artifacts && Packages.ArtifactsWith(artifacts, env, req, d, n)[id] == artifacts[id])
  {
    hide Packages.Drawn, Packages.Document, Packages.ManifestEntry;
    if n > 0 && id != d.artifacts[n - 1] { PackageArtifact(v, artifacts, env, req, d, n - 1, id); }
  }

  /** Content uploaded where theirs is kept is content they see. */
  lemma {:induction false} ObjectsSeen(v: View, cfg: Settings, m: map<ObjectName, Content>, log: Log)
    requires forall e | e in log :: ValidEvidenceId(e.0) && v.stores(Name(cfg, e.0))
    ensures Under(Objects(cfg, m, log), v.stores) == Objects(cfg, Under(m, v.stores), log)
  {
    hide ValidEvidenceId, Name;
    if log != [] {
      assert log[|log| - 1] in log;
      ObjectsSeen(v, cfg, m, log[..|log| - 1]);
    }
  }

  /** Where the content of drawn ids goes is theirs. */
  ghost predicate LogMine(v: View, cfg: Settings, log: Log) {
    forall e | e in log :: ValidEvidenceId(e.0) && v.stores(Name(cfg, e.0))
  }

  lemma UploadedSeen(v: View, s: Store, cfg: Settings, log: Log)
    requires Separate(v, s) && LogMine(v, cfg, log)
    ensures var t := s.(objects := Objects(cfg, s.objects, log));
            Slice(v, s).(objects := Objects(cfg, Slice(v, s).objects, log)) == Slice(v, t) && Separate(v, t)
  {
    ObjectsSeen(v, cfg, s.objects, log);
    hide Only, Kept, Under, Objects, FactsApart, PackagesApart, AttemptsApart, FallbacksApart;
  }

  lemma WriteSeen(v: View, s: Store, env: Packages.Env, req: Packages.PackageRequest, d: Packages.Draw)
    requires Separate(v, s) && Packages.Drawn(env, req, d) && v.owns(req.caseId) && PackageMine(v, d)
    ensures var (t, o) := Packages.Write(s, env, req, d);
            Packages.Write(Slice(v, s), env, req, d) == (Slice(v, t), o) && Separate(v, t)
  {
    PackageFound(v, s.packages, req.caseId, req.requestId);
    PackageIdSeen(v, s.packages, d.packageId);
    CollisionSeen(v, s.artifacts, d);
    OwnCaseSeen(v, s, req.caseId);
    if req.caseId in s.cases && Packages.NoCollision(s.artifacts, d, |d.artifacts|) {
      WrittenSeen(v, s, env, req, d);
      WrittenSeparate(v, s, env, req, d);
    }
    hide Only, Kept, Under, Packages.Drawn, Packages.Written, Packages.NoCollision, Packages.HasPackageId,
      Packages.FindPackage, Separate, PackageMine;
  }

  lemma OwnCaseSeen(v: View, s: Store, c: string)
    requires v.owns(c)
    ensures c in Slice(v, s).cases <==> c in s.cases
    ensures c in s.cases ==> Slice(v, s).cases[c] == s.cases[c]
  {
  }

  lemma PackageSeen(v: View, s: Store, env: Packages.Env, req: Packages.PackageRequest, d: Packages.Draw)
    requires Separate(v, s) && Packages.Drawn(env, req, d) && v.owns(req.caseId) && PackageMine(v, d)
    requires LogMine(v, env.cfg, Packages.Uploads(env, req, d))
    ensures var (t, o) := Packages.Persist(s, env, req, d);
            Packages.Persist(Slice(v, s), env, req, d) == (Slice(v, t), o) && Separate(v, t)
    ensures Retries.Documents(Slice(v, s), env, req, d) == Retries.Documents(s, env, req, d)
  {
    PackageFound(v, s.packages, req.caseId, req.requestId);
    UploadedSeen(v, s, env.cfg, Packages.Uploads(env, req, d));
    WriteSeen(v, Packages.Uploaded(s, env, req, d), env, req, d);
    hide Only, Kept, Under, Packages.Drawn, Packages.Write, Packages.FindPackage, Separate, PackageMine, Packages.Uploads,
      Objects, LogMine;
  }

  // ------------------------------------------------------------- submission attempts

  /** The ids of an adapter call, and of what it makes. */
  ghost predicate AdapterMine(v: View, env: Submission.Env, req: Submission.AdapterRequest, d: Submission.Draw) {
    && Submission.Drawn(env, d)
    && v.owns(req.caseId) && v.mine(req.packageId) && v.mine(req.attemptId) && v.mine(req.requestId)
    && v.mine(req.idempotencyKey) && v.mine(FallbackId(req.attemptId)) && v.mine(d.receiptId)
    && v.stores(Name(env.cfg, d.receiptId))
  }

  lemma {:induction false} PackageRowFound(v: View, packages: seq<PackageRow>, id: string)
    requires PackagesApart(v, packages) && v.mine(id)
    ensures Submission.FindPackageRow(Only(packages, Parcels(v)), id) == Submission.FindPackageRow(packages, id)
  {
    if packages != [] {
      OnlyFirst(packages, Parcels(v));
      PackageRowFound(v, packages[1..], id);
      var rest := Only(packages[1..], Parcels(v));
      assert ([packages[0]] + rest)[1..] == rest && [] + rest == rest;
    }
  }

  lemma KeySeen(v: View, attempts: map<string, AttemptRow>, req: Submission.AdapterRequest)
    requires AttemptsApart(v, attempts) && v.owns(req.caseId)
    requires v.mine(req.attemptId) && v.mine(req.requestId) && v.mine(req.idempotencyKey)
    ensures Submission.KeyTaken(Kept(attempts, Attempts(v)), req) <==> Submission.KeyTaken(attempts, req)
    ensures forall id | id in attempts && Submission.Matches(attempts[id], req) :: v.owns(attempts[id].caseId)
  {
    if id :| id in attempts && Submission.SharesKey(attempts[id], req) {
      assert id in Kept(attempts, Attempts(v));
    }
  }

  lemma FallbackKeySeen(v: View, rows: seq<FallbackRow>, id: string, c: string, p: PackageRow)
    requires FallbacksApart(v, rows) && v.mine(id) && v.owns(c)
    ensures Submission.FallbackKeyTaken(Only(rows, Fallbacks(v)), id, c, p) <==> Submission.FallbackKeyTaken(rows, id, c, p)
  {
    OnlyIn(rows, Fallbacks(v));
    var own := Only(rows, Fallbacks(v));
    if Submission.FallbackKeyTaken(rows, id, c, p) {
      var i :| 0 <= i < |rows|
               && (rows[i].fallbackId == id
                   || (rows[i].caseId == c && rows[i].packageId == p.packageId && rows[i].version == p.version));
      assert rows[i] in own;
      var j :| 0 <= j < |own| && own[j] == rows[i];
    }
    if Submission.FallbackKeyTaken(own, id, c, p) {
      var j :| 0 <= j < |own|
               && (own[j].fallbackId == id
                   || (own[j].caseId == c && own[j].packageId == p.packageId && own[j].version == p.version));
      assert own[j] in rows;
      var i :| 0 <= i < |rows| && rows[i] == own[j];
    }
  }

  lemma AttachmentsSeen(v: View, s: Store, p: PackageRow, sources: set<Submission.Source>)
    requires v.mine(p.packageId)
    ensures Submission.Attachments(Slice(v, s), p, sources) == Submission.Attachments(s, p, sources)
  {
    OnlyIn(s.documents, Documents(v));
    assert Submission.DocumentIds(Only(s.documents, Documents(v)), p.packageId) == Submission.DocumentIds(s.documents, p.packageId);
  }

  lemma FallbackRowsSeen(v: View, s: Store, env: Submission.Env, req: Submission.AdapterRequest, d: Submission.Draw,
                         p: PackageRow)
    requires AdapterMine(v, env, req, d) && req.caseId in s.cases && p.packageId == req.packageId
    ensures var t := Slice(v, s);
            && req.caseId in t.cases
            && Submission.PendingRow(t, req, p) == Submission.PendingRow(s, req, p)
            && Submission.FallbackFor(t, env, req, p, d.now) == Submission.FallbackFor(s, env, req, p, d.now)
            && Submission.FallbackResult(t, req) == Submission.FallbackResult(s, req)
            && Submission.SentResult(t, req, d) == Submission.SentResult(s, req, d)
  {
    OwnCaseSeen(v, s, req.caseId);
    AttachmentsSeen(v, s, p, Submission.Sources(env, req));
    hide Slice, Submission.Attachments, Submission.Sources, Submission.SupportLevel, FallbackId, Submission.TrackingId;
  }

  lemma FallbackSeen(v: View, s: Store, env: Submission.Env, req: Submission.AdapterRequest, d: Submission.Draw, p: PackageRow)
    requires AdapterMine(v, env, req, d) && req.caseId in s.cases && p.packageId == req.packageId
    ensures req.caseId in Slice(v, s).cases
    ensures Slice(v, Submission.WithFallback(s, env, req, d, p)) == Submission.WithFallback(Slice(v, s), env, req, d, p)
  {
    FallbackRowsSeen(v, s, env, req, d, p);
    var row, f := Submission.Fallen(Submission.PendingRow(s, req, p)), Submission.FallbackFor(s, env, req, p, d.now);
    assert row.caseId == req.caseId && f.caseId == req.caseId;
    hide Only, Under, Kept, Submission.FallbackFor, Submission.PendingRow, Submission.Fallen, FallbackId;
    KeptUpdated(s.attempts, req.attemptId, row, Attempts(v));
    OnlyAppended(s.fallbacks, [f], Fallbacks(v));
    OnlyOne(f, Fallbacks(v));
  }

  lemma FallbackSeparate(v: View, s: Store, env: Submission.Env, req: Submission.AdapterRequest, d: Submission.Draw, p: PackageRow)
    requires AdapterMine(v, env, req, d) && req.caseId in s.cases && Separate(v, s)
    ensures Separate(v, Submission.WithFallback(s, env, req, d, p))
  {
    hide FactsApart, PackagesApart, Submission.Attachments, Submission.Sources, Submission.SupportLevel, FallbackId,
      ValidEvidenceId, Name;
  }

  lemma ReceiptSeen(v: View, s: Store, env: Submission.Env, req: Submission.AdapterRequest, d: Submission.Draw, p: PackageRow)
    requires AdapterMine(v, env, req, d) && req.caseId in s.cases && p.packageId == req.packageId
    ensures req.caseId in Slice(v, s).cases
    ensures Slice(v, Submission.WithReceipt(s, env, req, d, p)) == Submission.WithReceipt(Slice(v, s), env, req, d, p)
  {
    FallbackRowsSeen(v, s, env, req, d, p);
    ReceiptUploadSeen(v, s, env, req, d);
    var row, r := Submission.Sent(Submission.PendingRow(s, req, p), req, d), Submission.ReceiptRow(env, req, d);
    assert row.caseId == req.caseId && r.caseId == req.caseId;
    hide Only, Under, Kept, Submission.PendingRow, Submission.Sent, Submission.ReceiptRow, Submission.ReceiptText, Name,
      ValidEvidenceId;
    KeptUpdated(s.attempts, req.attemptId, row, Attempts(v));
    KeptUpdated(s.artifacts, d.receiptId, r, Artifacts(v));
  }

  lemma ReceiptSeparate(v: View, s: Store, env: Submission.Env, req: Submission.AdapterRequest, d: Submission.Draw, p: PackageRow)
    requires AdapterMine(v, env, req, d) && req.caseId in s.cases && Separate(v, s)
    ensures Separate(v, Submission.WithReceipt(s, env, req, d, p))
  {
    hide FactsApart, PackagesApart, FallbacksApart, Submission.SupportLevel, Submission.ReceiptText, Submission.TrackingId,
      ValidEvidenceId, Name;
  }

  lemma ReceiptUploadSeen(v: View, s: Store, env: Submission.Env, req: Submission.AdapterRequest, d: Submission.Draw)
    requires AdapterMine(v, env, req, d)
    ensures Slice(v, Submission.Uploaded(s, env, req, d)) == Submission.Uploaded(Slice(v, s), env, req, d)
    ensures Separate(v, s) ==> Separate(v, Submission.Uploaded(s, env, req, d))
  {
    hide Only, Kept, Submission.ReceiptText, ValidEvidenceId, Name, FactsApart, PackagesApart, AttemptsApart, FallbacksApart;
  }

  lemma WorkSeen(v: View, s: Store, env: Submission.Env, req: Submission.AdapterRequest, d: Submission.Draw)
    requires Separate(v, s) && AdapterMine(v, env, req, d)
    ensures var (t, o) := Submission.DoWork(s, env, req, d);
            Submission.DoWork(Slice(v, s), env, req, d) == (Slice(v, t), o) && Separate(v, t)
  {
    LookupsSeen(v, s, env, req, d);
    hide Slice, Separate, Submission.FindPackageRow, Submission.KeyTaken, Submission.FallbackKeyTaken,
      Submission.NeedsFallback, Submission.WithFallback, Submission.WithReceipt, Submission.Uploaded, FallbackId,
      Submission.FallbackResult, Submission.SentResult, AdapterMine;
    var found := Submission.FindPackageRow(s.packages, req.packageId);
    if req.caseId in s.cases && found.Some? && !Submission.KeyTaken(s.attempts, req) {
      var p := found.value;
      FallbackRowsSeen(v, s, env, req, d, p);
      if Submission.NeedsFallback(s.cases[req.caseId]) {
        FallbackTaken(v, s, env, req, d, p);
        FallbackSeen(v, s, env, req, d, p);
        FallbackSeparate(v, s, env, req, d, p);
      } else {
        ReceiptUploadSeen(v, s, env, req, d);
        ReceiptSeen(v, s, env, req, d, p);
        ReceiptSeparate(v, s, env, req, d, p);
      }
    }
  }

  lemma FallbackTaken(v: View, s: Store, env: Submission.Env, req: Submission.AdapterRequest, d: Submission.Draw, p: PackageRow)
    requires Separate(v, s) && AdapterMine(v, env, req, d)
    ensures Submission.FallbackKeyTaken(Slice(v, s).fallbacks, FallbackId(req.attemptId), req.caseId, p)
            <==> Submission.FallbackKeyTaken(s.fallbacks, FallbackId(req.attemptId), req.caseId, p)
  {
    hide Submission.FallbackKeyTaken, FallbackId, ValidEvidenceId, Name, Only;
    FallbackKeySeen(v, s.fallbacks, FallbackId(req.attemptId), req.caseId, p);
  }

  lemma ReceiptsSeen(v: View, s: Store, env: Submission.Env, req: Submission.AdapterRequest, d: Submission.Draw)
    requires Separate(v, s) && AdapterMine(v, env, req, d)
    ensures Receipts(Slice(v, s), env, req, d) == Receipts(s, env, req, d)
  {
    LookupsSeen(v, s, env, req, d);
    hide Slice, Separate, Submission.FindPackageRow, Submission.KeyTaken, Submission.NeedsFallback, Submission.ReceiptText,
      FallbackId, ValidEvidenceId, Name;
  }

  /** What the adapter looks up is theirs. */
  lemma LookupsSeen(v: View, s: Store, env: Submission.Env, req: Submission.AdapterRequest, d: Submission.Draw)
    requires Separate(v, s) && AdapterMine(v, env, req, d)
    ensures var t := Slice(v, s);
            && (req.caseId in t.cases <==> req.caseId in s.cases)
            && (req.caseId in s.cases ==> t.cases[req.caseId] == s.cases[req.caseId])
            && Submission.FindPackageRow(t.packages, req.packageId) == Submission.FindPackageRow(s.packages, req.packageId)
            && (Submission.KeyTaken(t.attempts, req) <==> Submission.KeyTaken(s.attempts, req))
            && (d.receiptId in t.artifacts <==> d.receiptId in s.artifacts)
  {
    hide Submission.FindPackageRow, Submission.KeyTaken, FallbackId, ValidEvidenceId, Name, Only;
    PackageRowFound(v, s.packages, req.packageId);
    KeySeen(v, s.attempts, req);
    OwnCaseSeen(v, s, req.caseId);
    ReceiptIdSeen(v, s, d.receiptId);
  }

  lemma ReceiptIdSeen(v: View, s: Store, id: string)
    requires Separate(v, s) && v.mine(id)
    ensures id in Slice(v, s).artifacts <==> id in s.artifacts
  {
  }

  lemma {:induction false} FallbacksFound(v: View, rows: seq<FallbackRow>, id: string)
    requires FallbacksApart(v, rows) && v.mine(id)
    ensures Submission.FallbacksOf(Only(rows, Fallbacks(v)), id) == Submission.FallbacksOf(rows, id)
  {
    if rows != [] {
      var n := |rows| - 1;
      var before := Only(rows[..n], Fallbacks(v));
      FallbacksFound(v, rows[..n], id);
      assert (before + [rows[n]])[..|before|] == before && before + [] == before;
    }
  }

  lemma LoadSeen(v: View, s: Store, id: string)
    requires Separate(v, s) && id in s.attempts && v.owns(s.attempts[id].caseId)
    ensures id in Slice(v, s).attempts && Submission.Load(Slice(v, s), id) == Submission.Load(s, id)
  {
    FallbacksFound(v, s.fallbacks, id);
    hide Only, Under, Submission.FallbacksOf;
  }

  lemma ReloadSeen(v: View, s: Store, env: Submission.Env, req: Submission.AdapterRequest, d: Submission.Draw)
    requires Separate(v, s) && AdapterMine(v, env, req, d)
    ensures Submission.Reload(Slice(v, s), req) == Submission.Reload(s, req)
  {
    KeySeen(v, s.attempts, req);
    forall id | id in s.attempts && v.owns(s.attempts[id].caseId)
      ensures id in Slice(v, s).attempts && Submission.Load(Slice(v, s), id) == Submission.Load(s, id)
    {
      LoadSeen(v, s, id);
    }
    hide Only, Under, Submission.Load, Submission.Matches, Separate;
  }

  lemma HandledSeen(v: View, s: Store, env: Submission.Env, req: Submission.AdapterRequest, d: Submission.Draw,
                    o: Outcome<Submission.AdapterResult>)
    requires Separate(v, s) && AdapterMine(v, env, req, d)
    ensures var (t, p) := Submission.Handled(s, req, o);
            p == o && Submission.Handled(Slice(v, s), req, o) == (Slice(v, t), o) && Separate(v, t)
  {
    hide Only, Under, FactsApart, PackagesApart, FallbacksApart, ValidEvidenceId, Name, FallbackId;
    assert Kept(Submission.Marked(s.attempts, req.attemptId), Attempts(v))
           == Submission.Marked(Kept(s.attempts, Attempts(v)), req.attemptId);
  }

  lemma AdaptSeen(v: View, s: Store, env: Submission.Env, req: Submission.AdapterRequest, d: Submission.Draw)
    requires Separate(v, s) && AdapterMine(v, env, req, d)
    ensures var (t, o) := Submission.Adapt(s, env, req, d, false);
            Submission.Adapt(Slice(v, s), env, req, d, false) == (Slice(v, t), o) && Separate(v, t)
  {
    WorkSeen(v, s, env, req, d);
    OwnAttemptSeen(v, s, req.attemptId);
    hide Slice, Separate, Submission.DoWork, Submission.Reload, Submission.Load, Submission.Handled, AdapterMine;
    if req.attemptId in s.attempts {
      LoadSeen(v, s, req.attemptId);
      HandledSeen(v, s, env, req, d, Submission.Load(s, req.attemptId));
    } else {
      var (t, work) := Submission.DoWork(s, env, req, d);
      if !work.Committed? {
        var o := if work.Absent? then Raised(LookupError) else Submission.Reload(t, req);
        ReloadSeen(v, t, env, req, d);
        HandledSeen(v, t, env, req, d, o);
        assert Submission.Adapt(s, env, req, d, false) == Submission.Handled(t, req, o);
        assert Submission.DoWork(Slice(v, s), env, req, d) == (Slice(v, t), work);
        assert Submission.Adapt(Slice(v, s), env, req, d, false) == Submission.Handled(Slice(v, t), req, o);
      }
    }
  }

  lemma OwnAttemptSeen(v: View, s: Store, id: string)
    requires Separate(v, s) && v.mine(id)
    ensures id in Slice(v, s).attempts <==> id in s.attempts
    ensures id in s.attempts ==> v.owns(s.attempts[id].caseId)
  {
  }
}
