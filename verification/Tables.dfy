/** The database: row types, the value of all tables at one instant, and the class
    whose fields the activities update. */
module Tables {
  import opened Contracts

  datatype CaseRow = CaseRow(
    caseState: CaseState,
    supportLevel: string,               // portal_support_level
    currentPackageId: Option<string>)

  /** A row of one of the append-only evidence tables. The body is what a gate reads:
      nothing, a freshness state, or the instant the record was dated. */
  datatype Fact<T> = Fact(id: string, caseId: string, body: T)

  datatype ReviewOutcome = Accept | AcceptWithDissent | Block

  datatype IndependenceStatus = Pass | Warning | EscalationRequired | BlockedByRate

  datatype ReviewRow = ReviewRow(
    decisionId: string,
    caseId: string,
    outcome: ReviewOutcome,
    reviewerId: string,
    authorId: string,
    status: IndependenceStatus,
    decidedAt: int,
    idempotencyKey: string)

  datatype ContradictionRow = ContradictionRow(caseId: string, blocking: bool, open: bool)

  datatype OverrideRow = OverrideRow(caseId: string, expiresAt: int, surfaces: seq<Surface>)

  datatype PackageRow = PackageRow(
    packageId: string,
    caseId: string,
    requestId: string,                  // provenance.request_id
    version: string,
    manifestArtifactId: string,
    manifestDigest: string)

  datatype DocumentRow = DocumentRow(
    packageId: string,
    documentId: string,
    documentType: string,
    templateName: string,
    artifactId: string,
    digest: string)

  datatype ArtifactClass = ManifestClass | DocumentClass | ReceiptClass

  datatype ArtifactRow = ArtifactRow(
    artifactClass: ArtifactClass,
    caseId: string,
    linkedObjectId: string,
    checksum: string,
    storageUri: string,
    contentBytes: nat)

  datatype AttemptStatus = PendingAttempt | SubmittedAttempt | ManualFallback | FailedAttempt

  datatype AdapterOutcome = Success | UnsupportedWorkflow | AdapterFailed

  datatype AttemptRow = AttemptRow(
    caseId: string,
    packageId: string,
    manifestArtifactId: string,
    targetFamily: string,
    supportLevel: string,
    requestId: string,
    idempotencyKey: string,
    number: int,
    status: AttemptStatus,
    outcome: Option<AdapterOutcome>,
    trackingId: Option<string>,
    receiptId: Option<string>,
    submittedAt: Option<int>,
    failureClass: Option<string>)

  datatype FallbackRow = FallbackRow(
    fallbackId: string,
    caseId: string,
    packageId: string,
    version: string,
    attemptId: string,
    packageHash: string,
    supportLevel: string,
    attachments: set<string>,
    proofConfirmed: bool,               // proof_bundle_state == "CONFIRMED"
    proofArtifactId: Option<string>,
    createdAt: int)

  datatype LedgerRow = LedgerRow(
    transitionId: string,
    caseId: string,
    eventType: EventType,
    fromState: CaseState,
    toState: CaseState,
    actorType: string,
    actorId: string,
    correlationId: string,
    occurredAt: int,
    payload: Option<Payload>)

  datatype AuditDetail =
    | TransitionDetail(caseId: string, fromState: CaseState, toState: CaseState, applied: bool,
                       eventType: EventType, reason: Option<Reason>, guardId: Option<GuardId>)
    | ReviewDetail(decisionId: string, caseId: string)

  datatype AuditRow = AuditRow(
    actorType: string,
    actorId: string,
    correlationId: string,
    requestId: string,
    occurredAt: int,
    detail: AuditDetail)

  datatype ObjectName = ObjectName(bucket: string, key: string)

  // Content is text: the UTF-8 encoding around it is not modelled.
  type Content = string

  /** The committed value of every table, and of the object store. */
  datatype Store = Store(
    cases: map<string, CaseRow>,
    projects: map<string, string>,      // case_id (unique) to project_id
    resolutions: seq<Fact<()>>,
    requirements: seq<Fact<string>>,    // body: freshness_state
    compliance: seq<Fact<int>>,         // body: evaluated_at
    incentives: seq<Fact<int>>,         // body: assessed_at
    reviews: seq<ReviewRow>,
    contradictions: map<string, ContradictionRow>,
    overrides: map<string, OverrideRow>,
    packages: seq<PackageRow>,
    documents: seq<DocumentRow>,
    artifacts: map<string, ArtifactRow>,
    attempts: map<string, AttemptRow>,
    fallbacks: seq<FallbackRow>,
    ledger: seq<LedgerRow>,
    audit: seq<AuditRow>,
    objects: map<ObjectName, Content>)

  const EMPTY: Store :=
    Store(map[], map[], [], [], [], [], [], map[], map[], [], [], map[], map[], [], [], [], map[])

  class Database {
    var cases: map<string, CaseRow>
    var projects: map<string, string>
    var resolutions: seq<Fact<()>>
    var requirements: seq<Fact<string>>
    var compliance: seq<Fact<int>>
    var incentives: seq<Fact<int>>
    var reviews: seq<ReviewRow>
    var contradictions: map<string, ContradictionRow>
    var overrides: map<string, OverrideRow>
    var packages: seq<PackageRow>
    var documents: seq<DocumentRow>
    var artifacts: map<string, ArtifactRow>
    var attempts: map<string, AttemptRow>
    var fallbacks: seq<FallbackRow>
    var ledger: seq<LedgerRow>
    var audit: seq<AuditRow>
    var objects: map<ObjectName, Content>

    function Tables(): Store
      reads this
    {
      Store(cases, projects, resolutions, requirements, compliance, incentives, reviews,
            contradictions, overrides, packages, documents, artifacts, attempts, fallbacks,
            ledger, audit, objects)
    }

    constructor ()
      ensures Tables() == EMPTY
    {
      cases, projects, resolutions, requirements := map[], map[], [], [];
      compliance, incentives, reviews := [], [], [];
      contradictions, overrides, packages, documents := map[], map[], [], [];
      artifacts, attempts, fallbacks := map[], map[], [];
      ledger, audit, objects := [], [], map[];
    }

    /** Commits made elsewhere. */
    method Become(next: Store)
      modifies this
      ensures Tables() == next
    {
      BecomeEvidence(next);
      BecomePackages(next);
      BecomeHistory(next);
    }

    method BecomeEvidence(next: Store)
      modifies `cases, `projects, `resolutions, `requirements, `compliance, `incentives
      ensures cases == next.cases && projects == next.projects && resolutions == next.resolutions
      ensures requirements == next.requirements && compliance == next.compliance && incentives == next.incentives
    {
      cases, projects, resolutions := next.cases, next.projects, next.resolutions;
      requirements, compliance, incentives := next.requirements, next.compliance, next.incentives;
    }

    method BecomePackages(next: Store)
      modifies `reviews, `contradictions, `overrides, `packages, `documents, `artifacts
      ensures reviews == next.reviews && contradictions == next.contradictions && overrides == next.overrides
      ensures packages == next.packages && documents == next.documents && artifacts == next.artifacts
    {
      reviews, contradictions, overrides := next.reviews, next.contradictions, next.overrides;
      packages, documents, artifacts := next.packages, next.documents, next.artifacts;
    }

    method BecomeHistory(next: Store)
      modifies `attempts, `fallbacks, `ledger, `audit, `objects
      ensures attempts == next.attempts && fallbacks == next.fallbacks && ledger == next.ledger
      ensures audit == next.audit && objects == next.objects
    {
      attempts, fallbacks, ledger := next.attempts, next.fallbacks, next.ledger;
      audit, objects := next.audit, next.objects;
    }
  }

  // ------------------------------------------------------------------ reads

  /** `session.get(CaseTransitionLedger, id)`. */
  function FindRow(ledger: seq<LedgerRow>, id: string): (r: Option<LedgerRow>)
    ensures r.Some? ==> r.value in ledger && r.value.transitionId == id
    ensures r.None? <==> forall row | row in ledger :: row.transitionId != id
  {
    if ledger == [] then None
    else if ledger[0].transitionId == id then Some(ledger[0])
    else FindRow(ledger[1..], id)
  }

  /** `session.get(ReviewDecision, id)`. */
  function FindReview(reviews: seq<ReviewRow>, id: string): (r: Option<ReviewRow>)
    ensures r.Some? ==> r.value in reviews && r.value.decisionId == id
    ensures r.None? <==> forall row | row in reviews :: row.decisionId != id
  {
    if reviews == [] then None
    else if reviews[0].decisionId == id then Some(reviews[0])
    else FindReview(reviews[1..], id)
  }

  /** The rows of one case, in table order. */
  function OfCase<T>(rows: seq<Fact<T>>, caseId: string): (r: seq<Fact<T>>)
    ensures forall f | f in r :: f in rows && f.caseId == caseId
    ensures forall f | f in rows && f.caseId == caseId :: f in r
  {
    if rows == [] then []
    else if rows[0].caseId == caseId then [rows[0]] + OfCase(rows[1..], caseId)
    else OfCase(rows[1..], caseId)
  }

  ghost predicate HasFact<T(!new)>(rows: seq<Fact<T>>, caseId: string) {
    exists f | f in rows :: f.caseId == caseId
  }

  /** Some record of the case is dated no earlier than the deadline. */
  ghost predicate FreshSince(rows: seq<Fact<int>>, caseId: string, deadline: int) {
    exists f | f in rows :: f.caseId == caseId && f.body >= deadline
  }

  /** `order_by(created_at.desc()).first()` over the fallbacks of a case. */
  function LatestFallback(rows: seq<FallbackRow>, caseId: string): (r: Option<FallbackRow>)
    ensures r.Some? ==> r.value in rows && r.value.caseId == caseId
    ensures r.Some? ==> forall f | f in rows && f.caseId == caseId :: f.createdAt <= r.value.createdAt
    ensures r.None? <==> forall f | f in rows :: f.caseId != caseId
  {
    if rows == [] then None
    else
      var last, before := rows[|rows| - 1], LatestFallback(rows[..|rows| - 1], caseId);
      if last.caseId == caseId && (before.None? || before.value.createdAt <= last.createdAt)
      then Some(last)
      else before
  }

  lemma FindReviewStable(a: seq<ReviewRow>, b: seq<ReviewRow>, id: string)
    requires a <= b && FindReview(a, id).Some?
    ensures FindReview(b, id) == FindReview(a, id)
  {
    if a[0].decisionId != id {
      assert a[1..] <= b[1..];
      FindReviewStable(a[1..], b[1..], id);
    }
  }

  lemma FindRowStable(a: seq<LedgerRow>, b: seq<LedgerRow>, id: string)
    requires a <= b && FindRow(a, id).Some?
    ensures FindRow(b, id) == FindRow(a, id)
  {
    if a[0].transitionId != id {
      assert a[1..] <= b[1..];
      FindRowStable(a[1..], b[1..], id);
    }
  }

  /** A row appended for an id not yet present is the one a lookup then finds. */
  lemma FindRowAppended(a: seq<LedgerRow>, row: LedgerRow)
    requires FindRow(a, row.transitionId).None?
    ensures FindRow(a + [row], row.transitionId) == Some(row)
  {
    if a != [] {
      assert (a + [row])[1..] == a[1..] + [row];
      FindRowAppended(a[1..], row);
    }
  }
}
