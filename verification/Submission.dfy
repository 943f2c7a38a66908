/** The submission adapter: one call, what it commits, and what a failure leaves. */
module Submission {
  import opened Contracts
  import opened Tables
  import opened Registry
  import opened RequestIds

  datatype AdapterRequest = AdapterRequest(
    requestId: string,
    attemptId: string,
    caseId: string,
    packageId: string,
    family: string,
    idempotencyKey: string,
    number: int)

  datatype AdapterResult = AdapterResult(
    attemptId: string,
    status: AttemptStatus,
    outcome: AdapterOutcome,
    trackingId: Option<string>,
    receiptId: Option<string>,
    submittedAt: Option<int>,
    fallbackId: Option<string>,
    supportLevel: string,
    failureClass: Option<string>)

  datatype Source = FromManifest | FromDocuments

  /** Object storage, and the submission plan of a case on a portal family, of which the
      attachment sources are modelled. */
  datatype Env = Env(cfg: Settings, plan: (string, string) -> Option<set<Source>>)

  /** What one call draws: the id of a receipt, and the time. */
  datatype Draw = Draw(receiptId: string, now: int)

  predicate Drawn(env: Env, draw: Draw) {
    ValidSettings(env.cfg) && ValidEvidenceId(draw.receiptId)
  }

  // -------------------------------------------------------------------- the attempt row

  function SupportLevel(row: CaseRow): string {
    if row.supportLevel == "" then "UNKNOWN" else row.supportLevel
  }

  predicate NeedsFallback(row: CaseRow) {
    SupportLevel(row) == "UNSUPPORTED" || SupportLevel(row) == "PARTIALLY_SUPPORTED_READ_ONLY"
  }

  function FindPackageRow(packages: seq<PackageRow>, id: string): (r: Option<PackageRow>)
    ensures r.Some? ==> r.value in packages && r.value.packageId == id
    ensures r.None? <==> forall p | p in packages :: p.packageId != id
  {
    if packages == [] then None
    else if packages[0].packageId == id then Some(packages[0])
    else FindPackageRow(packages[1..], id)
  }

  function PendingRow(s: Store, req: AdapterRequest, p: PackageRow): AttemptRow
    requires req.caseId in s.cases
  {
    AttemptRow(req.caseId, req.packageId, p.manifestArtifactId, req.family, s.cases[req.caseId].supportLevel,
               req.requestId, req.idempotencyKey, req.number, PendingAttempt, None, None, None, None, None)
  }

  /** A key of the attempt table is taken: its id, request id, idempotency key, or the
      number within the case. */
  ghost predicate KeyTaken(attempts: map<string, AttemptRow>, req: AdapterRequest) {
    req.attemptId in attempts || exists id :: id in attempts && SharesKey(attempts[id], req)
  }

  predicate SharesKey(a: AttemptRow, req: AdapterRequest) {
    || a.requestId == req.requestId
    || a.idempotencyKey == req.idempotencyKey
    || (a.caseId == req.caseId && a.number == req.number)
  }

  predicate FallbackKeyTaken(fallbacks: seq<FallbackRow>, id: string, caseId: string, p: PackageRow) {
    exists i :: 0 <= i < |fallbacks|
      && (fallbacks[i].fallbackId == id
          || (fallbacks[i].caseId == caseId && fallbacks[i].packageId == p.packageId && fallbacks[i].version == p.version))
  }

  ghost function DocumentIds(rows: seq<DocumentRow>, packageId: string): set<string> {
    set d | d in rows && d.packageId == packageId :: d.artifactId
  }

  /** `_resolve_required_attachments`: the distinct, non-empty ids of the planned sources. */
  ghost function Attachments(s: Store, p: PackageRow, sources: set<Source>): set<string> {
    (if FromManifest in sources then {p.manifestArtifactId} else {})
    + (if FromDocuments in sources then DocumentIds(s.documents, p.packageId) else {})
    - {""}
  }

  function Sources(env: Env, req: AdapterRequest): set<Source> {
    match env.plan(req.caseId, req.family)
    case Some(sources) => sources
    case None => {FromManifest}
  }

  ghost function FallbackFor(s: Store, env: Env, req: AdapterRequest, p: PackageRow, now: int): FallbackRow
    requires req.caseId in s.cases
  {
    FallbackRow(FallbackId(req.attemptId), req.caseId, p.packageId, p.version, req.attemptId, p.manifestDigest,
                SupportLevel(s.cases[req.caseId]), Attachments(s, p, Sources(env, req)), false, None, now)
  }

  function TrackingId(req: AdapterRequest): string {
    req.family + "-" + req.attemptId
  }

  function ReceiptText(req: AdapterRequest): Content {
    "receipt: case=" + req.caseId + " attempt=" + req.attemptId + " tracking=" + TrackingId(req)
  }

  function ReceiptRow(env: Env, req: AdapterRequest, draw: Draw): ArtifactRow
    requires Drawn(env, draw)
  {
    var r := RegisteredAs(env.cfg, draw.receiptId, ReceiptText(req));
    ArtifactRow(ReceiptClass, req.caseId, req.attemptId, r.digest, r.uri, r.contentBytes)
  }

  function Fallen(row: AttemptRow): AttemptRow {
    row.(status := ManualFallback, outcome := Some(UnsupportedWorkflow))
  }

  function Sent(row: AttemptRow, req: AdapterRequest, draw: Draw): AttemptRow {
    row.(status := SubmittedAttempt, outcome := Some(Success), trackingId := Some(TrackingId(req)),
         receiptId := Some(draw.receiptId), submittedAt := Some(draw.now))
  }

  // ------------------------------------------------------------------ the transaction

  datatype Work = Committed(result: AdapterResult) | Absent | Clashed

  function FallbackResult(s: Store, req: AdapterRequest): AdapterResult
    requires req.caseId in s.cases
  {
    AdapterResult(req.attemptId, ManualFallback, UnsupportedWorkflow, None, None, None,
                  Some(FallbackId(req.attemptId)), SupportLevel(s.cases[req.caseId]), None)
  }

  function SentResult(s: Store, req: AdapterRequest, draw: Draw): AdapterResult
    requires req.caseId in s.cases
  {
    AdapterResult(req.attemptId, SubmittedAttempt, Success, Some(TrackingId(req)), Some(draw.receiptId),
                  Some(draw.now), None, SupportLevel(s.cases[req.caseId]), None)
  }

  ghost function WithFallback(s: Store, env: Env, req: AdapterRequest, draw: Draw, p: PackageRow): Store
    requires req.caseId in s.cases
  {
    s.(attempts := s.attempts[req.attemptId := Fallen(PendingRow(s, req, p))],
       fallbacks := s.fallbacks + [FallbackFor(s, env, req, p, draw.now)])
  }

  function Uploaded(s: Store, env: Env, req: AdapterRequest, draw: Draw): Store
    requires Drawn(env, draw)
  {
    s.(objects := s.objects[Name(env.cfg, draw.receiptId) := ReceiptText(req)])
  }

  function WithReceipt(s: Store, env: Env, req: AdapterRequest, draw: Draw, p: PackageRow): Store
    requires Drawn(env, draw) && req.caseId in s.cases
  {
    Uploaded(s, env, req, draw)
      .(attempts := s.attempts[req.attemptId := Sent(PendingRow(s, req, p), req, draw)],
        artifacts := s.artifacts[draw.receiptId := ReceiptRow(env, req, draw)])
  }

  /** The work under the case lock, from the PENDING insert to the commit. Losing on any
      key rolls every row back; an uploaded receipt stays in the object store. */
  ghost function DoWork(s: Store, env: Env, req: AdapterRequest, draw: Draw): (Store, Work)
    requires Drawn(env, draw)
  {
    var p := FindPackageRow(s.packages, req.packageId);
    if req.caseId !in s.cases || p.None? then (s, Absent)
    else if KeyTaken(s.attempts, req) then (s, Clashed)
    else if NeedsFallback(s.cases[req.caseId]) then
      if FallbackKeyTaken(s.fallbacks, FallbackId(req.attemptId), req.caseId, p.value) then (s, Clashed)
      else (WithFallback(s, env, req, draw, p.value), Committed(FallbackResult(s, req)))
    else if draw.receiptId in s.artifacts then (Uploaded(s, env, req, draw), Clashed)
    else (WithReceipt(s, env, req, draw, p.value), Committed(SentResult(s, req, draw)))
  }

  // ---------------------------------------------------------------- an existing attempt

  function FallbacksOf(rows: seq<FallbackRow>, attemptId: string): seq<FallbackRow> {
    if rows == [] then []
    else
      var n := |rows| - 1;
      FallbacksOf(rows[..n], attemptId) + (if rows[n].attemptId == attemptId then [rows[n]] else [])
  }

  /** `_load_existing_result`; more than one fallback of the attempt raises. */
  function Load(s: Store, id: string): Outcome<AdapterResult>
    requires id in s.attempts
  {
    var a, manual := s.attempts[id], FallbacksOf(s.fallbacks, id);
    if |manual| > 1 then Raised(RuntimeError)
    else Returned(AdapterResult(id, a.status, if a.outcome.Some? then a.outcome.value else AdapterFailed,
                                a.trackingId, a.receiptId, a.submittedAt,
                                if manual == [] then None else Some(manual[0].fallbackId),
                                a.supportLevel, a.failureClass))
  }

  predicate Matches(a: AttemptRow, req: AdapterRequest) {
    a.requestId == req.requestId || a.idempotencyKey == req.idempotencyKey
  }

  /** The one attempt with the request id or the idempotency key; none or several raise. */
  ghost function Reload(s: Store, req: AdapterRequest): Outcome<AdapterResult> {
    if id :| id in s.attempts && Matches(s.attempts[id], req) then
      if exists other :: other in s.attempts && other != id && Matches(s.attempts[other], req)
      then Raised(RuntimeError)
      else Load(s, id)
    else Raised(RuntimeError)
  }

  /** The error handler: a committed attempt that was not submitted is marked failed. */
  function MarkFailed(s: Store, req: AdapterRequest): Store {
    s.(attempts := Marked(s.attempts, req.attemptId))
  }

  function Marked(attempts: map<string, AttemptRow>, id: string): map<string, AttemptRow> {
    if id in attempts && attempts[id].status != SubmittedAttempt then attempts[id := Broken(attempts[id])]
    else attempts
  }

  function Broken(row: AttemptRow): AttemptRow {
    row.(status := FailedAttempt, outcome := Some(AdapterFailed), failureClass := Some("ADAPTER_ERROR"))
  }

  function Handled(s: Store, req: AdapterRequest, o: Outcome<AdapterResult>): (Store, Outcome<AdapterResult>) {
    (if o.Raised? then MarkFailed(s, req) else s, o)
  }

  /** A whole call with nothing in between; `broken` says that the database or the object
      store fails it before its first read. */
  ghost function Adapt(s: Store, env: Env, req: AdapterRequest, draw: Draw, broken: bool)
    : (Store, Outcome<AdapterResult>)
    requires Drawn(env, draw)
  {
    if broken then Handled(s, req, Raised(StorageError))
    else if req.attemptId in s.attempts then Handled(s, req, Load(s, req.attemptId))
    else
      var (t, work) := DoWork(s, env, req, draw);
      match work
      case Committed(result) => (t, Returned(result))
      case Absent => Handled(t, req, Raised(LookupError))
      case Clashed => Handled(t, req, Reload(t, req))
  }

  // --------------------------------------------------------------------- the activity

  method CheckKeys(attempts: map<string, AttemptRow>, req: AdapterRequest) returns (taken: bool)
    ensures taken <==> KeyTaken(attempts, req)
  {
    if req.attemptId in attempts { return true; }
    var rest := attempts.Keys;
    while rest != {}
      invariant rest <= attempts.Keys
      invariant forall id | id in attempts.Keys - rest :: !SharesKey(attempts[id], req)
      decreases rest
    {
      var id :| id in rest;
      if SharesKey(attempts[id], req) { return true; }
      rest := rest - {id};
    }
    return false;
  }

  method ResolveAttachments(db: Database, p: PackageRow, sources: set<Source>) returns (ids: set<string>)
    ensures ids == Attachments(db.Tables(), p, sources)
  {
    ids := {};
    if FromManifest in sources {
      ids := ids + {p.manifestArtifactId};
    }
    if FromDocuments in sources {
      for i := 0 to |db.documents|
        invariant ids == (if FromManifest in sources then {p.manifestArtifactId} else {})
                         + DocumentIds(db.documents[..i], p.packageId)
      {
        assert db.documents[..i + 1] == db.documents[..i] + [db.documents[i]];
        if db.documents[i].packageId == p.packageId {
          ids := ids + {db.documents[i].artifactId};
        }
      }
      assert db.documents[..|db.documents|] == db.documents;
    }
    ids := ids - {""};
  }

  method LoadExisting(db: Database, id: string) returns (o: Outcome<AdapterResult>)
    requires id in db.attempts
    ensures o == Load(db.Tables(), id)
  {
    var a := db.attempts[id];
    var manual: seq<FallbackRow> := [];
    for i := 0 to |db.fallbacks|
      invariant manual == FallbacksOf(db.fallbacks[..i], id)
    {
      assert db.fallbacks[..i + 1][..i] == db.fallbacks[..i];
      if db.fallbacks[i].attemptId == id { manual := manual + [db.fallbacks[i]]; }
    }
    assert db.fallbacks[..|db.fallbacks|] == db.fallbacks;
    if |manual| > 1 { return Raised(RuntimeError); }
    return Returned(AdapterResult(id, a.status, if a.outcome.Some? then a.outcome.value else AdapterFailed,
                                  a.trackingId, a.receiptId, a.submittedAt,
                                  if manual == [] then None else Some(manual[0].fallbackId),
                                  a.supportLevel, a.failureClass));
  }

  method ReloadRaced(db: Database, req: AdapterRequest) returns (o: Outcome<AdapterResult>)
    ensures o == Reload(db.Tables(), req)
  {
    var rest, found := db.attempts.Keys, {};
    while rest != {}
      invariant rest <= db.attempts.Keys
      invariant found == set id | id in db.attempts.Keys - rest && Matches(db.attempts[id], req)
      decreases rest
    {
      var id :| id in rest;
      rest := rest - {id};
      if Matches(db.attempts[id], req) { found := found + {id}; }
    }
    assert forall id | id in db.attempts :: Matches(db.attempts[id], req) <==> id in found;
    if found == {} { return Raised(RuntimeError); }
    var id :| id in found;
    if found != {id} {
      assert exists other :: other in found && other != id by {
        assert found - {id} != {};
      }
      return Raised(RuntimeError);
    }
    o := LoadExisting(db, id);
  }

  method RecordFailure(db: Database, req: AdapterRequest)
    modifies db`attempts
    ensures db.Tables() == MarkFailed(old(db.Tables()), req)
  {
    if req.attemptId in db.attempts {
      var attempt := db.attempts[req.attemptId];
      if attempt.status != SubmittedAttempt {
        db.attempts := db.attempts[req.attemptId :=
          attempt.(status := FailedAttempt, outcome := Some(AdapterFailed), failureClass := Some("ADAPTER_ERROR"))];
      }
    }
  }

  /** The fallback branch, with the attempt inserted. */
  method FallBack(db: Database, env: Env, req: AdapterRequest, draw: Draw, p: PackageRow) returns (work: Work)
    requires req.caseId in db.cases && req.attemptId in db.attempts
    modifies db`attempts, db`fallbacks
    ensures work == Clashed || work == Committed(FallbackResult(db.Tables(), req))
    ensures work.Clashed? <==> FallbackKeyTaken(old(db.fallbacks), FallbackId(req.attemptId), req.caseId, p)
    ensures work.Committed? ==>
              db.fallbacks == old(db.fallbacks) + [FallbackFor(old(db.Tables()), env, req, p, draw.now)]
    ensures work.Committed? ==>
              db.attempts == old(db.attempts)[req.attemptId := Fallen(old(db.attempts)[req.attemptId])]
    ensures work.Clashed? ==> db.Tables() == old(db.Tables())
  {
    var level := SupportLevel(db.cases[req.caseId]);
    var id := FallbackId(req.attemptId);
    if FallbackKeyTaken(db.fallbacks, id, req.caseId, p) { return Clashed; }
    var attachments := ResolveAttachments(db, p, Sources(env, req));
    db.fallbacks := db.fallbacks
      + [FallbackRow(id, req.caseId, p.packageId, p.version, req.attemptId, p.manifestDigest, level, attachments,
                     false, None, draw.now)];
    db.attempts := db.attempts[req.attemptId :=
      db.attempts[req.attemptId].(status := ManualFallback, outcome := Some(UnsupportedWorkflow))];
    work := Committed(AdapterResult(req.attemptId, ManualFallback, UnsupportedWorkflow, None, None, None,
                                    Some(id), level, None));
  }

  /** The portal branch, with the attempt inserted: the receipt is uploaded first. */
  method Send(db: Database, env: Env, req: AdapterRequest, draw: Draw) returns (work: Work)
    requires Drawn(env, draw) && req.caseId in db.cases && req.attemptId in db.attempts
    modifies db`attempts, db`artifacts, db`objects
    ensures work == Clashed || work == Committed(SentResult(db.Tables(), req, draw))
    ensures work.Clashed? <==> draw.receiptId in old(db.artifacts)
    ensures db.objects == Uploaded(old(db.Tables()), env, req, draw).objects
    ensures db.artifacts == if work.Clashed? then old(db.artifacts)
                            else old(db.artifacts)[draw.receiptId := ReceiptRow(env, req, draw)]
    ensures db.attempts == if work.Clashed? then old(db.attempts)
                           else old(db.attempts)[req.attemptId := Sent(old(db.attempts)[req.attemptId], req, draw)]
  {
    hide ReceiptText, TrackingId, ObjectKey, StorageUri, ValidEvidenceId, ReadsBack, SupportLevel;
    var tracking := TrackingId(req);
    var receipt := Register(db, env.cfg, draw.receiptId, ReceiptText(req));
    if draw.receiptId in db.artifacts { return Clashed; }
    db.artifacts := db.artifacts[draw.receiptId :=
      ArtifactRow(ReceiptClass, req.caseId, req.attemptId, receipt.digest, receipt.uri, receipt.contentBytes)];
    db.attempts := db.attempts[req.attemptId :=
      db.attempts[req.attemptId].(status := SubmittedAttempt, outcome := Some(Success), trackingId := Some(tracking),
                                  receiptId := Some(draw.receiptId), submittedAt := Some(draw.now))];
    work := Committed(AdapterResult(req.attemptId, SubmittedAttempt, Success, Some(tracking), Some(draw.receiptId),
                                    Some(draw.now), None, SupportLevel(db.cases[req.caseId]), None));
  }

  method TryFallback(db: Database, env: Env, req: AdapterRequest, draw: Draw, p: PackageRow) returns (work: Work)
    requires Drawn(env, draw) && req.caseId in db.cases
    modifies db`attempts, db`fallbacks
    ensures FallbackKeyTaken(old(db.fallbacks), FallbackId(req.attemptId), req.caseId, p) ==>
              work == Clashed && db.Tables() == old(db.Tables())
    ensures !FallbackKeyTaken(old(db.fallbacks), FallbackId(req.attemptId), req.caseId, p) ==>
              && work == Committed(FallbackResult(old(db.Tables()), req))
              && db.Tables() == WithFallback(old(db.Tables()), env, req, draw, p)
  {
    hide SupportLevel, FallbackKeyTaken, FallbackId, Sources;
    var before := db.attempts;
    db.attempts := db.attempts[req.attemptId := PendingRow(db.Tables(), req, p)];
    work := FallBack(db, env, req, draw, p);
    if work.Clashed? { db.attempts := before; }
  }

  method TrySend(db: Database, env: Env, req: AdapterRequest, draw: Draw, p: PackageRow) returns (work: Work)
    requires Drawn(env, draw) && req.caseId in db.cases
    modifies db`attempts, db`artifacts, db`objects
    ensures draw.receiptId in old(db.artifacts) ==>
              work == Clashed && db.Tables() == Uploaded(old(db.Tables()), env, req, draw)
    ensures draw.receiptId !in old(db.artifacts) ==>
              && work == Committed(SentResult(old(db.Tables()), req, draw))
              && db.Tables() == WithReceipt(old(db.Tables()), env, req, draw, p)
  {
    hide SupportLevel, ReceiptRow, ValidEvidenceId, ObjectKey, TrackingId, ReceiptText, Name;
    var before := db.attempts;
    db.attempts := db.attempts[req.attemptId := PendingRow(db.Tables(), req, p)];
    work := Send(db, env, req, draw);
    if work.Clashed? { db.attempts := before; }
  }

  /** The transaction, rolled back where a key is taken. */
  method RunWork(db: Database, env: Env, req: AdapterRequest, draw: Draw) returns (work: Work)
    requires Drawn(env, draw)
    modifies db
    ensures db.Tables() == DoWork(old(db.Tables()), env, req, draw).0
    ensures work == DoWork(old(db.Tables()), env, req, draw).1
  {
    hide FindPackageRow, KeyTaken, NeedsFallback, FallbackKeyTaken, WithFallback, WithReceipt, Uploaded,
      FallbackResult, SentResult;
    if req.caseId !in db.cases { return Absent; }
    var p := FindPackageRow(db.packages, req.packageId);
    if p.None? { return Absent; }
    var taken := CheckKeys(db.attempts, req);
    if taken { return Clashed; }
    if NeedsFallback(db.cases[req.caseId]) {
      work := TryFallback(db, env, req, draw, p.value);
    } else {
      work := TrySend(db, env, req, draw, p.value);
    }
  }

  /** `deterministic_submission_adapter`, with no other call in between. */
  method DeterministicSubmissionAdapter(db: Database, env: Env, req: AdapterRequest, draw: Draw, broken: bool)
    returns (o: Outcome<AdapterResult>)
    requires Drawn(env, draw)
    modifies db
    ensures db.Tables() == Adapt(old(db.Tables()), env, req, draw, broken).0
    ensures o == Adapt(old(db.Tables()), env, req, draw, broken).1
  {
    if broken {
      o := Raised(StorageError);
    } else if req.attemptId in db.attempts {
      o := LoadExisting(db, req.attemptId);
    } else {
      var work := RunWork(db, env, req, draw);
      match work {
        case Committed(result) => o := Returned(result);
        case Absent => o := Raised(LookupError);
        case Clashed => o := ReloadRaced(db, req);
      }
    }
    if o.Raised? { RecordFailure(db, req); }
  }
}
