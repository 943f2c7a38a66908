/** Submission packages: the documents rendered, registered and tied together by a
    manifest, and the transaction that stores them. */
module Packages {
  import opened Contracts
  import opened Tables
  import opened Templates
  import opened Registry

  datatype DocumentSpec = DocumentSpec(
    documentId: string,
    documentType: string,
    templateName: string,
    template: string,                   // the text of the template file
    variables: Variables)

  datatype Compilation = Compilation(
    documents: seq<DocumentSpec>,
    version: string,
    family: string,
    attachments: seq<string>)

  datatype Reference = Reference(documentId: string, documentType: string, artifactId: string, digest: string)

  datatype Manifest = Manifest(
    manifestId: string,
    caseId: string,
    version: string,
    references: seq<Reference>,
    attachments: seq<string>,
    family: string)

  /** The surroundings of the activity: object storage, the JSON encoding of a manifest,
      and the document adapter. */
  datatype Env = Env(cfg: Settings, encode: Manifest -> Content, compile: string -> Compilation)

  datatype PackageRequest = PackageRequest(requestId: string, caseId: string)

  /** The ids one call draws. */
  datatype Draw = Draw(packageId: string, manifestId: string, manifestArtifact: string, artifacts: seq<string>)

  /** Every drawn id has the form `new_evidence_id` gives, and each document has one. */
  predicate Drawn(env: Env, req: PackageRequest, draw: Draw) {
    && ValidSettings(env.cfg)
    && ValidEvidenceId(draw.manifestArtifact)
    && |draw.artifacts| == |env.compile(req.caseId).documents|
    && forall i | 0 <= i < |draw.artifacts| :: ValidEvidenceId(draw.artifacts[i])
  }

  // -------------------------------------------------------------- what is generated

  /** `generate_document`: the template with the runtime case id among its variables. */
  function Rendered(spec: DocumentSpec, caseId: string): Content {
    Sequential(spec.template, WithCaseId(spec.variables, caseId))
  }

  function Document(env: Env, req: PackageRequest, draw: Draw, i: nat): Registered
    requires Drawn(env, req, draw) && i < |draw.artifacts|
  {
    RegisteredAs(env.cfg, draw.artifacts[i], Rendered(env.compile(req.caseId).documents[i], req.caseId))
  }

  function ReferenceTo(spec: DocumentSpec, r: Registered): Reference {
    Reference(spec.documentId, spec.documentType, r.artifactId, r.digest)
  }

  function References(env: Env, req: PackageRequest, draw: Draw): seq<Reference>
    requires Drawn(env, req, draw)
  {
    seq(|draw.artifacts|, i requires 0 <= i < |draw.artifacts| =>
      ReferenceTo(env.compile(req.caseId).documents[i], Document(env, req, draw, i)))
  }

  function ManifestOf(env: Env, req: PackageRequest, draw: Draw): Manifest
    requires Drawn(env, req, draw)
  {
    var spec := env.compile(req.caseId);
    Manifest(draw.manifestId, req.caseId, spec.version, References(env, req, draw), spec.attachments, spec.family)
  }

  function ManifestEntry(env: Env, req: PackageRequest, draw: Draw): Registered
    requires Drawn(env, req, draw)
  {
    RegisteredAs(env.cfg, draw.manifestArtifact, env.encode(ManifestOf(env, req, draw)))
  }

  /** What is uploaded, in order: the documents, then the manifest. */
  function DocumentLog(env: Env, req: PackageRequest, draw: Draw, n: nat): Log
    requires Drawn(env, req, draw) && n <= |draw.artifacts|
  {
    seq(n, i requires 0 <= i < n =>
      (draw.artifacts[i], Rendered(env.compile(req.caseId).documents[i], req.caseId)))
  }

  function Uploads(env: Env, req: PackageRequest, draw: Draw): (log: Log)
    requires Drawn(env, req, draw)
    ensures forall e | e in log :: ValidEvidenceId(e.0)
  {
    DocumentLog(env, req, draw, |draw.artifacts|)
    + [(draw.manifestArtifact, env.encode(ManifestOf(env, req, draw)))]
  }

  // ------------------------------------------------------------------ what is stored

  /** The newest package of the case made for the request. */
  function FindPackage(packages: seq<PackageRow>, caseId: string, requestId: string): (r: Option<PackageRow>)
    ensures r.Some? ==> r.value in packages && r.value.caseId == caseId && r.value.requestId == requestId
    ensures r.None? <==> forall p | p in packages :: !(p.caseId == caseId && p.requestId == requestId)
  {
    if packages == [] then None
    else
      var last := packages[|packages| - 1];
      if last.caseId == caseId && last.requestId == requestId then Some(last)
      else FindPackage(packages[..|packages| - 1], caseId, requestId)
  }

  predicate HasPackageId(packages: seq<PackageRow>, id: string) {
    exists i :: 0 <= i < |packages| && packages[i].packageId == id
  }

  function EvidenceRow(kind: ArtifactClass, caseId: string, linked: string, r: Registered): ArtifactRow {
    ArtifactRow(kind, caseId, linked, r.digest, r.uri, r.contentBytes)
  }

  function PackageFor(env: Env, req: PackageRequest, draw: Draw): PackageRow
    requires Drawn(env, req, draw)
  {
    PackageRow(draw.packageId, req.caseId, req.requestId, env.compile(req.caseId).version,
               draw.manifestArtifact, ManifestEntry(env, req, draw).digest)
  }

  function DocumentFor(env: Env, req: PackageRequest, draw: Draw, i: nat): DocumentRow
    requires Drawn(env, req, draw) && i < |draw.artifacts|
  {
    var spec := env.compile(req.caseId).documents[i];
    DocumentRow(draw.packageId, spec.documentId, spec.documentType, spec.templateName,
                draw.artifacts[i], Document(env, req, draw, i).digest)
  }

  function DocumentRows(env: Env, req: PackageRequest, draw: Draw, n: nat): seq<DocumentRow>
    requires Drawn(env, req, draw) && n <= |draw.artifacts|
  {
    seq(n, i requires 0 <= i < n => DocumentFor(env, req, draw, i))
  }

  /** The artifact table after the manifest and the first n documents. */
  function ArtifactsWith(artifacts: map<string, ArtifactRow>, env: Env, req: PackageRequest, draw: Draw, n: nat)
    : map<string, ArtifactRow>
    requires Drawn(env, req, draw) && n <= |draw.artifacts|
  {
    if n == 0 then
      artifacts[draw.manifestArtifact :=
        EvidenceRow(ManifestClass, req.caseId, draw.packageId, ManifestEntry(env, req, draw))]
    else
      ArtifactsWith(artifacts, env, req, draw, n - 1)
        [draw.artifacts[n - 1] :=
          EvidenceRow(DocumentClass, req.caseId, env.compile(req.caseId).documents[n - 1].documentId,
                      Document(env, req, draw, n - 1))]
  }

  /** No drawn artifact id is taken or drawn twice. */
  predicate NoCollision(artifacts: map<string, ArtifactRow>, draw: Draw, n: nat)
    requires n <= |draw.artifacts|
  {
    && draw.manifestArtifact !in artifacts
    && (forall i | 0 <= i < n :: draw.artifacts[i] !in artifacts && draw.artifacts[i] != draw.manifestArtifact)
    && (forall i, j | 0 <= i < j < n :: draw.artifacts[i] != draw.artifacts[j])
  }

  function Repointed(row: CaseRow, packageId: string): CaseRow {
    row.(currentPackageId := Some(packageId),
         caseState := if row.caseState == IncentivesComplete then DocumentComplete else row.caseState)
  }

  function Written(s: Store, env: Env, req: PackageRequest, draw: Draw): Store
    requires Drawn(env, req, draw) && req.caseId in s.cases
  {
    var n := |draw.artifacts|;
    s.(packages := s.packages + [PackageFor(env, req, draw)],
       documents := s.documents + DocumentRows(env, req, draw, n),
       artifacts := ArtifactsWith(s.artifacts, env, req, draw, n),
       cases := s.cases[req.caseId := Repointed(s.cases[req.caseId], draw.packageId)])
  }

  /** The second transaction. Losing on a key, or on the case's foreign key, rolls it back
      and looks for the package of a racing call. */
  function Write(s: Store, env: Env, req: PackageRequest, draw: Draw): (Store, Outcome<string>)
    requires Drawn(env, req, draw)
  {
    if HasPackageId(s.packages, draw.packageId) then (s, Returned(draw.packageId))
    else if req.caseId in s.cases && NoCollision(s.artifacts, draw, |draw.artifacts|)
    then (Written(s, env, req, draw), Returned(draw.packageId))
    else match FindPackage(s.packages, req.caseId, req.requestId)
      case Some(raced) => (s, Returned(raced.packageId))
      case None => (s, Raised(RuntimeError))
  }

  /** A whole call: look for the request's package; failing that, upload and write. */
  function Persist(s: Store, env: Env, req: PackageRequest, draw: Draw): (Store, Outcome<string>)
    requires Drawn(env, req, draw)
  {
    if env.compile(req.caseId).documents == [] then (s, Raised(LookupError))
    else match FindPackage(s.packages, req.caseId, req.requestId)
      case Some(p) => (s, Returned(p.packageId))
      case None => Write(Uploaded(s, env, req, draw), env, req, draw)
  }

  function Uploaded(s: Store, env: Env, req: PackageRequest, draw: Draw): Store
    requires Drawn(env, req, draw)
  {
    s.(objects := Objects(env.cfg, s.objects, Uploads(env, req, draw)))
  }

  // ------------------------------------------------------------------- the activity

  method RegisterDocuments(db: Database, env: Env, req: PackageRequest, draw: Draw)
    returns (registered: seq<Registered>)
    requires Drawn(env, req, draw)
    modifies db`objects
    ensures |registered| == |draw.artifacts|
    ensures forall i | 0 <= i < |registered| :: registered[i] == Document(env, req, draw, i)
    ensures db.objects == Objects(env.cfg, old(db.objects), DocumentLog(env, req, draw, |draw.artifacts|))
  {
    hide Sequential, Unreplaced, ObjectKey, ValidEvidenceId, WithCaseId, ReadsBack, StorageUri;
    var spec := env.compile(req.caseId);
    registered := [];
    for i := 0 to |spec.documents|
      invariant |registered| == i
      invariant forall k | 0 <= k < i :: registered[k] == Document(env, req, draw, k)
      invariant db.objects == Objects(env.cfg, old(db.objects), DocumentLog(env, req, draw, i))
    {
      var variables := WithCaseId(spec.documents[i].variables, req.caseId);
      var text, unreplaced := RenderTemplate(spec.documents[i].template, variables);
      var entry := Register(db, env.cfg, draw.artifacts[i], text);
      registered := registered + [entry];
      assert DocumentLog(env, req, draw, i + 1)[..i] == DocumentLog(env, req, draw, i);
    }
  }

  method BuildReferences(env: Env, req: PackageRequest, draw: Draw, registered: seq<Registered>)
    returns (references: seq<Reference>)
    requires Drawn(env, req, draw) && |registered| == |draw.artifacts|
    requires forall i | 0 <= i < |registered| :: registered[i] == Document(env, req, draw, i)
    ensures references == References(env, req, draw)
  {
    hide Rendered, ObjectKey, ValidEvidenceId, StorageUri;
    var spec := env.compile(req.caseId);
    references := [];
    for i := 0 to |registered|
      invariant |references| == i
      invariant forall k | 0 <= k < i :: references[k] == ReferenceTo(spec.documents[k], registered[k])
    {
      references := references + [ReferenceTo(spec.documents[i], registered[i])];
    }
  }

  /** The registrations: every document, then the manifest that refers to them. */
  method RegisterAll(db: Database, env: Env, req: PackageRequest, draw: Draw)
    returns (registered: seq<Registered>, manifest: Registered)
    requires Drawn(env, req, draw)
    modifies db`objects
    ensures |registered| == |draw.artifacts|
    ensures forall i | 0 <= i < |registered| :: registered[i] == Document(env, req, draw, i)
    ensures manifest == ManifestEntry(env, req, draw)
    ensures db.objects == Objects(env.cfg, old(db.objects), Uploads(env, req, draw))
  {
    hide Rendered, ObjectKey, ValidEvidenceId, ReadsBack, StorageUri, Document, DocumentLog, References;
    registered := RegisterDocuments(db, env, req, draw);
    var references := BuildReferences(env, req, draw, registered);
    var spec := env.compile(req.caseId);
    var actual := Manifest(draw.manifestId, req.caseId, spec.version, references, spec.attachments, spec.family);
    manifest := Register(db, env.cfg, draw.manifestArtifact, env.encode(actual));
    var log := Uploads(env, req, draw);
    assert log[..|log| - 1] == DocumentLog(env, req, draw, |draw.artifacts|);
  }

  lemma NoCollisionStart(artifacts: map<string, ArtifactRow>, draw: Draw)
    ensures NoCollision(artifacts, draw, 0) <==> draw.manifestArtifact !in artifacts
    ensures draw.manifestArtifact in artifacts ==> !NoCollision(artifacts, draw, |draw.artifacts|)
  {
  }

  /** One more document id is free exactly when no row inserted so far has it. */
  lemma NoCollisionStep(artifacts: map<string, ArtifactRow>, after: map<string, ArtifactRow>, draw: Draw, i: nat)
    requires i < |draw.artifacts| && NoCollision(artifacts, draw, i)
    requires after.Keys == artifacts.Keys + {draw.manifestArtifact} + set k | 0 <= k < i :: draw.artifacts[k]
    ensures NoCollision(artifacts, draw, i + 1) <==> draw.artifacts[i] !in after
    ensures draw.artifacts[i] in after ==> !NoCollision(artifacts, draw, |draw.artifacts|)
  {
  }

  lemma {:induction false} KeysWith(artifacts: map<string, ArtifactRow>, env: Env, req: PackageRequest, draw: Draw, n: nat)
    requires Drawn(env, req, draw) && n <= |draw.artifacts|
    ensures ArtifactsWith(artifacts, env, req, draw, n).Keys
            == artifacts.Keys + {draw.manifestArtifact} + set k | 0 <= k < n :: draw.artifacts[k]
  {
    hide Drawn, EvidenceRow, Document, ManifestEntry;
    if n > 0 {
      KeysWith(artifacts, env, req, draw, n - 1);
    }
  }

  /** The inserts of the second transaction, in its own view of the tables; `ok` is false
      where a key is taken. */
  method InsertRows(artifacts: map<string, ArtifactRow>, env: Env, req: PackageRequest, draw: Draw,
                    registered: seq<Registered>, manifest: Registered)
    returns (ok: bool, after: map<string, ArtifactRow>, rows: seq<DocumentRow>)
    requires Drawn(env, req, draw)
    requires |registered| == |draw.artifacts| && manifest == ManifestEntry(env, req, draw)
    requires forall i | 0 <= i < |registered| :: registered[i] == Document(env, req, draw, i)
    ensures ok <==> NoCollision(artifacts, draw, |draw.artifacts|)
    ensures ok ==> after == ArtifactsWith(artifacts, env, req, draw, |draw.artifacts|)
    ensures ok ==> rows == DocumentRows(env, req, draw, |draw.artifacts|)
  {
    hide Rendered, ObjectKey, ValidEvidenceId, StorageUri, ManifestEntry, NoCollision;
    after, rows := artifacts, [];
    NoCollisionStart(artifacts, draw);
    if draw.manifestArtifact in after { return false, after, rows; }
    after := after[draw.manifestArtifact := EvidenceRow(ManifestClass, req.caseId, draw.packageId, manifest)];
    for i := 0 to |registered|
      invariant NoCollision(artifacts, draw, i)
      invariant after == ArtifactsWith(artifacts, env, req, draw, i)
      invariant rows == DocumentRows(env, req, draw, i)
    {
      var id := registered[i].artifactId;
      KeysWith(artifacts, env, req, draw, i);
      NoCollisionStep(artifacts, after, draw, i);
      if id in after { return false, after, rows; }
      var spec := env.compile(req.caseId).documents[i];
      after := after[id := EvidenceRow(DocumentClass, req.caseId, spec.documentId, registered[i])];
      var row := DocumentRow(draw.packageId, spec.documentId, spec.documentType, spec.templateName, id, registered[i].digest);
      assert row == DocumentFor(env, req, draw, i);
      rows := rows + [row];
    }
    ok := true;
  }

  method ScanForRequest(packages: seq<PackageRow>, req: PackageRequest) returns (found: Option<PackageRow>)
    ensures found == FindPackage(packages, req.caseId, req.requestId)
  {
    var n := |packages|;
    assert packages[..n] == packages;
    while n > 0
      invariant 0 <= n <= |packages|
      invariant FindPackage(packages, req.caseId, req.requestId)
                == FindPackage(packages[..n], req.caseId, req.requestId)
    {
      n := n - 1;
      assert packages[..n + 1][..n] == packages[..n];
      if packages[n].caseId == req.caseId && packages[n].requestId == req.requestId {
        return Some(packages[n]);
      }
    }
    return None;
  }

  method CommitRows(db: Database, env: Env, req: PackageRequest, draw: Draw, manifest: Registered,
                    artifacts: map<string, ArtifactRow>, rows: seq<DocumentRow>)
    requires Drawn(env, req, draw) && req.caseId in db.cases && manifest == ManifestEntry(env, req, draw)
    requires artifacts == ArtifactsWith(db.artifacts, env, req, draw, |draw.artifacts|)
    requires rows == DocumentRows(env, req, draw, |draw.artifacts|)
    modifies db
    ensures db.Tables() == Written(old(db.Tables()), env, req, draw)
  {
    hide Drawn, ManifestEntry, ArtifactsWith, DocumentRows;
    db.artifacts := artifacts;
    db.packages := db.packages
      + [PackageRow(draw.packageId, req.caseId, req.requestId, env.compile(req.caseId).version,
                    draw.manifestArtifact, manifest.digest)];
    db.documents := db.documents + rows;
    db.cases := db.cases[req.caseId := Repointed(db.cases[req.caseId], draw.packageId)];
  }

  /** The second transaction. */
  method WritePackage(db: Database, env: Env, req: PackageRequest, draw: Draw,
                      registered: seq<Registered>, manifest: Registered)
    returns (outcome: Outcome<string>)
    requires Drawn(env, req, draw)
    requires |registered| == |draw.artifacts| && manifest == ManifestEntry(env, req, draw)
    requires forall i | 0 <= i < |registered| :: registered[i] == Document(env, req, draw, i)
    modifies db
    ensures db.Tables() == Write(old(db.Tables()), env, req, draw).0
    ensures outcome == Write(old(db.Tables()), env, req, draw).1
  {
    hide Drawn, Document, ManifestEntry, ArtifactsWith, DocumentRows, NoCollision, FindPackage, HasPackageId, Repointed;
    if HasPackageId(db.packages, draw.packageId) {
      return Returned(draw.packageId);
    }
    var ok, artifacts, rows := InsertRows(db.artifacts, env, req, draw, registered, manifest);
    if !ok || req.caseId !in db.cases {
      var raced := ScanForRequest(db.packages, req);
      return if raced.Some? then Returned(raced.value.packageId) else Raised(RuntimeError);
    }
    CommitRows(db, env, req, draw, manifest, artifacts, rows);
    return Returned(draw.packageId);
  }

  /** `persist_submission_package`, with no other call in between. */
  method PersistSubmissionPackage(db: Database, env: Env, req: PackageRequest, draw: Draw)
    returns (outcome: Outcome<string>)
    requires Drawn(env, req, draw)
    modifies db
    ensures db.Tables() == Persist(old(db.Tables()), env, req, draw).0
    ensures outcome == Persist(old(db.Tables()), env, req, draw).1
  {
    hide Document, ManifestEntry, Write, FindPackage, Objects, Uploads;
    if env.compile(req.caseId).documents == [] {
      return Raised(LookupError);
    }
    var existing := ScanForRequest(db.packages, req);
    if existing.Some? {
      return Returned(existing.value.packageId);
    }
    var registered, manifest := RegisterAll(db, env, req, draw);
    assert db.Tables() == Uploaded(old(db.Tables()), env, req, draw);
    outcome := WritePackage(db, env, req, draw, registered, manifest);
  }
}
