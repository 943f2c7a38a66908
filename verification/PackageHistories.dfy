/** What stays true of stored packages over any run of `persist_submission_package` calls
    with the rest of the system committing in between. */
module PackageHistories {
  import opened Contracts
  import opened Tables
  import opened Registry
  import opened Packages
  import Protocol

  // ------------------------------------------------------------------ consistency

  function DocumentsOf(rows: seq<DocumentRow>, packageId: string): seq<DocumentRow> {
    if rows == [] then []
    else
      var n := |rows| - 1;
      DocumentsOf(rows[..n], packageId) + (if rows[n].packageId == packageId then [rows[n]] else [])
  }

  /** The registration an artifact row records. */
  function Entry(id: string, row: ArtifactRow): Registered {
    Registered(id, row.checksum, row.contentBytes, row.storageUri)
  }

  /** The artifact is stored with this digest, and reading its URI back gives content
      that has it. */
  predicate Backed(s: Store, cfg: Settings, id: string, digest: string) {
    id in s.artifacts && s.artifacts[id].checksum == digest && ReadsBack(cfg, s.objects, Entry(id, s.artifacts[id]))
  }

  /** What reading an artifact's URI gives. */
  function ContentOf(s: Store, cfg: Settings, id: string): Option<Content> {
    if id !in s.artifacts then None
    else match ParseUri(cfg.accepts, s.artifacts[id].storageUri)
      case None => None
      case Some(name) => if name in s.objects then Some(s.objects[name]) else None
  }

  predicate Corresponds(r: Reference, d: DocumentRow) {
    r.documentId == d.documentId && r.documentType == d.documentType
    && r.artifactId == d.artifactId && r.digest == d.digest
  }

  predicate Describes(s: Store, env: Env, p: PackageRow, m: Manifest) {
    var rows := DocumentsOf(s.documents, p.packageId);
    && m.caseId == p.caseId && m.version == p.version
    && ContentOf(s, env.cfg, p.manifestArtifactId) == Some(env.encode(m))
    && |m.references| == |rows|
    && forall i | 0 <= i < |rows| :: Corresponds(m.references[i], rows[i])
  }

  /** The stored manifest refers, one to one and in order, to the package's document rows,
      and the manifest and every document read back with their recorded digests. */
  ghost predicate PackageHolds(s: Store, env: Env, p: PackageRow) {
    && p.caseId in s.cases
    && Backed(s, env.cfg, p.manifestArtifactId, p.manifestDigest)
    && (exists m :: Describes(s, env, p, m))
    && forall d | d in DocumentsOf(s.documents, p.packageId) :: Backed(s, env.cfg, d.artifactId, d.digest)
  }

  function LastPackage(packages: seq<PackageRow>, caseId: string): Option<string> {
    if packages == [] then None
    else
      var last := packages[|packages| - 1];
      if last.caseId == caseId then Some(last.packageId)
      else LastPackage(packages[..|packages| - 1], caseId)
  }

  predicate IdsDistinct(packages: seq<PackageRow>) {
    forall i, j | 0 <= i < j < |packages| :: packages[i].packageId != packages[j].packageId
  }

  predicate OnePerRequest(packages: seq<PackageRow>) {
    forall i, j | 0 <= i < j < |packages| ::
      !(packages[i].caseId == packages[j].caseId && packages[i].requestId == packages[j].requestId)
  }

  /** `current_package_id` names the case's last persisted package. */
  predicate CurrentIsLast(s: Store) {
    forall c | c in s.cases :: s.cases[c].currentPackageId == LastPackage(s.packages, c)
  }

  predicate DocumentsBelong(s: Store) {
    forall d | d in s.documents :: HasPackageId(s.packages, d.packageId)
  }

  /** The artifact is a package's manifest or one of its documents. */
  ghost predicate Referenced(s: Store, id: string) {
    (exists p :: p in s.packages && p.manifestArtifactId == id) || (exists d :: d in s.documents && d.artifactId == id)
  }

  /** Every artifact a package refers to has its row, which points at the artifact's own key,
      where its content is. */
  ghost predicate Addressed(s: Store, cfg: Settings) {
    forall id: string | Referenced(s, id) ::
      && id in s.artifacts
      && ValidEvidenceId(id)
      && s.artifacts[id].storageUri == StorageUri(Name(cfg, id))
      && ReadsBack(cfg, s.objects, Entry(id, s.artifacts[id]))
  }

  /** What holds of packages even where calls overlap. */
  ghost predicate Sturdy(s: Store, env: Env) {
    && ValidSettings(env.cfg)
    && Addressed(s, env.cfg)
    && (forall p | p in s.packages :: PackageHolds(s, env, p))
    && IdsDistinct(s.packages)
    && CurrentIsLast(s)
    && DocumentsBelong(s)
  }

  ghost predicate Consistent(s: Store, env: Env) {
    Sturdy(s, env) && OnePerRequest(s.packages)
  }

  // ----------------------------------------------------------------------- steps

  /** The ids a call draws are new. */
  predicate FreshDraw(s: Store, draw: Draw) {
    NoCollision(s.artifacts, draw, |draw.artifacts|) && !HasPackageId(s.packages, draw.packageId)
  }

  /** A commit of some other part of the system: it touches no package, document or current
      package, nor the evidence of one; other evidence may come and go, with or without its
      content. */
  ghost predicate Elsewhere(s: Store, t: Store, cfg: Settings) {
    && t.packages == s.packages && t.documents == s.documents
    && (forall c | c in s.cases :: c in t.cases && t.cases[c].currentPackageId == s.cases[c].currentPackageId)
    && (forall c | c in t.cases && c !in s.cases :: t.cases[c].currentPackageId == None)
    && (forall id: string | Referenced(s, id) && id in s.artifacts :: id in t.artifacts && t.artifacts[id] == s.artifacts[id])
    && (forall id: string | Referenced(s, id) && ValidEvidenceId(id) && Name(cfg, id) in s.objects ::
          Name(cfg, id) in t.objects && t.objects[Name(cfg, id)] == s.objects[Name(cfg, id)])
  }

  datatype Move = Call(req: PackageRequest, draw: Draw) | Other(next: Store)

  ghost predicate Allowed(s: Store, env: Env, m: Move) {
    match m
    case Call(req, draw) => Drawn(env, req, draw) && FreshDraw(s, draw)
    case Other(next) => Elsewhere(s, next, env.cfg)
  }

  function After(s: Store, env: Env, m: Move): Store
    requires m.Call? ==> Drawn(env, m.req, m.draw)
  {
    match m
    case Call(req, draw) => Persist(s, env, req, draw).0
    case Other(next) => next
  }

  ghost predicate Legal(s: Store, env: Env, moves: seq<Move>)
    decreases |moves|
  {
    moves == [] || (Allowed(s, env, moves[0]) && Legal(After(s, env, moves[0]), env, moves[1..]))
  }

  ghost function Run(s: Store, env: Env, moves: seq<Move>): Store
    requires Legal(s, env, moves)
    decreases |moves|
  {
    if moves == [] then s else Run(After(s, env, moves[0]), env, moves[1..])
  }

  // ----------------------------------------------------------- what uploads leave alone

  lemma {:induction false} ObjectsFrame(cfg: Settings, start: map<ObjectName, Content>, log: Log, name: ObjectName)
    requires forall e | e in log :: ValidEvidenceId(e.0)
    requires forall e | e in log :: Name(cfg, e.0) != name
    ensures name in Objects(cfg, start, log) <==> name in start
    ensures name in start ==> Objects(cfg, start, log)[name] == start[name]
  {
    hide ObjectKey, ValidEvidenceId;
    if log != [] {
      ObjectsFrame(cfg, start, log[..|log| - 1], name);
    }
  }

  lemma UploadsAreFresh(s: Store, env: Env, req: PackageRequest, draw: Draw)
    requires Drawn(env, req, draw) && NoCollision(s.artifacts, draw, |draw.artifacts|)
    ensures FreshIds(Uploads(env, req, draw))
    ensures forall e | e in Uploads(env, req, draw) :: e.0 !in s.artifacts
  {
    hide Rendered, ManifestOf, ValidEvidenceId;
    var log, n := Uploads(env, req, draw), |draw.artifacts|;
    assert forall i | 0 <= i < n :: log[i].0 == draw.artifacts[i];
  }

  /** Uploading under new ids leaves every stored artifact readable as it was. */
  lemma UploadKeeps(s: Store, env: Env, req: PackageRequest, draw: Draw, id: string)
    requires Drawn(env, req, draw) && NoCollision(s.artifacts, draw, |draw.artifacts|)
    requires id in s.artifacts && ValidEvidenceId(id)
    ensures var t, name := Uploaded(s, env, req, draw), Name(env.cfg, id);
            (name in t.objects <==> name in s.objects) && (name in s.objects ==> t.objects[name] == s.objects[name])
  {
    hide ObjectKey, ValidEvidenceId, Uploads, Objects, NoCollision;
    var log := Uploads(env, req, draw);
    UploadsAreFresh(s, env, req, draw);
    forall e | e in log ensures Name(env.cfg, e.0) != Name(env.cfg, id) {
      if Name(env.cfg, e.0) == Name(env.cfg, id) { NameInjective(env.cfg, e.0, id); }
    }
    ObjectsFrame(env.cfg, s.objects, log, Name(env.cfg, id));
  }

  lemma AddressedName(s: Store, cfg: Settings, id: string)
    requires ValidSettings(cfg) && Addressed(s, cfg) && Referenced(s, id)
    ensures id in s.artifacts && ValidEvidenceId(id)
    ensures ParseUri(cfg.accepts, s.artifacts[id].storageUri) == Some(Name(cfg, id)) && Name(cfg, id) in s.objects
  {
    hide ParseUri, ObjectKey, StorageUri, Printable, Referenced;
    KeyIsPrintable(cfg, id);
    UriRoundTrip(cfg.accepts, Name(cfg, id));
  }

  lemma UploadedElsewhere(s: Store, env: Env, req: PackageRequest, draw: Draw)
    requires ValidSettings(env.cfg) && Addressed(s, env.cfg)
    requires Drawn(env, req, draw) && NoCollision(s.artifacts, draw, |draw.artifacts|)
    ensures Elsewhere(s, Uploaded(s, env, req, draw), env.cfg)
  {
    hide ParseUri, ObjectKey, StorageUri, ValidEvidenceId, NoCollision, Uploads, Objects, Referenced, ReadsBack;
    forall id: string | Referenced(s, id)
      ensures var t, name := Uploaded(s, env, req, draw), Name(env.cfg, id);
              name in s.objects && name in t.objects && t.objects[name] == s.objects[name]
    {
      AddressedName(s, env.cfg, id);
      UploadKeeps(s, env, req, draw, id);
    }
  }

  // ------------------------------------------------------ others keep it consistent

  lemma ElsewhereBacked(s: Store, t: Store, env: Env, id: string, digest: string)
    requires ValidSettings(env.cfg) && Addressed(s, env.cfg) && Elsewhere(s, t, env.cfg)
    requires Referenced(s, id) && Backed(s, env.cfg, id, digest)
    ensures Backed(t, env.cfg, id, digest) && ContentOf(t, env.cfg, id) == ContentOf(s, env.cfg, id)
  {
    hide ParseUri, ObjectKey, StorageUri, ValidEvidenceId, Referenced;
    AddressedName(s, env.cfg, id);
  }

  lemma ElsewhereAddressed(s: Store, t: Store, cfg: Settings)
    requires ValidSettings(cfg) && Addressed(s, cfg) && Elsewhere(s, t, cfg)
    ensures Addressed(t, cfg)
  {
    hide ParseUri, ObjectKey, StorageUri, ValidEvidenceId;
    forall id: string | Referenced(t, id)
      ensures id in t.artifacts && t.artifacts[id] == s.artifacts[id] && ReadsBack(cfg, t.objects, Entry(id, t.artifacts[id]))
    {
      assert Referenced(s, id);
      AddressedName(s, cfg, id);
    }
  }

  lemma {:induction false} DocumentsOfIn(rows: seq<DocumentRow>, packageId: string)
    ensures forall d | d in DocumentsOf(rows, packageId) :: d in rows && d.packageId == packageId
  {
    if rows != [] { DocumentsOfIn(rows[..|rows| - 1], packageId); }
  }

  /** A package's manifest and documents are among the referenced artifacts. */
  lemma OwnEvidence(s: Store, p: PackageRow)
    requires p in s.packages
    ensures Referenced(s, p.manifestArtifactId)
    ensures forall d | d in DocumentsOf(s.documents, p.packageId) :: Referenced(s, d.artifactId)
  {
    DocumentsOfIn(s.documents, p.packageId);
  }

  lemma ElsewhereHolds(s: Store, t: Store, env: Env, p: PackageRow)
    requires Sturdy(s, env) && Elsewhere(s, t, env.cfg) && p in s.packages
    ensures PackageHolds(t, env, p)
  {
    hide Addressed, ReadsBack, ContentOf, Backed, Referenced;
    OwnEvidence(s, p);
    ElsewhereBacked(s, t, env, p.manifestArtifactId, p.manifestDigest);
    var m :| Describes(s, env, p, m);
    assert Describes(t, env, p, m);
    forall d | d in DocumentsOf(s.documents, p.packageId) ensures Backed(t, env.cfg, d.artifactId, d.digest) {
      ElsewhereBacked(s, t, env, d.artifactId, d.digest);
    }
  }

  lemma {:induction false} NoPackageYet(packages: seq<PackageRow>, c: string)
    requires forall p | p in packages :: p.caseId != c
    ensures LastPackage(packages, c) == None
  {
    if packages != [] {
      assert packages[|packages| - 1] in packages;
      NoPackageYet(packages[..|packages| - 1], c);
    }
  }

  lemma ElsewhereKeeps(s: Store, t: Store, env: Env)
    requires Sturdy(s, env) && Elsewhere(s, t, env.cfg)
    ensures Sturdy(t, env)
  {
    hide Addressed, IdsDistinct, LastPackage, Referenced;
    ElsewhereAddressed(s, t, env.cfg);
    forall p | p in t.packages ensures PackageHolds(t, env, p) {
      ElsewhereHolds(s, t, env, p);
    }
    forall c | c in t.cases ensures t.cases[c].currentPackageId == LastPackage(t.packages, c) {
      if c !in s.cases {
        assert forall p | p in s.packages :: PackageHolds(s, env, p);
        NoPackageYet(s.packages, c);
      }
    }
  }

  // -------------------------------------------------------- the write keeps it consistent

  lemma {:induction false} ArtifactsAt(a: map<string, ArtifactRow>, env: Env, req: PackageRequest, draw: Draw, n: nat, id: string)
    requires Drawn(env, req, draw) && n <= |draw.artifacts| && NoCollision(a, draw, n)
    ensures var b := ArtifactsWith(a, env, req, draw, n);
            && (id in a ==> id in b && b[id] == a[id])
            && draw.manifestArtifact in b
            && b[draw.manifestArtifact]
               == EvidenceRow(ManifestClass, req.caseId, draw.packageId, ManifestEntry(env, req, draw))
            && (forall i | 0 <= i < n ::
                  draw.artifacts[i] in b
                  && b[draw.artifacts[i]]
                     == EvidenceRow(DocumentClass, req.caseId, env.compile(req.caseId).documents[i].documentId,
                                    Document(env, req, draw, i)))
            && (id in b ==> id in a || id == draw.manifestArtifact || id in draw.artifacts[..n])
  {
    hide Drawn, EvidenceRow, Document, ManifestEntry;
    if n > 0 {
      ArtifactsAt(a, env, req, draw, n - 1, id);
      assert draw.artifacts[..n] == draw.artifacts[..n - 1] + [draw.artifacts[n - 1]];
    }
  }

  /** The i-th upload of a call reads back from the store it leaves. */
  lemma UploadReads(s: Store, env: Env, req: PackageRequest, draw: Draw, i: nat)
    requires Drawn(env, req, draw) && NoCollision(s.artifacts, draw, |draw.artifacts|) && i <= |draw.artifacts|
    ensures var log := Uploads(env, req, draw);
            var r, t := RegisteredAs(env.cfg, log[i].0, log[i].1), Uploaded(s, env, req, draw);
            && ReadsBack(env.cfg, t.objects, r)
            && ParseUri(env.cfg.accepts, r.uri) == Some(Name(env.cfg, log[i].0))
            && Name(env.cfg, log[i].0) in t.objects && t.objects[Name(env.cfg, log[i].0)] == log[i].1
  {
    hide ParseUri, ObjectKey, StorageUri, ValidEvidenceId, NoCollision, Objects, Rendered, ManifestOf, RegisteredAs, ReadsBack;
    UploadsAreFresh(s, env, req, draw);
    EveryRegistrationReadsBack(env.cfg, s.objects, Uploads(env, req, draw), i);
  }

  ghost predicate Storable(s: Store, env: Env, req: PackageRequest, draw: Draw) {
    Drawn(env, req, draw) && FreshDraw(s, draw) && req.caseId in s.cases
  }

  ghost predicate Writable(s: Store, env: Env, req: PackageRequest, draw: Draw) {
    Storable(s, env, req, draw) && FindPackage(s.packages, req.caseId, req.requestId).None?
  }

  /** The store a call leaves that uploads and writes. */
  ghost function Stored(s: Store, env: Env, req: PackageRequest, draw: Draw): Store
    requires Storable(s, env, req, draw)
  {
    Written(Uploaded(s, env, req, draw), env, req, draw)
  }

  lemma ManifestStored(s: Store, env: Env, req: PackageRequest, draw: Draw)
    requires Storable(s, env, req, draw)
    ensures var t, r := Stored(s, env, req, draw), ManifestEntry(env, req, draw);
            && draw.manifestArtifact in t.artifacts && Entry(draw.manifestArtifact, t.artifacts[draw.manifestArtifact]) == r
            && ReadsBack(env.cfg, t.objects, r)
            && ContentOf(t, env.cfg, draw.manifestArtifact) == Some(env.encode(ManifestOf(env, req, draw)))
  {
    hide ParseUri, ObjectKey, StorageUri, ValidEvidenceId, NoCollision, Objects, ManifestOf, ReadsBack, HasPackageId, FindPackage;
    var n := |draw.artifacts|;
    ArtifactsAt(s.artifacts, env, req, draw, n, draw.manifestArtifact);
    UploadReads(s, env, req, draw, n);
  }

  lemma DocumentStored(s: Store, env: Env, req: PackageRequest, draw: Draw, i: nat)
    requires Storable(s, env, req, draw) && i < |draw.artifacts|
    ensures var t, id, r := Stored(s, env, req, draw), draw.artifacts[i], Document(env, req, draw, i);
            && id in t.artifacts && Entry(id, t.artifacts[id]) == r
            && ReadsBack(env.cfg, t.objects, r)
            && ContentOf(t, env.cfg, id) == Some(Rendered(env.compile(req.caseId).documents[i], req.caseId))
  {
    hide ParseUri, ObjectKey, StorageUri, ValidEvidenceId, NoCollision, Objects, Rendered, ManifestOf, ReadsBack, HasPackageId, FindPackage;
    ArtifactsAt(s.artifacts, env, req, draw, |draw.artifacts|, draw.artifacts[i]);
    UploadReads(s, env, req, draw, i);
  }

  /** The artifacts a new package refers to are the ones it drew. */
  lemma NewlyReferenced(s: Store, env: Env, req: PackageRequest, draw: Draw, id: string)
    requires Storable(s, env, req, draw) && Referenced(Stored(s, env, req, draw), id)
    ensures Referenced(s, id) || id == draw.manifestArtifact || id in draw.artifacts
  {
    hide Drawn, NoCollision, FindPackage, HasPackageId, ManifestEntry, Document, Objects, Uploads, ArtifactsWith;
    var rows := DocumentRows(env, req, draw, |draw.artifacts|);
    if d :| d in rows && d.artifactId == id {
      var i :| 0 <= i < |rows| && rows[i] == d;
    }
  }

  lemma OldArtifactsStay(s: Store, env: Env, req: PackageRequest, draw: Draw)
    requires Storable(s, env, req, draw)
    ensures var t := Stored(s, env, req, draw);
            forall id | id in s.artifacts :: id in t.artifacts && t.artifacts[id] == s.artifacts[id]
  {
    hide Drawn, NoCollision, FindPackage, HasPackageId, EvidenceRow, ArtifactsWith, Objects, Uploads;
    forall id | id in s.artifacts
      ensures var t := Stored(s, env, req, draw); id in t.artifacts && t.artifacts[id] == s.artifacts[id]
    {
      ArtifactsAt(s.artifacts, env, req, draw, |draw.artifacts|, id);
    }
  }

  lemma StoredAddressed(s: Store, env: Env, req: PackageRequest, draw: Draw)
    requires Storable(s, env, req, draw) && Sturdy(s, env)
    ensures Addressed(Stored(s, env, req, draw), env.cfg)
  {
    hide ParseUri, ObjectKey, StorageUri, ValidEvidenceId, NoCollision, Objects, Rendered, ManifestOf, ReadsBack,
      HasPackageId, FindPackage, PackageHolds, ContentOf, ArtifactsWith, IdsDistinct, CurrentIsLast, Uploads, Referenced,
      DocumentRows;
    var t := Stored(s, env, req, draw);
    UploadedElsewhere(s, env, req, draw);
    ElsewhereAddressed(s, Uploaded(s, env, req, draw), env.cfg);
    OldArtifactsStay(s, env, req, draw);
    SameReferences(s, Uploaded(s, env, req, draw));
    forall id: string | Referenced(t, id)
      ensures id in t.artifacts && ValidEvidenceId(id) && t.artifacts[id].storageUri == StorageUri(Name(env.cfg, id))
              && ReadsBack(env.cfg, t.objects, Entry(id, t.artifacts[id]))
    {
      NewlyReferenced(s, env, req, draw, id);
      if Referenced(s, id) {
      } else if id == draw.manifestArtifact {
        ManifestStored(s, env, req, draw);
      } else {
        var i :| 0 <= i < |draw.artifacts| && draw.artifacts[i] == id;
        DocumentStored(s, env, req, draw, i);
      }
    }
  }

  lemma SameReferences(s: Store, t: Store)
    requires t.packages == s.packages && t.documents == s.documents
    ensures forall id: string :: Referenced(t, id) <==> Referenced(s, id)
  {
  }

  lemma {:induction false} DocumentsAppended(rows: seq<DocumentRow>, more: seq<DocumentRow>, packageId: string, of: string)
    requires forall d | d in more :: d.packageId == of
    ensures DocumentsOf(rows + more, packageId)
            == DocumentsOf(rows, packageId) + (if packageId == of then more else [])
  {
    if more == [] {
      assert rows + more == rows;
    } else {
      var n := |more| - 1;
      assert (rows + more)[..|rows + more| - 1] == rows + more[..n];
      assert more == more[..n] + [more[n]];
      DocumentsAppended(rows, more[..n], packageId, of);
    }
  }

  lemma {:induction false} NoDocumentsYet(rows: seq<DocumentRow>, packageId: string)
    requires forall d | d in rows :: d.packageId != packageId
    ensures DocumentsOf(rows, packageId) == []
  {
    if rows != [] {
      assert rows[|rows| - 1] in rows;
      NoDocumentsYet(rows[..|rows| - 1], packageId);
    }
  }

  /** The document rows of the package just written are exactly its own; other packages
      keep theirs. */
  lemma StoredDocuments(s: Store, env: Env, req: PackageRequest, draw: Draw, packageId: string)
    requires Storable(s, env, req, draw) && DocumentsBelong(s)
    ensures DocumentsOf(Stored(s, env, req, draw).documents, packageId)
            == if packageId == draw.packageId then DocumentRows(env, req, draw, |draw.artifacts|)
               else DocumentsOf(s.documents, packageId)
  {
    hide Drawn, NoCollision, FindPackage, Document;
    var rows := DocumentRows(env, req, draw, |draw.artifacts|);
    forall d | d in rows ensures d.packageId == draw.packageId {
      var i :| 0 <= i < |rows| && rows[i] == d;
    }
    DocumentsAppended(s.documents, rows, packageId, draw.packageId);
    NoDocumentsYet(s.documents, draw.packageId);
  }

  lemma NewPackageHolds(s: Store, env: Env, req: PackageRequest, draw: Draw)
    requires Storable(s, env, req, draw) && DocumentsBelong(s)
    ensures PackageHolds(Stored(s, env, req, draw), env, PackageFor(env, req, draw))
  {
    hide ContentOf, ReadsBack, NoCollision, FindPackage, HasPackageId, DocumentsOf, Rendered, StorageUri, ValidEvidenceId;
    var t, p, m := Stored(s, env, req, draw), PackageFor(env, req, draw), ManifestOf(env, req, draw);
    ManifestStored(s, env, req, draw);
    StoredDocuments(s, env, req, draw, draw.packageId);
    assert Describes(t, env, p, m);
    forall i | 0 <= i < |draw.artifacts|
      ensures Backed(t, env.cfg, draw.artifacts[i], DocumentFor(env, req, draw, i).digest)
    {
      DocumentStored(s, env, req, draw, i);
    }
  }

  lemma OldPackageHolds(s: Store, env: Env, req: PackageRequest, draw: Draw, p: PackageRow)
    requires Storable(s, env, req, draw) && Sturdy(s, env) && p in s.packages
    ensures PackageHolds(Stored(s, env, req, draw), env, p)
  {
    hide ContentOf, NoCollision, FindPackage, Addressed, DocumentsOf, ReadsBack, Backed, IdsDistinct, CurrentIsLast,
      Referenced;
    var t := Stored(s, env, req, draw);
    assert p.packageId != draw.packageId;
    StoredDocuments(s, env, req, draw, p.packageId);
    OwnEvidence(s, p);
    BackedStays(s, env, req, draw, p.manifestArtifactId, p.manifestDigest);
    var m :| Describes(s, env, p, m);
    assert Describes(t, env, p, m);
    forall d | d in DocumentsOf(s.documents, p.packageId) ensures Backed(t, env.cfg, d.artifactId, d.digest) {
      BackedStays(s, env, req, draw, d.artifactId, d.digest);
    }
  }

  lemma BackedStays(s: Store, env: Env, req: PackageRequest, draw: Draw, id: string, digest: string)
    requires Storable(s, env, req, draw) && Sturdy(s, env) && Referenced(s, id) && Backed(s, env.cfg, id, digest)
    ensures var t := Stored(s, env, req, draw);
            Backed(t, env.cfg, id, digest) && ContentOf(t, env.cfg, id) == ContentOf(s, env.cfg, id)
  {
    hide ParseUri, ObjectKey, StorageUri, ValidEvidenceId, NoCollision, Objects, FindPackage, HasPackageId, PackageHolds,
      Referenced, ArtifactsWith;
    OldArtifactsStay(s, env, req, draw);
    AddressedName(s, env.cfg, id);
    UploadKeeps(s, env, req, draw, id);
  }

  lemma StoredCurrent(s: Store, env: Env, req: PackageRequest, draw: Draw)
    requires Storable(s, env, req, draw) && CurrentIsLast(s)
    ensures CurrentIsLast(Stored(s, env, req, draw))
  {
    hide Drawn, NoCollision, FindPackage, HasPackageId, ManifestEntry;
    var t := Stored(s, env, req, draw);
    assert t.packages[..|s.packages|] == s.packages;
  }

  lemma StoredBelongs(s: Store, env: Env, req: PackageRequest, draw: Draw)
    requires Storable(s, env, req, draw) && IdsDistinct(s.packages) && DocumentsBelong(s)
    ensures IdsDistinct(Stored(s, env, req, draw).packages) && DocumentsBelong(Stored(s, env, req, draw))
  {
    hide NoCollision, ManifestEntry, Drawn, Document;
    var t, n := Stored(s, env, req, draw), |s.packages|;
    assert forall i | 0 <= i < n :: t.packages[i] == s.packages[i] && s.packages[i] in s.packages;
    forall d | d in t.documents ensures HasPackageId(t.packages, d.packageId) {
      if d in s.documents {
        var i :| 0 <= i < n && s.packages[i].packageId == d.packageId;
        assert t.packages[i].packageId == d.packageId;
      } else {
        assert t.packages[n].packageId == d.packageId;
      }
    }
  }

  lemma StoredKeeps(s: Store, env: Env, req: PackageRequest, draw: Draw)
    requires Storable(s, env, req, draw) && Sturdy(s, env)
    ensures Sturdy(Stored(s, env, req, draw), env)
  {
    hide Addressed, PackageHolds, IdsDistinct, CurrentIsLast, DocumentsBelong, Storable;
    StoredAddressed(s, env, req, draw);
    StoredBelongs(s, env, req, draw);
    StoredCurrent(s, env, req, draw);
    NewPackageHolds(s, env, req, draw);
    forall p | p in s.packages ensures PackageHolds(Stored(s, env, req, draw), env, p) {
      OldPackageHolds(s, env, req, draw, p);
    }
  }

  lemma SturdyAddressed(s: Store, env: Env)
    requires Sturdy(s, env)
    ensures ValidSettings(env.cfg) && Addressed(s, env.cfg)
  {
  }

  lemma UploadedKeeps(s: Store, env: Env, req: PackageRequest, draw: Draw)
    requires Sturdy(s, env) && Drawn(env, req, draw) && FreshDraw(s, draw)
    ensures Sturdy(Uploaded(s, env, req, draw), env)
  {
    hide Sturdy, NoCollision, HasPackageId, Objects, Uploads;
    SturdyAddressed(s, env);
    UploadedElsewhere(s, env, req, draw);
    ElsewhereKeeps(s, Uploaded(s, env, req, draw), env);
  }

  lemma CallKeeps(s: Store, env: Env, req: PackageRequest, draw: Draw)
    requires Consistent(s, env) && Drawn(env, req, draw) && FreshDraw(s, draw)
    ensures Consistent(Persist(s, env, req, draw).0, env)
  {
    hide Sturdy, OnePerRequest, NoCollision, HasPackageId, Objects, Uploads, Written;
    UploadedKeeps(s, env, req, draw);
    if Writable(s, env, req, draw) {
      StoredKeeps(s, env, req, draw);
      WriteKeepsOneIffStillNone(Uploaded(s, env, req, draw), env, req, draw);
    }
  }

  lemma SamePackages(s: Store, t: Store, cfg: Settings)
    requires Elsewhere(s, t, cfg)
    ensures t.packages == s.packages
  {
  }

  lemma {:induction false} RunKeeps(s: Store, env: Env, moves: seq<Move>)
    requires Consistent(s, env) && Legal(s, env, moves)
    ensures Consistent(Run(s, env, moves), env)
    decreases |moves|
  {
    hide Sturdy, OnePerRequest, Elsewhere, Persist;
    if moves != [] {
      match moves[0] {
        case Call(req, draw) => CallKeeps(s, env, req, draw);
        case Other(next) =>
          ElsewhereKeeps(s, next, env);
          SamePackages(s, next, env.cfg);
      }
      RunKeeps(After(s, env, moves[0]), env, moves[1..]);
    }
  }

  /** Over every run: each package's manifest matches its documents and reads back, there
      is one package per request of a case, and the current package is the last one. */
  lemma PackagesStayConsistent(env: Env, moves: seq<Move>)
    requires ValidSettings(env.cfg) && Legal(EMPTY, env, moves)
    ensures Consistent(Run(EMPTY, env, moves), env)
  {
    RunKeeps(EMPTY, env, moves);
  }

  // ------------------------------------------------------------- what a call answers

  ghost predicate Answered(s: Store, req: PackageRequest, id: string) {
    exists p :: p in s.packages && p.packageId == id && p.caseId == req.caseId && p.requestId == req.requestId
  }

  lemma {:induction false} FindAppended(packages: seq<PackageRow>, p: PackageRow)
    ensures FindPackage(packages + [p], p.caseId, p.requestId) == Some(p)
  {
    assert (packages + [p])[..|packages|] == packages;
  }

  /** A call that writes its package is answered by it from then on. */
  lemma WrittenAnswers(s: Store, env: Env, req: PackageRequest, draw: Draw)
    requires Writable(s, env, req, draw)
    ensures var t := Stored(s, env, req, draw);
            && FindPackage(t.packages, req.caseId, req.requestId) == Some(PackageFor(env, req, draw))
            && Answered(t, req, draw.packageId)
  {
    hide Drawn, NoCollision, Uploads, Objects, ArtifactsWith, DocumentRows, Repointed, ManifestEntry, FindPackage;
    FindAppended(s.packages, PackageFor(env, req, draw));
    assert PackageFor(env, req, draw) in Stored(s, env, req, draw).packages;
  }

  /** Where a call answers, the answer is a stored package of that case and request, and
      calling again, whatever ids it draws, gives the same answer and changes nothing. */
  lemma PersistIsIdempotent(s: Store, env: Env, req: PackageRequest, draw: Draw, again: Draw)
    requires Drawn(env, req, draw) && FreshDraw(s, draw) && Drawn(env, req, again)
    ensures var (t, o) := Persist(s, env, req, draw);
            o.Returned? ==> Persist(t, env, req, again) == (t, o) && Answered(t, req, o.value)
  {
    hide Drawn, NoCollision, Uploads, Objects, Written, HasPackageId, Answered;
    var found := FindPackage(s.packages, req.caseId, req.requestId);
    if found.Some? {
      FoundAnswers(s, req, found.value);
    } else if req.caseId in s.cases {
      WrittenAnswers(s, env, req, draw);
    }
  }

  lemma FoundAnswers(s: Store, req: PackageRequest, p: PackageRow)
    requires p in s.packages && p.caseId == req.caseId && p.requestId == req.requestId
    ensures Answered(s, req, p.packageId)
  {
  }

  /** A call fails only for a case that does not exist or has no document data, and then
      only objects no row points at are left behind. */
  lemma OnlyMissingCaseFails(s: Store, env: Env, req: PackageRequest, draw: Draw)
    requires Drawn(env, req, draw) && FreshDraw(s, draw)
    requires forall p | p in s.packages :: p.caseId in s.cases
    ensures var (t, o) := Persist(s, env, req, draw);
            && (o == Raised(LookupError) <==> env.compile(req.caseId).documents == [])
            && (o == Raised(RuntimeError) <==> env.compile(req.caseId).documents != [] && req.caseId !in s.cases)
            && (o.Raised? ==> t == s.(objects := t.objects))
  {
    hide Drawn, NoCollision, Uploads, Objects, Written;
  }

  /** Document k of a package is the k-th template rendered for the case. */
  lemma DocumentsAreRendered(s: Store, env: Env, req: PackageRequest, draw: Draw, k: nat)
    requires Writable(s, env, req, draw) && DocumentsBelong(s) && k < |draw.artifacts|
    requires env.compile(req.caseId).documents != []
    ensures var t := Persist(s, env, req, draw).0;
            var rows, spec := DocumentsOf(t.documents, draw.packageId), env.compile(req.caseId).documents[k];
            && |rows| == |env.compile(req.caseId).documents|
            && rows[k].documentId == spec.documentId && rows[k].templateName == spec.templateName
            && ContentOf(t, env.cfg, rows[k].artifactId) == Some(Rendered(spec, req.caseId))
  {
    hide NoCollision, Objects, Uploads, ContentOf, DocumentsOf, Rendered, ArtifactsWith, ReadsBack;
    StoredDocuments(s, env, req, draw, draw.packageId);
    DocumentStored(s, env, req, draw, k);
  }

  /** The lookup and the write are separate transactions and no key guards the request:
      a write keeps one package per request exactly when the request still has no package
      at the moment of writing. */
  lemma WriteKeepsOneIffStillNone(s: Store, env: Env, req: PackageRequest, draw: Draw)
    requires Drawn(env, req, draw) && FreshDraw(s, draw) && req.caseId in s.cases && OnePerRequest(s.packages)
    ensures OnePerRequest(Write(s, env, req, draw).0.packages)
            <==> FindPackage(s.packages, req.caseId, req.requestId).None?
  {
    hide Drawn, NoCollision, ArtifactsWith, DocumentRows, ManifestEntry;
    var t, n := Written(s, env, req, draw), |s.packages|;
    assert forall i | 0 <= i < n :: t.packages[i] == s.packages[i] && s.packages[i] in s.packages;
    assert t.packages[n] == PackageFor(env, req, draw);
    var found := FindPackage(s.packages, req.caseId, req.requestId);
    if found.Some? {
      var i :| 0 <= i < n && s.packages[i] == found.value;
      assert t.packages[i].caseId == t.packages[n].caseId && t.packages[i].requestId == t.packages[n].requestId;
    }
  }

  /** Two calls of one request that both look before either writes both succeed, with two
      packages. */
  lemma ConcurrentPersistsDuplicate(s: Store, env: Env, req: PackageRequest, a: Draw, b: Draw)
    requires Drawn(env, req, a) && FreshDraw(s, a) && req.caseId in s.cases && OnePerRequest(s.packages)
    requires FindPackage(s.packages, req.caseId, req.requestId).None?
    requires Drawn(env, req, b) && FreshDraw(Write(s, env, req, a).0, b)
    ensures var (t, first) := Write(s, env, req, a);
            var (u, second) := Write(t, env, req, b);
            && first == Returned(a.packageId) && second == Returned(b.packageId)
            && a.packageId != b.packageId
            && !OnePerRequest(u.packages)
  {
    hide Drawn, NoCollision, ArtifactsWith, DocumentRows, ManifestEntry, OnePerRequest;
    var t := Write(s, env, req, a).0;
    WriteKeepsOneIffStillNone(s, env, req, a);
    WriteKeepsOneIffStillNone(t, env, req, b);
    assert t.packages[|s.packages|] == PackageFor(env, req, a) && PackageFor(env, req, a) in t.packages;
  }

  /** A write with nothing in between moves the case as the silent package step of the
      transition protocol does. */
  lemma WriteIsTheSilentStep(w: Protocol.World, d: nat, env: Env, req: PackageRequest, draw: Draw)
    requires Writable(w.store, env, req, draw)
    requires d in w.drafts
    requires w.drafts[d] == Protocol.PackageTx(PackageFor(env, req, draw), w.store.cases[req.caseId].caseState, |w.journal|)
    ensures var s := Protocol.DoWrite(w, d).store;
            var t := Written(w.store, env, req, draw);
            s.cases == t.cases && s.packages == t.packages
  {
    hide Drawn, NoCollision, ArtifactsWith, DocumentRows, ManifestEntry, FindPackage;
  }

  lemma ArtifactsGrow(s: Store, env: Env, req: PackageRequest, draw: Draw)
    requires Drawn(env, req, draw) && FreshDraw(s, draw)
    ensures var b := ArtifactsWith(s.artifacts, env, req, draw, |draw.artifacts|);
            && (forall id | id in s.artifacts :: id in b && b[id] == s.artifacts[id])
            && (forall id | id in b && id !in s.artifacts :: id == draw.manifestArtifact || id in draw.artifacts)
  {
    hide Drawn, NoCollision, ArtifactsWith, HasPackageId, EvidenceRow;
    assert draw.artifacts[..|draw.artifacts|] == draw.artifacts;
    forall id
      ensures var b := ArtifactsWith(s.artifacts, env, req, draw, |draw.artifacts|);
              && (id in s.artifacts ==> id in b && b[id] == s.artifacts[id])
              && (id in b && id !in s.artifacts ==> id == draw.manifestArtifact || id in draw.artifacts)
    {
      ArtifactsAt(s.artifacts, env, req, draw, |draw.artifacts|, id);
    }
  }

  lemma UploadsKeepAll(s: Store, env: Env, req: PackageRequest, draw: Draw)
    requires Drawn(env, req, draw) && FreshDraw(s, draw)
    ensures KeepsEvidence(s, Uploaded(s, env, req, draw), env.cfg)
  {
    hide Drawn, NoCollision, Objects, Uploads, ObjectKey, ValidEvidenceId, HasPackageId;
    forall id | id in s.artifacts && ValidEvidenceId(id)
      ensures var t, name := Uploaded(s, env, req, draw), Name(env.cfg, id);
              name in s.objects ==> name in t.objects && t.objects[name] == s.objects[name]
    {
      UploadKeeps(s, env, req, draw, id);
    }
  }

  /** What a call leaves: the tables as they were, with objects uploaded or not, or the
      rows it wrote. */
  lemma PersistShape(s: Store, env: Env, req: PackageRequest, draw: Draw)
    requires Drawn(env, req, draw)
    ensures var t, u := Persist(s, env, req, draw).0, Uploaded(s, env, req, draw);
            || t == s || t == u
            || (req.caseId in s.cases && t == Written(u, env, req, draw))
  {
    hide Drawn, NoCollision, Objects, Uploads, Written, HasPackageId, FindPackage;
  }

  /** A call leaves stored evidence alone, and adds artifacts only under the ids it drew. */
  lemma PersistAdds(s: Store, env: Env, req: PackageRequest, draw: Draw)
    requires Drawn(env, req, draw) && FreshDraw(s, draw)
    ensures var t := Persist(s, env, req, draw).0;
            && KeepsEvidence(s, t, env.cfg)
            && t.attempts == s.attempts && t.fallbacks == s.fallbacks && s.cases.Keys <= t.cases.Keys
            && forall id | id in t.artifacts && id !in s.artifacts ::
                 id == draw.manifestArtifact || id in draw.artifacts
  {
    hide Drawn, NoCollision, Objects, Uploads, ObjectKey, ValidEvidenceId, DocumentRows, ManifestEntry, FreshDraw,
      ArtifactsWith, Persist, PackageFor;
    PersistShape(s, env, req, draw);
    ArtifactsGrow(s, env, req, draw);
    UploadsKeepAll(s, env, req, draw);
  }
}
