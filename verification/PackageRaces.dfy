/** Package calls that overlap: each looks and uploads, and later writes, with anything in
    between. */
module PackageRaces {
  import opened Contracts
  import opened Tables
  import opened Registry
  import opened Packages
  import opened PackageHistories

  /** A call that found no package of its request, has uploaded, and has not written yet. */
  datatype Pending = Pending(req: PackageRequest, draw: Draw)

  datatype Scene = Scene(store: Store, pending: map<nat, Pending>)

  datatype Turn =
    | Begin(call: nat, req: PackageRequest, draw: Draw)
    | Finish(call: nat)
    | Die(call: nat)
    | Others(next: Store)

  // ------------------------------------------------------------------------- turns

  /** Two calls draw different ids. */
  predicate Apart(a: Draw, b: Draw) {
    && a.packageId != b.packageId
    && b.manifestArtifact != a.manifestArtifact && b.manifestArtifact !in a.artifacts
    && forall i | 0 <= i < |b.artifacts| :: b.artifacts[i] != a.manifestArtifact && b.artifacts[i] !in a.artifacts
  }

  /** What a call has uploaded is there. */
  predicate InPlace(s: Store, env: Env, p: Pending)
    requires Drawn(env, p.req, p.draw)
  {
    forall e | e in Uploads(env, p.req, p.draw) ::
      Name(env.cfg, e.0) in s.objects && s.objects[Name(env.cfg, e.0)] == e.1
  }

  /** Others draw other ids, and leave alone what is uploaded. */
  ghost predicate Awaits(s: Store, env: Env, p: Pending) {
    Drawn(env, p.req, p.draw) && FreshDraw(s, p.draw) && InPlace(s, env, p)
  }

  ghost predicate MayTurn(c: Scene, env: Env, t: Turn) {
    match t
    case Begin(k, req, draw) =>
      && k !in c.pending && Drawn(env, req, draw) && FreshDraw(c.store, draw)
      && FindPackage(c.store.packages, req.caseId, req.requestId).None?
      && forall j | j in c.pending :: Apart(c.pending[j].draw, draw) && Apart(draw, c.pending[j].draw)
    case Finish(k) => k in c.pending && Drawn(env, c.pending[k].req, c.pending[k].draw)
    case Die(k) => k in c.pending
    case Others(next) =>
      Elsewhere(c.store, next, env.cfg) && forall j | j in c.pending :: Awaits(next, env, c.pending[j])
  }

  ghost function Turned(c: Scene, env: Env, t: Turn): Scene
    requires MayTurn(c, env, t)
  {
    match t
    case Begin(k, req, draw) => Scene(Uploaded(c.store, env, req, draw), c.pending[k := Pending(req, draw)])
    case Finish(k) => Scene(Write(c.store, env, c.pending[k].req, c.pending[k].draw).0, c.pending - {k})
    case Die(k) => Scene(c.store, c.pending - {k})
    case Others(next) => Scene(next, c.pending)
  }

  /** A call with nothing in between is its beginning and its end. */
  lemma CallIsBeginAndFinish(s: Store, env: Env, req: PackageRequest, draw: Draw)
    requires Drawn(env, req, draw) && FreshDraw(s, draw) && env.compile(req.caseId).documents != []
    requires FindPackage(s.packages, req.caseId, req.requestId).None?
    ensures var c, t := Scene(s, map[]), Begin(0, req, draw);
            && MayTurn(c, env, t) && MayTurn(Turned(c, env, t), env, Finish(0))
            && Turned(Turned(c, env, t), env, Finish(0)).store == Persist(s, env, req, draw).0
  {
    hide Drawn, FreshDraw, Uploads, Objects, Write, FindPackage;
  }

  // ----------------------------------------------------------------- the invariant

  ghost predicate Holds(c: Scene, env: Env) {
    && Sturdy(c.store, env)
    && (forall j | j in c.pending :: Awaits(c.store, env, c.pending[j]))
    && (forall j, k | j in c.pending && k in c.pending && j != k :: Apart(c.pending[j].draw, c.pending[k].draw))
  }

  lemma {:induction false} UploadedAgain(cfg: Settings, m: map<ObjectName, Content>, log: Log)
    requires forall e | e in log :: ValidEvidenceId(e.0)
    requires forall e | e in log :: Name(cfg, e.0) in m && m[Name(cfg, e.0)] == e.1
    ensures Objects(cfg, m, log) == m
  {
    hide ValidEvidenceId, Name;
    if log != [] {
      var n := |log| - 1;
      UploadedAgain(cfg, m, log[..n]);
      assert log[n] in log;
    }
  }

  lemma OwnUploadsInPlace(s: Store, env: Env, req: PackageRequest, draw: Draw)
    requires Drawn(env, req, draw) && FreshDraw(s, draw)
    ensures InPlace(Uploaded(s, env, req, draw), env, Pending(req, draw))
  {
    hide Drawn, NoCollision, HasPackageId, Objects, Rendered, ManifestOf, ValidEvidenceId, ReadsBack, ParseUri;
    var log, t := Uploads(env, req, draw), Uploaded(s, env, req, draw);
    forall e | e in log ensures Name(env.cfg, e.0) in t.objects && t.objects[Name(env.cfg, e.0)] == e.1 {
      var i :| 0 <= i < |log| && log[i] == e;
      UploadReads(s, env, req, draw, i);
    }
  }

  lemma UploadIds(env: Env, req: PackageRequest, draw: Draw)
    requires Drawn(env, req, draw)
    ensures forall e | e in Uploads(env, req, draw) ::
              ValidEvidenceId(e.0) && (e.0 == draw.manifestArtifact || e.0 in draw.artifacts)
  {
    hide Drawn, Rendered, ManifestOf, ValidEvidenceId;
    var log := Uploads(env, req, draw);
    forall e | e in log ensures e.0 == draw.manifestArtifact || e.0 in draw.artifacts {
      var i :| 0 <= i < |log| && log[i] == e;
      if i < |draw.artifacts| { assert log[i].0 == draw.artifacts[i]; }
    }
  }

  /** Uploads under other ids leave a call's own in place. */
  lemma OthersInPlace(s: Store, env: Env, p: Pending, req: PackageRequest, draw: Draw)
    requires Awaits(s, env, p) && Drawn(env, req, draw) && Apart(p.draw, draw)
    ensures Awaits(Uploaded(s, env, req, draw), env, p)
  {
    hide Drawn, NoCollision, HasPackageId, Objects, Uploads, ValidEvidenceId;
    UploadIds(env, req, draw);
    UploadIds(env, p.req, p.draw);
    forall e | e in Uploads(env, p.req, p.draw)
      ensures var t, name := Uploaded(s, env, req, draw), Name(env.cfg, e.0);
              name in t.objects && t.objects[name] == e.1
    {
      forall f | f in Uploads(env, req, draw) ensures Name(env.cfg, f.0) != Name(env.cfg, e.0) {
        if Name(env.cfg, f.0) == Name(env.cfg, e.0) { NameInjective(env.cfg, f.0, e.0); }
      }
      ObjectsFrame(env.cfg, s.objects, Uploads(env, req, draw), Name(env.cfg, e.0));
    }
  }

  /** A write leaves the ids of the other calls free, and their uploads alone. */
  lemma OthersStillAwait(s: Store, env: Env, p: Pending, q: Pending)
    requires Awaits(s, env, p) && Awaits(s, env, q) && Apart(p.draw, q.draw) && q.req.caseId in s.cases
    ensures Awaits(Written(s, env, q.req, q.draw), env, p)
  {
    hide Drawn, Uploads, ValidEvidenceId, ArtifactsWith, DocumentRows, ManifestEntry, Repointed, NoCollision;
    ArtifactsGrow(s, env, q.req, q.draw);
    NoCollisionStays(s.artifacts, ArtifactsWith(s.artifacts, env, q.req, q.draw, |q.draw.artifacts|), p.draw, q.draw);
    var t := Written(s, env, q.req, q.draw);
    assert forall i | 0 <= i < |s.packages| :: t.packages[i] == s.packages[i];
    assert forall i | 0 <= i < |t.packages| :: t.packages[i].packageId != p.draw.packageId;
  }

  lemma NoCollisionStays(a: map<string, ArtifactRow>, b: map<string, ArtifactRow>, p: Draw, q: Draw)
    requires NoCollision(a, p, |p.artifacts|) && Apart(q, p)
    requires forall id | id in b && id !in a :: id == q.manifestArtifact || id in q.artifacts
    ensures NoCollision(b, p, |p.artifacts|)
  {
  }

  /** With its uploads in place a write leaves what an uninterrupted call would. */
  lemma WriteIsStored(s: Store, env: Env, p: Pending)
    requires Awaits(s, env, p) && p.req.caseId in s.cases
    ensures Drawn(env, p.req, p.draw) && Storable(s, env, p.req, p.draw)
    ensures Written(s, env, p.req, p.draw) == Stored(s, env, p.req, p.draw)
    ensures Write(s, env, p.req, p.draw).0 == Written(s, env, p.req, p.draw)
  {
    hide Drawn, NoCollision, HasPackageId, Uploads, ValidEvidenceId, ArtifactsWith, DocumentRows, Objects, Name;
    UploadIds(env, p.req, p.draw);
    UploadedAgain(env.cfg, s.objects, Uploads(env, p.req, p.draw));
    assert Uploaded(s, env, p.req, p.draw) == s;
  }

  lemma BeginKeeps(c: Scene, env: Env, k: nat, req: PackageRequest, draw: Draw)
    requires Holds(c, env) && MayTurn(c, env, Begin(k, req, draw))
    ensures Holds(Turned(c, env, Begin(k, req, draw)), env)
  {
    hide Sturdy, Awaits, Apart, Drawn, FreshDraw, Objects, Uploads, FindPackage;
    UploadedKeeps(c.store, env, req, draw);
    OwnAwaits(c.store, env, req, draw);
    forall j | j in c.pending ensures Awaits(Uploaded(c.store, env, req, draw), env, c.pending[j]) {
      OthersInPlace(c.store, env, c.pending[j], req, draw);
    }
  }

  lemma OwnAwaits(s: Store, env: Env, req: PackageRequest, draw: Draw)
    requires Drawn(env, req, draw) && FreshDraw(s, draw)
    ensures Awaits(Uploaded(s, env, req, draw), env, Pending(req, draw))
  {
    hide Drawn, InPlace, NoCollision, HasPackageId, Objects, Uploads;
    OwnUploadsInPlace(s, env, req, draw);
  }

  lemma FinishKeeps(c: Scene, env: Env, k: nat)
    requires Holds(c, env) && k in c.pending
    ensures Holds(Turned(c, env, Finish(k)), env)
  {
    hide Sturdy, Awaits, Apart, Drawn, Written, Storable;
    var p := c.pending[k];
    if p.req.caseId in c.store.cases {
      WriteIsStored(c.store, env, p);
      StoredKeeps(c.store, env, p.req, p.draw);
      forall j | j in c.pending && j != k ensures Awaits(Written(c.store, env, p.req, p.draw), env, c.pending[j]) {
        OthersStillAwait(c.store, env, c.pending[j], p);
      }
    }
  }

  lemma TurnKeeps(c: Scene, env: Env, t: Turn)
    requires Holds(c, env) && MayTurn(c, env, t)
    ensures Holds(Turned(c, env, t), env)
  {
    match t {
      case Begin(k, req, draw) => BeginKeeps(c, env, k, req, draw);
      case Finish(k) => FinishKeeps(c, env, k);
      case Die(k) =>
        hide Sturdy, Awaits, Apart;
      case Others(next) =>
        hide Sturdy, Awaits, Apart, PackageHistories.Elsewhere;
        ElsewhereKeeps(c.store, next, env);
    }
  }

  // ----------------------------------------------------------------------- whole runs

  ghost predicate Legal(c: Scene, env: Env, turns: seq<Turn>)
    decreases |turns|
  {
    turns == [] || (MayTurn(c, env, turns[0]) && Legal(Turned(c, env, turns[0]), env, turns[1..]))
  }

  ghost function Run(c: Scene, env: Env, turns: seq<Turn>): Scene
    requires Legal(c, env, turns)
    decreases |turns|
  {
    if turns == [] then c else Run(Turned(c, env, turns[0]), env, turns[1..])
  }

  lemma {:induction false} RunHolds(c: Scene, env: Env, turns: seq<Turn>)
    requires Holds(c, env) && Legal(c, env, turns)
    ensures Holds(Run(c, env, turns), env)
    decreases |turns|
  {
    hide Holds, MayTurn, Turned;
    if turns != [] {
      TurnKeeps(c, env, turns[0]);
      RunHolds(Turned(c, env, turns[0]), env, turns[1..]);
    }
  }

  const QUIET: Scene := Scene(EMPTY, map[])

  /** However calls overlap, die or are kept waiting: manifests match their documents and read
      back, package ids are distinct, and the current package is the last one written. */
  lemma OverlappingCallsStaySturdy(env: Env, turns: seq<Turn>)
    requires ValidSettings(env.cfg) && Legal(QUIET, env, turns)
    ensures Sturdy(Run(QUIET, env, turns).store, env)
  {
    RunHolds(QUIET, env, turns);
  }

  /** The turn writes no second package for a request. */
  predicate WritesFirst(c: Scene, t: Turn) {
    t.Finish? && t.call in c.pending && c.pending[t.call].req.caseId in c.store.cases ==>
      FindPackage(c.store.packages, c.pending[t.call].req.caseId, c.pending[t.call].req.requestId).None?
  }

  ghost predicate EachWritesFirst(c: Scene, env: Env, turns: seq<Turn>)
    requires Legal(c, env, turns)
    decreases |turns|
  {
    turns == [] || (WritesFirst(c, turns[0]) && EachWritesFirst(Turned(c, env, turns[0]), env, turns[1..]))
  }

  lemma TurnExtends(c: Scene, env: Env, t: Turn)
    requires MayTurn(c, env, t)
    ensures c.store.packages <= Turned(c, env, t).store.packages
  {
    hide Drawn, Awaits, Uploads, Objects, FindPackage, NoCollision, ArtifactsWith, DocumentRows;
  }

  lemma TurnKeepsOneIff(c: Scene, env: Env, t: Turn)
    requires Holds(c, env) && MayTurn(c, env, t) && OnePerRequest(c.store.packages)
    ensures OnePerRequest(Turned(c, env, t).store.packages) <==> WritesFirst(c, t)
  {
    hide Sturdy, Apart, Drawn, Uploads, Objects, FindPackage, NoCollision, OnePerRequest, Written, InPlace, HasPackageId;
    if t.Finish? && c.pending[t.call].req.caseId in c.store.cases {
      assert Awaits(c.store, env, c.pending[t.call]);
      WriteKeepsOneIffStillNone(c.store, env, c.pending[t.call].req, c.pending[t.call].draw);
    }
  }

  lemma {:induction false} DuplicatesStay(c: Scene, env: Env, turns: seq<Turn>)
    requires Legal(c, env, turns) && !OnePerRequest(c.store.packages)
    ensures !OnePerRequest(Run(c, env, turns).store.packages)
    decreases |turns|
  {
    hide MayTurn, Turned;
    if turns != [] {
      TurnExtends(c, env, turns[0]);
      DuplicatesStay(Turned(c, env, turns[0]), env, turns[1..]);
    }
  }

  lemma {:induction false} KeepsOneIff(c: Scene, env: Env, turns: seq<Turn>)
    requires Holds(c, env) && Legal(c, env, turns) && OnePerRequest(c.store.packages)
    ensures OnePerRequest(Run(c, env, turns).store.packages) <==> EachWritesFirst(c, env, turns)
    decreases |turns|
  {
    hide Holds, MayTurn, Turned, OnePerRequest, WritesFirst;
    if turns != [] {
      TurnKeeps(c, env, turns[0]);
      TurnKeepsOneIff(c, env, turns[0]);
      if WritesFirst(c, turns[0]) {
        KeepsOneIff(Turned(c, env, turns[0]), env, turns[1..]);
      } else {
        DuplicatesStay(Turned(c, env, turns[0]), env, turns[1..]);
      }
    }
  }

  /** A run of overlapping calls ends with one package per request exactly if each of its
      writes found that its request still had none; what the lookup before the uploads found
      does not decide it. */
  lemma OnePackagePerRequestIff(env: Env, turns: seq<Turn>)
    requires ValidSettings(env.cfg) && Legal(QUIET, env, turns)
    ensures OnePerRequest(Run(QUIET, env, turns).store.packages) <==> EachWritesFirst(QUIET, env, turns)
  {
    KeepsOneIff(QUIET, env, turns);
  }
}
