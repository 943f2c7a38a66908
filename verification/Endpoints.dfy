/** What the endpoints beside the workflow answer and store, field by field. */
module Endpoints {
  import opened Contracts
  import opened Tables
  import Contradictions
  import Evidence
  import Governance
  import Independence
  import Registry
  import Releases
  import RequestIds
  import StatusEvents
  import Strings

  // --------------------------------------------------------------------- contradictions

  /** A contradiction is opened exactly if its id is free and its case exists; nothing else is
      refused, and a refusal stores nothing. */
  lemma CreateInFull(s: Store, id: string, c: string, blocking: bool)
    ensures var (t, r) := Contradictions.Create(s, id, c, blocking);
            && (r == Contradictions.AlreadyExists <==> id in s.contradictions || c !in s.cases)
            && (r != Contradictions.AlreadyExists <==> r == Contradictions.Ok(ContradictionRow(c, blocking, true)))
            && t == if r.Ok? then s.(contradictions := s.contradictions[id := ContradictionRow(c, blocking, true)]) else s
  {
  }

  lemma ResolveInFull(s: Store, id: string)
    ensures var (t, r) := Contradictions.Resolve(s, id);
            && (r == Contradictions.NotFound <==> id !in s.contradictions)
            && (r == Contradictions.AlreadyResolved <==> id in s.contradictions && !s.contradictions[id].open)
            && (r.Ok? <==> id in s.contradictions && s.contradictions[id].open)
            && (r.Ok? ==> var closed := ContradictionRow(s.contradictions[id].caseId, s.contradictions[id].blocking, false);
                          r.row == closed && t == s.(contradictions := s.contradictions[id := closed]))
            && (!r.Ok? ==> t == s)
  {
  }

  // ---------------------------------------------------------------------- status events

  predicate Linked(s: Store, c: string, attempt: string) {
    c in s.cases && attempt in s.attempts && s.attempts[attempt].caseId == c
  }

  /** An event is refused without its case and attempt, then for a raw status the mapping does
      not know; a known event answers its stored row; any other is stored with everything its
      mapping says. */
  lemma IngestInFull(s: Store, b: StatusEvents.Book, req: StatusEvents.Ingestion, sel: StatusEvents.Selection, now: int)
    ensures var (a, o) := StatusEvents.Ingest(s, b, req, sel, now);
            var linked, mapped, known := Linked(s, req.caseId, req.attemptId), req.rawStatus in sel.mappings, req.eventId in b.events;
            && (o == Raised(LookupError) <==> !linked)
            && (o == Raised(ValidationError) <==> linked && !mapped)
            && (o.Returned? <==> linked && mapped)
            && (!(o.Returned? && !known) ==> a == b)
            && (o.Returned? ==>
                  && req.eventId in a.events
                  && var row := a.events[req.eventId];
                     o.value == StatusEvents.Signal(req.eventId, row.caseId, row.attemptId, row.status))
            && (o.Returned? && !known ==>
                  var m, row := sel.mappings[req.rawStatus], a.events[req.eventId];
                  && a == b.(events := b.events[req.eventId := row])
                  && row.caseId == req.caseId && row.attemptId == req.attemptId && row.rawStatus == req.rawStatus
                  && row.status == m.status && row.confidence == m.confidence && row.autoAdvance == m.autoAdvance
                  && (forall id :: id in row.evidenceIds <==> id in req.evidenceIds || id in m.requiredEvidence)
                  && row.mappingVersion == sel.version
                  && (req.receivedAt == None ==> row.receivedAt == now)
                  && (req.receivedAt != None ==> Some(row.receivedAt) == req.receivedAt))
  {
  }

  /** A row is kept where its key is taken, refused without its links, and added otherwise. */
  predicate Added<T(==)>(s: Store, g: StatusEvents.Signal, before: map<string, T>, after: map<string, T>, key: string, row: T,
                         o: Outcome<string>)
  {
    if key in before || Linked(s, g.caseId, g.attemptId) then
      o == Returned(key) && after == (if key in before then before else before[key := row])
    else
      o == Raised(LookupError) && after == before
  }

  /** What each class of event writes, in which table and under which id. */
  lemma HandleInFull(s: Store, b: StatusEvents.Book, g: StatusEvents.Signal)
    ensures var (a, o) := StatusEvents.Handle(s, b, g);
            var c, attempt, status := g.caseId, g.attemptId, g.status;
            && (status == StatusEvents.CommentIssued ==>
                  && Added(s, g, b.corrections, a.corrections, "CORRECTION-" + g.eventId,
                           StatusEvents.CorrectionRow(c, attempt, "PENDING"), o)
                  && a == b.(corrections := a.corrections))
            && (status == StatusEvents.ResubmissionRequested ==>
                  && Added(s, g, b.resubmissions, a.resubmissions, "RESUBMISSION-" + g.eventId,
                           StatusEvents.ResubmissionRow(c, attempt, "PKG-PLACEHOLDER", "1.0.0", "REQUESTED"), o)
                  && a == b.(resubmissions := a.resubmissions))
            && (status in {StatusEvents.ReceivedUnconfirmed, StatusEvents.ReceivedConfirmed, StatusEvents.InReview,
                           StatusEvents.RejectionReported, StatusEvents.WithdrawnReported, StatusEvents.ClosedReported,
                           StatusEvents.UnknownExternalStatus, StatusEvents.ContradictoryExternalStatus} ==>
                  a == b && o == Returned(""))
  {
  }

  lemma DecisionsInFull(s: Store, b: StatusEvents.Book, g: StatusEvents.Signal)
    ensures var (a, o) := StatusEvents.Handle(s, b, g);
            var c, attempt, status := g.caseId, g.attemptId, g.status;
            && (status in {StatusEvents.ApprovalReported, StatusEvents.ApprovalConfirmed,
                           StatusEvents.ApprovalPendingInspection, StatusEvents.ApprovalFinal} ==>
                  && Added(s, g, b.approvals, a.approvals, "APPROVAL-" + g.eventId,
                           StatusEvents.ApprovalRow(c, attempt, "APPROVED"), o)
                  && a == b.(approvals := a.approvals))
            && (status in {StatusEvents.InspectionScheduled, StatusEvents.InspectionFailed, StatusEvents.InspectionPassed} ==>
                  && Added(s, g, b.inspections, a.inspections, "INSPECTION-" + g.eventId,
                           StatusEvents.InspectionRow(c, attempt,
                             if status == StatusEvents.InspectionPassed then StatusEvents.FinalMilestone
                             else StatusEvents.ScheduledMilestone, status), o)
                  && a == b.(inspections := a.inspections))
  {
  }

  // ------------------------------------------------------------------------- governance

  /** Two letters that are the same but for case, or the same character. */
  predicate SameLetter(a: char, b: char) {
    a == b || ('a' <= a <= 'z' && b as int + 32 == a as int) || ('a' <= b <= 'z' && a as int + 32 == b as int)
  }

  predicate SameLetters(a: string, b: string) {
    |a| == |b| && forall i | 0 <= i < |a| :: SameLetter(a[i], b[i])
  }

  /** A review approves exactly if its outcome spells APPROVED in any mixture of cases. */
  lemma ApprovesIff(r: Governance.Review, id: string)
    ensures Governance.Approves(r, id) <==> r.intentId == id && SameLetters(r.outcome, "APPROVED")
    ensures Governance.Upper("approved") == "APPROVED" && Governance.Upper("rejected") == "REJECTED"
  {
    var up, word := Governance.Upper(r.outcome), "APPROVED";
    assert forall i | 0 <= i < |word| :: 'A' <= word[i] <= 'Z';
    if |r.outcome| == |word| {
      assert forall i | 0 <= i < |word| :: up[i] == word[i] <==> SameLetter(r.outcome[i], word[i]);
      assert up == word <==> forall i | 0 <= i < |word| :: up[i] == word[i];
    }
    assert Governance.Upper("approved") == "APPROVED";
    assert Governance.Upper("rejected") == "REJECTED";
  }

  /** A label is the outcome with its ASCII letters in upper case. */
  lemma LabelInFull(outcome: string)
    ensures var up := Governance.Upper(outcome);
            && SameLetters(outcome, up)
            && forall i | 0 <= i < |up| :: !('a' <= up[i] <= 'z')
  {
  }

  /** A review is stored for a known intent, once per key and per id, and relabels it. */
  lemma RecordInFull(d: Governance.Desk, r: Governance.Review)
    ensures var (e, o) := Governance.Record(d, r);
            var known := r.intentId in d.intents;
            var keyed := exists x :: x in d.reviews && x.key == r.key;
            var taken := exists x :: x in d.reviews && x.reviewId == r.reviewId;
            && (o == Governance.IntentNotFound <==> !known)
            && (o.KeyConflict? <==> known && keyed)
            && (o.KeyConflict? ==> exists x :: x in d.reviews && x.key == r.key && x.reviewId == o.reviewId)
            && (o == Governance.ReviewConflict <==> known && !keyed && taken)
            && (o == Governance.Done <==> known && !keyed && !taken)
            && (o == Governance.Done ==>
                  && e.reviews == d.reviews + [r]
                  && e.intents == d.intents[r.intentId := Governance.Intent(d.intents[r.intentId].family, d.intents[r.intentId].level,
                                                            d.intents[r.intentId].payload, Governance.Upper(r.outcome))]
                  && e.log == d.log + [Governance.ReviewRecorded(r.intentId, r.reviewId, r.outcome)]
                  && e.metadata == d.metadata)
            && (o != Governance.Done ==> e == d)
  {
    hide Governance.Upper, Governance.FindKey;
    assert Governance.HasReview(d.reviews, r.reviewId) <==> exists x :: x in d.reviews && x.reviewId == r.reviewId by {
      if x :| x in d.reviews && x.reviewId == r.reviewId {
        var i :| 0 <= i < |d.reviews| && d.reviews[i] == x;
      }
    }
  }

  /** An intent starts pending, and an approved one that is applied is labelled so. */
  lemma IntentsInFull(d: Governance.Desk, id: string, family: string, level: string, payload: string, drawn: string)
    ensures var (e, o) := Governance.Create(d, id, family, level, payload);
            && (o == Governance.IntentConflict <==> id in d.intents)
            && (o == Governance.IntentConflict ==> e == d)
            && (o != Governance.IntentConflict ==>
                  && o == Governance.Done
                  && e == d.(intents := d.intents[id := Governance.Intent(family, level, payload, "PENDING_REVIEW")],
                             log := d.log + [Governance.IntentCreated(id)]))
    ensures var (e, o) := Governance.Apply(d, id, drawn);
            var approved := exists r :: r in d.reviews && r.intentId == id && SameLetters(r.outcome, "APPROVED");
            && (o == Governance.IntentNotFound <==> id !in d.intents)
            && (o == Governance.ReviewRequired <==> id in d.intents && !approved)
            && (o.AppliedTo? <==> id in d.intents && approved)
            && (o.AppliedTo? ==>
                  && e.intents == d.intents[id := d.intents[id].(status := "APPLIED")] && e.reviews == d.reviews
                  && |e.log| == |d.log| + 1 && e.log[..|d.log|] == d.log
                  && var last := e.log[|d.log|];
                     last.IntentApplied? && last.intentId == id && last.metadataId == o.metadataId)
            && (!o.AppliedTo? ==> e == d)
  {
    hide Governance.NewestApproval, Governance.Upsert, Governance.UpsertedId, SameLetters;
    forall r: Governance.Review ensures Governance.Approves(r, id) <==> r.intentId == id && SameLetters(r.outcome, "APPROVED") {
      ApprovesIff(r, id);
    }
    hide Governance.Approves;
  }

  /** Where an applied intent goes: into the one row of its family, or a new one under the
      drawn id; no other row is touched. */
  lemma {:induction false} UpsertInFull(rows: seq<Governance.Metadata>, i: Governance.Intent, drawn: string)
    requires Governance.OneRowPerFamily(rows)
    ensures var after, id := Governance.Upsert(rows, i, drawn), Governance.UpsertedId(rows, i, drawn);
            && (forall m | m in rows && m.family == i.family :: m.metadataId == id)
            && ((forall m | m in rows :: m.family != i.family) ==>
                  id == drawn && after == rows + [Governance.Metadata(drawn, i.family, i.level, i.payload)])
            && Governance.Metadata(id, i.family, i.level, i.payload) in after
            && (forall m | m in after && m.family != i.family :: m in rows)
            && (forall m | m in rows && m.family != i.family :: m in after)
            && (forall m | m in after && m.family == i.family :: m == Governance.Metadata(id, i.family, i.level, i.payload))
  {
    if rows != [] {
      assert rows == [rows[0]] + rows[1..];
      if rows[0].family == i.family {
        assert forall m | m in rows[1..] :: m.family != i.family;
      } else {
        UpsertInFull(rows[1..], i, drawn);
      }
    }
  }

  // --------------------------------------------------------------------------- releases

  /** A manifest takes everything over; of the adapter versions the given win over the
      configured, and those over the runtime's. */
  lemma ManifestInFull(r: Releases.Release, digests: map<string, string>, name: string)
    ensures var m := Releases.ManifestOf(r, digests);
            && m.releaseId == r.id && m.versions == r.versions && m.digests == digests && m.approvals == r.approvals
            && m.createdAt == r.createdAt
            && (name in m.adapterVersions
                <==> name in r.runtimeAdapters || name in r.configuredAdapters || name in r.givenAdapters)
            && (name in m.adapterVersions ==>
                  m.adapterVersions[name] == if name in r.givenAdapters then r.givenAdapters[name]
                                             else if name in r.configuredAdapters then r.configuredAdapters[name]
                                             else r.runtimeAdapters[name])
  {
  }

  /** Why the builder stops at an entry: it names no file, or one without an artifact id, or
      one whose id an earlier entry has. */
  lemma ComplaintIff(f: Releases.Files, before: seq<Releases.Entry>, e: Releases.Entry)
    requires forall i | 0 <= i < |before| :: Releases.Readable(f, before[i])
    ensures var r, id := Releases.Complaint(f, before, e), f.idOf(e.path);
            var nameless := id.None? || id == Some("");
            && (r == Some(Releases.NoFile(e.path)) <==> !f.isFile(e.path))
            && (r == Some(Releases.NoArtifactId(e.path)) <==> f.isFile(e.path) && nameless)
            && (r.Some? && r.value.DuplicateId? <==>
                  f.isFile(e.path) && !nameless && exists b :: b in before && f.idOf(b.path) == id)
            && (r.Some? && r.value.DuplicateId? ==> Some(r.value.artifactId) == id)
  {
    if b :| b in before && f.idOf(b.path) == f.idOf(e.path) {
      var i :| 0 <= i < |before| && before[i] == b;
      assert Releases.Readable(f, before[i]);
    }
    if i :| 0 <= i < |before| && f.idOf(before[i].path) == f.idOf(e.path) { assert before[i] in before; }
  }

  /** Why references are refused: the ids given twice, or else those without a digest and the
      digests without an artifact. */
  lemma ValidateInFull(digests: map<string, string>, artifacts: seq<Releases.Artifact>)
    ensures var v := Releases.Validate(digests, artifacts);
            && (v.Duplicates? <==> exists i, j :: 0 <= i < j < |artifacts| && artifacts[i].artifactId == artifacts[j].artifactId)
            && (v.Duplicates? ==>
                  forall id :: (id in v.ids <==> exists i, j :: 0 <= i < j < |artifacts|
                                                   && artifacts[i].artifactId == artifacts[j].artifactId == id))
            && (v.Mismatch? ==>
                  && (v.missing != {} || v.unknown != {})
                  && (forall id :: id in v.missing <==> id !in digests && exists a :: a in artifacts && a.artifactId == id)
                  && (forall id :: id in v.unknown <==> id in digests && forall a | a in artifacts :: a.artifactId != id))
  {
    forall id ensures id in Releases.Ids(artifacts) <==> exists a :: a in artifacts && a.artifactId == id {
      if a :| a in artifacts && a.artifactId == id { var i :| 0 <= i < |artifacts| && artifacts[i] == a; }
    }
    hide Releases.Ids;
    if i, j :| 0 <= i < j < |artifacts| && artifacts[i].artifactId == artifacts[j].artifactId {
      assert artifacts[i].artifactId in Releases.Repeated(artifacts);
    }
  }

  /** Which of the three answers a request gets; only a created bundle is stored. */
  lemma BundleAnswers(s: Releases.Shelf, releaseId: string, digests: map<string, string>, artifacts: seq<Releases.Artifact>)
    ensures var (t, r) := Releases.CreateBundle(s, releaseId, digests, artifacts);
            var valid := Releases.Distinct(artifacts)
                         && forall id :: (id in digests <==> exists a :: a in artifacts && a.artifactId == id);
            var taken := releaseId in s.bundles || exists a :: a in artifacts && a.artifactId in s.artifacts;
            && (r.Invalid? <==> !valid) && (r.Invalid? ==> r.verdict == Releases.Validate(digests, artifacts))
            && (r == Releases.BundleConflict <==> valid && taken)
            && (r == Releases.Created <==> valid && !taken)
            && (r != Releases.Created ==> t == s)
  {
    Releases.ValidIff(digests, artifacts);
    forall id ensures id in Releases.Ids(artifacts) <==> exists a :: a in artifacts && a.artifactId == id {
      if a :| a in artifacts && a.artifactId == id { var i :| 0 <= i < |artifacts| && artifacts[i] == a; }
    }
    hide Releases.Validate, Releases.Ids, Releases.Shelved;
    var shared := Releases.Ids(artifacts) * s.artifacts.Keys;
    assert forall id :: id in shared <==> id in Releases.Ids(artifacts) && id in s.artifacts;
    if shared != {} { var id :| id in shared; }
    if a :| a in artifacts && a.artifactId in s.artifacts { assert a.artifactId in shared; }
  }

  /** A stored bundle has its digests and, for each of its artifacts, the row that names it. */
  lemma BundleInFull(s: Releases.Shelf, releaseId: string, digests: map<string, string>, artifacts: seq<Releases.Artifact>, i: nat)
    requires Releases.CreateBundle(s, releaseId, digests, artifacts).1 == Releases.Created
    ensures var t := Releases.CreateBundle(s, releaseId, digests, artifacts).0;
            && t.bundles == s.bundles[releaseId := digests]
            && (forall id | id in s.artifacts :: id in t.artifacts && t.artifacts[id] == s.artifacts[id])
            && (i < |artifacts| ==>
                  var a := artifacts[i];
                  a.artifactId in t.artifacts && t.artifacts[a.artifactId] == Releases.Stored(releaseId, a.checksum, a.uri))
  {
    Releases.ValidIff(digests, artifacts);
    hide Releases.Validate;
    forall id | id in s.artifacts
      ensures var t := Releases.Shelved(s.artifacts, releaseId, artifacts); id in t && t[id] == s.artifacts[id]
    {
      Releases.ShelvedRows(s.artifacts, releaseId, artifacts, id);
    }
    if i < |artifacts| { ShelvedAt(s.artifacts, releaseId, artifacts, i); }
  }

  lemma {:induction false} ShelvedAt(rows: map<string, Releases.Stored>, releaseId: string, artifacts: seq<Releases.Artifact>,
                                     i: nat)
    requires Releases.Distinct(artifacts) && i < |artifacts|
    ensures var t, a := Releases.Shelved(rows, releaseId, artifacts), artifacts[i];
            a.artifactId in t && t[a.artifactId] == Releases.Stored(releaseId, a.checksum, a.uri)
  {
    var n := |artifacts| - 1;
    if i < n {
      assert artifacts[..n][i] == artifacts[i];
      ShelvedAt(rows, releaseId, artifacts[..n], i);
    }
  }

  // --------------------------------------------------------------------------- dissents

  /** An accepting dissent that is stored leaves its artifact, open, with what the reviewer
      gave; a taken artifact id undoes the review; no other decision leaves one. */
  lemma DissentInFull(s: Store, dissents: map<string, Independence.Dissent>, req: Independence.ReviewRequest, now: int)
    ensures var (t, after, r) := Independence.PostWithDissent(s, dissents, req, now);
            var (u, posted) := Independence.Post(s, req, now);
            var id, dissenting := "DISSENT-" + req.decisionId, posted.Created? && req.outcome == AcceptWithDissent;
            && (dissenting && id in dissents ==>
                  (t, after, r) == (s, dissents, Independence.Failure(IntegrityError)))
            && (dissenting && id !in dissents ==>
                  && (t, r) == (u, posted)
                  && after == dissents[id := Independence.Dissent(req.decisionId, req.caseId, req.dissentScope,
                                                                  req.dissentRationale, req.dissentFollowup, true, now)])
            && (!dissenting ==> (t, after, r) == (u, dissents, posted))
  {
    hide Independence.Post;
    var (u, posted) := Independence.Post(s, req, now);
  }

  // ------------------------------------------------------------------------ gate evidence

  /** A stored row with the id is of the case, or has the id of a record, as the loop looks. */
  ghost predicate Found<T(!new)>(rows: seq<Fact<T>>, c: string, records: seq<Evidence.Record<T>>, reload: Evidence.Reload, id: string)
  {
    if reload == Evidence.ByCase then exists f :: f in rows && f.id == id && f.caseId == c
    else (exists f :: f in rows && f.id == id) && exists r :: r in records && r.id == id
  }

  /** What a loop that stores gate evidence answers: the ids it was given where it stores, and
      else those of the rows it finds. */
  lemma LoopAnswers<T(!new)>(rows: seq<Fact<T>>, caseExists: bool, c: string, records: seq<Evidence.Record<T>>, reload: Evidence.Reload)
    ensures var (after, o) := Evidence.Persist(rows, caseExists, c, records, reload);
            var pending := Evidence.Pending(rows, c, records);
            var stores := Evidence.DistinctIds(pending) && (caseExists || pending == []);
            && (records == [] ==> o == Raised(LookupError) && after == rows)
            && (records != [] && stores ==>
                  && after == rows + pending && o.Returned? && |o.value| == |records|
                  && forall i | 0 <= i < |records| :: o.value[i] == records[i].id)
            && (records != [] && !stores ==>
                  && after == rows
                  && (o.Raised? ==> o.error == RuntimeError && forall id: string :: !Found(rows, c, records, reload, id))
                  && (o.Returned? ==> forall id: string :: (id in o.value <==> Found(rows, c, records, reload, id))))
  {
    hide Evidence.Pending, Evidence.DistinctIds, Evidence.Selected, Found;
    SelectedIs(rows, c, records, reload);
  }

  lemma {:induction false} SelectedIs<T(!new)>(rows: seq<Fact<T>>, c: string, records: seq<Evidence.Record<T>>,
                                               reload: Evidence.Reload)
    ensures forall id: string ::
              (id in Evidence.Selected(rows, c, Evidence.IdsOf(records), reload) <==> Found(rows, c, records, reload, id))
  {
    if rows != [] {
      var n := |rows| - 1;
      SelectedIs(rows[..n], c, records, reload);
      assert rows == rows[..n] + [rows[n]];
      GivenIds(records, rows[n].id);
    }
  }

  lemma GivenIds<T>(records: seq<Evidence.Record<T>>, id: string)
    ensures id in Evidence.IdsOf(records) <==> exists r :: r in records && r.id == id
  {
    var ids := Evidence.IdsOf(records);
    if id in ids { var i :| 0 <= i < |ids| && ids[i] == id; assert records[i] in records; }
    if r :| r in records && r.id == id { var i :| 0 <= i < |records| && records[i] == r; assert ids[i] == id; }
  }

  // -------------------------------------------------------------------------- evidence

  const CROCKFORD := "0123456789ABCDEFGHJKMNPQRSTVWXYZ"

  /** An evidence id is the prefix and 26 characters of Crockford's alphabet, and is stored
      under its first two. */
  lemma StoredUnder(cfg: Registry.Settings, ulid: string, content: Content)
    ensures Registry.ValidEvidenceId("ART-" + ulid) <==> |ulid| == 26 && forall c | c in ulid :: c in CROCKFORD
    ensures Registry.ValidEvidenceId("ART-" + ulid) ==>
              Registry.RegisteredAs(cfg, "ART-" + ulid, content)
              == Registry.Registered("ART-" + ulid, cfg.digest(content), |content|,
                                     "s3://" + cfg.bucket + "/" + ("evidence/" + ulid[..2] + "/" + ("ART-" + ulid)))
  {
    var id := "ART-" + ulid;
    assert id[4..] == ulid;
    forall c: char ensures Registry.UlidChar(c) <==> c in CROCKFORD { CrockfordChars(c); }
    hide Registry.UlidChar;
    if |ulid| == 26 { assert id[4..6] == ulid[..2]; }
  }

  lemma CrockfordChars(c: char)
    ensures Registry.UlidChar(c) <==> c in CROCKFORD
  {
    hide Registry.UlidChar;
    if Registry.UlidChar(c) { ListedChar(c); }
    if c in CROCKFORD { AllowedChar(c); }
  }

  lemma ListedChar(c: char)
    requires Registry.UlidChar(c)
    ensures c in CROCKFORD
  {
    var k := if c <= '9' then c as int - '0' as int else if c <= 'H' then c as int - 'A' as int + 10
             else if c <= 'K' then c as int - 'J' as int + 18 else if c <= 'N' then c as int - 'M' as int + 20
             else if c <= 'T' then c as int - 'P' as int + 22 else c as int - 'V' as int + 27;
    assert CROCKFORD[k] == c;
  }

  lemma AllowedChar(c: char)
    requires c in CROCKFORD
    ensures Registry.UlidChar(c)
  {
  }

  /** How a storage URI is read: a scheme in any mixture of cases, an authority, any number of
      slashes, and a key, up to a query or a fragment. */
  lemma UriParts(accepts: Registry.HostCheck, scheme: string, authority: string, slashes: string, key: string, rest: string)
    requires SameLetters(scheme, "s3")
    requires forall ch | ch in authority :: ch !in {'/', '?', '#', '\t', '\r', '\n'}
    requires slashes != "" && (forall ch | ch in slashes :: ch == '/')
    requires (forall ch | ch in key :: ch !in {'?', '#', '\t', '\r', '\n'}) && (key != "" ==> key[0] != '/')
    requires (forall ch | ch in rest :: ch !in {'\t', '\r', '\n'}) && (rest != "" ==> rest[0] == '?' || rest[0] == '#')
    ensures Registry.ParseUri(accepts, scheme + "://" + (authority + (slashes + key + rest)))
            == if authority != "" && accepts(authority) then Some(ObjectName(authority, key)) else None
  {
    SchemeLetters(scheme);
    PartsClean(scheme, authority, slashes, key, rest);
    hide Registry.ParseUri, Registry.ParseBody, SameLetters;
    SchemePart(accepts, scheme, authority + (slashes + key + rest));
    BodyParts(accepts, authority, slashes, key, rest);
  }

  lemma SchemePart(accepts: Registry.HostCheck, scheme: string, body: string)
    requires Registry.Lower(scheme) == "s3" && |scheme| == 2 && scheme[0] > ' ' && ':' !in scheme
    requires forall ch | ch in scheme + "://" + body :: ch !in Registry.REMOVED
    ensures Registry.ParseUri(accepts, scheme + "://" + body) == Registry.ParseBody(accepts, body)
  {
    var uri := scheme + "://" + body;
    assert uri[0] == scheme[0];
    hide Registry.Before, Registry.Cleaned, Registry.ParseBody, Registry.Lower;
    Registry.CleanStays(uri);
    assert uri == scheme + ("://" + body);
    Registry.BeforeStopsAt(scheme, "://" + body, {':'});
    assert uri[2..] == "://" + body && uri[2..][3..] == body;
  }

  lemma BodyParts(accepts: Registry.HostCheck, authority: string, slashes: string, key: string, rest: string)
    requires forall ch | ch in authority :: ch !in {'/', '?', '#', '\t', '\r', '\n'}
    requires slashes != "" && (forall ch | ch in slashes :: ch == '/')
    requires (forall ch | ch in key :: ch !in {'?', '#', '\t', '\r', '\n'}) && (key != "" ==> key[0] != '/')
    requires rest != "" ==> rest[0] == '?' || rest[0] == '#'
    ensures Registry.ParseBody(accepts, authority + (slashes + key + rest))
            == if authority != "" && accepts(authority) then Some(ObjectName(authority, key)) else None
  {
    var path, tail, body := slashes + key, slashes + key + rest, authority + (slashes + key + rest);
    assert tail[0] == slashes[0] && slashes[0] in slashes;
    hide Registry.Before, Registry.StripSlashes;
    Registry.BeforeStopsAt(authority, tail, Registry.AUTHORITY_STOPS);
    assert body[|authority|..] == path + rest;
    PathStops(slashes, key);
    Registry.BeforeStopsAt(path, rest, Registry.PATH_STOPS);
    Stripped(slashes, key);
  }

  lemma PathStops(slashes: string, key: string)
    requires forall ch | ch in slashes :: ch == '/'
    requires forall ch | ch in key :: ch !in {'?', '#', '\t', '\r', '\n'}
    ensures forall ch | ch in slashes + key :: ch !in Registry.PATH_STOPS
  {
  }

  lemma SchemeLetters(scheme: string)
    requires SameLetters(scheme, "s3")
    ensures Registry.Lower(scheme) == "s3" && |scheme| == 2 && scheme[0] > ' ' && ':' !in scheme
    ensures forall ch | ch in scheme :: ch !in {'\t', '\r', '\n'}
  {
    var word := "s3";
    assert SameLetter(scheme[0], word[0]) && SameLetter(scheme[1], word[1]);
  }

  predicate Clean(s: string) {
    forall i | 0 <= i < |s| :: s[i] !in Registry.REMOVED
  }

  lemma CleanIff(s: string)
    ensures Clean(s) <==> forall ch | ch in s :: ch !in {'\t', '\r', '\n'}
  {
    assert forall i | 0 <= i < |s| :: s[i] in s;
  }

  lemma PartsClean(scheme: string, authority: string, slashes: string, key: string, rest: string)
    requires forall ch | ch in scheme :: ch !in {'\t', '\r', '\n'}
    requires forall ch | ch in authority :: ch !in {'/', '?', '#', '\t', '\r', '\n'}
    requires forall ch | ch in slashes :: ch == '/'
    requires forall ch | ch in key :: ch !in {'?', '#', '\t', '\r', '\n'}
    requires forall ch | ch in rest :: ch !in {'\t', '\r', '\n'}
    ensures forall ch | ch in scheme + "://" + (authority + (slashes + key + rest)) :: ch !in Registry.REMOVED
  {
    CleanIff(scheme);
    CleanIff(authority);
    CleanIff(slashes);
    CleanIff(key);
    CleanIff(rest);
    assert Clean(slashes + key + rest);
    assert Clean(authority + (slashes + key + rest));
    CleanIff(scheme + "://" + (authority + (slashes + key + rest)));
  }

  lemma {:induction false} Stripped(slashes: string, key: string)
    requires (forall ch | ch in slashes :: ch == '/') && (key != "" ==> key[0] != '/')
    ensures Registry.StripSlashes(slashes + key) == key
  {
    if slashes == "" {
      assert slashes + key == key;
    } else {
      assert slashes[0] in slashes && forall ch | ch in slashes[1..] :: ch in slashes;
      assert (slashes + key)[1..] == slashes[1..] + key;
      Stripped(slashes[1..], key);
    }
  }

  /** Two digests agree exactly if they are the same but for the case of their letters. */
  lemma DigestsAgreeIff(a: string, b: string)
    ensures Registry.Lower(a) == Registry.Lower(b) <==> SameLetters(a, b)
  {
    var x, y := Registry.Lower(a), Registry.Lower(b);
    if |a| == |b| {
      assert forall i | 0 <= i < |a| :: x[i] == y[i] <==> SameLetter(a[i], b[i]);
      assert x == y <==> forall i | 0 <= i < |a| :: x[i] == y[i];
    }
  }

  /** The ids of the hold's two transitions, spelled out. */
  lemma HoldIdsInFull(workflow: string, run: string, n: nat)
    ensures RequestIds.RequestId(workflow, run, RequestIds.ENTRY, n)
            == workflow + "/" + run + "/emergency_hold_entry/" + ("attempt-" + Strings.Decimal(n))
    ensures RequestIds.RequestId(workflow, run, RequestIds.EXIT, n)
            == workflow + "/" + run + "/emergency_hold_exit/" + ("attempt-" + Strings.Decimal(n))
  {
    var head := workflow + "/" + run;
    assert head + "/" + RequestIds.ENTRY + "/" == head + "/emergency_hold_entry/";
    assert head + "/" + RequestIds.EXIT + "/" == head + "/emergency_hold_exit/";
  }
}
