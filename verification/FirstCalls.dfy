/** The first submission call of a case, in full: what it answers and every row it leaves, by
    the support level of the case. */
module FirstCalls {
  import opened Contracts
  import opened Tables
  import opened Registry
  import opened RequestIds
  import opened Submission
  import opened SubmissionHistories
  import Strings

  /** The ids a workflow run derives, spelled out. */
  lemma IdsInFull(c: string, run: string, step: string, attempt: nat)
    ensures var workflow, tag := "permit-case/" + c, "attempt-" + Strings.Decimal(attempt);
            && WorkflowOf(c) == workflow
            && RequestId(workflow, run, step, attempt) == workflow + "/" + run + "/" + step + "/" + tag
            && AttemptId(workflow, run, attempt) == workflow + "/" + run + "/submission_attempt/" + tag
            && FallbackId(AttemptId(workflow, run, attempt)) == "MFP-" + AttemptId(workflow, run, attempt)
            && SubmitKey(c, attempt) == "submit/" + c + "/" + tag
  {
  }

  /** What a manual fallback asks for: the planned sources' artifacts, the manifest alone
      where there is no plan, and never an empty id. */
  lemma AttachmentsIff(s: Store, env: Env, req: AdapterRequest, p: PackageRow, id: string)
    ensures id in Attachments(s, p, Sources(env, req))
            <==> && id != ""
                 && var plan := env.plan(req.caseId, req.family);
                 (|| (id == p.manifestArtifactId && (plan.None? || FromManifest in plan.value))
                  || (plan.Some? && FromDocuments in plan.value
                      && exists d :: d in s.documents && d.packageId == p.packageId && d.artifactId == id))
  {
  }

  lemma PendingInFull(s: Store, env: Env, c: string, run: string, p: string, draw: Draw)
    requires Drawn(env, draw) && c in s.cases && FindPackageRow(s.packages, p).Some?
    ensures var req, package := Keyed(c, run, p), FindPackageRow(s.packages, p).value;
            var level := s.cases[c].supportLevel;
            && PendingRow(s, req, package)
               == AttemptRow(c, p, package.manifestArtifactId, "CITY_PORTAL_FAMILY_A", level, req.requestId,
                             req.idempotencyKey, 1, PendingAttempt, None, None, None, None, None)
            && SupportLevel(s.cases[c]) == (if level == "" then "UNKNOWN" else level)
            && (NeedsFallback(s.cases[c]) <==> level == "UNSUPPORTED" || level == "PARTIALLY_SUPPORTED_READ_ONLY")
  {
    hide RequestId, AttemptId, SubmitKey;
    var shown := "UNKNOWN";
    assert shown[2] != "UNSUPPORTED"[2] && |shown| != |"PARTIALLY_SUPPORTED_READ_ONLY"|;
  }

  lemma TrackingInFull(c: string, run: string, p: string)
    ensures var req := Keyed(c, run, p);
            && TrackingId(req) == "CITY_PORTAL_FAMILY_A-" + req.attemptId
            && ReceiptText(req) == "receipt: case=" + c + " attempt=" + req.attemptId + " tracking=" + TrackingId(req)
  {
    hide RequestId, AttemptId, SubmitKey;
    assert FAMILY + "-" == "CITY_PORTAL_FAMILY_A-";
  }

  lemma FallbackInFull(s: Store, env: Env, c: string, run: string, p: string, draw: Draw)
    requires Drawn(env, draw) && c in s.cases && FindPackageRow(s.packages, p).Some?
    ensures var req, package, level := Keyed(c, run, p), FindPackageRow(s.packages, p).value, s.cases[c].supportLevel;
            var shown, id := if level == "" then "UNKNOWN" else level, req.attemptId;
            && FallbackFor(s, env, req, package, draw.now)
               == FallbackRow(FallbackId(id), c, p, package.version, id, package.manifestDigest, shown,
                              Attachments(s, package, Sources(env, req)), false, None, draw.now)
            && FallbackResult(s, req)
               == AdapterResult(id, ManualFallback, UnsupportedWorkflow, None, None, None, Some(FallbackId(id)), shown, None)
            && SentResult(s, req, draw)
               == AdapterResult(id, SubmittedAttempt, Success, Some(TrackingId(req)), Some(draw.receiptId), Some(draw.now),
                                None, shown, None)
            && ReceiptRow(env, req, draw)
               == ArtifactRow(ReceiptClass, c, id, env.cfg.digest(ReceiptText(req)), StorageUri(Name(env.cfg, draw.receiptId)),
                              |ReceiptText(req)|)
  {
    hide RequestId, AttemptId, SubmitKey, FallbackId, Attachments, Sources, TrackingId, ReceiptText, StorageUri, ObjectKey,
      ValidEvidenceId;
  }

  /** The first call of a case falls back exactly if the case's support level is UNSUPPORTED or
      PARTIALLY_SUPPORTED_READ_ONLY, and then adds a fallback row and no artifact; at every
      other level, the empty one included, it succeeds and adds a receipt and no fallback. */
  lemma FirstCallInFull(s: Store, env: Env, c: string, run: string, p: string, draw: Draw)
    requires Callable(s, env, c, run, p, draw) && draw.receiptId !in s.artifacts
    requires forall id | id in s.attempts :: s.attempts[id].caseId != c
    ensures var (t, o) := Adapt(s, env, Keyed(c, run, p), draw, false);
            var level, package := s.cases[c].supportLevel, FindPackageRow(s.packages, p).value;
            var shown := if level == "" then "UNKNOWN" else level;
            var id := Keyed(c, run, p).attemptId;
            var row := AttemptRow(c, p, package.manifestArtifactId, "CITY_PORTAL_FAMILY_A", level,
                                  Keyed(c, run, p).requestId, Keyed(c, run, p).idempotencyKey, 1, PendingAttempt,
                                  None, None, None, None, None);
            if level == "UNSUPPORTED" || level == "PARTIALLY_SUPPORTED_READ_ONLY" then
              var n := |s.fallbacks|;
              && o == Returned(AdapterResult(id, ManualFallback, UnsupportedWorkflow, None, None, None, Some(FallbackId(id)),
                                             shown, None))
              && |t.fallbacks| == n + 1
              && t == s.(attempts := s.attempts[id := row.(status := ManualFallback, outcome := Some(UnsupportedWorkflow))],
                         fallbacks := s.fallbacks + [t.fallbacks[n]])
              && t.fallbacks[n] == FallbackRow(FallbackId(id), c, p, package.version, id, package.manifestDigest, shown,
                                               t.fallbacks[n].attachments, false, None, draw.now)
              && t.fallbacks[n].attachments == Attachments(s, package, Sources(env, Keyed(c, run, p)))
            else
              var tracking, receipt := "CITY_PORTAL_FAMILY_A-" + id, draw.receiptId;
              var text := "receipt: case=" + c + " attempt=" + id + " tracking=" + tracking;
              && o == Returned(AdapterResult(id, SubmittedAttempt, Success, Some(tracking), Some(receipt), Some(draw.now),
                                             None, shown, None))
              && t == s.(attempts := s.attempts[id := row.(status := SubmittedAttempt, outcome := Some(Success),
                                                           trackingId := Some(tracking), receiptId := Some(receipt),
                                                           submittedAt := Some(draw.now))],
                         artifacts := s.artifacts[receipt := ArtifactRow(ReceiptClass, c, id, env.cfg.digest(text),
                                                    StorageUri(Name(env.cfg, receipt)), |text|)],
                         objects := s.objects[Name(env.cfg, receipt) := text])
  {
    assert !HasAttempt(s, c);
    assert Keyed(c, run, p).caseId == c;
    FirstCallMakesTheAttempt(s, env, c, run, p, draw);
    PendingInFull(s, env, c, run, p, draw);
    TrackingInFull(c, run, p);
    FallbackInFull(s, env, c, run, p, draw);
    hide Keyed, Adapt, Sound, NeedsFallback, SupportLevel, Attachments, Sources, PendingRow, FallbackId, ValidEvidenceId,
      StorageUri, ObjectKey, TrackingId, ReceiptText, FallbackFor, FallbackResult, SentResult, ReceiptRow;
  }

  /** An attempt is read back as its row says, with the one fallback that names it. */
  lemma LoadInFull(s: Store, id: string)
    requires id in s.attempts
    ensures var a, manual := s.attempts[id], FallbacksOf(s.fallbacks, id);
            && (forall f :: f in manual <==> f in s.fallbacks && f.attemptId == id)
            && (Load(s, id).Raised? <==> |manual| > 1)
            && (|manual| <= 1 ==>
                  Load(s, id) == Returned(AdapterResult(id, a.status, if a.outcome == None then AdapterFailed else a.outcome.value,
                                                        a.trackingId, a.receiptId, a.submittedAt,
                                                        if manual == [] then None else Some(manual[0].fallbackId),
                                                        a.supportLevel, a.failureClass)))
  {
    FallbacksOfIn(s.fallbacks, id);
    hide FallbacksOf;
  }

  lemma {:induction false} FallbacksOfIn(rows: seq<FallbackRow>, id: string)
    ensures forall f :: f in FallbacksOf(rows, id) <==> f in rows && f.attemptId == id
  {
    if rows != [] {
      var n := |rows| - 1;
      FallbacksOfIn(rows[..n], id);
      assert rows == rows[..n] + [rows[n]];
    }
  }

  /** A call that fails before its first read marks a committed attempt that was not submitted
      as failed, and changes nothing else. */
  lemma FailureInFull(s: Store, env: Env, c: string, run: string, p: string, draw: Draw)
    requires Drawn(env, draw)
    ensures var (t, o) := Adapt(s, env, Keyed(c, run, p), draw, true);
            var id := Keyed(c, run, p).attemptId;
            && o == Raised(StorageError)
            && t == if id in s.attempts && s.attempts[id].status != SubmittedAttempt
                    then s.(attempts := s.attempts[id := s.attempts[id].(status := FailedAttempt, outcome := Some(AdapterFailed),
                                                                         failureClass := Some("ADAPTER_ERROR"))])
                    else s
  {
    hide Keyed;
  }

  /** A call that loses on a key answers the one attempt that has its request id or its
      idempotency key, and raises where there is none or more than one. */
  lemma ReloadInFull(s: Store, req: AdapterRequest, id: string)
    ensures var mine := forall other | other in s.attempts && other != id ::
                          s.attempts[other].requestId != req.requestId && s.attempts[other].idempotencyKey != req.idempotencyKey;
            && (id in s.attempts && Matches(s.attempts[id], req) && mine ==> Reload(s, req) == Load(s, id))
            && (id in s.attempts && Matches(s.attempts[id], req) && !mine ==> Reload(s, req) == Raised(RuntimeError))
            && (id !in s.attempts && mine ==> Reload(s, req) == Raised(RuntimeError))
            && (id in s.attempts ==>
                  (Matches(s.attempts[id], req)
                   <==> s.attempts[id].requestId == req.requestId || s.attempts[id].idempotencyKey == req.idempotencyKey))
  {
    hide Load;
  }

  /** A call whose attempt is stored answers it, or raises and marks it failed where it has two
      fallbacks; one without its case or its package raises and changes nothing. */
  lemma LookupsInFull(s: Store, env: Env, req: AdapterRequest, draw: Draw)
    requires Drawn(env, draw)
    ensures var (t, o) := Adapt(s, env, req, draw, false);
            && (req.attemptId in s.attempts && Load(s, req.attemptId).Returned? ==> (t, o) == (s, Load(s, req.attemptId)))
            && (req.attemptId in s.attempts && Load(s, req.attemptId).Raised? ==>
                  var row := s.attempts[req.attemptId];
                  && o == Raised(RuntimeError)
                  && t == s.(attempts := s.attempts[req.attemptId :=
                               if row.status == SubmittedAttempt then row
                               else row.(status := FailedAttempt, outcome := Some(AdapterFailed),
                                         failureClass := Some("ADAPTER_ERROR"))]))
            && (req.attemptId !in s.attempts
                && (req.caseId !in s.cases || forall p | p in s.packages :: p.packageId != req.packageId) ==>
                  (t, o) == (s, Raised(LookupError)))
  {
    hide FallbacksOf, KeyTaken;
  }
}
