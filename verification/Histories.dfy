/** What the protocol guarantees over whole runs: exactly-once commits, a state the
    history determines, conservation of flow, evidence that accumulates, and sound
    approvals. Every statement is about any world any interleaving reaches. */
module Histories {
  import opened Contracts
  import opened Tables
  import opened Transitions
  import opened Protocol
  import opened ProtocolInvariant

  // -------------------------------------------------------------- exactly once

  function RowsFor(ledger: seq<LedgerRow>, id: string): nat {
    if ledger == [] then 0
    else RowsFor(ledger[..|ledger| - 1], id) + (if ledger[|ledger| - 1].transitionId == id then 1 else 0)
  }

  /** Transition audit events written for a request id. */
  function AuditsFor(audit: seq<AuditRow>, id: string): nat {
    if audit == [] then 0
    else
      var last := audit[|audit| - 1];
      AuditsFor(audit[..|audit| - 1], id)
      + (if last.detail.TransitionDetail? && last.requestId == id then 1 else 0)
  }

  /** State changes a request id made. */
  function ChangesBy(journal: seq<Entry>, id: string): nat {
    if journal == [] then 0
    else
      var last := journal[|journal| - 1];
      ChangesBy(journal[..|journal| - 1], id)
      + (if last.Posted? && last.req.requestId == id && last.result.Applied? then 1 else 0)
  }

  lemma {:induction false} DistinctAtMostOnce(ledger: seq<LedgerRow>, id: string)
    requires forall i, j | 0 <= i < j < |ledger| :: ledger[i].transitionId != ledger[j].transitionId
    ensures RowsFor(ledger, id) <= 1
    ensures RowsFor(ledger, id) == 0 ==> forall row | row in ledger :: row.transitionId != id
    ensures RowsFor(ledger, id) == 1 ==> exists row | row in ledger :: row.transitionId == id
  {
    if ledger != [] {
      var n := |ledger| - 1;
      DistinctAtMostOnce(ledger[..n], id);
      assert ledger == ledger[..n] + [ledger[n]];
      if ledger[n].transitionId == id {
        assert forall row | row in ledger[..n] :: row.transitionId != id;
        assert ledger[n] in ledger;
      }
    }
  }

  lemma {:induction false} AuditsSurviveFilter(audit: seq<AuditRow>, id: string)
    ensures AuditsFor(TransitionAudits(audit), id) == AuditsFor(audit, id)
  {
    if audit != [] {
      var n := |audit| - 1;
      AuditsSurviveFilter(audit[..n], id);
      if audit[n].detail.TransitionDetail? {
        var before := TransitionAudits(audit[..n]);
        assert (before + [audit[n]])[..|before|] == before;
      }
    }
  }

  lemma RowsForAppended(rows: seq<LedgerRow>, row: LedgerRow, id: string)
    ensures RowsFor(rows + [row], id) == RowsFor(rows, id) + (if row.transitionId == id then 1 else 0)
  {
    assert (rows + [row])[..|rows|] == rows;
  }

  lemma {:induction false} AuditsMatchRows(journal: seq<Entry>, id: string)
    ensures AuditsFor(AuditsOf(journal), id) == RowsFor(RowsOf(journal), id)
  {
    if journal != [] {
      var n := |journal| - 1;
      AuditsMatchRows(journal[..n], id);
      if journal[n].Posted? {
        var audits, event := AuditsOf(journal[..n]), AuditRowFor(journal[n].req, journal[n].result);
        RowsForAppended(RowsOf(journal[..n]), LedgerRowFor(journal[n].req, journal[n].result), id);
        assert (audits + [event])[..|audits|] == audits;
      }
    }
  }

  lemma {:induction false} ChangesWithinRows(journal: seq<Entry>, id: string)
    ensures ChangesBy(journal, id) <= RowsFor(RowsOf(journal), id)
  {
    if journal != [] {
      var n := |journal| - 1;
      ChangesWithinRows(journal[..n], id);
      if journal[n].Posted? {
        RowsForAppended(RowsOf(journal[..n]), LedgerRowFor(journal[n].req, journal[n].result), id);
      }
    }
  }

  /** However many attempts carry a request id, and however they are interleaved, raced
      and crashed, at most one ledger row is committed for it, with exactly one audit
      event, and it changes a case at most once. */
  lemma ExactlyOnce(w: World, id: string)
    requires Reachable(w)
    ensures RowsFor(w.store.ledger, id) <= 1
    ensures AuditsFor(w.store.audit, id) == RowsFor(w.store.ledger, id)
    ensures ChangesBy(w.journal, id) <= RowsFor(w.store.ledger, id)
  {
    ReachableInv(w);
    DistinctAtMostOnce(w.store.ledger, id);
    AuditsSurviveFilter(w.store.audit, id);
    AuditsMatchRows(w.journal, id);
    ChangesWithinRows(w.journal, id);
  }

  lemma {:induction false} FilterKeepsMembers(audit: seq<AuditRow>, a: AuditRow)
    requires a in TransitionAudits(audit)
    ensures a in audit
  {
    var n := |audit| - 1;
    if !(audit[n].detail.TransitionDetail? && a == audit[n]) {
      FilterKeepsMembers(audit[..n], a);
    }
  }

  lemma {:induction false} PostedIsAudited(journal: seq<Entry>, i: nat)
    requires i < |journal| && journal[i].Posted?
    ensures AuditRowFor(journal[i].req, journal[i].result) in AuditsOf(journal)
    ensures LedgerRowFor(journal[i].req, journal[i].result) in RowsOf(journal)
  {
    var n := |journal| - 1;
    if i < n { PostedIsAudited(journal[..n], i); }
  }

  /** The audit event of a ledger row records the same decision. */
  lemma AuditMatchesLedger(w: World, row: LedgerRow)
    requires Reachable(w) && row in w.store.ledger
    ensures exists req, r ::
              row == LedgerRowFor(req, r) && AuditRowFor(req, r) in w.store.audit
  {
    ReachableInv(w);
    var i := RowIsPosted(w.journal, row);
    PostedIsAudited(w.journal, i);
    FilterKeepsMembers(w.store.audit, AuditRowFor(w.journal[i].req, w.journal[i].result));
  }

  /** All attempts of one request id that return, return the same result, and it is the
      one the stored row parses to. */
  lemma AttemptsAgree(w: World, a: nat, b: nat)
    requires Reachable(w)
    requires a in w.attempts && w.attempts[a].phase.Done?
    requires b in w.attempts && w.attempts[b].phase.Done?
    requires w.attempts[a].req.requestId == w.attempts[b].req.requestId
    ensures w.attempts[a].phase.result == w.attempts[b].phase.result
    ensures var row := FindRow(w.store.ledger, w.attempts[a].req.requestId);
            row.Some? && row.value.payload.Some?
            && Parse(row.value.payload.value) == Some(w.attempts[a].phase.result)
  {
    ReachableInv(w);
    assert AttemptGrounded(w, a) && AttemptGrounded(w, b);
    ParseInvertsDump(w.attempts[a].phase.result);
    ParseInvertsDump(w.attempts[b].phase.result);
  }

  /** No attempt ever misses the row it lost the race to, or finds one it cannot read; one
      that ends without a result and without a crash went to lock a case that, in the
      database of that moment, did not exist. */
  lemma OnlyMissingCaseFails(w: World, a: nat)
    requires Reachable(w) && a in w.attempts && Final(w.attempts[a].phase)
    ensures !w.attempts[a].phase.Failed?
    ensures var Attempt(req, phase) := w.attempts[a];
            phase.Absent? ==> req.caseId !in phase.seen.cases && Grows(phase.seen, w.store)
  {
    ReachableInv(w);
    assert AttemptGrounded(w, a);
  }

  // ------------------------------------------------- the history determines the state

  /** A change starts from the state the history before it leads to. */
  lemma ChangeStartsFromState(w: World, i: nat, c: string)
    requires HistoryGrounded(w) && i < |w.journal| && Changes(w.journal[i], c)
    ensures c in w.origin && EntryGrounded(w, i)
    ensures Source(w.journal[i]) == Replay(w.origin[c], c, w.journal[..i])
  {
    assert EntryGrounded(w, i);
  }

  /** Another package write of the case came between two points of the history. */
  predicate Overtaken(journal: seq<Entry>, c: string, lo: nat, hi: nat)
    requires hi <= |journal|
  {
    exists k :: lo <= k < hi && journal[k].Silent? && journal[k].caseId == c
  }

  /** Over a steady stretch a case stays where it was, unless a package write moved it. */
  lemma {:induction false} SteadyReplay(initial: CaseState, c: string, journal: seq<Entry>, lo: nat, hi: nat)
    requires lo <= hi <= |journal| && Steady(journal, c, lo, hi)
    ensures Replay(initial, c, journal[..hi])
            == if Overtaken(journal, c, lo, hi) then DocumentComplete else Replay(initial, c, journal[..lo])
  {
    if lo < hi {
      assert journal[..hi][..hi - 1] == journal[..hi - 1];
      SteadyReplay(initial, c, journal, lo, hi - 1);
    }
  }

  /** A package write that moved its case read it at INCENTIVES_COMPLETE, and found it still
      there when it wrote, or at DOCUMENT_COMPLETE exactly if another package write of the
      case had come in between. */
  ghost predicate SilentStep(w: World, c: string, i: nat)
    requires i < |w.journal| && w.journal[i].Silent? && c in w.origin
  {
    var Silent(_, packageId, fromState, readAt) := w.journal[i];
    && readAt <= i
    && Replay(w.origin[c], c, w.journal[..readAt]) == IncentivesComplete
    && fromState == Replay(w.origin[c], c, w.journal[..i])
    && fromState == (if Overtaken(w.journal, c, readAt, i) then DocumentComplete else IncentivesComplete)
    && exists row | row in w.store.packages :: row.caseId == c && row.packageId == packageId
  }

  lemma SilentSteps(w: World, c: string, i: nat)
    requires HistoryGrounded(w) && i < |w.journal| && w.journal[i].Silent? && w.journal[i].caseId == c
    ensures c in w.origin && SilentStep(w, c, i)
  {
    assert EntryGrounded(w, i);
    SteadyReplay(w.origin[c], c, w.journal, w.journal[i].readAt, i);
  }

  /** The current state of a case is its initial state folded over the applied rows and
      silent package steps of the history, each of which starts where the one before it
      ended; denied rows change nothing. A silent step leaves INCENTIVES_COMPLETE, or finds
      another one already did, and never leaves any other state; each has its package. */
  lemma HistoryDeterminesState(w: World, c: string)
    requires Reachable(w) && c in w.store.cases
    ensures c in w.origin && w.store.cases[c].caseState == Replay(w.origin[c], c, w.journal)
    ensures forall i | 0 <= i < |w.journal| && Changes(w.journal[i], c) ::
              Source(w.journal[i]) == Replay(w.origin[c], c, w.journal[..i])
    ensures forall i | 0 <= i < |w.journal| && w.journal[i].Silent? && w.journal[i].caseId == c :: SilentStep(w, c, i)
    ensures w.store.ledger == RowsOf(w.journal)
  {
    ReachableInv(w);
    hide Inv, SilentStep, EntryGrounded;
    forall i | 0 <= i < |w.journal| && Changes(w.journal[i], c)
      ensures Source(w.journal[i]) == Replay(w.origin[c], c, w.journal[..i])
    {
      ChangeStartsFromState(w, i, c);
    }
    forall i | 0 <= i < |w.journal| && w.journal[i].Silent? && w.journal[i].caseId == c ensures SilentStep(w, c, i) {
      SilentSteps(w, c, i);
    }
  }

  // -------------------------------------------------------------- conservation of flow

  function Entries(journal: seq<Entry>, c: string, st: CaseState): nat {
    if journal == [] then 0
    else
      var last := journal[|journal| - 1];
      Entries(journal[..|journal| - 1], c, st) + (if Changes(last, c) && Target(last) == st then 1 else 0)
  }

  function Exits(journal: seq<Entry>, c: string, st: CaseState): nat {
    if journal == [] then 0
    else
      var last := journal[|journal| - 1];
      Exits(journal[..|journal| - 1], c, st) + (if Changes(last, c) && Source(last) == st then 1 else 0)
  }

  function Bit(b: bool): nat { if b then 1 else 0 }

  lemma {:induction false} FlowUpTo(w: World, c: string, st: CaseState, n: nat)
    requires HistoryGrounded(w) && c in w.origin && n <= |w.journal|
    ensures Entries(w.journal[..n], c, st) + Bit(w.origin[c] == st)
            == Exits(w.journal[..n], c, st) + Bit(Replay(w.origin[c], c, w.journal[..n]) == st)
  {
    if n > 0 {
      FlowUpTo(w, c, st, n - 1);
      var prefix := w.journal[..n];
      assert prefix[..n - 1] == w.journal[..n - 1] && prefix[n - 1] == w.journal[n - 1];
      if Changes(w.journal[n - 1], c) { ChangeStartsFromState(w, n - 1, c); }
    }
  }

  /** For every case and state: entries minus exits is whether the case is there now,
      less whether it started there. */
  lemma FlowIsConserved(w: World, c: string, st: CaseState)
    requires Reachable(w) && c in w.store.cases
    ensures c in w.origin
    ensures Entries(w.journal, c, st) + Bit(w.origin[c] == st)
            == Exits(w.journal, c, st) + Bit(w.store.cases[c].caseState == st)
  {
    ReachableInv(w);
    FlowUpTo(w, c, st, |w.journal|);
    assert w.journal[..|w.journal|] == w.journal;
  }

  lemma DecidedSubmitted(seen: Store, req: TransitionRequest, pick: nat)
    requires req.caseId in seen.cases && Decide(seen, req, pick).Applied? && req.toState == Submitted
    ensures req.fromState == DocumentComplete
  {
  }

  /** A posted entry is what the guard decided on the database it read. */
  lemma PostedIsDecided(w: World, i: nat)
    requires Reachable(w) && i < |w.journal| && w.journal[i].Posted?
    ensures var Posted(req, result, seen, pick) := w.journal[i];
            && req.caseId in seen.cases
            && result == Decide(seen, req, pick)
            && Grows(seen, w.store)
  {
    ReachableInv(w);
    assert EntryGrounded(w, i);
  }

  /** A row into SUBMITTED can only be applied from DOCUMENT_COMPLETE, holds or not. */
  lemma SubmittedOnlyFromDocumentComplete(w: World, i: nat)
    requires Reachable(w) && i < |w.journal|
    requires w.journal[i].Posted? && w.journal[i].result.Applied? && w.journal[i].req.toState == Submitted
    ensures w.journal[i].req.fromState == DocumentComplete
  {
    PostedIsDecided(w, i);
    DecidedSubmitted(w.journal[i].seen, w.journal[i].req, w.journal[i].pick);
  }

  // ------------------------------------------------------------- evidence accumulates

  /** How far along the path a state is; None off the path. */
  function Rank(st: CaseState): Option<nat> {
    if st == IntakePending then Some(0)
    else if st == IntakeComplete then Some(1)
    else if st == JurisdictionComplete then Some(2)
    else if st == ResearchComplete then Some(3)
    else if st == ComplianceComplete then Some(4)
    else if st == IncentivesComplete then Some(5)
    else if st == DocumentComplete || st == Submitted || st == ManualSubmissionRequired || st == CommentReviewPending
            || st == CorrectionPending || st == ResubmissionPending then Some(6)
    else None
  }

  ghost predicate FreshRequirement(s: Store, c: string) {
    exists f | f in s.requirements :: f.caseId == c && f.body == "FRESH"
  }

  ghost predicate HasFallback(s: Store, c: string) {
    exists f | f in s.fallbacks :: f.caseId == c
  }

  /** The state is on the path, and everything the gates before it demand is stored. */
  ghost predicate Earned(s: Store, c: string, st: CaseState) {
    && Rank(st).Some?
    && var rank := Rank(st).value;
    && (rank >= 1 ==> c in s.projects)
    && (rank >= 2 ==> HasFact(s.resolutions, c))
    && (rank >= 3 ==> FreshRequirement(s, c))
    && (rank >= 4 ==> HasFact(s.compliance, c))
    && (rank >= 5 ==> HasFact(s.incentives, c))
    && (rank >= 6 ==> HasPackage(s, c))
    && (st == ManualSubmissionRequired ==> HasFallback(s, c))
  }

  ghost predicate HoldFree(journal: seq<Entry>, c: string) {
    forall e | e in journal && e.Posted? && Changes(e, c) :: e.req.toState != EmergencyHold
  }

  lemma HasFactGrows<T(!new)>(a: seq<Fact<T>>, b: seq<Fact<T>>, c: string)
    requires a <= b && HasFact(a, c)
    ensures HasFact(b, c)
  {
    var f :| f in a && f.caseId == c;
    assert f in b;
  }

  /** The edges off the hold. */
  predicate PathEdge(a: CaseState, b: CaseState) {
    || (a == IntakePending && b == IntakeComplete)
    || (a == IntakeComplete && b == JurisdictionComplete)
    || (a == JurisdictionComplete && b == ResearchComplete)
    || (a == ResearchComplete && b == ComplianceComplete)
    || (a == ComplianceComplete && b == IncentivesComplete)
    || (a == IncentivesComplete && b == DocumentComplete)
    || (a == ResubmissionPending && b == DocumentComplete)
    || (a == DocumentComplete && b == ManualSubmissionRequired)
    || (a == DocumentComplete && b == Submitted)
    || (a == Submitted && b == CommentReviewPending)
    || (a == CommentReviewPending && b == CorrectionPending)
    || (a == CorrectionPending && b == ResubmissionPending)
    || (a == ReviewPending && b == ApprovedForSubmission)
  }

  lemma AppliedIsEdge(seen: Store, req: TransitionRequest, pick: nat)
    requires req.caseId in seen.cases && Decide(seen, req, pick).Applied?
    requires req.fromState != EmergencyHold && req.toState != EmergencyHold
    ensures PathEdge(req.fromState, req.toState)
  {
    hide ApprovalGate, RequirementGate, ComplianceGate, IncentivesGate, SubmittedGate, HasFact, LatestFallback, HasPackage;
  }

  /** What an applied step leaves behind in the tables. */
  ghost predicate StepEvidence(s: Store, c: string, a: CaseState, b: CaseState) {
    && (b == IntakeComplete ==> c in s.projects)
    && (b == JurisdictionComplete ==> HasFact(s.resolutions, c))
    && (b == ResearchComplete ==> FreshRequirement(s, c))
    && (b == ComplianceComplete ==> HasFact(s.compliance, c))
    && (b == IncentivesComplete ==> HasFact(s.incentives, c))
    && (b == ManualSubmissionRequired ==> HasFallback(s, c))
    && (b == DocumentComplete ==> a == ResubmissionPending || HasPackage(s, c))
  }

  lemma GatesLeaveEvidence(s: Store, req: TransitionRequest, pick: nat)
    ensures RequirementGate(s, req, pick).Applied? ==> FreshRequirement(s, req.caseId)
    ensures ComplianceGate(s, req).Applied? ==> HasFact(s.compliance, req.caseId)
    ensures IncentivesGate(s, req).Applied? ==> HasFact(s.incentives, req.caseId)
    ensures LatestFallback(s.fallbacks, req.caseId).Some? ==> HasFallback(s, req.caseId)
  {
    hide HasFact, FreshSince, LatestFallback, OfCase;
    var rows := OfCase(s.requirements, req.caseId);
    if rows != [] { assert PickedRequirement(s, req.caseId, pick).value in rows; }
  }

  lemma EdgeLeavesEvidence(seen: Store, req: TransitionRequest, pick: nat)
    requires EdgeGate(seen, req, pick).Applied?
    ensures StepEvidence(seen, req.caseId, req.fromState, req.toState)
  {
    hide ApprovalGate, SubmittedGate, RequirementGate, ComplianceGate, IncentivesGate, HasFact, LatestFallback, HasPackage,
      HasFallback, FreshRequirement;
    GatesLeaveEvidence(seen, req, pick);
  }

  lemma GateEvidence(seen: Store, req: TransitionRequest, pick: nat)
    requires req.caseId in seen.cases
    requires Decide(seen, req, pick).Applied? && req.fromState != EmergencyHold
    ensures StepEvidence(seen, req.caseId, req.fromState, req.toState)
  {
    hide EdgeGate, HasFact, HasPackage, HasFallback, FreshRequirement;
    if req.toState != EmergencyHold { EdgeLeavesEvidence(seen, req, pick); }
  }

  /** The evidence a gate saw is still there in any later database. */
  lemma StepEvidenceStays(seen: Store, s: Store, c: string, a: CaseState, b: CaseState)
    requires Grows(seen, s) && StepEvidence(seen, c, a, b)
    ensures StepEvidence(s, c, a, b)
  {
    if b == JurisdictionComplete {
      HasFactGrows(seen.resolutions, s.resolutions, c);
    } else if b == ResearchComplete {
      var f :| f in seen.requirements && f.caseId == c && f.body == "FRESH";
      assert f in s.requirements;
    } else if b == ComplianceComplete {
      HasFactGrows(seen.compliance, s.compliance, c);
    } else if b == IncentivesComplete {
      HasFactGrows(seen.incentives, s.incentives, c);
    } else if b == ManualSubmissionRequired {
      var f :| f in seen.fallbacks && f.caseId == c;
      assert f in s.fallbacks;
    } else if b == DocumentComplete && a != ResubmissionPending {
      var p :| p in seen.packages && p.caseId == c;
      assert p in s.packages;
    }
  }

  lemma StepEarns(s: Store, c: string, a: CaseState, b: CaseState)
    requires PathEdge(a, b) && Earned(s, c, a) && StepEvidence(s, c, a, b)
    ensures Earned(s, c, b)
  {
    hide HasFact, FreshRequirement, HasPackage, HasFallback;
  }

  lemma EntryEarns(w: World, c: string, i: nat)
    requires i < |w.journal| && EntryGrounded(w, i) && Changes(w.journal[i], c) && w.journal[i].Posted?
    requires w.journal[i].req.toState != EmergencyHold
    requires Earned(w.store, c, Source(w.journal[i]))
    ensures Earned(w.store, c, Target(w.journal[i]))
  {
    var Posted(req, result, seen, pick) := w.journal[i];
    AppliedIsEdge(seen, req, pick);
    GateEvidence(seen, req, pick);
    StepEvidenceStays(seen, w.store, c, req.fromState, req.toState);
    StepEarns(w.store, c, req.fromState, req.toState);
  }

  lemma SilentEarns(w: World, c: string, i: nat)
    requires HistoryGrounded(w) && i < |w.journal| && w.journal[i].Silent? && w.journal[i].caseId == c
    requires c in w.origin && Earned(w.store, c, Replay(w.origin[c], c, w.journal[..i]))
    ensures Earned(w.store, c, DocumentComplete)
  {
    hide EntryGrounded;
    SilentSteps(w, c, i);
  }

  lemma OpeningEarned(s: Store, c: string)
    ensures Earned(s, c, IntakePending)
  {
  }

  lemma HoldFreeEntry(journal: seq<Entry>, c: string, i: nat)
    requires HoldFree(journal, c) && i < |journal| && journal[i].Posted? && Changes(journal[i], c)
    ensures journal[i].req.toState != EmergencyHold
  {
  }

  lemma {:induction false} EarnedUpTo(w: World, c: string, n: nat)
    requires HistoryGrounded(w) && n <= |w.journal|
    requires c in w.origin && w.origin[c] == IntakePending && HoldFree(w.journal, c)
    ensures Earned(w.store, c, Replay(w.origin[c], c, w.journal[..n]))
  {
    hide EntryGrounded, Earned, HoldFree, HasPackage;
    if n == 0 {
      OpeningEarned(w.store, c);
    } else {
      var e := w.journal[n - 1];
      assert w.journal[..n][..n - 1] == w.journal[..n - 1];
      EarnedUpTo(w, c, n - 1);
      if Changes(e, c) {
        ChangeStartsFromState(w, n - 1, c);
        if e.Posted? {
          HoldFreeEntry(w.journal, c, n - 1);
          EntryEarns(w, c, n - 1);
        } else {
          SilentEarns(w, c, n - 1);
        }
      }
    }
  }

  /** A case created at INTAKE_PENDING that was never put on hold only ever visits path
      states, and wherever it is, everything the earlier gates demand is stored, through
      the resubmission loop and any silent package step. */
  lemma EvidenceAccumulates(w: World, c: string)
    requires Reachable(w) && c in w.store.cases
    requires c in w.origin && w.origin[c] == IntakePending && HoldFree(w.journal, c)
    ensures Earned(w.store, c, w.store.cases[c].caseState)
    ensures w.store.cases[c].caseState !in {ReviewPending, ApprovedForSubmission}
  {
    ReachableInv(w);
    EarnedUpTo(w, c, |w.journal|);
    assert w.journal[..|w.journal|] == w.journal;
  }
}
