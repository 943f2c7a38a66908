/** Approvals, freshness and the resubmission loop over whole runs. */
module Guarantees {
  import opened Contracts
  import opened Tables
  import opened Transitions
  import opened Protocol
  import opened ProtocolInvariant
  import opened Histories

  predicate AppliedRow(e: Entry, fromState: CaseState, toState: CaseState) {
    e.Posted? && e.result.Applied? && e.req.fromState == fromState && e.req.toState == toState
  }

  // --------------------------------------------------------- when a transition applies

  /** What the table behind an edge has to hold, by the state it leads to. */
  ghost predicate GateOpen(s: Store, req: TransitionRequest, pick: nat) {
    var c, at, b := req.caseId, req.requestedAt, req.toState;
    && (b == IntakeComplete ==> c in s.projects)
    && (b == JurisdictionComplete ==> HasFact(s.resolutions, c))
    && (b == ResearchComplete ==> PicksFresh(s, c, pick))
    && (b == ComplianceComplete ==> FreshSince(s.compliance, c, at - 30 * DAY))
    && (b == IncentivesComplete ==> FreshSince(s.incentives, c, at - 3 * DAY))
    && (b == DocumentComplete ==> req.fromState == ResubmissionPending || HasPackage(s, c))
    && (b == ManualSubmissionRequired ==> HasFallback(s, c))
    && (b == Submitted ==> Proven(s, c))
    && (b == ApprovedForSubmission ==>
          ReviewAccepts(s, req) && (Overridden(s, req) || (req.overrideId.None? && !OpenBlocker(s, c))))
  }

  predicate PicksFresh(s: Store, c: string, pick: nat) {
    PickedRequirement(s, c, pick).Some? && PickedRequirement(s, c, pick).value.body == "FRESH"
  }

  lemma FreshIsFact(rows: seq<Fact<int>>, c: string, deadline: int)
    requires FreshSince(rows, c, deadline)
    ensures HasFact(rows, c)
  {
    var f :| f in rows && f.caseId == c && f.body >= deadline;
  }

  lemma GatesAppliedIff(s: Store, req: TransitionRequest, pick: nat)
    ensures ApprovalGate(s, req).Applied?
            <==> ReviewAccepts(s, req)
                 && (Overridden(s, req) || (req.overrideId.None? && !OpenBlocker(s, req.caseId)))
    ensures ComplianceGate(s, req).Applied? <==> FreshSince(s.compliance, req.caseId, req.requestedAt - 30 * DAY)
    ensures IncentivesGate(s, req).Applied? <==> FreshSince(s.incentives, req.caseId, req.requestedAt - 3 * DAY)
    ensures SubmittedGate(s, req).Applied? <==> Proven(s, req.caseId)
    ensures RequirementGate(s, req, pick).Applied? <==> PicksFresh(s, req.caseId, pick)
    ensures LatestFallback(s.fallbacks, req.caseId).Some? <==> HasFallback(s, req.caseId)
  {
    hide ReviewAccepts, OpenBlocker, HasFact, FreshSince, LatestFallback, OfCase;
    if FreshSince(s.compliance, req.caseId, req.requestedAt - 30 * DAY) {
      FreshIsFact(s.compliance, req.caseId, req.requestedAt - 30 * DAY);
    }
    if FreshSince(s.incentives, req.caseId, req.requestedAt - 3 * DAY) {
      FreshIsFact(s.incentives, req.caseId, req.requestedAt - 3 * DAY);
    }
  }

  /** States reached on evidence about the project. */
  predicate Early(st: CaseState) {
    st.IntakeComplete? || st.JurisdictionComplete? || st.ResearchComplete? || st.ComplianceComplete?
    || st.IncentivesComplete?
  }

  lemma EarlyAppliedIff(s: Store, req: TransitionRequest, pick: nat)
    requires Early(req.toState)
    ensures EdgeGate(s, req, pick).Applied? <==> PathEdge(req.fromState, req.toState) && GateOpen(s, req, pick)
  {
    hide ReviewAccepts, OpenBlocker, HasFact, FreshSince, LatestFallback, OfCase, ApprovalGate, ComplianceGate,
      IncentivesGate, SubmittedGate, RequirementGate, PicksFresh, Proven, Overridden, HasFallback, HasPackage;
    GatesAppliedIff(s, req, pick);
  }

  /** States reached on a package or a fallback. */
  predicate Packaging(st: CaseState) {
    st.DocumentComplete? || st.ManualSubmissionRequired?
  }

  lemma PackagingAppliedIff(s: Store, req: TransitionRequest, pick: nat)
    requires Packaging(req.toState) && req.fromState != EmergencyHold
    ensures EdgeGate(s, req, pick).Applied? <==> PathEdge(req.fromState, req.toState) && GateOpen(s, req, pick)
  {
    hide ReviewAccepts, OpenBlocker, HasFact, FreshSince, LatestFallback, OfCase, ApprovalGate, ComplianceGate,
      IncentivesGate, SubmittedGate, RequirementGate, PicksFresh, Proven, Overridden, HasFallback, HasPackage;
    GatesAppliedIff(s, req, pick);
  }

  /** States reached on a proof or an approval. */
  predicate Sending(st: CaseState) {
    st.Submitted? || st.ApprovedForSubmission?
  }

  lemma SendingAppliedIff(s: Store, req: TransitionRequest, pick: nat)
    requires Sending(req.toState) && req.fromState != EmergencyHold
    ensures EdgeGate(s, req, pick).Applied? <==> PathEdge(req.fromState, req.toState) && GateOpen(s, req, pick)
  {
    hide ReviewAccepts, OpenBlocker, HasFact, FreshSince, LatestFallback, OfCase, ApprovalGate, ComplianceGate,
      IncentivesGate, SubmittedGate, RequirementGate, PicksFresh, Proven, Overridden, HasFallback, HasPackage;
    GatesAppliedIff(s, req, pick);
  }

  lemma LateAppliedIff(s: Store, req: TransitionRequest, pick: nat)
    requires !Early(req.toState) && !Packaging(req.toState) && !Sending(req.toState)
    requires req.fromState != EmergencyHold && req.toState != EmergencyHold
    ensures EdgeGate(s, req, pick).Applied? <==> PathEdge(req.fromState, req.toState) && GateOpen(s, req, pick)
  {
    hide ReviewAccepts, OpenBlocker, HasFact, FreshSince, LatestFallback, OfCase, ApprovalGate, ComplianceGate,
      IncentivesGate, SubmittedGate, RequirementGate, PicksFresh, Proven, Overridden, HasFallback, HasPackage;
  }

  /** A transition is applied exactly if the case is where the request says, and the request
      enters the hold, or leaves it for anywhere but SUBMITTED, or follows an edge of the
      path whose gate is open. */
  lemma AppliedIff(s: Store, req: TransitionRequest, pick: nat)
    requires req.caseId in s.cases
    ensures Decide(s, req, pick).Applied?
            <==> s.cases[req.caseId].caseState == req.fromState
                 && (req.toState == EmergencyHold
                     || (req.fromState == EmergencyHold && req.toState != Submitted)
                     || (PathEdge(req.fromState, req.toState) && GateOpen(s, req, pick)))
  {
    hide EdgeGate, GateOpen;
    if req.fromState != EmergencyHold && req.toState != EmergencyHold {
      if Early(req.toState) { EarlyAppliedIff(s, req, pick); }
      else if Packaging(req.toState) { PackagingAppliedIff(s, req, pick); }
      else if Sending(req.toState) { SendingAppliedIff(s, req, pick); }
      else { LateAppliedIff(s, req, pick); }
    }
  }

  lemma GatesAccept(s: Store, req: TransitionRequest, pick: nat)
    ensures ApprovalGate(s, req).Applied? ==> ApprovalGate(s, req) == Accepted(req)
    ensures RequirementGate(s, req, pick).Applied? ==> RequirementGate(s, req, pick) == Accepted(req)
    ensures ComplianceGate(s, req).Applied? ==> ComplianceGate(s, req) == Accepted(req)
    ensures IncentivesGate(s, req).Applied? ==> IncentivesGate(s, req) == Accepted(req)
    ensures SubmittedGate(s, req).Applied? ==> SubmittedGate(s, req) == Accepted(req)
  {
    hide ReviewAccepts, OpenBlocker, HasFact, FreshSince, LatestFallback, OfCase, PickedRequirement, OverrideDenial;
  }

  /** An applied result is always the one the request asks for, at the time it names. */
  lemma AppliedIsAccepted(s: Store, req: TransitionRequest, pick: nat)
    requires req.caseId in s.cases && Decide(s, req, pick).Applied?
    ensures Decide(s, req, pick) == Accepted(req)
  {
    GatesAccept(s, req, pick);
    hide HasFact, LatestFallback, HasPackage, ApprovalGate, RequirementGate, ComplianceGate, IncentivesGate, SubmittedGate;
  }

  // ------------------------------------------------------------------ approvals

  lemma ApprovalDecision(seen: Store, req: TransitionRequest, pick: nat)
    requires req.caseId in seen.cases && seen.cases[req.caseId].caseState == req.fromState
    requires Edge(req, ReviewPending, ApprovedForSubmission)
    ensures Decide(seen, req, pick).Applied?
            <==> (ReviewAccepts(seen, req)
                  && (Overridden(seen, req) || (req.overrideId.None? && !OpenBlocker(seen, req.caseId))))
  {
  }

  lemma DecidedFromState(seen: Store, req: TransitionRequest, pick: nat)
    requires req.caseId in seen.cases && Decide(seen, req, pick).Applied?
    ensures seen.cases[req.caseId].caseState == req.fromState
  {
  }

  lemma ReviewStillAccepts(s: Store, t: Store, req: TransitionRequest)
    requires s.reviews <= t.reviews && ReviewAccepts(s, req)
    ensures ReviewAccepts(t, req)
  {
    FindReviewStable(s.reviews, t.reviews, req.requiredReviewId.value);
  }

  /** Every applied REVIEW_PENDING to APPROVED_FOR_SUBMISSION row rests on an accepting
      review of the same case, which is still stored; and when it was decided either no
      blocking contradiction was open, or an unexpired override of the case named exactly
      this transition. An override never stands in for the review. */
  lemma ApprovalIsSound(w: World, i: nat)
    requires Reachable(w) && i < |w.journal|
    requires AppliedRow(w.journal[i], ReviewPending, ApprovedForSubmission)
    ensures var Posted(req, _, seen, _) := w.journal[i];
            && ReviewAccepts(w.store, req)
            && Grows(seen, w.store)
            && (Overridden(w.store, req) || (req.overrideId.None? && !OpenBlocker(seen, req.caseId)))
  {
    PostedIsDecided(w, i);
    var Posted(req, result, seen, pick) := w.journal[i];
    DecidedFromState(seen, req, pick);
    ApprovalDecision(seen, req, pick);
    ReviewStillAccepts(seen, w.store, req);
  }

  lemma DecidedApproval(seen: Store, req: TransitionRequest, pick: nat)
    requires req.caseId in seen.cases && Decide(seen, req, pick).Applied?
    requires req.toState == ApprovedForSubmission
    ensures req.fromState == ReviewPending || req.fromState == EmergencyHold
  {
  }

  /** The only other way into APPROVED_FOR_SUBMISSION is out of a hold, which asks for no
      evidence. */
  lemma ApprovalOrHoldExit(w: World, i: nat)
    requires Reachable(w) && i < |w.journal|
    requires w.journal[i].Posted? && w.journal[i].result.Applied?
    requires w.journal[i].req.toState == ApprovedForSubmission
    ensures w.journal[i].req.fromState == ReviewPending || w.journal[i].req.fromState == EmergencyHold
  {
    PostedIsDecided(w, i);
    DecidedApproval(w.journal[i].seen, w.journal[i].req, w.journal[i].pick);
  }

  // ------------------------------------------------------------------- freshness

  lemma FreshStays(a: seq<Fact<int>>, b: seq<Fact<int>>, c: string, deadline: int)
    requires a <= b && FreshSince(a, c, deadline)
    ensures FreshSince(b, c, deadline)
  {
    var f :| f in a && f.caseId == c && f.body >= deadline;
    assert f in b;
  }

  lemma DecidedFresh(seen: Store, req: TransitionRequest, pick: nat)
    requires req.caseId in seen.cases && Decide(seen, req, pick).Applied?
    ensures Edge(req, ResearchComplete, ComplianceComplete)
            ==> FreshSince(seen.compliance, req.caseId, req.requestedAt - 30 * DAY)
    ensures Edge(req, ComplianceComplete, IncentivesComplete)
            ==> FreshSince(seen.incentives, req.caseId, req.requestedAt - 3 * DAY)
  {
  }

  /** Every row applied into COMPLIANCE_COMPLETE (INCENTIVES_COMPLETE) from its predecessor
      at time t is backed, from then on, by a record of the case no older than t less 30
      days (3 days). */
  lemma FreshnessHolds(w: World, i: nat)
    requires Reachable(w) && i < |w.journal| && w.journal[i].Posted?
    ensures var req := w.journal[i].req;
            && (AppliedRow(w.journal[i], ResearchComplete, ComplianceComplete)
                ==> FreshSince(w.store.compliance, req.caseId, req.requestedAt - 30 * DAY))
            && (AppliedRow(w.journal[i], ComplianceComplete, IncentivesComplete)
                ==> FreshSince(w.store.incentives, req.caseId, req.requestedAt - 3 * DAY))
  {
    PostedIsDecided(w, i);
    var Posted(req, result, seen, pick) := w.journal[i];
    if AppliedRow(w.journal[i], ResearchComplete, ComplianceComplete) {
      DecidedFresh(seen, req, pick);
      FreshStays(seen.compliance, w.store.compliance, req.caseId, req.requestedAt - 30 * DAY);
    }
    if AppliedRow(w.journal[i], ComplianceComplete, IncentivesComplete) {
      DecidedFresh(seen, req, pick);
      FreshStays(seen.incentives, w.store.incentives, req.caseId, req.requestedAt - 3 * DAY);
    }
  }

  // -------------------------------------------------------- the resubmission loop

  predicate InLoop(st: CaseState) {
    st in {Submitted, CommentReviewPending, CorrectionPending, ResubmissionPending}
  }

  function Submissions(journal: seq<Entry>, c: string): nat {
    if journal == [] then 0
    else
      var e := journal[|journal| - 1];
      Submissions(journal[..|journal| - 1], c) + Bit(e.Posted? && Changes(e, c) && e.req.toState == Submitted)
  }

  function Returns(journal: seq<Entry>, c: string): nat {
    if journal == [] then 0
    else
      var e := journal[|journal| - 1];
      Returns(journal[..|journal| - 1], c)
      + Bit(Changes(e, c) && AppliedRow(e, ResubmissionPending, DocumentComplete))
  }

  /** An edge enters the loop exactly by a submission and leaves it exactly by a return. */
  lemma LoopEdges(a: CaseState, b: CaseState)
    requires PathEdge(a, b)
    ensures !InLoop(a) && InLoop(b) <==> b == Submitted
    ensures InLoop(a) && !InLoop(b) <==> a == ResubmissionPending && b == DocumentComplete
  {
  }

  lemma ChangeIsEdge(w: World, c: string, i: nat)
    requires HistoryGrounded(w) && i < |w.journal| && Changes(w.journal[i], c)
    requires c in w.origin && w.origin[c] == IntakePending && HoldFree(w.journal, c)
    ensures Source(w.journal[i]) == Replay(w.origin[c], c, w.journal[..i])
    ensures w.journal[i].Posted? ==> PathEdge(Source(w.journal[i]), Target(w.journal[i]))
    ensures w.journal[i].Silent? ==> !InLoop(Source(w.journal[i]))
  {
    ChangeStartsFromState(w, i, c);
    EarnedUpTo(w, c, i);
    if w.journal[i].Posted? {
      AppliedIsEdge(w.journal[i].seen, w.journal[i].req, w.journal[i].pick);
    } else {
      SilentSteps(w, c, i);
    }
  }

  /** One more entry keeps the balance. */
  lemma LoopStep(j: seq<Entry>, e: Entry, c: string, initial: CaseState)
    requires Submissions(j, c) == Returns(j, c) + Bit(InLoop(Replay(initial, c, j)))
    requires Changes(e, c) ==> Source(e) == Replay(initial, c, j)
    requires Changes(e, c) && e.Posted? ==> PathEdge(Source(e), Target(e))
    requires Changes(e, c) && e.Silent? ==> !InLoop(Source(e))
    ensures var k := j + [e];
            Submissions(k, c) == Returns(k, c) + Bit(InLoop(Replay(initial, c, k)))
  {
    assert (j + [e])[..|j|] == j;
    if Changes(e, c) && e.Posted? { LoopEdges(Source(e), Target(e)); }
  }

  lemma {:induction false} LoopUpTo(w: World, c: string, n: nat)
    requires HistoryGrounded(w) && n <= |w.journal|
    requires c in w.origin && w.origin[c] == IntakePending && HoldFree(w.journal, c)
    ensures var j := w.journal[..n];
            Submissions(j, c) == Returns(j, c) + Bit(InLoop(Replay(w.origin[c], c, j)))
    decreases n
  {
    if n > 0 {
      LoopUpTo(w, c, n - 1);
      if Changes(w.journal[n - 1], c) { ChangeIsEdge(w, c, n - 1); }
      LoopStep(w.journal[..n - 1], w.journal[n - 1], c, w.origin[c]);
      assert w.journal[..n] == w.journal[..n - 1] + [w.journal[n - 1]];
    }
  }

  /** Over a hold-free life from INTAKE_PENDING, submissions minus returns is one while the
      case is in the submission loop and zero otherwise: a case is never submitted twice
      without having been returned, whatever package transactions overlap. */
  lemma SubmittedOncePerReturn(w: World, c: string)
    requires Reachable(w) && c in w.store.cases
    requires c in w.origin && w.origin[c] == IntakePending && HoldFree(w.journal, c)
    ensures Submissions(w.journal, c) - Returns(w.journal, c) == Bit(InLoop(w.store.cases[c].caseState))
  {
    ReachableInv(w);
    LoopUpTo(w, c, |w.journal|);
    assert w.journal[..|w.journal|] == w.journal;
  }
}
