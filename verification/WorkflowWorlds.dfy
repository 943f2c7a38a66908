/** A workflow run as a run of the transition protocol: what holds of every interleaving
    holds of the databases that workflows leave. */
module WorkflowWorlds {
  import opened Contracts
  import opened Tables
  import opened Transitions
  import opened Protocol
  import opened Interleavings
  import opened ProtocolWriters
  import opened Activities
  import opened Workflow
  import opened WorkflowOutcomes
  import Packages
  import RequestIds
  import Retries

  /** Of the request ids this run can make, only those listed have been used. */
  ghost predicate Asked(c: Config, w: World, asked: set<(string, nat)>) {
    forall leg: Leg, attempt: nat :: LegId(c, leg, attempt) in w.requests ==> (leg.step, attempt) in asked
  }

  /** Nothing holds the case, and the run can go on. */
  ghost predicate Calm(c: Config, w: World, asked: set<(string, nat)>) {
    Reachable(w) && Idle(w) && Asked(c, w, asked)
  }

  lemma UnusedAttempt(w: World) returns (id: nat)
    ensures id !in w.attempts
  {
    var used := w.attempts.Keys;
    id := 0;
    var left := used;
    while id in used
      invariant left == set k | k in used && k >= id
      decreases left
    {
      assert id in left;
      id := id + 1;
      left := set k | k in used && k >= id;
    }
  }

  /** An activity that is not a transition. */
  lemma DoRuns(c: Config, w: World, asked: set<(string, nat)>, id: string, a: Activity) returns (z: World)
    requires Usable(c) && Concerns(c.caseId, a) && !a.ApplyTransition? && Calm(c, w, asked)
    ensures Calm(c, z, asked) && z.store == Do(c, w.store, id, a).0
  {
    hide Reachable, Activities.Perform, Usable, LegId;
    UsableFits(c, id, a);
    z := ActivityReaches(w, 0, c.x, a, c.draws(id));
  }

  lemma UsableFits(c: Config, id: string, a: Activity)
    requires Usable(c) && Concerns(c.caseId, a)
    ensures Fits(c.x, a, c.draws(id))
  {
    assert WellFormed(c.x, c.caseId, c.draws(id));
  }

  lemma MoveRuns(c: Config, w: World, asked: set<(string, nat)>, leg: Leg, attempt: nat, review: Option<string>)
    returns (z: World)
    requires Usable(c) && Calm(c, w, asked) && (leg.step, attempt) !in asked
    ensures Calm(c, z, asked + {(leg.step, attempt)})
    ensures z.store == Move(c, w.store, RequestFor(c, leg, attempt, review)).0
  {
    var req := RequestFor(c, leg, attempt, review);
    assert req.requestId == LegId(c, leg, attempt);
    hide Reachable, Activities.Perform, Usable, LegId, RequestFor;
    var id := UnusedAttempt(w);
    UsableFits(c, req.requestId, ApplyTransition(req));
    z := ActivityReaches(w, id, c.x, ApplyTransition(req), c.draws(req.requestId));
    forall other: Leg, n: nat | LegId(c, other, n) in z.requests ensures (other.step, n) in asked + {(leg.step, attempt)} {
      if (other.step, n) != (leg.step, attempt) { LegsApart(c, other, n, leg, attempt); }
    }
  }

  lemma MustRuns(c: Config, w: World, asked: set<(string, nat)>, leg: Leg) returns (z: World)
    requires Usable(c) && Calm(c, w, asked) && (leg.step, 1) !in asked
    ensures Calm(c, z, asked + {(leg.step, 1)}) && z.store == Must(c, w.store, leg).0
  {
    hide Calm, Move, Usable, RequestFor;
    z := MoveRuns(c, w, asked, leg, 1, None);
  }

  lemma StageRuns(c: Config, w: World, asked: set<(string, nat)>, kind: FactKind, activity: string, leg: Leg)
    returns (z: World)
    requires Usable(c) && Calm(c, w, asked) && (leg.step, 1) !in asked
    ensures Calm(c, z, asked + {(leg.step, 1)}) && z.store == Stage(c, w.store, kind, activity, leg).0
  {
    hide Calm, Do, Must, Usable, IdOf;
    z := DoRuns(c, w, asked, IdOf(c, activity, 1), PersistFacts(kind, c.caseId));
    var (t, o) := Do(c, w.store, IdOf(c, activity, 1), PersistFacts(kind, c.caseId));
    if o.Raised? {
      MoreAsked(c, z, asked, leg);
    } else {
      z := MustRuns(c, z, asked, leg);
    }
  }

  lemma MoreAsked(c: Config, w: World, asked: set<(string, nat)>, leg: Leg)
    requires Calm(c, w, asked)
    ensures Calm(c, w, asked + {(leg.step, 1)})
  {
    hide Reachable, LegId;
  }

  // ------------------------------------------------------------------------- branches

  lemma IncentivesRuns(c: Config, w: World, asked: set<(string, nat)>) returns (z: World)
    requires Usable(c) && Calm(c, w, asked) && (INCENTIVES.step, 1) !in asked
    ensures Calm(c, z, asked + {(INCENTIVES.step, 1)}) && z.store == IncentivesStage(c, w.store).0
  {
    hide Calm, Stage, Usable;
    z := StageRuns(c, w, asked, IncentiveAssessments, "persist_incentives", INCENTIVES);
  }

  const RESEARCHED: set<(string, nat)> := {(RESEARCH.step, 1), (COMPLIANCE.step, 1), (INCENTIVES.step, 1)}

  lemma Wider(c: Config, w: World, asked: set<(string, nat)>, more: set<(string, nat)>)
    requires Calm(c, w, asked) && asked <= more
    ensures Calm(c, w, more)
  {
    hide Reachable, LegId;
  }

  lemma StagesDiffer()
    ensures JURISDICTION.step != RESEARCH.step && JURISDICTION.step != COMPLIANCE.step && RESEARCH.step != COMPLIANCE.step
    ensures JURISDICTION.step != INCENTIVES.step && RESEARCH.step != INCENTIVES.step && COMPLIANCE.step != INCENTIVES.step
  {
    StepsDiffer();
    assert JURISDICTION.step[0] != RESEARCH.step[0] && JURISDICTION.step[0] != COMPLIANCE.step[0];
    assert RESEARCH.step[0] != COMPLIANCE.step[0];
  }

  lemma ResearchRuns(c: Config, w: World) returns (z: World)
    requires Usable(c) && Calm(c, w, {(JURISDICTION.step, 1), (RESEARCH.step, 1)})
    ensures Calm(c, z, {(JURISDICTION.step, 1)} + RESEARCHED) && z.store == FromResearch(c, w.store).0
  {
    hide Calm, Stage, IncentivesStage, Usable;
    StagesDiffer();
    var asked := {(JURISDICTION.step, 1), (RESEARCH.step, 1)};
    z := StageRuns(c, w, asked, ComplianceEvaluations, "persist_compliance", COMPLIANCE);
    if Stage(c, w.store, ComplianceEvaluations, "persist_compliance", COMPLIANCE).1.Raised? {
      Wider(c, z, asked + {(COMPLIANCE.step, 1)}, {(JURISDICTION.step, 1)} + RESEARCHED);
    } else {
      z := IncentivesRuns(c, z, asked + {(COMPLIANCE.step, 1)});
      Wider(c, z, asked + {(COMPLIANCE.step, 1)} + {(INCENTIVES.step, 1)}, {(JURISDICTION.step, 1)} + RESEARCHED);
    }
  }

  lemma IntakeCompleteRuns(c: Config, w: World) returns (z: World)
    requires Usable(c) && Calm(c, w, {})
    ensures Reachable(z) && Idle(z) && z.store == FromIntakeComplete(c, w.store).0
  {
    hide Stage, FromResearch, Usable, Reachable, Asked;
    StagesDiffer();
    z := StageRuns(c, w, {}, Jurisdictions, "persist_jurisdiction", JURISDICTION);
    var first := {(JURISDICTION.step, 1)};
    if Stage(c, w.store, Jurisdictions, "persist_jurisdiction", JURISDICTION).1.Returned? {
      Wider(c, z, {} + first, first);
      var y := z;
      z := StageRuns(c, y, first, RequirementSets, "persist_requirements", RESEARCH);
      if Stage(c, y.store, RequirementSets, "persist_requirements", RESEARCH).1.Returned? {
        Wider(c, z, first + {(RESEARCH.step, 1)}, {(JURISDICTION.step, 1), (RESEARCH.step, 1)});
        z := ResearchRuns(c, z);
      }
    }
  }

  lemma SubmissionRuns(c: Config, w: World, asked: set<(string, nat)>, packageId: string, initialId: Option<string>,
                       initial: Option<TransitionResult>) returns (z: World)
    requires Usable(c) && Calm(c, w, asked) && (SUBMIT.step, 1) !in asked && (MANUAL.step, 1) !in asked
    ensures Reachable(z) && Idle(z) && z.store == SubmissionStep(c, w.store, packageId, initialId, initial).0
  {
    var a := Adapt(c.caseId, c.runId, packageId);
    hide Do, Must, Usable, IdOf, Reachable, Asked;
    z := DoRuns(c, w, asked, IdOf(c, RequestIds.ADAPTER_STEP, 1), a);
    var o := Do(c, w.store, IdOf(c, RequestIds.ADAPTER_STEP, 1), a).1;
    if o == Returned(AdapterSays(UnsupportedWorkflow)) {
      z := MustRuns(c, z, asked, MANUAL);
    } else if o == Returned(AdapterSays(Success)) {
      z := MustRuns(c, z, asked, SUBMIT);
    }
  }

  lemma PackageRuns(c: Config, w: World, asked: set<(string, nat)>, attempt: nat) returns (z: World)
    requires Usable(c) && Calm(c, w, asked)
    ensures Calm(c, z, asked) && z.store == MakePackage(c, w.store, attempt).0
  {
    hide Do, Usable, IdOf, Calm;
    var id := IdOf(c, PACKAGE, attempt);
    z := DoRuns(c, w, asked, id, PersistPackage(Packages.PackageRequest(id, c.caseId)));
  }

  lemma AfterPackageRuns(c: Config, w: World, packageId: string) returns (z: World)
    requires Usable(c) && Calm(c, w, {})
    ensures Reachable(z) && Idle(z) && z.store == AfterPackage(c, w.store, packageId).0
  {
    hide Do, Must, SubmissionStep, Usable, IdOf, Reachable, Asked;
    StepsDiffer();
    z := DoRuns(c, w, {}, "fetch", FetchState(c.caseId));
    var (t, o) := Do(c, w.store, "fetch", FetchState(c.caseId));
    if o.Returned? {
      if o.value == CaseAt(DocumentComplete) {
        z := SubmissionRuns(c, z, {}, packageId, None, None);
      } else {
        var (u, r) := Must(c, t, DOCUMENT);
        z := MustRuns(c, z, {}, DOCUMENT);
        if r.Returned? {
          z := SubmissionRuns(c, z, {} + {(DOCUMENT.step, 1)}, packageId, Some(LegId(c, DOCUMENT, 1)), Some(r.value));
        }
      }
    }
  }

  lemma IncentivesCompleteRuns(c: Config, w: World) returns (z: World)
    requires Usable(c) && Calm(c, w, {})
    ensures Reachable(z) && Idle(z) && z.store == FromIncentivesComplete(c, w.store).0
  {
    hide MakePackage, AfterPackage, Usable, Reachable, Asked;
    z := PackageRuns(c, w, {}, 1);
    var o := MakePackage(c, w.store, 1).1;
    if o.Returned? { z := AfterPackageRuns(c, z, o.value); }
  }

  lemma DocumentCompleteRuns(c: Config, w: World) returns (z: World)
    requires Usable(c) && Calm(c, w, {})
    ensures Reachable(z) && Idle(z) && z.store == FromDocumentComplete(c, w.store).0
  {
    hide MakePackage, SubmissionStep, Usable, Reachable, Asked;
    z := PackageRuns(c, w, {}, 1);
    var o := MakePackage(c, w.store, 1).1;
    if o.Returned? { z := SubmissionRuns(c, z, {}, o.value, None, None); }
  }

  lemma ResubmissionRuns(c: Config, w: World) returns (z: World)
    requires Usable(c) && Calm(c, w, {})
    ensures Reachable(z) && Idle(z) && z.store == FromResubmission(c, w.store).0
  {
    hide MakePackage, SubmissionStep, Must, Usable, Reachable, Asked, IdOf;
    StepsDiffer();
    var (t, r) := Must(c, w.store, RESUBMISSION);
    z := MustRuns(c, w, {}, RESUBMISSION);
    if r.Returned? {
      var asked := {} + {(RESUBMISSION.step, 1)};
      z := PackageRuns(c, z, asked, 2);
      var o := MakePackage(c, t, 2).1;
      if o.Returned? {
        z := SubmissionRuns(c, z, asked, o.value, Some(LegId(c, RESUBMISSION, 1)), Some(r.value));
      }
    }
  }

  lemma WaitRuns(c: Config, w: World, asked: set<(string, nat)>, v: Review) returns (z: World)
    requires Calm(c, w, asked)
    ensures Calm(c, z, asked) && z.store == Waited(w.store, v)
  {
    hide Reachable, LegId;
    z := AccrueReaches(w, Waited(w.store, v));
  }

  lemma ReviewRuns(c: Config, w: World, v: Review) returns (z: World)
    requires Usable(c) && Calm(c, w, {})
    ensures Reachable(z) && Idle(z) && z.store == FromReview(c, w.store, v).0
  {
    hide Move, Usable, Reachable, Asked, RequestFor, Waited, LegId;
    var (t, o) := Move(c, w.store, RequestFor(c, APPROVAL, 1, None));
    z := MoveRuns(c, w, {}, APPROVAL, 1, None);
    if o.Returned? && o.value.Denied? && o.value.eventType == ApprovalGateDenied {
      var asked := {} + {(APPROVAL.step, 1)};
      z := WaitRuns(c, z, asked, v);
      if FirstSignal(v).decisionId.Some? {
        z := MoveRuns(c, z, asked, APPROVAL, 2, FirstSignal(v).decisionId);
      }
    }
  }

  lemma FromStateRuns(c: Config, w: World, state: CaseState, v: Review) returns (z: World)
    requires Usable(c) && Calm(c, w, {})
    ensures Reachable(z) && Idle(z) && z.store == FromState(c, w.store, state, v).0
  {
    hide Usable, Reachable, Asked, FromState, FromIntakeComplete, FromIncentivesComplete, FromDocumentComplete,
      FromResubmission, FromReview, Must, IncentivesStage;
    FromStateCases(c, w.store, state, v);
    if state == IntakePending { z := MustRuns(c, w, {}, INTAKE); }
    else if state == IntakeComplete { z := IntakeCompleteRuns(c, w); }
    else if state == ComplianceComplete { z := IncentivesRuns(c, w, {}); }
    else if state == IncentivesComplete { z := IncentivesCompleteRuns(c, w); }
    else if state == DocumentComplete { z := DocumentCompleteRuns(c, w); }
    else if state == Submitted || state == CorrectionPending { z := w; }
    else if state == CommentReviewPending { z := MustRuns(c, w, {}, CORRECTION); }
    else if state == ResubmissionPending { z := ResubmissionRuns(c, w); }
    else { z := ReviewRuns(c, w, v); }
  }

  // ----------------------------------------------------------------------- whole runs

  /** A workflow run with no call in between, from any reachable database in which its
      request ids are new, is a run of the transition protocol. */
  lemma WorkflowIsARun(c: Config, w: World, v: Review) returns (z: World)
    requires Usable(c) && Calm(c, w, {})
    ensures Reachable(z) && Idle(z) && z.store == Flow(c, w.store, v).0
  {
    hide Usable, Reachable, Asked, FromState, Do;
    var t := Do(c, w.store, "ensure", EnsureCase(c.caseId)).0;
    var (u, o) := Do(c, t, "fetch", FetchState(c.caseId));
    z := DoRuns(c, w, {}, "ensure", EnsureCase(c.caseId));
    z := DoRuns(c, z, {}, "fetch", FetchState(c.caseId));
    if o.Returned? && o.value.CaseAt? {
      z := FromStateRuns(c, z, o.value.state, v);
    }
  }

  /** So is one whose activities crash: what it leaves differs from the run without crashes
      at most in objects no row points at. Every theorem about reachable databases holds of
      what workflows leave, one after another. */
  lemma CrashedWorkflowIsARun(c: Config, w: World, v: Review, after: Store) returns (z: World)
    requires Usable(c) && Calm(c, w, {}) && Retries.Alike(Flow(c, w.store, v).0, after, c.x.cfg)
    ensures Reachable(z) && Idle(z) && z.store == after
  {
    hide Usable, Reachable, Asked, Flow;
    z := WorkflowIsARun(c, w, v);
    ObjectsAccrue(z.store, after.objects);
    z := AccrueReaches(z, after);
  }
}
