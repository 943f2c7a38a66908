/** How the protocol relates to a call made alone, and that history is only ever
    extended. */
module Interleavings {
  import opened Contracts
  import opened Tables
  import opened Transitions
  import opened Protocol
  import opened ProtocolInvariant
  import opened Histories

  // ------------------------------------------------------------------ extending runs

  lemma {:induction false} RunAppended(w: World, actions: seq<Action>, a: Action)
    requires Legal(w, actions) && Enabled(Run(w, actions), a)
    ensures Legal(w, actions + [a]) && Run(w, actions + [a]) == Perform(Run(w, actions), a)
    decreases |actions|
  {
    if actions == [] {
      assert (actions + [a])[1..] == [];
    } else {
      assert (actions + [a])[1..] == actions[1..] + [a];
      RunAppended(Perform(w, actions[0]), actions[1..], a);
    }
  }

  lemma StepReaches(w: World, a: Action)
    requires Reachable(w) && Enabled(w, a)
    ensures Reachable(Perform(w, a))
  {
    var actions :| Legal(INITIAL, actions) && Run(INITIAL, actions) == w;
    RunAppended(INITIAL, actions, a);
  }

  lemma ExtendsItself(w: World)
    ensures Extends(w, w)
  {
  }

  lemma SameTablesExtend(w: World, v: World)
    requires v.store == w.store && v.journal == w.journal && v.origin == w.origin
    requires SubMap(w.requests, v.requests)
    ensures Extends(w, v)
  {
  }

  lemma CommitExtends(w: World, id: nat)
    requires Enabled(w, CommitRow(id))
    ensures Extends(w, DoCommit(w, id))
  {
    if FindRow(w.store.ledger, w.attempts[id].req.requestId).Some? {
      SameTablesExtend(w, DoCommit(w, id));
    } else {
      CommitGrows(w.store, w.attempts[id].req, w.attempts[id].phase.result);
    }
  }

  lemma MoveExtends(w: World, id: nat, phase: Phase, locks: map<string, nat>)
    requires id in w.attempts
    ensures Extends(w, Moves(w, id, phase))
    ensures Extends(w, Moves(w, id, phase).(locks := locks))
  {
    SameTablesExtend(w, Moves(w, id, phase));
    SameTablesExtend(w, Moves(w, id, phase).(locks := locks));
  }

  lemma AttemptExtends(w: World, a: Action)
    requires Enabled(w, a) && (a.CheckLedger? || a.LockAndDecide? || a.Reload? || a.Answer? || a.Crash?)
    ensures Extends(w, Perform(w, a))
  {
    hide Decide, Recorded, FindRow, Extends;
    var phase, locks := Perform(w, a).attempts[a.id].phase, Perform(w, a).locks;
    MoveExtends(w, a.id, phase, locks);
  }

  lemma StepExtends(w: World, a: Action)
    requires StatesMatch(w) && HistoryGrounded(w) && Enabled(w, a)
    ensures Extends(w, Perform(w, a))
  {
    match a {
      case Begin(id, req) => SameTablesExtend(w, DoBegin(w, id, req));
      case CommitRow(id) => CommitExtends(w, id);
      case Accrue(next) => AccrueStates(w, next);
      case ReadCase(d, row) => SameTablesExtend(w, Perform(w, a));
      case AbortPackage(d) => SameTablesExtend(w, Perform(w, a));
      case WritePackage(d) => WriteGrows(w, d);
      case _ => AttemptExtends(w, a);
    }
  }

  lemma ExtendsTransitively(u: World, v: World, w: World)
    requires Extends(u, v) && Extends(v, w)
    ensures Extends(u, w)
  {
    GrowsTransitively(u.store, v.store, w.store);
  }

  /** Whatever happens next, history is only appended to and evidence only added: a fact
      about the tables or the journal that these theorems state keeps holding in every
      later database. */
  lemma {:induction false} RunExtends(w: World, actions: seq<Action>)
    requires Inv(w) && Legal(w, actions)
    ensures Extends(w, Run(w, actions))
    decreases |actions|
  {
    if actions == [] {
      ExtendsItself(w);
    } else {
      var v := Perform(w, actions[0]);
      StepKeeps(w, actions[0]);
      StepExtends(w, actions[0]);
      RunExtends(v, actions[1..]);
      ExtendsTransitively(w, v, Run(v, actions[1..]));
    }
  }

  // --------------------------------------------------------- a call made alone is a run

  /** The phase a call made alone ends in: it raises for a case the database has no row of. */
  function PhaseOf(o: Outcome<TransitionResult>, s: Store): Phase {
    match o
    case Returned(r) => Done(r)
    case Raised(e) => if e == LookupError then Absent(s) else Failed(e)
  }

  ghost predicate MayCall(w: World, id: nat, req: TransitionRequest) {
    && id !in w.attempts
    && (req.requestId in w.requests ==> w.requests[req.requestId] == req)
    && Lockable(w, req.caseId)
  }

  function AtPhase(w: World, id: nat, req: TransitionRequest, phase: Phase): World {
    w.(requests := w.requests[req.requestId := req], attempts := w.attempts[id := Attempt(req, phase)])
  }

  /** The world at a phase after the commit. */
  function Posting(w: World, id: nat, req: TransitionRequest, pick: nat, r: TransitionResult, phase: Phase): World
    requires req.caseId in w.store.cases
  {
    AtPhase(w, id, req, phase)
      .(store := Commit(w.store, req, r), journal := w.journal + [Posted(req, r, w.store, pick)])
  }

  /** The world after a call made alone. */
  ghost function AfterCall(w: World, id: nat, req: TransitionRequest, pick: nat): World {
    match FindRow(w.store.ledger, req.requestId)
    case Some(row) => AtPhase(w, id, req, PhaseOf(Recorded(row, req), w.store))
    case None =>
      if req.caseId !in w.store.cases then AtPhase(w, id, req, Absent(w.store))
      else
        var r := Decide(w.store, req, pick);
        Posting(w, id, req, pick, r, Done(r))
  }

  lemma ReachBegin(w: World, id: nat, req: TransitionRequest)
    requires Reachable(w) && MayCall(w, id, req)
    ensures Reachable(DoBegin(w, id, req))
  {
    StepReaches(w, Begin(id, req));
  }

  lemma ReachCheck(w: World, id: nat)
    requires Reachable(w) && id in w.attempts && w.attempts[id].phase.Ready?
    ensures Reachable(DoCheck(w, id))
  {
    StepReaches(w, CheckLedger(id));
  }

  lemma ReachLock(w: World, id: nat, pick: nat)
    requires Reachable(w) && id in w.attempts && w.attempts[id].phase.Missed?
    requires Lockable(w, w.attempts[id].req.caseId)
    ensures Reachable(DoLock(w, id, pick))
  {
    StepReaches(w, LockAndDecide(id, pick));
  }

  lemma ReachCommit(w: World, id: nat)
    requires Reachable(w) && id in w.attempts && w.attempts[id].phase.Holding?
    requires w.attempts[id].req.caseId in w.store.cases
    ensures Reachable(DoCommit(w, id))
  {
    StepReaches(w, CommitRow(id));
  }

  lemma ReachAnswer(w: World, id: nat)
    requires Reachable(w) && id in w.attempts && w.attempts[id].phase.Settled?
    ensures Reachable(Moves(w, id, Done(w.attempts[id].phase.result)))
  {
    StepReaches(w, Answer(id));
  }

  lemma StoredRowAnswersIn(w: World, id: nat, req: TransitionRequest)
    requires Reachable(DoBegin(w, id, req))
    ensures StoredRowAnswers(DoBegin(w, id, req), req)
  {
    ReachableInv(DoBegin(w, id, req));
    StoredRows(DoBegin(w, id, req), req);
  }

  lemma ReplayedCall(w: World, id: nat, req: TransitionRequest, pick: nat)
    requires Reachable(w) && MayCall(w, id, req) && FindRow(w.store.ledger, req.requestId).Some?
    ensures Reachable(AfterCall(w, id, req, pick))
  {
    hide Reachable, Decide, FindRow, LedgerRowFor, Legal, Run, Posting;
    var w1 := DoBegin(w, id, req);
    ReachBegin(w, id, req);
    StoredRowAnswersIn(w, id, req);
    var w2 := DoCheck(w1, id);
    ReachCheck(w1, id);
    var r := w2.attempts[id].phase.result;
    ReachAnswer(w2, id);
    assert Moves(w2, id, Done(r)).attempts == AfterCall(w, id, req, pick).attempts;
  }

  lemma FreshLookup(w: World, id: nat, req: TransitionRequest)
    requires Reachable(w) && MayCall(w, id, req) && FindRow(w.store.ledger, req.requestId).None?
    ensures Reachable(AtPhase(w, id, req, Missed))
  {
    var w1 := DoBegin(w, id, req);
    ReachBegin(w, id, req);
    ReachCheck(w1, id);
    assert DoCheck(w1, id).attempts == AtPhase(w, id, req, Missed).attempts;
  }

  function Locked(w: World, id: nat, req: TransitionRequest, pick: nat, r: TransitionResult): World {
    AtPhase(w, id, req, Holding(r, w.store, pick)).(locks := w.locks[req.caseId := id])
  }

  lemma FreshLock(w: World, id: nat, req: TransitionRequest, pick: nat)
    requires MayCall(w, id, req) && req.caseId in w.store.cases && Reachable(AtPhase(w, id, req, Missed))
    ensures Reachable(Locked(w, id, req, pick, Decide(w.store, req, pick)))
  {
    hide Reachable, Decide, FindRow, Legal, Run;
    var w2 := AtPhase(w, id, req, Missed);
    ReachLock(w2, id, pick);
    assert DoLock(w2, id, pick).attempts == Locked(w, id, req, pick, Decide(w.store, req, pick)).attempts;
  }

  lemma FreshCommit(w: World, id: nat, req: TransitionRequest, pick: nat, r: TransitionResult)
    requires MayCall(w, id, req) && req.caseId in w.store.cases
    requires FindRow(w.store.ledger, req.requestId).None? && Reachable(Locked(w, id, req, pick, r))
    ensures Reachable(Posting(w, id, req, pick, r, Settled(r)))
  {
    hide Reachable, Decide, FindRow, Legal, Run;
    var w3 := Locked(w, id, req, pick, r);
    ReachCommit(w3, id);
    var v := DoCommit(w3, id);
    assert v.locks == w.locks;
    assert v.attempts == Posting(w, id, req, pick, r, Settled(r)).attempts;
  }

  lemma FreshAnswer(w: World, id: nat, req: TransitionRequest, pick: nat, r: TransitionResult)
    requires MayCall(w, id, req) && req.caseId in w.store.cases
    requires Reachable(Posting(w, id, req, pick, r, Settled(r)))
    ensures Reachable(Posting(w, id, req, pick, r, Done(r)))
  {
    var w4 := Posting(w, id, req, pick, r, Settled(r));
    ReachAnswer(w4, id);
    assert Moves(w4, id, Done(r)).attempts == Posting(w, id, req, pick, r, Done(r)).attempts;
  }

  lemma FreshCall(w: World, id: nat, req: TransitionRequest, pick: nat)
    requires Reachable(w) && MayCall(w, id, req)
    requires FindRow(w.store.ledger, req.requestId).None? && req.caseId in w.store.cases
    ensures Reachable(AfterCall(w, id, req, pick))
  {
    var r := Decide(w.store, req, pick);
    FreshLookup(w, id, req);
    FreshLock(w, id, req, pick);
    FreshCommit(w, id, req, pick, r);
    FreshAnswer(w, id, req, pick, r);
  }

  lemma MissingCaseCall(w: World, id: nat, req: TransitionRequest, pick: nat)
    requires Reachable(w) && MayCall(w, id, req)
    requires FindRow(w.store.ledger, req.requestId).None? && req.caseId !in w.store.cases
    ensures Reachable(AfterCall(w, id, req, pick))
  {
    hide Reachable, Decide, FindRow, Legal, Run, Posting;
    var w2 := AtPhase(w, id, req, Missed);
    FreshLookup(w, id, req);
    ReachLock(w2, id, pick);
    assert DoLock(w2, id, pick).attempts == AfterCall(w, id, req, pick).attempts;
  }

  predicate EndsAs(v: World, id: nat, s: Store, phase: Phase) {
    v.store == s && id in v.attempts && v.attempts[id].phase == phase
  }

  /** With nobody holding or sharing the case, a call runs from lookup to its end and has
      the effect and the result `ApplyStateTransition` is specified by. */
  lemma CallAloneIsARun(w: World, id: nat, req: TransitionRequest, pick: nat)
    requires Reachable(w) && MayCall(w, id, req)
    ensures Reachable(AfterCall(w, id, req, pick))
    ensures var (t, o) := Transition(w.store, req, pick);
            EndsAs(AfterCall(w, id, req, pick), id, t, PhaseOf(o, w.store))
  {
    hide Reachable;
    if FindRow(w.store.ledger, req.requestId).Some? {
      ReplayedCall(w, id, req, pick);
    } else if req.caseId in w.store.cases {
      FreshCall(w, id, req, pick);
    } else {
      MissingCaseCall(w, id, req, pick);
    }
  }
}
