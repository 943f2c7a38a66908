/** Every step of the protocol keeps the invariant. */
module ProtocolInvariant {
  import opened Contracts
  import opened Tables
  import opened Transitions
  import opened Protocol

  // ------------------------------------------------------------ histories and rows

  lemma Appended(journal: seq<Entry>, e: Entry)
    ensures RowsOf(journal + [e])
            == if e.Posted? then RowsOf(journal) + [LedgerRowFor(e.req, e.result)] else RowsOf(journal)
    ensures AuditsOf(journal + [e])
            == if e.Posted? then AuditsOf(journal) + [AuditRowFor(e.req, e.result)] else AuditsOf(journal)
    ensures forall initial, c ::
              (Replay(initial, c, journal + [e])
               == (if Changes(e, c) then Target(e) else Replay(initial, c, journal)))
  {
    assert (journal + [e])[..|journal|] == journal;
  }

  lemma AuditAppended(audit: seq<AuditRow>, row: AuditRow)
    requires row.detail.TransitionDetail?
    ensures TransitionAudits(audit + [row]) == TransitionAudits(audit) + [row]
  {
    assert (audit + [row])[..|audit|] == audit;
  }

  /** A case nothing in the history mentions is still in its initial state. */
  lemma {:induction false} ReplayUntouched(initial: CaseState, c: string, journal: seq<Entry>)
    requires forall e | e in journal :: CaseOf(e) != c
    ensures Replay(initial, c, journal) == initial
  {
    if journal != [] {
      assert journal[|journal| - 1] in journal;
      ReplayUntouched(initial, c, journal[..|journal| - 1]);
    }
  }

  lemma DistinctAppended(ledger: seq<LedgerRow>, row: LedgerRow)
    requires forall i, j | 0 <= i < j < |ledger| :: ledger[i].transitionId != ledger[j].transitionId
    requires FindRow(ledger, row.transitionId).None?
    ensures var l := ledger + [row];
            forall i, j | 0 <= i < j < |l| :: l[i].transitionId != l[j].transitionId
  {
    var l := ledger + [row];
    forall i, j | 0 <= i < j < |l|
      ensures l[i].transitionId != l[j].transitionId
    {
      assert l[i] in ledger;
    }
  }

  lemma RecordedDump(req: TransitionRequest, r: TransitionResult)
    ensures Recorded(LedgerRowFor(req, r), req) == Returned(r)
  {
    ParseInvertsDump(r);
  }

  // ------------------------------------------------------------------------ frames

  /** What the steps that post nothing new leave alone. */
  ghost predicate Extends(w: World, v: World) {
    && w.journal <= v.journal
    && Grows(w.store, v.store)
    && SubMap(w.origin, v.origin)
    && SubMap(w.requests, v.requests)
  }

  lemma EntryFrame(w: World, v: World, i: nat)
    requires Extends(w, v) && i < |w.journal| && EntryGrounded(w, i)
    ensures EntryGrounded(v, i)
  {
    var e := w.journal[i];
    assert v.journal[i] == e && v.journal[..i] == w.journal[..i];
    match e {
      case Posted(req, result, seen, pick) =>
        GrowsTransitively(seen, w.store, v.store);
      case Silent(c, p, fromState, readAt) =>
        assert v.journal[..readAt] == w.journal[..readAt];
        assert forall k | 0 <= k < i :: v.journal[k] == w.journal[k];
        var row :| row in w.store.packages && row.caseId == c && row.packageId == p;
        assert row in v.store.packages;
    }
  }

  /** What a step must leave alone for a package transaction: its lock, and the state of its
      case except for other package writes. */
  ghost predicate Undisturbed(w: World, v: World, d: nat)
    requires d in w.drafts && |w.journal| <= |v.journal|
  {
    w.drafts[d].row.caseId !in v.locks && Steady(v.journal, w.drafts[d].row.caseId, |w.journal|, |v.journal|)
  }

  lemma DraftFrame(w: World, v: World, d: nat)
    requires Extends(w, v) && d in w.drafts && DraftGrounded(w, d)
    requires d in v.drafts && v.drafts[d] == w.drafts[d] && Undisturbed(w, v, d)
    ensures DraftGrounded(v, d)
  {
    assert v.journal[..w.drafts[d].readAt] == w.journal[..w.drafts[d].readAt];
    assert forall k | 0 <= k < |w.journal| :: v.journal[k] == w.journal[k];
  }

  lemma DraftsFrame(w: World, v: World)
    requires Extends(w, v) && DraftsGrounded(w)
    requires forall d | d in v.drafts :: d in w.drafts && v.drafts[d] == w.drafts[d] && Undisturbed(w, v, d)
    ensures DraftsGrounded(v)
  {
    hide DraftGrounded, Extends, Undisturbed;
    forall d | d in v.drafts ensures DraftGrounded(v, d) {
      DraftFrame(w, v, d);
    }
  }

  lemma HistoryFrame(w: World, v: World)
    requires Extends(w, v) && HistoryGrounded(w)
    ensures forall i | 0 <= i < |w.journal| :: EntryGrounded(v, i)
  {
    forall i | 0 <= i < |w.journal| ensures EntryGrounded(v, i) {
      EntryFrame(w, v, i);
    }
  }

  /** An attempt keeps its facts while others move, as long as nobody takes its lock or
      moves the case it holds. */
  lemma AttemptFrame(w: World, v: World, id: nat)
    requires Extends(w, v)
    requires id in w.attempts && id in v.attempts && v.attempts[id] == w.attempts[id]
    requires AttemptGrounded(w, id)
    requires w.attempts[id].phase.Holding? ==>
               var c := w.attempts[id].req.caseId;
               && c in v.locks && v.locks[c] == id
               && c in v.store.cases && v.store.cases[c].caseState == w.store.cases[c].caseState
    ensures AttemptGrounded(v, id)
  {
    var Attempt(req, phase) := w.attempts[id];
    match phase {
      case Holding(result, seen, pick) => GrowsTransitively(seen, w.store, v.store);
      case Conflicted => FindRowStable(w.store.ledger, v.store.ledger, req.requestId);
      case Settled(r) => FindRowStable(w.store.ledger, v.store.ledger, req.requestId);
      case Done(r) => FindRowStable(w.store.ledger, v.store.ledger, req.requestId);
      case _ =>
    }
  }

  // --------------------------------------------------- steps that commit nothing

  lemma QuietHistory(w: World, v: World)
    requires RowsMatch(w) && StatesMatch(w) && HistoryGrounded(w) && DraftsGrounded(w)
    requires v.store == w.store && v.journal == w.journal && v.origin == w.origin && v.drafts == w.drafts
    requires SubMap(w.requests, v.requests)
    requires forall d | d in v.drafts :: v.drafts[d].row.caseId !in v.locks
    ensures RowsMatch(v) && StatesMatch(v) && HistoryGrounded(v) && DraftsGrounded(v)
  {
    HistoryFrame(w, v);
    DraftsFrame(w, v);
  }

  lemma DraftsUnlocked(w: World)
    requires DraftsGrounded(w)
    ensures forall d | d in w.drafts :: w.drafts[d].row.caseId !in w.locks
  {
    assert forall d | d in w.drafts :: DraftGrounded(w, d);
  }

  ghost predicate OnlyAttempt(w: World, v: World, id: nat) {
    && v.attempts.Keys == w.attempts.Keys + {id}
    && (forall k | k in w.attempts && k != id :: v.attempts[k] == w.attempts[k])
    && (forall c | c in w.locks && w.locks[c] != id :: c in v.locks && v.locks[c] == w.locks[c])
  }

  lemma QuietAttempts(w: World, v: World, id: nat)
    requires AttemptsGrounded(w)
    requires v.store == w.store && v.journal == w.journal && v.origin == w.origin
    requires SubMap(w.requests, v.requests)
    requires OnlyAttempt(w, v, id) && AttemptGrounded(v, id)
    ensures AttemptsGrounded(v)
  {
    forall k | k in v.attempts ensures AttemptGrounded(v, k) {
      if k != id {
        assert AttemptGrounded(w, k);
        AttemptFrame(w, v, k);
      }
    }
  }

  /** A step of one attempt that leaves database and history alone keeps the invariant
      once that attempt's own facts and the locks are in order. */
  lemma QuietStep(w: World, v: World, id: nat)
    requires Inv(w)
    requires v.store == w.store && v.journal == w.journal && v.origin == w.origin && v.drafts == w.drafts
    requires SubMap(w.requests, v.requests)
    requires OnlyAttempt(w, v, id) && AttemptGrounded(v, id)
    requires LocksHeld(v) && forall c | c in v.locks && c !in w.locks :: Lockable(w, c)
    ensures Inv(v)
  {
    DraftsUnlocked(w);
    QuietHistory(w, v);
    QuietAttempts(w, v, id);
  }

  lemma BeginKeeps(w: World, id: nat, req: TransitionRequest)
    requires Inv(w) && Enabled(w, Begin(id, req))
    ensures Inv(DoBegin(w, id, req))
  {
    QuietStep(w, DoBegin(w, id, req), id);
  }

  /** A step of an attempt that holds no lock and takes none. */
  lemma UnlockedStep(w: World, id: nat, phase: Phase)
    requires id in w.attempts && LocksHeld(w)
    requires !w.attempts[id].phase.Holding? && !phase.Holding?
    ensures OnlyAttempt(w, Moves(w, id, phase), id) && LocksHeld(Moves(w, id, phase))
  {
  }

  /** An answer the ledger holds may be given. */
  lemma AnsweredGrounded(w: World, id: nat, last: bool)
    requires id in w.attempts
    requires var req := w.attempts[id].req;
             && req.requestId in w.requests && w.requests[req.requestId] == req
             && StoredRowAnswers(w, req)
             && FindRow(w.store.ledger, req.requestId).Some?
    ensures var req := w.attempts[id].req;
            var o := Recorded(FindRow(w.store.ledger, req.requestId).value, req);
            AttemptGrounded(Moves(w, id, Outcomes(o, last)), id)
  {
  }

  lemma CheckKeeps(w: World, id: nat)
    requires Inv(w) && Enabled(w, CheckLedger(id))
    ensures Inv(DoCheck(w, id))
  {
    var v := DoCheck(w, id);
    var req := w.attempts[id].req;
    assert AttemptGrounded(w, id);
    StoredRows(w, req);
    UnlockedStep(w, id, v.attempts[id].phase);
    if FindRow(w.store.ledger, req.requestId).Some? { AnsweredGrounded(w, id, false); }
    QuietStep(w, v, id);
  }

  lemma ReloadKeeps(w: World, id: nat)
    requires Inv(w) && Enabled(w, Reload(id))
    ensures Inv(DoReload(w, id))
  {
    var v := DoReload(w, id);
    var req := w.attempts[id].req;
    assert AttemptGrounded(w, id);
    StoredRows(w, req);
    UnlockedStep(w, id, v.attempts[id].phase);
    AnsweredGrounded(w, id, true);
    QuietStep(w, v, id);
  }

  lemma LockedGrounded(w: World, id: nat, pick: nat)
    requires id in w.attempts && w.attempts[id].phase.Missed? && w.attempts[id].req.caseId !in w.locks
    requires AttemptGrounded(w, id) && LocksHeld(w)
    ensures forall c | c in DoLock(w, id, pick).locks && c !in w.locks :: c == w.attempts[id].req.caseId
    ensures var v := DoLock(w, id, pick);
            AttemptGrounded(v, id) && OnlyAttempt(w, v, id) && LocksHeld(v)
  {
  }

  lemma LockKeeps(w: World, id: nat, pick: nat)
    requires Inv(w) && Enabled(w, LockAndDecide(id, pick))
    ensures Inv(DoLock(w, id, pick))
  {
    assert AttemptGrounded(w, id);
    LockedGrounded(w, id, pick);
    QuietStep(w, DoLock(w, id, pick), id);
  }

  lemma AnswerKeeps(w: World, id: nat)
    requires Inv(w) && Enabled(w, Answer(id))
    ensures Inv(Moves(w, id, Done(w.attempts[id].phase.result)))
  {
    var phase := Done(w.attempts[id].phase.result);
    assert AttemptGrounded(w, id);
    UnlockedStep(w, id, phase);
    QuietStep(w, Moves(w, id, phase), id);
  }

  lemma CrashedGrounded(w: World, id: nat)
    requires id in w.attempts && AttemptGrounded(w, id) && LocksHeld(w)
    ensures var v := DoCrash(w, id);
            AttemptGrounded(v, id) && OnlyAttempt(w, v, id) && LocksHeld(v)
  {
  }

  lemma CrashKeeps(w: World, id: nat)
    requires Inv(w) && Enabled(w, Crash(id))
    ensures Inv(DoCrash(w, id))
  {
    assert AttemptGrounded(w, id);
    CrashedGrounded(w, id);
    QuietStep(w, DoCrash(w, id), id);
  }

  ghost predicate StoredRowAnswers(w: World, req: TransitionRequest) {
    var found := FindRow(w.store.ledger, req.requestId);
    found.Some? ==>
      exists r :: found.value == LedgerRowFor(req, r) && Recorded(found.value, req) == Returned(r)
  }

  /** A stored row always carries a payload that parses, and it was written for the one
      request its id stands for: a reload can neither miss nor misread it. */
  lemma StoredRows(w: World, req: TransitionRequest)
    requires RowsMatch(w) && HistoryGrounded(w)
    requires req.requestId in w.requests && w.requests[req.requestId] == req
    ensures StoredRowAnswers(w, req)
  {
    var found := FindRow(w.store.ledger, req.requestId);
    if found.Some? {
      var i := RowIsPosted(w.journal, found.value);
      assert EntryGrounded(w, i);
      RecordedDump(req, w.journal[i].result);
    }
  }

  lemma {:induction false} RowIsPosted(journal: seq<Entry>, row: LedgerRow) returns (i: nat)
    requires row in RowsOf(journal)
    ensures i < |journal| && journal[i].Posted? && row == LedgerRowFor(journal[i].req, journal[i].result)
  {
    var last := |journal| - 1;
    if journal[last].Posted? && row == LedgerRowFor(journal[last].req, journal[last].result) {
      i := last;
    } else {
      i := RowIsPosted(journal[..last], row);
    }
  }

  // ----------------------------------------------------------------- the commit

  lemma CollisionGrounded(w: World, id: nat)
    requires Enabled(w, CommitRow(id)) && AttemptGrounded(w, id) && LocksHeld(w)
    requires FindRow(w.store.ledger, w.attempts[id].req.requestId).Some?
    ensures var v := DoCommit(w, id);
            AttemptGrounded(v, id) && OnlyAttempt(w, v, id) && LocksHeld(v)
  {
  }

  lemma CommitGrows(s: Store, req: TransitionRequest, r: TransitionResult)
    requires req.caseId in s.cases
    ensures Grows(s, Commit(s, req, r))
  {
  }

  lemma CommitRows(w: World, id: nat)
    requires Enabled(w, CommitRow(id)) && RowsMatch(w)
    requires FindRow(w.store.ledger, w.attempts[id].req.requestId).None?
    ensures RowsMatch(DoCommit(w, id))
  {
    var Attempt(req, Holding(result, seen, pick)) := w.attempts[id];
    Appended(w.journal, Posted(req, result, seen, pick));
    AuditAppended(w.store.audit, AuditRowFor(req, result));
    DistinctAppended(w.store.ledger, LedgerRowFor(req, result));
  }

  lemma CommitStates(w: World, id: nat)
    requires Enabled(w, CommitRow(id)) && StatesMatch(w)
    ensures StatesMatch(DoCommit(w, id))
  {
    hide FindRow, LedgerRowFor, AuditRowFor;
    var Attempt(req, Holding(result, seen, pick)) := w.attempts[id];
    Appended(w.journal, Posted(req, result, seen, pick));
    hide Replay;
  }

  lemma CommitHistory(w: World, id: nat)
    requires Enabled(w, CommitRow(id)) && HistoryGrounded(w) && StatesMatch(w) && AttemptGrounded(w, id)
    requires FindRow(w.store.ledger, w.attempts[id].req.requestId).None?
    ensures HistoryGrounded(DoCommit(w, id)) && Extends(w, DoCommit(w, id))
  {
    var Attempt(req, Holding(result, seen, pick)) := w.attempts[id];
    var v := DoCommit(w, id);
    CommitGrows(w.store, req, result);
    HistoryFrame(w, v);
    GrowsTransitively(seen, w.store, v.store);
    var n := |w.journal|;
    assert v.journal[..n] == w.journal;
    assert EntryGrounded(v, n);
  }

  /** Attempts other than the committing one hold other cases. */
  lemma CommitOthers(w: World, id: nat, k: nat)
    requires Enabled(w, CommitRow(id)) && AttemptGrounded(w, id)
    requires FindRow(w.store.ledger, w.attempts[id].req.requestId).None?
    requires Extends(w, DoCommit(w, id))
    requires k in w.attempts && k != id && AttemptGrounded(w, k)
    ensures AttemptGrounded(DoCommit(w, id), k)
  {
    AttemptFrame(w, DoCommit(w, id), k);
  }

  lemma CommittedGrounded(w: World, id: nat)
    requires Enabled(w, CommitRow(id)) && AttemptGrounded(w, id)
    requires FindRow(w.store.ledger, w.attempts[id].req.requestId).None?
    ensures AttemptGrounded(DoCommit(w, id), id)
  {
    var Attempt(req, Holding(result, seen, pick)) := w.attempts[id];
    FindRowAppended(w.store.ledger, LedgerRowFor(req, result));
  }

  lemma CommitAttempts(w: World, id: nat)
    requires Enabled(w, CommitRow(id)) && AttemptsGrounded(w)
    requires FindRow(w.store.ledger, w.attempts[id].req.requestId).None?
    requires Extends(w, DoCommit(w, id))
    ensures AttemptsGrounded(DoCommit(w, id))
  {
    assert AttemptGrounded(w, id);
    CommittedGrounded(w, id);
    forall k | k in w.attempts && k != id ensures AttemptGrounded(DoCommit(w, id), k) {
      assert AttemptGrounded(w, k);
      CommitOthers(w, id, k);
    }
  }

  lemma CommitLocks(w: World, id: nat)
    requires Enabled(w, CommitRow(id)) && AttemptGrounded(w, id) && LocksHeld(w)
    ensures LocksHeld(DoCommit(w, id))
  {
  }

  /** The committing attempt holds its case, so no package transaction is open on it. */
  lemma CommitDrafts(w: World, id: nat)
    requires Enabled(w, CommitRow(id)) && AttemptGrounded(w, id) && DraftsGrounded(w)
    requires FindRow(w.store.ledger, w.attempts[id].req.requestId).None? && Extends(w, DoCommit(w, id))
    ensures DraftsGrounded(DoCommit(w, id))
  {
    hide Extends;
    DraftsUnlocked(w);
    DraftsFrame(w, DoCommit(w, id));
  }

  lemma CommitKeeps(w: World, id: nat)
    requires Inv(w) && Enabled(w, CommitRow(id))
    ensures Inv(DoCommit(w, id))
  {
    assert AttemptGrounded(w, id);
    if FindRow(w.store.ledger, w.attempts[id].req.requestId).Some? {
      CollisionGrounded(w, id);
      QuietStep(w, DoCommit(w, id), id);
    } else {
      CommitRows(w, id);
      CommitStates(w, id);
      CommitHistory(w, id);
      CommitAttempts(w, id);
      CommitLocks(w, id);
      CommitDrafts(w, id);
    }
  }

  // ------------------------------------------------- the rest of the system commits

  lemma AccrueStates(w: World, next: Store)
    requires Accrues(w.store, next) && StatesMatch(w) && HistoryGrounded(w)
    ensures var v := w.(store := next, origin := Origins(w.origin, next.cases));
            StatesMatch(v) && Extends(w, v)
  {
    var v := w.(store := next, origin := Origins(w.origin, next.cases));
    forall c | c in next.cases
      ensures next.cases[c].caseState == Replay(v.origin[c], c, w.journal)
    {
      if c !in w.store.cases {
        forall e | e in w.journal ensures CaseOf(e) != c {
          var i :| 0 <= i < |w.journal| && w.journal[i] == e;
          assert EntryGrounded(w, i);
        }
        ReplayUntouched(v.origin[c], c, w.journal);
      }
    }
  }

  lemma AccrueAttempts(w: World, v: World)
    requires Extends(w, v) && v.attempts == w.attempts && v.locks == w.locks
    requires SubMap(w.store.cases, v.store.cases)
    requires AttemptsGrounded(w)
    ensures AttemptsGrounded(v)
  {
    forall k | k in v.attempts ensures AttemptGrounded(v, k) {
      assert AttemptGrounded(w, k);
      AttemptFrame(w, v, k);
    }
  }

  lemma AccrueKeeps(w: World, next: Store)
    requires Inv(w) && Enabled(w, Accrue(next))
    ensures Inv(w.(store := next, origin := Origins(w.origin, next.cases)))
  {
    var v := w.(store := next, origin := Origins(w.origin, next.cases));
    AccrueStates(w, next);
    HistoryFrame(w, v);
    AccrueAttempts(w, v);
    DraftsUnlocked(w);
    DraftsFrame(w, v);
  }

  lemma WriteGrows(w: World, d: nat)
    requires Enabled(w, WritePackage(d))
    ensures Extends(w, DoWrite(w, d))
  {
  }

  lemma WriteDrafts(w: World, d: nat)
    requires Enabled(w, WritePackage(d)) && DraftsGrounded(w)
    ensures DraftsGrounded(DoWrite(w, d))
  {
    hide Extends;
    DraftsUnlocked(w);
    WriteGrows(w, d);
    DraftsFrame(w, DoWrite(w, d));
  }

  lemma WriteRows(w: World, d: nat)
    requires Enabled(w, WritePackage(d)) && RowsMatch(w)
    ensures RowsMatch(DoWrite(w, d))
  {
    var PackageTx(row, observed, readAt) := w.drafts[d];
    Appended(w.journal, Silent(row.caseId, row.packageId, w.store.cases[row.caseId].caseState, readAt));
  }

  lemma WriteStates(w: World, d: nat)
    requires Enabled(w, WritePackage(d)) && StatesMatch(w)
    ensures StatesMatch(DoWrite(w, d))
  {
    hide RowsOf, AuditsOf;
    var PackageTx(row, observed, readAt) := w.drafts[d];
    Appended(w.journal, Silent(row.caseId, row.packageId, w.store.cases[row.caseId].caseState, readAt));
  }

  lemma WriteHistory(w: World, d: nat)
    requires Enabled(w, WritePackage(d)) && StatesMatch(w) && HistoryGrounded(w) && DraftsGrounded(w)
    ensures HistoryGrounded(DoWrite(w, d))
  {
    var v := DoWrite(w, d);
    var PackageTx(row, observed, readAt) := w.drafts[d];
    WriteGrows(w, d);
    HistoryFrame(w, v);
    if observed == IncentivesComplete {
      var n := |w.journal|;
      assert DraftGrounded(w, d);
      assert v.journal[..n] == w.journal && v.journal[..readAt] == w.journal[..readAt];
      assert forall k | 0 <= k < n :: v.journal[k] == w.journal[k];
      assert row in v.store.packages;
      assert EntryGrounded(v, n);
    }
  }

  /** The package transaction shares the lock of its case, so nobody deciding holds it. */
  lemma WriteAttempts(w: World, d: nat)
    requires Enabled(w, WritePackage(d)) && AttemptsGrounded(w) && DraftsGrounded(w)
    ensures AttemptsGrounded(DoWrite(w, d))
  {
    hide Extends;
    var v := DoWrite(w, d);
    DraftsUnlocked(w);
    WriteGrows(w, d);
    forall k | k in v.attempts ensures AttemptGrounded(v, k) {
      assert AttemptGrounded(w, k);
      AttemptFrame(w, v, k);
    }
  }

  lemma WriteKeeps(w: World, d: nat)
    requires Inv(w) && Enabled(w, WritePackage(d))
    ensures Inv(DoWrite(w, d))
  {
    WriteRows(w, d);
    WriteStates(w, d);
    WriteHistory(w, d);
    WriteAttempts(w, d);
    WriteDrafts(w, d);
  }

  /** Opening or dropping a package transaction leaves everything else alone. */
  lemma DraftingKeeps(w: World, v: World)
    requires Inv(w) && v == w.(drafts := v.drafts) && DraftsGrounded(v)
    ensures Inv(v)
  {
    HistoryFrame(w, v);
    AccrueAttempts(w, v);
  }

  lemma ReadDrafts(w: World, d: nat, row: PackageRow)
    requires StatesMatch(w) && DraftsGrounded(w) && Enabled(w, ReadCase(d, row))
    ensures DraftsGrounded(Perform(w, ReadCase(d, row)))
  {
    var v := Perform(w, ReadCase(d, row));
    assert w.journal[..|w.journal|] == w.journal;
    forall k | k in v.drafts ensures DraftGrounded(v, k) {
      if k != d { assert DraftGrounded(w, k); }
    }
  }

  lemma ReadKeeps(w: World, d: nat, row: PackageRow)
    requires Inv(w) && Enabled(w, ReadCase(d, row))
    ensures Inv(Perform(w, ReadCase(d, row)))
  {
    ReadDrafts(w, d, row);
    DraftingKeeps(w, Perform(w, ReadCase(d, row)));
  }

  lemma AbortKeeps(w: World, d: nat)
    requires Inv(w) && Enabled(w, AbortPackage(d))
    ensures Inv(w.(drafts := w.drafts - {d}))
  {
    var v := w.(drafts := w.drafts - {d});
    forall k | k in v.drafts ensures DraftGrounded(v, k) {
      assert DraftGrounded(w, k);
    }
    DraftingKeeps(w, v);
  }

  // ------------------------------------------------------------------ every run

  lemma StepKeeps(w: World, a: Action)
    requires Inv(w) && Enabled(w, a)
    ensures Inv(Perform(w, a))
  {
    match a {
      case Begin(id, req) => BeginKeeps(w, id, req);
      case CheckLedger(id) => CheckKeeps(w, id);
      case LockAndDecide(id, pick) => LockKeeps(w, id, pick);
      case CommitRow(id) => CommitKeeps(w, id);
      case Reload(id) => ReloadKeeps(w, id);
      case Answer(id) => AnswerKeeps(w, id);
      case Crash(id) => CrashKeeps(w, id);
      case Accrue(next) => AccrueKeeps(w, next);
      case ReadCase(d, row) => ReadKeeps(w, d, row);
      case WritePackage(d) => WriteKeeps(w, d);
      case AbortPackage(d) => AbortKeeps(w, d);
    }
  }

  lemma {:induction false} RunKeeps(w: World, actions: seq<Action>)
    requires Inv(w) && Legal(w, actions)
    ensures Inv(Run(w, actions))
    decreases |actions|
  {
    if actions != [] {
      StepKeeps(w, actions[0]);
      RunKeeps(Perform(w, actions[0]), actions[1..]);
    }
  }

  /** Every world any interleaving reaches satisfies the invariant. */
  lemma ReachableInv(w: World)
    requires Reachable(w)
    ensures Inv(w)
  {
    var actions :| Legal(INITIAL, actions) && Run(INITIAL, actions) == w;
    RunKeeps(INITIAL, actions);
  }
}
