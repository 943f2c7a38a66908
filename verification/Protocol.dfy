/** Many attempts at `apply_state_transition` running at once over one database, with
    the rest of the system committing in between: a transition system and what every
    reachable world satisfies.

    An attempt looks its request up in the ledger, locks its case row FOR UPDATE and
    decides under it, then commits or loses the primary-key race and reloads. It may
    crash anywhere. A package transaction inserts rows that refer to the case before it
    reads it, so it holds a key-share lock on the row from its read to its write: it keeps
    every attempt out meanwhile, but not another package transaction. */
module Protocol {
  import opened Contracts
  import opened Tables
  import opened Transitions

  datatype Phase =
    | Ready
    | Missed                                              // no ledger row at the lookup
    | Holding(result: TransitionResult, seen: Store, pick: nat)
    | Conflicted                                          // the INSERT lost; rolled back
    | Settled(result: TransitionResult)                   // transaction over, not yet answered
    | Done(result: TransitionResult)
    | Crashed
    | Absent(seen: Store)                                 // no case row to lock
    | Failed(error: Error)

  datatype Attempt = Attempt(req: TransitionRequest, phase: Phase)

  /** A package transaction that shares the lock of its case row, has read the row when the
      history was `readAt` entries long, and has not yet written. */
  datatype PackageTx = PackageTx(row: PackageRow, observed: CaseState, readAt: nat)

  /** The history of one database, in commit order. `seen` is the database the guard read. */
  datatype Entry =
    | Posted(req: TransitionRequest, result: TransitionResult, seen: Store, pick: nat)
    | Silent(caseId: string, packageId: string, fromState: CaseState, readAt: nat)

  datatype World = World(
    store: Store,
    origin: map<string, CaseState>,              // the state each case was created in
    requests: map<string, TransitionRequest>,    // the one request each request id stands for
    attempts: map<nat, Attempt>,
    drafts: map<nat, PackageTx>,
    locks: map<string, nat>,                     // case to the attempt holding its row
    journal: seq<Entry>)

  const INITIAL: World := World(EMPTY, map[], map[], map[], map[], map[], [])

  datatype Action =
    | Begin(id: nat, req: TransitionRequest)
    | CheckLedger(id: nat)
    | LockAndDecide(id: nat, pick: nat)
    | CommitRow(id: nat)
    | Reload(id: nat)
    | Answer(id: nat)
    | Crash(id: nat)
    | Accrue(next: Store)
    | ReadCase(draft: nat, row: PackageRow)
    | WritePackage(draft: nat)
    | AbortPackage(draft: nat)

  // ------------------------------------------------------------- how tables grow

  ghost predicate SubMap<K(!new), V(!new)>(a: map<K, V>, b: map<K, V>) {
    forall k | k in a :: k in b && b[k] == a[k]
  }

  /** Evidence is only ever added; a contradiction can only be resolved. */
  ghost predicate Grows(s: Store, t: Store) {
    && s.cases.Keys <= t.cases.Keys
    && SubMap(s.projects, t.projects)
    && s.resolutions <= t.resolutions
    && s.requirements <= t.requirements
    && s.compliance <= t.compliance
    && s.incentives <= t.incentives
    && s.reviews <= t.reviews
    && SubMap(s.overrides, t.overrides)
    && s.packages <= t.packages
    && s.fallbacks <= t.fallbacks
    && s.ledger <= t.ledger
    && ContradictionsAge(s.contradictions, t.contradictions)
  }

  ghost predicate ContradictionsAge(a: map<string, ContradictionRow>, b: map<string, ContradictionRow>) {
    forall id | id in a ::
      id in b && b[id].caseId == a[id].caseId && b[id].blocking == a[id].blocking
      && (b[id].open ==> a[id].open)
  }

  /** A commit of some other part of the system: it adds evidence, may open cases, and
      touches neither an existing case row, nor packages, nor the transition log. */
  ghost predicate Accrues(s: Store, t: Store) {
    && Grows(s, t)
    && SubMap(s.cases, t.cases)
    && (forall c | c in t.cases && c !in s.cases :: t.cases[c].caseState in {IntakePending, ReviewPending})
    && t.packages == s.packages
    && t.ledger == s.ledger
    && TransitionAudits(t.audit) == TransitionAudits(s.audit)
  }

  function TransitionAudits(audit: seq<AuditRow>): seq<AuditRow> {
    if audit == [] then []
    else
      var before, last := TransitionAudits(audit[..|audit| - 1]), audit[|audit| - 1];
      if last.detail.TransitionDetail? then before + [last] else before
  }

  lemma GrowsTransitively(s: Store, t: Store, u: Store)
    requires Grows(s, t) && Grows(t, u)
    ensures Grows(s, u)
  {
  }

  // --------------------------------------------------------------------- the steps

  ghost predicate Enabled(w: World, a: Action) {
    match a
    case Begin(id, req) =>
      id !in w.attempts && (req.requestId in w.requests ==> w.requests[req.requestId] == req)
    case CheckLedger(id) => id in w.attempts && w.attempts[id].phase.Ready?
    case LockAndDecide(id, _) =>
      id in w.attempts && w.attempts[id].phase.Missed? && Lockable(w, w.attempts[id].req.caseId)
    case CommitRow(id) => id in w.attempts && w.attempts[id].phase.Holding?
                          && w.attempts[id].req.caseId in w.store.cases
    case Reload(id) => id in w.attempts && w.attempts[id].phase.Conflicted?
    case Answer(id) => id in w.attempts && w.attempts[id].phase.Settled?
    case Crash(id) => id in w.attempts && !Final(w.attempts[id].phase)
    case Accrue(next) => Accrues(w.store, next)
    case ReadCase(d, row) => d !in w.drafts && row.caseId in w.store.cases && row.caseId !in w.locks
    case WritePackage(d) => d in w.drafts && w.drafts[d].row.caseId in w.store.cases
    case AbortPackage(d) => d in w.drafts
  }

  /** Nobody holds the case row, and no package transaction shares it. */
  ghost predicate Lockable(w: World, c: string) {
    c !in w.locks && forall d | d in w.drafts :: w.drafts[d].row.caseId != c
  }

  predicate Final(p: Phase) {
    p.Done? || p.Crashed? || p.Absent? || p.Failed?
  }

  function Moves(w: World, id: nat, phase: Phase): World
    requires id in w.attempts
  {
    w.(attempts := w.attempts[id := w.attempts[id].(phase := phase)])
  }

  /** The phase a stored row leads to. */
  function Outcomes(o: Outcome<TransitionResult>, last: bool): Phase {
    match o
    case Returned(r) => if last then Done(r) else Settled(r)
    case Raised(e) => Failed(e)
  }

  function DoBegin(w: World, id: nat, req: TransitionRequest): World {
    w.(attempts := w.attempts[id := Attempt(req, Ready)], requests := w.requests[req.requestId := req])
  }

  function DoCheck(w: World, id: nat): World
    requires id in w.attempts
  {
    var req := w.attempts[id].req;
    match FindRow(w.store.ledger, req.requestId)
    case Some(row) => Moves(w, id, Outcomes(Recorded(row, req), false))
    case None => Moves(w, id, Missed)
  }

  ghost function DoLock(w: World, id: nat, pick: nat): World
    requires id in w.attempts
  {
    var req := w.attempts[id].req;
    if req.caseId !in w.store.cases then Moves(w, id, Absent(w.store))
    else Moves(w, id, Holding(Decide(w.store, req, pick), w.store, pick)).(locks := w.locks[req.caseId := id])
  }

  function DoCommit(w: World, id: nat): World
    requires id in w.attempts && w.attempts[id].phase.Holding? && w.attempts[id].req.caseId in w.store.cases
  {
    var Attempt(req, Holding(result, seen, pick)) := w.attempts[id];
    var released := w.locks - {req.caseId};
    if FindRow(w.store.ledger, req.requestId).Some? then
      Moves(w, id, Conflicted).(locks := released)
    else
      Moves(w, id, Settled(result))
        .(locks := released,
          store := Commit(w.store, req, result),
          journal := w.journal + [Posted(req, result, seen, pick)])
  }

  function DoReload(w: World, id: nat): World
    requires id in w.attempts
  {
    var req := w.attempts[id].req;
    match FindRow(w.store.ledger, req.requestId)
    case Some(row) => Moves(w, id, Outcomes(Recorded(row, req), true))
    case None => Moves(w, id, Failed(RuntimeError))
  }

  function DoCrash(w: World, id: nat): World
    requires id in w.attempts
  {
    Moves(w, id, Crashed)
      .(locks := if w.attempts[id].phase.Holding? then w.locks - {w.attempts[id].req.caseId} else w.locks)
  }

  function Origins(origin: map<string, CaseState>, cases: map<string, CaseRow>): map<string, CaseState> {
    map c | c in cases :: if c in origin then origin[c] else cases[c].caseState
  }

  function DoWrite(w: World, d: nat): World
    requires d in w.drafts && w.drafts[d].row.caseId in w.store.cases
  {
    var PackageTx(row, observed, readAt) := w.drafts[d];
    var current := w.store.cases[row.caseId];
    var advance := observed == IncentivesComplete;
    var after := current.(currentPackageId := Some(row.packageId),
                          caseState := if advance then DocumentComplete else current.caseState);
    w.(drafts := w.drafts - {d},
       store := w.store.(cases := w.store.cases[row.caseId := after],
                         packages := w.store.packages + [row]),
       journal := if advance then w.journal + [Silent(row.caseId, row.packageId, current.caseState, readAt)]
                  else w.journal)
  }

  ghost function Perform(w: World, a: Action): World
    requires Enabled(w, a)
  {
    match a
    case Begin(id, req) => DoBegin(w, id, req)
    case CheckLedger(id) => DoCheck(w, id)
    case LockAndDecide(id, pick) => DoLock(w, id, pick)
    case CommitRow(id) => DoCommit(w, id)
    case Reload(id) => DoReload(w, id)
    case Answer(id) => Moves(w, id, Done(w.attempts[id].phase.result))
    case Crash(id) => DoCrash(w, id)
    case Accrue(next) => w.(store := next, origin := Origins(w.origin, next.cases))
    case ReadCase(d, row) =>
      w.(drafts := w.drafts[d := PackageTx(row, w.store.cases[row.caseId].caseState, |w.journal|)])
    case WritePackage(d) => DoWrite(w, d)
    case AbortPackage(d) => w.(drafts := w.drafts - {d})
  }

  ghost predicate Legal(w: World, actions: seq<Action>)
    decreases |actions|
  {
    actions == [] || (Enabled(w, actions[0]) && Legal(Perform(w, actions[0]), actions[1..]))
  }

  ghost function Run(w: World, actions: seq<Action>): World
    requires Legal(w, actions)
    decreases |actions|
  {
    if actions == [] then w else Run(Perform(w, actions[0]), actions[1..])
  }

  /** A world some interleaving leads to. */
  ghost predicate Reachable(w: World) {
    exists actions :: Legal(INITIAL, actions) && Run(INITIAL, actions) == w
  }

  // ----------------------------------------------------------------- the invariant

  function RowsOf(journal: seq<Entry>): seq<LedgerRow> {
    if journal == [] then []
    else
      var before, last := RowsOf(journal[..|journal| - 1]), journal[|journal| - 1];
      if last.Posted? then before + [LedgerRowFor(last.req, last.result)] else before
  }

  function AuditsOf(journal: seq<Entry>): seq<AuditRow> {
    if journal == [] then []
    else
      var before, last := AuditsOf(journal[..|journal| - 1]), journal[|journal| - 1];
      if last.Posted? then before + [AuditRowFor(last.req, last.result)] else before
  }

  predicate Changes(e: Entry, caseId: string) {
    match e
    case Posted(req, result, _, _) => req.caseId == caseId && result.Applied?
    case Silent(c, _, _, _) => c == caseId
  }

  function Target(e: Entry): CaseState {
    if e.Posted? then e.req.toState else DocumentComplete
  }

  function Source(e: Entry): CaseState {
    if e.Posted? then e.req.fromState else e.fromState
  }

  function CaseOf(e: Entry): string {
    if e.Posted? then e.req.caseId else e.caseId
  }

  /** The state of a case, folded from its initial state over the history. */
  function Replay(initial: CaseState, caseId: string, journal: seq<Entry>): CaseState {
    if journal == [] then initial
    else
      var last := journal[|journal| - 1];
      if Changes(last, caseId) then Target(last)
      else Replay(initial, caseId, journal[..|journal| - 1])
  }

  /** The ledger and the transition audit are the posted entries, in commit order, and
      no request id occurs twice. */
  ghost predicate RowsMatch(w: World) {
    && w.store.ledger == RowsOf(w.journal)
    && TransitionAudits(w.store.audit) == AuditsOf(w.journal)
    && forall i, j | 0 <= i < j < |w.store.ledger| ::
         w.store.ledger[i].transitionId != w.store.ledger[j].transitionId
  }

  ghost predicate StatesMatch(w: World) {
    && w.origin.Keys == w.store.cases.Keys
    && forall c | c in w.store.cases :: w.store.cases[c].caseState == Replay(w.origin[c], c, w.journal)
  }

  /** Between two points of the history only package writes move the case. */
  predicate Steady(journal: seq<Entry>, c: string, lo: nat, hi: nat)
    requires hi <= |journal|
  {
    forall k | lo <= k < hi && Changes(journal[k], c) :: journal[k].Silent?
  }

  /** What holds of the i-th entry of the history. */
  ghost predicate EntryGrounded(w: World, i: nat)
    requires i < |w.journal|
  {
    var e := w.journal[i];
    && CaseOf(e) in w.origin
    && (match e
        case Posted(req, result, seen, pick) =>
          && req.caseId in seen.cases
          && result == Decide(seen, req, pick)
          && Grows(seen, w.store)
          && seen.cases[req.caseId].caseState == Replay(w.origin[req.caseId], req.caseId, w.journal[..i])
          && req.requestId in w.requests && w.requests[req.requestId] == req
        case Silent(c, p, fromState, readAt) =>
          && readAt <= i
          && Replay(w.origin[c], c, w.journal[..readAt]) == IncentivesComplete
          && fromState == Replay(w.origin[c], c, w.journal[..i])
          && Steady(w.journal, c, readAt, i)
          && exists row | row in w.store.packages :: row.caseId == c && row.packageId == p)
  }

  ghost predicate HistoryGrounded(w: World) {
    forall i | 0 <= i < |w.journal| :: EntryGrounded(w, i)
  }

  ghost predicate AttemptGrounded(w: World, id: nat)
    requires id in w.attempts
  {
    var Attempt(req, phase) := w.attempts[id];
    && req.requestId in w.requests && w.requests[req.requestId] == req
    && match phase
       case Holding(result, seen, pick) =>
         && req.caseId in w.locks && w.locks[req.caseId] == id
         && req.caseId in seen.cases && req.caseId in w.store.cases
         && seen.cases[req.caseId].caseState == w.store.cases[req.caseId].caseState
         && result == Decide(seen, req, pick)
         && Grows(seen, w.store)
       case Conflicted => FindRow(w.store.ledger, req.requestId).Some?
       case Settled(r) => Agrees(w, req, r)
       case Done(r) => Agrees(w, req, r)
       case Absent(seen) => req.caseId !in seen.cases && Grows(seen, w.store)
       case Failed(_) => false
       case _ => true
  }

  /** The ledger holds the result, under the request's id. */
  ghost predicate Agrees(w: World, req: TransitionRequest, r: TransitionResult) {
    FindRow(w.store.ledger, req.requestId) == Some(LedgerRowFor(req, r))
  }

  ghost predicate AttemptsGrounded(w: World) {
    forall id | id in w.attempts :: AttemptGrounded(w, id)
  }

  /** A lock is held by an attempt that is deciding on that case. */
  ghost predicate LocksHeld(w: World) {
    forall c | c in w.locks ::
      w.locks[c] in w.attempts && w.attempts[w.locks[c]].phase.Holding?
      && w.attempts[w.locks[c]].req.caseId == c
  }

  ghost predicate DraftsGrounded(w: World) {
    forall d | d in w.drafts :: DraftGrounded(w, d)
  }

  /** A package transaction keeps its case unlocked, and since its read only others of its
      kind can have moved it. */
  ghost predicate DraftGrounded(w: World, d: nat)
    requires d in w.drafts
  {
    var PackageTx(row, observed, readAt) := w.drafts[d];
    && row.caseId in w.origin
    && row.caseId !in w.locks
    && readAt <= |w.journal|
    && Replay(w.origin[row.caseId], row.caseId, w.journal[..readAt]) == observed
    && Steady(w.journal, row.caseId, readAt, |w.journal|)
  }

  ghost predicate Inv(w: World) {
    RowsMatch(w) && StatesMatch(w) && HistoryGrounded(w) && AttemptsGrounded(w) && LocksHeld(w)
    && DraftsGrounded(w)
  }
}
