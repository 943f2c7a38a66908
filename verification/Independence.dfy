/** Reviewer independence: the sliding-window check in front of every review decision, and
    what it bounds over whole histories. */
module Independence {
  import opened Contracts
  import Strings
  import opened Tables

  const WINDOW: int := 90 * DAY

  datatype ReviewRequest = ReviewRequest(
    decisionId: string,
    idempotencyKey: string,
    caseId: string,
    reviewerId: string,
    authorId: string,
    outcome: ReviewOutcome,
    dissentScope: string,               // given, by validation, with an ACCEPT_WITH_DISSENT
    dissentRationale: string,
    dissentFollowup: Option<string>)

  datatype Response =
    | Created(row: ReviewRow)
    | Replayed(row: ReviewRow)
    | Conflict(existingId: string)
    | SelfApproval
    | MetricsUnavailable
    | ThresholdBlocked
    | Failure(error: Error)

  // ----------------------------------------------------------------------- metrics

  function Since(rows: seq<ReviewRow>, start: int): nat {
    if rows == [] then 0
    else Since(rows[..|rows| - 1], start) + (if rows[|rows| - 1].decidedAt >= start then 1 else 0)
  }

  predicate OfPair(row: ReviewRow, reviewer: string, author: string) {
    row.reviewerId == reviewer && row.authorId == author
  }

  function PairSince(rows: seq<ReviewRow>, reviewer: string, author: string, start: int): nat {
    if rows == [] then 0
    else
      var last := rows[|rows| - 1];
      PairSince(rows[..|rows| - 1], reviewer, author, start)
      + (if last.decidedAt >= start && OfPair(last, reviewer, author) then 1 else 0)
  }

  datatype Metrics = Metrics(total: int, pairTotal: int, rate: real)

  /** `_compute_reviewer_independence_metrics`: both counts include the decision at hand;
      None where it raises. */
  function Compute(rows: seq<ReviewRow>, reviewer: string, author: string, now: int): Option<Metrics> {
    var total := Since(rows, now - WINDOW) + 1;
    var pairTotal := PairSince(rows, reviewer, author, now - WINDOW) + 1;
    var repeated := if pairTotal - 1 > 0 then pairTotal - 1 else 0;
    if total <= 0 || pairTotal < 0 || pairTotal > total then None
    else Some(Metrics(total, pairTotal, repeated as real / total as real))
  }

  /** `_independence_status_for_rate`. */
  function StatusForRate(rate: real): IndependenceStatus {
    if rate > 0.50 then BlockedByRate
    else if rate > 0.35 then EscalationRequired
    else if rate > 0.25 then Warning
    else Pass
  }

  /** The thresholds in whole numbers: `p` earlier decisions of the pair among `t`. */
  function StatusForCounts(p: nat, t: nat): IndependenceStatus {
    if 2 * p > t + 1 then BlockedByRate
    else if 20 * p > 7 * (t + 1) then EscalationRequired
    else if 4 * p > t + 1 then Warning
    else Pass
  }

  lemma RateExceeds(p: nat, n: nat, a: nat, b: nat)
    requires n > 0 && b > 0
    ensures p as real / n as real > a as real / b as real <==> b * p > a * n
  {
    var x, y := p as real / n as real, a as real / b as real;
    assert x * n as real == p as real && y * b as real == a as real;
    assert (x - y) * (n as real * b as real) == (b * p - a * n) as real;
  }

  lemma StatusOfRate(p: nat, t: nat)
    ensures StatusForRate(p as real / (t + 1) as real) == StatusForCounts(p, t)
  {
    RateExceeds(p, t + 1, 1, 2);
    RateExceeds(p, t + 1, 7, 20);
    RateExceeds(p, t + 1, 1, 4);
    assert 1.0 / 2.0 == 0.50 && 7.0 / 20.0 == 0.35 && 1.0 / 4.0 == 0.25;
  }

  lemma {:induction false} PairWithinTotal(rows: seq<ReviewRow>, reviewer: string, author: string, start: int)
    ensures PairSince(rows, reviewer, author, start) <= Since(rows, start)
  {
    if rows != [] { PairWithinTotal(rows[..|rows| - 1], reviewer, author, start); }
  }

  /** The branch that calls the metrics invalid is never taken, and the status is the one
      of the whole-number thresholds. */
  lemma MetricsAlwaysValid(rows: seq<ReviewRow>, reviewer: string, author: string, now: int)
    ensures var p, t := PairSince(rows, reviewer, author, now - WINDOW), Since(rows, now - WINDOW);
            var m := Compute(rows, reviewer, author, now);
            m.Some? && m.value.rate == p as real / (t + 1) as real
            && StatusForRate(m.value.rate) == StatusForCounts(p, t)
  {
    PairWithinTotal(rows, reviewer, author, now - WINDOW);
    StatusOfRate(PairSince(rows, reviewer, author, now - WINDOW), Since(rows, now - WINDOW));
  }

  // ---------------------------------------------------------------------- the endpoint

  function FindKey(rows: seq<ReviewRow>, key: string): (r: Option<ReviewRow>)
    ensures r.Some? ==> r.value in rows && r.value.idempotencyKey == key
    ensures r.None? <==> forall row | row in rows :: row.idempotencyKey != key
  {
    if rows == [] then None
    else if rows[0].idempotencyKey == key then Some(rows[0])
    else FindKey(rows[1..], key)
  }

  function RowFor(req: ReviewRequest, status: IndependenceStatus, now: int): ReviewRow {
    ReviewRow(req.decisionId, req.caseId, req.outcome, req.reviewerId, req.authorId, status, now, req.idempotencyKey)
  }

  function AuditFor(req: ReviewRequest, now: int): AuditRow {
    AuditRow("reviewer", req.reviewerId, req.caseId, req.decisionId, now, ReviewDetail(req.decisionId, req.caseId))
  }

  /** The refusal of the independence check, or the status it lets through. */
  function Check(rows: seq<ReviewRow>, req: ReviewRequest, now: int): (Option<Response>, IndependenceStatus) {
    if req.reviewerId == req.authorId then (Some(SelfApproval), BlockedByRate)
    else
      match Compute(rows, req.reviewerId, req.authorId, now)
      case None => (Some(MetricsUnavailable), BlockedByRate)
      case Some(m) =>
        var status := StatusForRate(m.rate);
        (if status == BlockedByRate then Some(ThresholdBlocked) else None, status)
  }

  /** A whole POST: independence first, then the idempotency key, then the insert. */
  function Post(s: Store, req: ReviewRequest, now: int): (Store, Response) {
    var (refusal, status) := Check(s.reviews, req, now);
    if refusal.Some? then (s, refusal.value)
    else match FindKey(s.reviews, req.idempotencyKey)
      case Some(row) => (s, if row.decisionId == req.decisionId then Replayed(row) else Conflict(row.decisionId))
      case None =>
        if FindReview(s.reviews, req.decisionId).Some? || req.caseId !in s.cases then (s, Failure(IntegrityError))
        else
          var row := RowFor(req, status, now);
          (s.(reviews := s.reviews + [row], audit := s.audit + [AuditFor(req, now)]), Created(row))
  }

  method CountReviews(db: Database, req: ReviewRequest, start: int) returns (total: nat, pair: nat)
    ensures total == Since(db.reviews, start)
    ensures pair == PairSince(db.reviews, req.reviewerId, req.authorId, start)
  {
    total, pair := 0, 0;
    for i := 0 to |db.reviews|
      invariant total == Since(db.reviews[..i], start)
      invariant pair == PairSince(db.reviews[..i], req.reviewerId, req.authorId, start)
    {
      var row := db.reviews[i];
      assert db.reviews[..i + 1][..i] == db.reviews[..i];
      if row.decidedAt >= start {
        total := total + 1;
        if OfPair(row, req.reviewerId, req.authorId) { pair := pair + 1; }
      }
    }
    assert db.reviews[..|db.reviews|] == db.reviews;
  }

  method CheckReviewerIndependence(db: Database, req: ReviewRequest, now: int)
    returns (refusal: Option<Response>, status: IndependenceStatus)
    ensures (refusal, status) == Check(db.reviews, req, now)
  {
    if req.reviewerId == req.authorId {
      return Some(SelfApproval), BlockedByRate;
    }
    var total, pair := CountReviews(db, req, now - WINDOW);
    total, pair := total + 1, pair + 1;
    if total <= 0 || pair < 0 || pair > total {
      return Some(MetricsUnavailable), BlockedByRate;
    }
    var repeated := if pair - 1 > 0 then pair - 1 else 0;
    status := StatusForRate(repeated as real / total as real);
    refusal := if status == BlockedByRate then Some(ThresholdBlocked) else None;
  }

  /** The part of `create_review_decision` that decides and adds the review row. */
  method InsertReview(db: Database, req: ReviewRequest, now: int) returns (r: Response)
    modifies db
    ensures db.Tables() == Post(old(db.Tables()), req, now).0
    ensures r == Post(old(db.Tables()), req, now).1
  {
    hide Check;
    var refusal, status := CheckReviewerIndependence(db, req, now);
    if refusal.Some? { return refusal.value; }
    var existing := FindKey(db.reviews, req.idempotencyKey);
    if existing.Some? {
      return if existing.value.decisionId == req.decisionId then Replayed(existing.value)
             else Conflict(existing.value.decisionId);
    }
    var same := FindReview(db.reviews, req.decisionId);
    if same.Some? || req.caseId !in db.cases { return Failure(IntegrityError); }
    var row := RowFor(req, status, now);
    db.reviews := db.reviews + [row];
    db.audit := db.audit + [AuditFor(req, now)];
    return Created(row);
  }

  // ------------------------------------------------------------ dissents and signals

  datatype Dissent = Dissent(
    reviewId: string, caseId: string, scope: string, rationale: string, followup: Option<string>, open: bool,
    createdAt: int)

  datatype ReviewSignal = ReviewSignal(caseId: string, decisionId: string, outcome: ReviewOutcome, reviewerId: string)

  function DissentId(decisionId: string): string {
    "DISSENT-" + decisionId
  }

  function DissentFor(req: ReviewRequest, now: int): Dissent {
    Dissent(req.decisionId, req.caseId, req.dissentScope, req.dissentRationale, req.dissentFollowup, true, now)
  }

  /** The whole transaction: an accepting dissent goes with its artifact, or not at all. */
  function PostWithDissent(s: Store, dissents: map<string, Dissent>, req: ReviewRequest, now: int)
    : (Store, map<string, Dissent>, Response)
  {
    var (t, r) := Post(s, req, now);
    if !r.Created? || req.outcome != AcceptWithDissent then (t, dissents, r)
    else if DissentId(req.decisionId) in dissents then (s, dissents, Failure(IntegrityError))
    else (t, dissents[DissentId(req.decisionId) := DissentFor(req, now)], r)
  }

  class ReviewDesk {
    const db: Database
    var dissents: map<string, Dissent>

    constructor (db: Database)
      ensures this.db == db && dissents == map[]
    {
      this.db, dissents := db, map[];
    }

    /** `create_review_decision`: the rows of one transaction, and the signal sent after it. */
    method CreateReviewDecision(req: ReviewRequest, now: int) returns (r: Response, signal: Option<ReviewSignal>)
      modifies this, db
      ensures (db.Tables(), dissents, r) == PostWithDissent(old(db.Tables()), old(dissents), req, now)
      ensures signal == if r.Created? then Some(ReviewSignal(req.caseId, req.decisionId, req.outcome, req.reviewerId))
                        else None
    {
      hide Check, DissentId;
      var reviews, audit := db.reviews, db.audit;
      r := InsertReview(db, req, now);
      if !r.Created? { return r, None; }
      if req.outcome == AcceptWithDissent {
        var id := DissentId(req.decisionId);
        if id in dissents {
          PostWrites(old(db.Tables()), req, now);
          db.reviews, db.audit := reviews, audit;
          return Failure(IntegrityError), None;
        }
        dissents := dissents[id := Dissent(req.decisionId, req.caseId, req.dissentScope, req.dissentRationale,
                                           req.dissentFollowup, true, now)];
      }
      signal := Some(ReviewSignal(req.caseId, req.decisionId, req.outcome, req.reviewerId));
    }
  }

  // -------------------------------------------------------------------- one POST

  /** What a POST can do: a refused, replayed or conflicting one writes nothing; an admitted
      one adds its one row and one audit event, and saw at most half of the window, itself
      included, in its pair's hands. */
  lemma PostWrites(s: Store, req: ReviewRequest, now: int)
    ensures var (t, r) := Post(s, req, now);
            var p, n := PairSince(s.reviews, req.reviewerId, req.authorId, now - WINDOW), Since(s.reviews, now - WINDOW);
            && (!r.Created? ==> t == s)
            && r != MetricsUnavailable
            && (r == ThresholdBlocked <==> req.reviewerId != req.authorId && 2 * p > n + 1)
            && (r.Created? ==>
                  && req.reviewerId != req.authorId && 2 * p <= n + 1
                  && t.reviews == s.reviews + [RowFor(req, StatusForCounts(p, n), now)]
                  && t.audit == s.audit + [AuditFor(req, now)]
                  && t == s.(reviews := t.reviews, audit := t.audit))
  {
    MetricsAlwaysValid(s.reviews, req.reviewerId, req.authorId, now);
  }

  /** A stored decision posted again is answered with the stored row exactly while its pair
      is below the threshold: the independence check comes first. Either way nothing is
      written. */
  lemma ReplayAnsweredIffBelowThreshold(s: Store, req: ReviewRequest, now: int)
    requires FindKey(s.reviews, req.idempotencyKey).Some?
    requires FindKey(s.reviews, req.idempotencyKey).value.decisionId == req.decisionId
    requires req.reviewerId != req.authorId
    ensures var p, n := PairSince(s.reviews, req.reviewerId, req.authorId, now - WINDOW), Since(s.reviews, now - WINDOW);
            var (t, r) := Post(s, req, now);
            t == s && (r.Replayed? <==> 2 * p <= n + 1) && (r == ThresholdBlocked <==> 2 * p > n + 1)
  {
    MetricsAlwaysValid(s.reviews, req.reviewerId, req.authorId, now);
  }

  // ---------------------------------------------------------------------- histories

  datatype Posted = Posted(req: ReviewRequest, now: int)

  predicate Nondecreasing(posts: seq<Posted>) {
    forall i, j | 0 <= i < j < |posts| :: posts[i].now <= posts[j].now
  }

  /** The store after a history of POSTs; only they write reviews. */
  function History(s: Store, posts: seq<Posted>): Store {
    if posts == [] then s
    else Post(History(s, posts[..|posts| - 1]), posts[|posts| - 1].req, posts[|posts| - 1].now).0
  }

  /** Row i was admitted against the rows before it. */
  predicate Admitted(rows: seq<ReviewRow>, i: nat)
    requires i < |rows|
  {
    var row := rows[i];
    var p, n := PairSince(rows[..i], row.reviewerId, row.authorId, row.decidedAt - WINDOW),
                Since(rows[..i], row.decidedAt - WINDOW);
    row.reviewerId != row.authorId && 2 * p <= n + 1 && row.status == StatusForCounts(p, n)
  }

  predicate DistinctDecisions(rows: seq<ReviewRow>) {
    forall i, j | 0 <= i < j < |rows| ::
      rows[i].decisionId != rows[j].decisionId && rows[i].idempotencyKey != rows[j].idempotencyKey
  }

  predicate InOrder(rows: seq<ReviewRow>) {
    forall i, j | 0 <= i < j < |rows| :: rows[i].decidedAt <= rows[j].decidedAt
  }

  predicate Sound(rows: seq<ReviewRow>) {
    (forall i | 0 <= i < |rows| :: Admitted(rows, i)) && DistinctDecisions(rows) && InOrder(rows)
  }

  lemma AdmittedAppended(rows: seq<ReviewRow>, row: ReviewRow)
    requires forall i | 0 <= i < |rows| :: Admitted(rows, i)
    requires Admitted(rows + [row], |rows|)
    ensures forall i | 0 <= i < |rows| + 1 :: Admitted(rows + [row], i)
  {
    hide StatusForCounts;
    var all := rows + [row];
    forall i | 0 <= i < |rows| ensures Admitted(all, i) {
      assert Admitted(rows, i) && all[..i] == rows[..i];
    }
  }

  lemma KeysAppended(rows: seq<ReviewRow>, row: ReviewRow)
    requires DistinctDecisions(rows) && InOrder(rows)
    requires forall r | r in rows ::
               r.decisionId != row.decisionId && r.idempotencyKey != row.idempotencyKey && r.decidedAt <= row.decidedAt
    ensures DistinctDecisions(rows + [row]) && InOrder(rows + [row])
  {
    var all := rows + [row];
    assert forall i | 0 <= i < |rows| :: all[i] == rows[i] && rows[i] in rows;
  }

  lemma PostKeeps(s: Store, req: ReviewRequest, now: int)
    requires Sound(s.reviews) && forall row | row in s.reviews :: row.decidedAt <= now
    ensures var t := Post(s, req, now).0;
            Sound(t.reviews) && forall row | row in t.reviews :: row.decidedAt <= now
  {
    hide StatusForCounts, Since, PairSince, Check, DistinctDecisions, InOrder;
    PostWrites(s, req, now);
    var t, r := Post(s, req, now).0, Post(s, req, now).1;
    if r.Created? {
      var rows, row := s.reviews, r.row;
      assert t.reviews == rows + [row] && t.reviews[..|rows|] == rows;
      assert FindKey(rows, row.idempotencyKey).None? && FindReview(rows, row.decisionId).None?;
      KeysAppended(rows, row);
      AdmittedAppended(rows, row);
    }
  }

  /** Every stored decision was admitted below the threshold of its own window; none is by
      its subject's author; decision ids and idempotency keys are never shared. */
  lemma {:induction false} EveryDecisionWasAdmitted(s: Store, posts: seq<Posted>)
    requires s.reviews == [] && Nondecreasing(posts)
    ensures Sound(History(s, posts).reviews)
    ensures forall row | row in History(s, posts).reviews :: exists p :: p in posts && row.decidedAt <= p.now
  {
    if posts != [] {
      var n := |posts| - 1;
      var u := History(s, posts[..n]);
      EveryDecisionWasAdmitted(s, posts[..n]);
      hide Sound, Post;
      forall row | row in u.reviews ensures row.decidedAt <= posts[n].now {
        var p :| p in posts[..n] && row.decidedAt <= p.now;
        var i :| 0 <= i < n && posts[i] == p;
      }
      PostKeeps(u, posts[n].req, posts[n].now);
      assert posts[n] in posts;
    }
  }

  // ------------------------------------------------------------------ dissent artifacts

  function DissentHistory(s: Store, posts: seq<Posted>): (Store, map<string, Dissent>) {
    if posts == [] then (s, map[])
    else
      var n := |posts| - 1;
      var (t, d) := DissentHistory(s, posts[..n]);
      var (u, e, _) := PostWithDissent(t, d, posts[n].req, posts[n].now);
      (u, e)
  }

  ghost predicate Dissented(rows: seq<ReviewRow>, id: string, d: Dissent) {
    exists i :: 0 <= i < |rows| && rows[i].outcome == AcceptWithDissent && id == DissentId(rows[i].decisionId)
                && d.reviewId == rows[i].decisionId && d.caseId == rows[i].caseId
                && d.createdAt == rows[i].decidedAt && d.open
  }

  /** The dissents are those of the accepting dissents stored: one each, and no other. */
  ghost predicate DissentsMatch(rows: seq<ReviewRow>, dissents: map<string, Dissent>) {
    && (forall i | 0 <= i < |rows| && rows[i].outcome == AcceptWithDissent :: DissentId(rows[i].decisionId) in dissents)
    && (forall id | id in dissents :: Dissented(rows, id, dissents[id]))
  }

  lemma DissentIdInjective(a: string, b: string)
    requires DissentId(a) == DissentId(b)
    ensures a == b
  {
    Strings.SuffixCancels("DISSENT-", a, b);
  }

  /** A new decision's dissent id is never taken. */
  lemma DissentIsNew(s: Store, dissents: map<string, Dissent>, req: ReviewRequest, now: int)
    requires DissentsMatch(s.reviews, dissents) && Post(s, req, now).1.Created?
    ensures DissentId(req.decisionId) !in dissents
    ensures Post(s, req, now).0.reviews == s.reviews + [Post(s, req, now).1.row]
    ensures var row := Post(s, req, now).1.row;
            row.decisionId == req.decisionId && row.caseId == req.caseId && row.outcome == req.outcome && row.decidedAt == now
  {
    hide Check, DissentId;
    PostWrites(s, req, now);
    assert FindReview(s.reviews, req.decisionId).None?;
    var id := DissentId(req.decisionId);
    if id in dissents {
      assert Dissented(s.reviews, id, dissents[id]);
      var i :| 0 <= i < |s.reviews| && id == DissentId(s.reviews[i].decisionId);
      DissentIdInjective(req.decisionId, s.reviews[i].decisionId);
    }
  }

  lemma DissentedStill(rows: seq<ReviewRow>, row: ReviewRow, id: string, d: Dissent)
    requires Dissented(rows, id, d)
    ensures Dissented(rows + [row], id, d)
  {
    var i :| 0 <= i < |rows| && rows[i].outcome == AcceptWithDissent && id == DissentId(rows[i].decisionId)
             && d.reviewId == rows[i].decisionId && d.caseId == rows[i].caseId && d.createdAt == rows[i].decidedAt && d.open;
    assert (rows + [row])[i] == rows[i];
  }

  lemma DissentKept(s: Store, dissents: map<string, Dissent>, req: ReviewRequest, now: int)
    requires DissentsMatch(s.reviews, dissents)
    ensures var (t, after, r) := PostWithDissent(s, dissents, req, now);
            (t, r) == Post(s, req, now) && DissentsMatch(t.reviews, after)
  {
    hide Check, DissentId, Post;
    PostWrites(s, req, now);
    var (t, after, r) := PostWithDissent(s, dissents, req, now);
    if Post(s, req, now).1.Created? {
      DissentIsNew(s, dissents, req, now);
      var rows, row := s.reviews, Post(s, req, now).1.row;
      forall id | id in after ensures Dissented(rows + [row], id, after[id]) {
        if id in dissents {
          DissentedStill(rows, row, id, dissents[id]);
        } else {
          assert (rows + [row])[|rows|] == row;
        }
      }
    }
  }

  /** Over every history the dissent artifacts are exactly those of the ACCEPT_WITH_DISSENT
      decisions stored, each linked to its own, and they never make a POST fail: the reviews
      are those of the history without them. */
  lemma {:induction false} DissentsFollowDecisions(s: Store, posts: seq<Posted>)
    requires s.reviews == []
    ensures var (t, dissents) := DissentHistory(s, posts);
            t == History(s, posts) && DissentsMatch(t.reviews, dissents)
  {
    hide PostWithDissent, Post, DissentsMatch;
    if posts == [] {
      assert DissentsMatch([], map[]) by { NoDissents(); }
    } else {
      var n := |posts| - 1;
      DissentsFollowDecisions(s, posts[..n]);
      var (t, d) := DissentHistory(s, posts[..n]);
      DissentKept(t, d, posts[n].req, posts[n].now);
    }
  }

  lemma NoDissents()
    ensures DissentsMatch([], map[])
  {
  }

  // ------------------------------------------------------------- the bound on a pair

  /** Decisions of the pair in a stretch of time. */
  function PairIn(rows: seq<ReviewRow>, reviewer: string, author: string, start: int, end: int): nat {
    if rows == [] then 0
    else
      var last := rows[|rows| - 1];
      PairIn(rows[..|rows| - 1], reviewer, author, start, end)
      + (if start <= last.decidedAt <= end && OfPair(last, reviewer, author) then 1 else 0)
  }

  lemma {:induction false} PairInWithinSince(rows: seq<ReviewRow>, reviewer: string, author: string, start: int, end: int, from: int)
    requires from <= start
    ensures PairIn(rows, reviewer, author, start, end) <= PairSince(rows, reviewer, author, from)
  {
    if rows != [] { PairInWithinSince(rows[..|rows| - 1], reviewer, author, start, end, from); }
  }

  lemma {:induction false} AtMostAll(rows: seq<ReviewRow>, start: int)
    ensures Since(rows, start) <= |rows|
  {
    if rows != [] { AtMostAll(rows[..|rows| - 1], start); }
  }

  lemma PrefixSound(rows: seq<ReviewRow>, n: nat)
    requires n <= |rows| && forall i | 0 <= i < |rows| :: Admitted(rows, i)
    ensures forall i | 0 <= i < n :: Admitted(rows[..n], i)
  {
    forall i | 0 <= i < n ensures Admitted(rows[..n], i) {
      assert Admitted(rows, i) && rows[..n][..i] == rows[..i];
    }
  }

  /** In any stretch of at most 90 days, a pair's decisions beyond the first are at most
      half of all the decisions in the 90 days up to the pair's last one in the stretch. */
  lemma {:induction false} PairBound(rows: seq<ReviewRow>, reviewer: string, author: string, start: int, end: int)
    returns (i: nat)
    requires forall k | 0 <= k < |rows| :: Admitted(rows, k)
    requires end - start <= WINDOW && PairIn(rows, reviewer, author, start, end) > 0
    ensures i < |rows| && OfPair(rows[i], reviewer, author) && start <= rows[i].decidedAt <= end
    ensures 2 * (PairIn(rows, reviewer, author, start, end) - 1) <= Since(rows[..i + 1], rows[i].decidedAt - WINDOW)
  {
    var n := |rows| - 1;
    if start <= rows[n].decidedAt <= end && OfPair(rows[n], reviewer, author) {
      i := n;
      PairInWithinSince(rows[..n], reviewer, author, start, end, rows[n].decidedAt - WINDOW);
      assert Admitted(rows, n);
      assert rows[..n + 1] == rows;
    } else {
      PrefixSound(rows, n);
      i := PairBound(rows[..n], reviewer, author, start, end);
      assert rows[..n][..i + 1] == rows[..i + 1];
    }
  }

  lemma {:induction false} PairCountsAll(rows: seq<ReviewRow>, reviewer: string, author: string, start: int, end: int)
    requires forall row | row in rows :: start <= row.decidedAt <= end
    ensures PairIn(rows, reviewer, author, start, end) == PairSince(rows, reviewer, author, start)
    ensures Since(rows, start) == |rows|
  {
    if rows != [] {
      assert rows[|rows| - 1] in rows;
      PairCountsAll(rows[..|rows| - 1], reviewer, author, start, end);
    }
  }

  /** A history inside one window holds at most n/2 + 1 decisions of any pair. */
  lemma OneWindowBound(s: Store, posts: seq<Posted>, reviewer: string, author: string, start: int)
    requires s.reviews == [] && Nondecreasing(posts)
    requires forall row | row in History(s, posts).reviews :: start <= row.decidedAt <= start + WINDOW
    ensures var rows := History(s, posts).reviews;
            2 * (PairSince(rows, reviewer, author, start) - 1) <= |rows|
  {
    hide History, Since, PairSince, PairIn;
    var rows := History(s, posts).reviews;
    EveryDecisionWasAdmitted(s, posts);
    PairCountsAll(rows, reviewer, author, start, start + WINDOW);
    if PairIn(rows, reviewer, author, start, start + WINDOW) > 0 {
      var i := PairBound(rows, reviewer, author, start, start + WINDOW);
      AtMostAll(rows[..i + 1], rows[i].decidedAt - WINDOW);
    }
  }

  // ------------------------------------------------------------------ a refused replay

  function ByPair(id: string): ReviewRequest {
    ReviewRequest(id, id, "C", "R", "A", Accept, "", "", None)
  }

  lemma {:induction false} AllOfPair(rows: seq<ReviewRow>, reviewer: string, author: string, start: int)
    requires forall row | row in rows :: OfPair(row, reviewer, author) && row.decidedAt >= start
    ensures Since(rows, start) == PairSince(rows, reviewer, author, start) == |rows|
  {
    if rows != [] {
      assert rows[|rows| - 1] in rows;
      AllOfPair(rows[..|rows| - 1], reviewer, author, start);
    }
  }

  lemma PostByPair(s: Store, id: string) returns (t: Store)
    requires "C" in s.cases && |s.reviews| <= 1
    requires forall row | row in s.reviews :: OfPair(row, "R", "A") && row.decidedAt == 0 && row.decisionId != id
                                              && row.idempotencyKey != id
    ensures t == Post(s, ByPair(id), 0).0 && Post(s, ByPair(id), 0).1.Created? && t.cases == s.cases
    ensures exists row :: t.reviews == s.reviews + [row] && OfPair(row, "R", "A") && row.decidedAt == 0
                          && row.decisionId == row.idempotencyKey == id
  {
    hide Since, PairSince, StatusForRate, Compute;
    t := Post(s, ByPair(id), 0).0;
    PostWrites(s, ByPair(id), 0);
    AllOfPair(s.reviews, "R", "A", 0 - WINDOW);
    MetricsAlwaysValid(s.reviews, "R", "A", 0);
  }

  /** Two decisions of one pair are admitted; posting the second again is refused. */
  lemma ReplayCanBeRefused(s: Store)
    requires s.reviews == [] && "C" in s.cases
    ensures var t := Post(s, ByPair("1"), 0).0;
            var (u, second) := Post(t, ByPair("2"), 0);
            second.Created? && Post(u, ByPair("2"), 0) == (u, ThresholdBlocked)
  {
    hide Post, Since, PairSince;
    var t := PostByPair(s, "1");
    var u := PostByPair(t, "2");
    PostWrites(u, ByPair("2"), 0);
    AllOfPair(u.reviews, "R", "A", 0 - WINDOW);
  }
}
