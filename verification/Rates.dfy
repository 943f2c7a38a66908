/** The counts behind reviewer independence as numbers of stored decisions, and what a posted
    decision is answered by them. */
module Rates {
  import opened Contracts
  import opened Tables
  import opened Independence

  function Places(rows: seq<ReviewRow>, keep: ReviewRow -> bool): set<int> {
    set i | 0 <= i < |rows| && keep(rows[i])
  }

  lemma PlacesNext(rows: seq<ReviewRow>, keep: ReviewRow -> bool)
    requires rows != []
    ensures var n := |rows| - 1;
            |Places(rows, keep)| == |Places(rows[..n], keep)| + if keep(rows[n]) then 1 else 0
  {
    var n := |rows| - 1;
    assert forall i | 0 <= i < n :: rows[..n][i] == rows[i];
    assert Places(rows, keep) == Places(rows[..n], keep) + if keep(rows[n]) then {n} else {};
  }

  lemma {:induction false} SinceIsPlaces(rows: seq<ReviewRow>, start: int, keep: ReviewRow -> bool)
    requires forall r :: keep(r) <==> r.decidedAt >= start
    ensures Since(rows, start) == |Places(rows, keep)|
  {
    if rows != [] {
      PlacesNext(rows, keep);
      SinceIsPlaces(rows[..|rows| - 1], start, keep);
      hide Places;
    }
  }

  lemma {:induction false} PairIsPlaces(rows: seq<ReviewRow>, reviewer: string, author: string, start: int,
                                        keep: ReviewRow -> bool)
    requires forall r :: keep(r) <==> r.decidedAt >= start && r.reviewerId == reviewer && r.authorId == author
    ensures PairSince(rows, reviewer, author, start) == |Places(rows, keep)|
  {
    if rows != [] {
      PlacesNext(rows, keep);
      PairIsPlaces(rows[..|rows| - 1], reviewer, author, start, keep);
      hide Places;
    }
  }

  lemma {:induction false} StretchIsPlaces(rows: seq<ReviewRow>, reviewer: string, author: string, start: int, end: int,
                                           keep: ReviewRow -> bool)
    requires forall r :: keep(r) <==> start <= r.decidedAt <= end && r.reviewerId == reviewer && r.authorId == author
    ensures PairIn(rows, reviewer, author, start, end) == |Places(rows, keep)|
  {
    if rows != [] {
      PlacesNext(rows, keep);
      StretchIsPlaces(rows[..|rows| - 1], reviewer, author, start, end, keep);
      hide Places;
    }
  }

  /** The counts of a window, and of a stretch of time, are numbers of stored decisions. */
  lemma CountsAreRows(rows: seq<ReviewRow>, reviewer: string, author: string, start: int, end: int)
    ensures Since(rows, start) == |set i | 0 <= i < |rows| && rows[i].decidedAt >= start|
    ensures PairSince(rows, reviewer, author, start)
            == |set i | 0 <= i < |rows| && rows[i].decidedAt >= start && rows[i].reviewerId == reviewer
                        && rows[i].authorId == author|
    ensures PairIn(rows, reviewer, author, start, end)
            == |set i | 0 <= i < |rows| && start <= rows[i].decidedAt <= end && rows[i].reviewerId == reviewer
                        && rows[i].authorId == author|
  {
    hide Since, PairSince, PairIn, OfPair;
    var since := (r: ReviewRow) => r.decidedAt >= start;
    var pair := (r: ReviewRow) => r.decidedAt >= start && r.reviewerId == reviewer && r.authorId == author;
    var stretch := (r: ReviewRow) => start <= r.decidedAt <= end && r.reviewerId == reviewer && r.authorId == author;
    SinceIsPlaces(rows, start, since);
    PairIsPlaces(rows, reviewer, author, start, pair);
    StretchIsPlaces(rows, reviewer, author, start, end, stretch);
    assert Places(rows, since) == set i | 0 <= i < |rows| && rows[i].decidedAt >= start;
    assert Places(rows, pair)
        == set i | 0 <= i < |rows| && rows[i].decidedAt >= start && rows[i].reviewerId == reviewer && rows[i].authorId == author;
    assert Places(rows, stretch)
        == set i | 0 <= i < |rows| && start <= rows[i].decidedAt <= end && rows[i].reviewerId == reviewer
                   && rows[i].authorId == author;
  }

  /** What a posted decision is answered, and what it writes, by the numbers of decisions
      stored in the 90 days before it: in all, and by its reviewer on its author. */
  lemma PostInFull(s: Store, req: ReviewRequest, now: int)
    ensures var start := now - 90 * 24 * 60 * 60 * 1_000_000;
            var total := |set i | 0 <= i < |s.reviews| && s.reviews[i].decidedAt >= start|;
            var pair := |set i | 0 <= i < |s.reviews| && s.reviews[i].decidedAt >= start
                                 && s.reviews[i].reviewerId == req.reviewerId && s.reviews[i].authorId == req.authorId|;
            var admitted := req.reviewerId != req.authorId && 2 * pair <= total + 1;
            var keyed := exists row :: row in s.reviews && row.idempotencyKey == req.idempotencyKey;
            var taken := (exists row :: row in s.reviews && row.decisionId == req.decisionId) || req.caseId !in s.cases;
            var (t, r) := Post(s, req, now);
            && (r == SelfApproval <==> req.reviewerId == req.authorId)
            && (r == ThresholdBlocked <==> req.reviewerId != req.authorId && 2 * pair > total + 1)
            && (r.Replayed? || r.Conflict? <==> admitted && keyed)
            && (r.Replayed? ==> r.row in s.reviews && r.row.idempotencyKey == req.idempotencyKey
                                && r.row.decisionId == req.decisionId)
            && (r.Conflict? ==> r.existingId != req.decisionId
                                && exists row :: row in s.reviews && row.idempotencyKey == req.idempotencyKey
                                                 && row.decisionId == r.existingId)
            && (r == Failure(IntegrityError) <==> admitted && !keyed && taken)
            && (r.Created? <==> admitted && !keyed && !taken)
            && (r.Created? ==>
                  && r.row == ReviewRow(req.decisionId, req.caseId, req.outcome, req.reviewerId, req.authorId,
                                        if 20 * pair > 7 * (total + 1) then EscalationRequired
                                        else if 4 * pair > total + 1 then Warning else Pass,
                                        now, req.idempotencyKey)
                  && t == s.(reviews := s.reviews + [r.row],
                             audit := s.audit + [AuditRow("reviewer", req.reviewerId, req.caseId, req.decisionId, now,
                                                          ReviewDetail(req.decisionId, req.caseId))]))
            && (!r.Created? ==> t == s)
  {
    CountsAreRows(s.reviews, req.reviewerId, req.authorId, now - 90 * 24 * 60 * 60 * 1_000_000, now);
    hide Since, PairSince, FindKey, FindReview;
    MetricsAlwaysValid(s.reviews, req.reviewerId, req.authorId, now);
    StatusOfRate(PairSince(s.reviews, req.reviewerId, req.authorId, now - WINDOW), Since(s.reviews, now - WINDOW));
    hide StatusForRate;
  }
}
