/** Portal-support governance: intents, their reviews, and the metadata an approved intent
    is applied to. */
module Governance {
  import opened Contracts

  datatype Intent = Intent(family: string, level: string, payload: string, status: string)

  datatype Review = Review(reviewId: string, intentId: string, outcome: string, key: string, reviewedAt: int)

  datatype Metadata = Metadata(metadataId: string, family: string, level: string, payload: string)

  /** The audit events the three endpoints emit, in order. */
  datatype Event =
    | IntentCreated(intentId: string)
    | ReviewRecorded(intentId: string, reviewId: string, outcome: string)
    | IntentApplied(intentId: string, reviewId: string, metadataId: string)

  datatype Desk = Desk(
    intents: map<string, Intent>,
    reviews: seq<Review>,
    metadata: seq<Metadata>,
    log: seq<Event>)

  const BLANK: Desk := Desk(map[], [], [], [])

  datatype Response = Done | IntentConflict | IntentNotFound | KeyConflict(reviewId: string) | ReviewConflict
                    | ReviewRequired | AppliedTo(metadataId: string)

  /** `upper()`, on ASCII letters. */
  function Upper(s: string): string {
    seq(|s|, i requires 0 <= i < |s| => if 'a' <= s[i] <= 'z' then (s[i] as int - 32) as char else s[i])
  }

  const PENDING := "PENDING_REVIEW"
  const APPROVED := "APPROVED"
  const APPLIED := "APPLIED"

  predicate Approves(r: Review, intentId: string) {
    r.intentId == intentId && Upper(r.outcome) == APPROVED
  }

  // ------------------------------------------------------------------- the endpoints

  function FindKey(reviews: seq<Review>, key: string): (r: Option<Review>)
    ensures r.Some? ==> r.value in reviews && r.value.key == key
    ensures r.None? <==> forall x | x in reviews :: x.key != key
  {
    if reviews == [] then None
    else if reviews[0].key == key then Some(reviews[0])
    else FindKey(reviews[1..], key)
  }

  predicate HasReview(reviews: seq<Review>, id: string) {
    exists i :: 0 <= i < |reviews| && reviews[i].reviewId == id
  }

  /** `require_approved_review`: the newest review of the intent that approves. */
  function NewestApproval(reviews: seq<Review>, intentId: string): (r: Option<Review>)
    ensures r.Some? ==> r.value in reviews && Approves(r.value, intentId)
    ensures r.None? <==> forall x | x in reviews :: !Approves(x, intentId)
    ensures r.Some? ==> forall x | x in reviews && Approves(x, intentId) :: x.reviewedAt <= r.value.reviewedAt
  {
    if reviews == [] then None
    else
      var n := |reviews| - 1;
      var last, before := reviews[n], NewestApproval(reviews[..n], intentId);
      assert reviews == reviews[..n] + [last];
      if Approves(last, intentId) && (before.None? || before.value.reviewedAt <= last.reviewedAt)
      then Some(last) else before
  }

  function Create(d: Desk, id: string, family: string, level: string, payload: string): (Desk, Response) {
    if id in d.intents then (d, IntentConflict)
    else (d.(intents := d.intents[id := Intent(family, level, payload, PENDING)],
             log := d.log + [IntentCreated(id)]), Done)
  }

  function Record(d: Desk, r: Review): (Desk, Response) {
    if r.intentId !in d.intents then (d, IntentNotFound)
    else match FindKey(d.reviews, r.key)
      case Some(other) => (d, KeyConflict(other.reviewId))
      case None =>
        if HasReview(d.reviews, r.reviewId) then (d, ReviewConflict)
        else (d.(reviews := d.reviews + [r],
                 intents := d.intents[r.intentId := d.intents[r.intentId].(status := Upper(r.outcome))],
                 log := d.log + [ReviewRecorded(r.intentId, r.reviewId, r.outcome)]), Done)
  }

  /** The metadata table with the intent's values under its family. */
  function Upsert(rows: seq<Metadata>, i: Intent, drawn: string): seq<Metadata> {
    if rows == [] then [Metadata(drawn, i.family, i.level, i.payload)]
    else if rows[0].family == i.family then [rows[0].(level := i.level, payload := i.payload)] + rows[1..]
    else [rows[0]] + Upsert(rows[1..], i, drawn)
  }

  function UpsertedId(rows: seq<Metadata>, i: Intent, drawn: string): string {
    if rows == [] then drawn
    else if rows[0].family == i.family then rows[0].metadataId
    else UpsertedId(rows[1..], i, drawn)
  }

  /** The first row of the family is the one overwritten; without one, a row is added. */
  lemma {:induction false} UpsertAt(rows: seq<Metadata>, i: Intent, drawn: string, k: nat)
    requires k <= |rows| && forall j | 0 <= j < k :: rows[j].family != i.family
    requires k < |rows| ==> rows[k].family == i.family
    ensures Upsert(rows, i, drawn)
            == if k < |rows| then rows[k := rows[k].(level := i.level, payload := i.payload)]
               else rows + [Metadata(drawn, i.family, i.level, i.payload)]
    ensures UpsertedId(rows, i, drawn) == if k < |rows| then rows[k].metadataId else drawn
  {
    if k > 0 {
      assert rows == [rows[0]] + rows[1..];
      UpsertAt(rows[1..], i, drawn, k - 1);
    }
  }

  function Apply(d: Desk, id: string, drawn: string): (Desk, Response) {
    if id !in d.intents then (d, IntentNotFound)
    else match NewestApproval(d.reviews, id)
      case None => (d, ReviewRequired)
      case Some(review) =>
        var i := d.intents[id];
        var metadataId := UpsertedId(d.metadata, i, drawn);
        (d.(metadata := Upsert(d.metadata, i, drawn),
            intents := d.intents[id := i.(status := APPLIED)],
            log := d.log + [IntentApplied(id, review.reviewId, metadataId)]), AppliedTo(metadataId))
  }

  // ------------------------------------------------------------------------ in place

  class PortalSupportDesk {
    var intents: map<string, Intent>
    var reviews: seq<Review>
    var metadata: seq<Metadata>
    var log: seq<Event>

    function Contents(): Desk
      reads this
    {
      Desk(intents, reviews, metadata, log)
    }

    constructor ()
      ensures Contents() == BLANK
    {
      intents, reviews, metadata, log := map[], [], [], [];
    }

    method CreateIntent(id: string, family: string, level: string, payload: string) returns (r: Response)
      modifies this
      ensures (Contents(), r) == Create(old(Contents()), id, family, level, payload)
    {
      if id in intents { return IntentConflict; }
      intents := intents[id := Intent(family, level, payload, PENDING)];
      log := log + [IntentCreated(id)];
      return Done;
    }

    method RecordReview(row: Review) returns (r: Response)
      modifies this
      ensures (Contents(), r) == Record(old(Contents()), row)
    {
      if row.intentId !in intents { return IntentNotFound; }
      var existing := FindKey(reviews, row.key);
      if existing.Some? { return KeyConflict(existing.value.reviewId); }
      if HasReview(reviews, row.reviewId) { return ReviewConflict; }
      reviews := reviews + [row];
      intents := intents[row.intentId := intents[row.intentId].(status := Upper(row.outcome))];
      log := log + [ReviewRecorded(row.intentId, row.reviewId, row.outcome)];
      return Done;
    }

    /** `upsert_portal_support_metadata`: overwrite the family's row, or add one. */
    method UpsertMetadata(i: Intent, drawn: string) returns (metadataId: string)
      modifies this`metadata
      ensures metadata == Upsert(old(metadata), i, drawn)
      ensures metadataId == UpsertedId(old(metadata), i, drawn)
    {
      var k := 0;
      while k < |metadata| && metadata[k].family != i.family
        invariant 0 <= k <= |metadata| && metadata == old(metadata)
        invariant forall j | 0 <= j < k :: metadata[j].family != i.family
      {
        k := k + 1;
      }
      UpsertAt(metadata, i, drawn, k);
      if k < |metadata| {
        metadataId := metadata[k].metadataId;
        metadata := metadata[k := metadata[k].(level := i.level, payload := i.payload)];
      } else {
        metadataId := drawn;
        metadata := metadata + [Metadata(drawn, i.family, i.level, i.payload)];
      }
    }

    method ApplyIntent(id: string, drawn: string) returns (r: Response)
      modifies this
      ensures (Contents(), r) == Apply(old(Contents()), id, drawn)
    {
      if id !in intents { return IntentNotFound; }
      var approval := NewestApproval(reviews, id);
      if approval.None? { return ReviewRequired; }
      var i := intents[id];
      var metadataId := UpsertMetadata(i, drawn);
      intents := intents[id := i.(status := APPLIED)];
      log := log + [IntentApplied(id, approval.value.reviewId, metadataId)];
      return AppliedTo(metadataId);
    }
  }

  // --------------------------------------------------------------------- over runs

  datatype Step =
    | CreateStep(id: string, family: string, level: string, payload: string)
    | ReviewStep(review: Review)
    | ApplyStep(id: string, drawn: string)

  function After(d: Desk, step: Step): Desk {
    match step
    case CreateStep(id, family, level, payload) => Create(d, id, family, level, payload).0
    case ReviewStep(review) => Record(d, review).0
    case ApplyStep(id, drawn) => Apply(d, id, drawn).0
  }

  function Run(d: Desk, steps: seq<Step>): Desk {
    if steps == [] then d else After(Run(d, steps[..|steps| - 1]), steps[|steps| - 1])
  }

  /** The last intent applied to a family. */
  function LastApplied(d: Desk, log: seq<Event>, family: string): Option<string> {
    if log == [] then None
    else
      var e := log[|log| - 1];
      if e.IntentApplied? && e.intentId in d.intents && d.intents[e.intentId].family == family then Some(e.intentId)
      else LastApplied(d, log[..|log| - 1], family)
  }

  function Label(e: Event): string {
    match e
    case IntentCreated(_) => PENDING
    case ReviewRecorded(_, _, outcome) => Upper(outcome)
    case IntentApplied(_, _, _) => APPLIED
  }

  /** The label of an intent's last event. */
  function LastLabel(log: seq<Event>, id: string): Option<string> {
    if log == [] then None
    else
      var e := log[|log| - 1];
      if e.intentId == id then Some(Label(e)) else LastLabel(log[..|log| - 1], id)
  }

  predicate OneRowPerFamily(rows: seq<Metadata>) {
    forall i, j | 0 <= i < j < |rows| :: rows[i].family != rows[j].family
  }

  /** A row carries the level and payload of the last intent applied to its family. */
  predicate Current(d: Desk, row: Metadata) {
    var last := LastApplied(d, d.log, row.family);
    && last.Some? && last.value in d.intents
    && row.level == d.intents[last.value].level && row.payload == d.intents[last.value].payload
  }

  predicate HasFamily(rows: seq<Metadata>, family: string) {
    exists i :: 0 <= i < |rows| && rows[i].family == family
  }

  /** The k-th event, if an application, follows a review of the intent that approves. */
  predicate Licensed(log: seq<Event>, k: nat)
    requires k < |log|
  {
    log[k].IntentApplied? ==>
      exists j :: 0 <= j < k && Approval(log[j], log[k].intentId, log[k].reviewId)
  }

  predicate Approval(e: Event, intentId: string, reviewId: string) {
    e.ReviewRecorded? && e.intentId == intentId && e.reviewId == reviewId && Upper(e.outcome) == APPROVED
  }

  predicate Logged(d: Desk) {
    && (forall e | e in d.log :: e.intentId in d.intents)
    && (forall i | 0 <= i < |d.reviews| ::
          ReviewRecorded(d.reviews[i].intentId, d.reviews[i].reviewId, d.reviews[i].outcome) in d.log)
  }

  ghost predicate Governed(d: Desk) {
    && Logged(d)
    && OneRowPerFamily(d.metadata)
    && (forall i | 0 <= i < |d.metadata| :: Current(d, d.metadata[i]))
    && (forall f: string :: LastApplied(d, d.log, f).Some? ==> HasFamily(d.metadata, f))
    && (forall k | 0 <= k < |d.log| :: Licensed(d.log, k))
    && (forall id | id in d.intents :: LastLabel(d.log, id) == Some(d.intents[id].status))
  }

  // ------------------------------------------------------------- every step keeps it

  /** Intents keep what was asked for; only their status moves. */
  predicate SameAsks(d: Desk, e: Desk) {
    forall id | id in d.intents ::
      && id in e.intents && e.intents[id].family == d.intents[id].family
      && e.intents[id].level == d.intents[id].level && e.intents[id].payload == d.intents[id].payload
  }

  lemma {:induction false} LastAppliedStays(d: Desk, e: Desk, log: seq<Event>, family: string)
    requires SameAsks(d, e) && forall x | x in log :: x.intentId in d.intents
    ensures LastApplied(e, log, family) == LastApplied(d, log, family)
  {
    if log != [] {
      assert log[|log| - 1] in log;
      LastAppliedStays(d, e, log[..|log| - 1], family);
    }
  }

  /** One more event that is no application leaves every family's last one. */
  lemma MetadataStays(d: Desk, e: Desk, event: Event)
    requires Governed(d) && SameAsks(d, e) && e.metadata == d.metadata
    requires e.log == d.log + [event] && !event.IntentApplied?
    ensures forall i | 0 <= i < |e.metadata| :: Current(e, e.metadata[i])
    ensures forall f: string :: LastApplied(e, e.log, f).Some? ==> HasFamily(e.metadata, f)
  {
    assert e.log[..|d.log|] == d.log;
    forall f: string ensures LastApplied(e, e.log, f) == LastApplied(d, d.log, f) {
      LastAppliedStays(d, e, d.log, f);
    }
    forall i | 0 <= i < |e.metadata| ensures Current(e, e.metadata[i]) {
      assert Current(d, d.metadata[i]);
    }
  }

  lemma LicensedAppended(log: seq<Event>, event: Event)
    requires forall k | 0 <= k < |log| :: Licensed(log, k)
    requires event.IntentApplied? ==> exists j :: 0 <= j < |log| && Approval(log[j], event.intentId, event.reviewId)
    ensures forall k | 0 <= k < |log| + 1 :: Licensed(log + [event], k)
  {
    var all := log + [event];
    forall k | 0 <= k < |log| + 1 ensures Licensed(all, k) {
      if k < |log| {
        assert Licensed(log, k);
        if log[k].IntentApplied? {
          var j :| 0 <= j < k && Approval(log[j], log[k].intentId, log[k].reviewId);
          assert Approval(all[j], all[k].intentId, all[k].reviewId);
        }
      } else if event.IntentApplied? {
        var j :| 0 <= j < |log| && Approval(log[j], event.intentId, event.reviewId);
        assert Approval(all[j], all[k].intentId, all[k].reviewId);
      }
    }
  }

  lemma LabelsAppended(d: Desk, e: Desk, event: Event)
    requires forall id | id in d.intents :: LastLabel(d.log, id) == Some(d.intents[id].status)
    requires e.log == d.log + [event]
    requires forall id | id in e.intents ::
               if id == event.intentId then e.intents[id].status == Label(event)
               else id in d.intents && e.intents[id].status == d.intents[id].status
    ensures forall id | id in e.intents :: LastLabel(e.log, id) == Some(e.intents[id].status)
  {
    assert e.log[..|d.log|] == d.log;
  }

  lemma LoggedAppended(d: Desk, e: Desk, event: Event)
    requires Logged(d) && SameAsks(d, e) && e.log == d.log + [event] && event.intentId in e.intents
    requires e.reviews == d.reviews
             || (exists r :: e.reviews == d.reviews + [r] && event == ReviewRecorded(r.intentId, r.reviewId, r.outcome))
    ensures Logged(e)
  {
    assert event in e.log;
    assert forall x | x in e.log :: x in d.log || x == event;
    assert forall i | 0 <= i < |d.reviews| :: e.reviews[i] == d.reviews[i];
  }

  lemma CreateKeeps(d: Desk, id: string, family: string, level: string, payload: string)
    requires Governed(d)
    ensures Governed(Create(d, id, family, level, payload).0)
  {
    var e, event := Create(d, id, family, level, payload).0, IntentCreated(id);
    if id !in d.intents {
      hide LastLabel, LastApplied, Current, Licensed;
      LoggedAppended(d, e, event);
      MetadataStays(d, e, event);
      LicensedAppended(d.log, event);
      LabelsAppended(d, e, event);
    }
  }

  lemma RecordKeeps(d: Desk, r: Review)
    requires Governed(d)
    ensures Governed(Record(d, r).0)
  {
    hide LastLabel, LastApplied, Current, Licensed, Upper;
    var e, event := Record(d, r).0, ReviewRecorded(r.intentId, r.reviewId, r.outcome);
    if Record(d, r).1 == Done {
      LoggedAppended(d, e, event);
      MetadataStays(d, e, event);
      LicensedAppended(d.log, event);
      LabelsAppended(d, e, event);
    }
  }

  lemma FirstOfFamily(rows: seq<Metadata>, family: string) returns (k: nat)
    ensures k <= |rows| && (forall j | 0 <= j < k :: rows[j].family != family)
    ensures k < |rows| ==> rows[k].family == family
  {
    k := 0;
    while k < |rows| && rows[k].family != family
      invariant k <= |rows| && forall j | 0 <= j < k :: rows[j].family != family
    {
      k := k + 1;
    }
  }

  /** The upserted table: the family's row carries the intent's values, the others are as
      they were. */
  lemma UpsertedRows(rows: seq<Metadata>, i: Intent, drawn: string)
    requires OneRowPerFamily(rows)
    ensures var after := Upsert(rows, i, drawn);
            && OneRowPerFamily(after)
            && (forall r | r in after :: if r.family == i.family then r.level == i.level && r.payload == i.payload
                                         else r in rows)
            && (exists r :: r in after && r.family == i.family)
            && (forall r | r in rows && r.family != i.family :: r in after)
  {
    hide Upsert;
    var k := FirstOfFamily(rows, i.family);
    UpsertAt(rows, i, drawn, k);
    var after := Upsert(rows, i, drawn);
    assert after[k].family == i.family && after[k] in after;
    assert forall j | 0 <= j < |rows| && j != k :: after[j] == rows[j] && after[j] in after;
  }

  lemma InMetadata(d: Desk, row: Metadata)
    requires Governed(d) && row in d.metadata
    ensures Current(d, row)
  {
    var i :| 0 <= i < |d.metadata| && d.metadata[i] == row;
  }

  lemma AppliedMetadata(d: Desk, id: string, drawn: string)
    requires Governed(d) && id in d.intents && NewestApproval(d.reviews, id).Some?
    ensures var e := Apply(d, id, drawn).0;
            && OneRowPerFamily(e.metadata)
            && (forall i | 0 <= i < |e.metadata| :: Current(e, e.metadata[i]))
            && (forall f: string :: LastApplied(e, e.log, f).Some? ==> HasFamily(e.metadata, f))
  {
    hide LastLabel, Licensed, NewestApproval, OneRowPerFamily, Upsert, UpsertedId;
    var e, intent := Apply(d, id, drawn).0, d.intents[id];
    UpsertedRows(d.metadata, intent, drawn);
    assert e.log[..|d.log|] == d.log;
    forall f: string
      ensures LastApplied(e, e.log, f) == if f == intent.family then Some(id) else LastApplied(d, d.log, f)
    {
      LastAppliedStays(d, e, d.log, f);
    }
    forall i | 0 <= i < |e.metadata| ensures Current(e, e.metadata[i]) {
      assert e.metadata[i] in e.metadata;
      if e.metadata[i].family != intent.family { InMetadata(d, e.metadata[i]); }
    }
    forall f: string | LastApplied(e, e.log, f).Some? ensures HasFamily(e.metadata, f) {
      if f == intent.family {
        var r :| r in e.metadata && r.family == f;
      } else {
        var i :| 0 <= i < |d.metadata| && d.metadata[i].family == f;
        assert d.metadata[i] in e.metadata;
      }
    }
  }

  lemma ApplyKeeps(d: Desk, id: string, drawn: string)
    requires Governed(d)
    ensures Governed(Apply(d, id, drawn).0)
  {
    if id in d.intents && NewestApproval(d.reviews, id).Some? {
      hide LastLabel, LastApplied, Current, Licensed, Upsert, UpsertedId, OneRowPerFamily;
      var e, review := Apply(d, id, drawn).0, NewestApproval(d.reviews, id).value;
      var event := e.log[|d.log|];
      AppliedMetadata(d, id, drawn);
      LoggedAppended(d, e, event);
      LabelsAppended(d, e, event);
      var i :| 0 <= i < |d.reviews| && d.reviews[i] == review;
      var recorded := ReviewRecorded(review.intentId, review.reviewId, review.outcome);
      var j :| 0 <= j < |d.log| && d.log[j] == recorded;
      assert Approval(d.log[j], id, review.reviewId);
      LicensedAppended(d.log, event);
    }
  }

  /** Over every history of the three endpoints: each metadata row carries the level and
      payload of the last intent applied to its family, one row per family; every
      application follows a recorded review of that intent that approves; and an intent's
      status is the label of its last event. */
  lemma {:induction false} EveryHistoryIsGoverned(steps: seq<Step>)
    ensures Governed(Run(BLANK, steps))
  {
    hide Create, Record, Apply;
    if steps != [] {
      var before, step := Run(BLANK, steps[..|steps| - 1]), steps[|steps| - 1];
      EveryHistoryIsGoverned(steps[..|steps| - 1]);
      hide Governed;
      match step {
        case CreateStep(id, family, level, payload) => CreateKeeps(before, id, family, level, payload);
        case ReviewStep(review) => RecordKeeps(before, review);
        case ApplyStep(id, drawn) => ApplyKeeps(before, id, drawn);
      }
    }
  }

  /** An intent can be applied exactly if any review of it ever approved, in any case:
      a later rejection does not take that back. */
  lemma ApplicableIffEverApproved(d: Desk, id: string, drawn: string)
    requires id in d.intents
    ensures Apply(d, id, drawn).1.AppliedTo? <==> exists r :: r in d.reviews && Approves(r, id)
    ensures !Apply(d, id, drawn).1.AppliedTo? ==> Apply(d, id, drawn) == (d, ReviewRequired)
  {
  }

  /** An intent approved and then rejected can be applied, and becomes APPLIED. */
  lemma RejectedIntentCanBeApplied(d: Desk, id: string, yes: Review, no: Review, drawn: string)
    requires id in d.intents && yes.intentId == id == no.intentId
    requires Upper(yes.outcome) == APPROVED && Upper(no.outcome) != APPROVED
    requires Record(d, yes).1 == Done && Record(Record(d, yes).0, no).1 == Done
    ensures var e := Record(Record(d, yes).0, no).0;
            && e.intents[id].status == Upper(no.outcome)
            && Apply(e, id, drawn).1.AppliedTo? && Apply(e, id, drawn).0.intents[id].status == APPLIED
  {
    hide Upsert, UpsertedId, FindKey, HasReview;
    var e := Record(Record(d, yes).0, no).0;
    assert e.reviews[|d.reviews|] == yes && yes in e.reviews;
    ApplicableIffEverApproved(e, id, drawn);
  }
}
