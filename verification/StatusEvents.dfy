/** External status events: ingestion, the signals built from stored events, and the
    post-submission artifacts the workflow writes for them. */
module StatusEvents {
  import opened Contracts
  import opened Strings
  import opened Tables

  datatype StatusClass =
    | ReceivedUnconfirmed | ReceivedConfirmed | InReview | CommentIssued | ResubmissionRequested
    | ApprovalReported | ApprovalConfirmed | ApprovalPendingInspection | ApprovalFinal
    | InspectionScheduled | InspectionPassed | InspectionFailed | RejectionReported
    | WithdrawnReported | ClosedReported | UnknownExternalStatus | ContradictoryExternalStatus

  datatype Confidence = High | Medium | Low | NoConfidence

  datatype EventRow = EventRow(
    caseId: string,
    attemptId: string,
    rawStatus: string,
    status: StatusClass,
    confidence: Confidence,
    autoAdvance: bool,
    evidenceIds: set<string>,
    mappingVersion: string,
    receivedAt: int)

  /** What a raw status is normalized to. */
  datatype Mapping = Mapping(status: StatusClass, confidence: Confidence, autoAdvance: bool, requiredEvidence: set<string>)

  datatype Selection = Selection(version: string, mappings: map<string, Mapping>)

  datatype Signal = Signal(eventId: string, caseId: string, attemptId: string, status: StatusClass)

  datatype CorrectionRow = CorrectionRow(caseId: string, attemptId: string, status: string)
  datatype ResubmissionRow = ResubmissionRow(
    caseId: string, attemptId: string, packageId: string, version: string, status: string)
  datatype ApprovalRow = ApprovalRow(caseId: string, attemptId: string, decision: string)
  datatype Milestone = FinalMilestone | ScheduledMilestone
  datatype InspectionRow = InspectionRow(caseId: string, attemptId: string, milestone: Milestone, status: StatusClass)

  /** The event table and the four artifact tables. */
  datatype Book = Book(
    events: map<string, EventRow>,
    corrections: map<string, CorrectionRow>,
    resubmissions: map<string, ResubmissionRow>,
    approvals: map<string, ApprovalRow>,
    inspections: map<string, InspectionRow>)

  const BLANK: Book := Book(map[], map[], map[], map[], map[])

  // ---------------------------------------------------------------- the writers

  /** The case exists, and the attempt, and the attempt is the case's. */
  predicate LinksHold(s: Store, caseId: string, attemptId: string) {
    caseId in s.cases && attemptId in s.attempts && s.attempts[attemptId].caseId == caseId
  }

  /** A writer keeps an existing row, checks its links, or inserts. */
  function Insert<T>(s: Store, table: map<string, T>, key: string, caseId: string, attemptId: string, row: T)
    : (map<string, T>, Outcome<string>)
  {
    if key in table then (table, Returned(key))
    else if !LinksHold(s, caseId, attemptId) then (table, Raised(LookupError))
    else (table[key := row], Returned(key))
  }

  const CORRECTION := "CORRECTION-"
  const RESUBMISSION := "RESUBMISSION-"
  const APPROVAL := "APPROVAL-"
  const INSPECTION := "INSPECTION-"

  predicate IsApproval(c: StatusClass) {
    c.ApprovalReported? || c.ApprovalConfirmed? || c.ApprovalPendingInspection? || c.ApprovalFinal?
  }

  predicate IsInspection(c: StatusClass) {
    c.InspectionScheduled? || c.InspectionPassed? || c.InspectionFailed?
  }

  function MilestoneOf(c: StatusClass): Milestone {
    if c.InspectionPassed? then FinalMilestone else ScheduledMilestone
  }

  /** `_persist_status_event_artifact`. */
  function Handle(s: Store, b: Book, g: Signal): (Book, Outcome<string>) {
    if g.status.CommentIssued? then
      var (table, o) := Insert(s, b.corrections, CORRECTION + g.eventId, g.caseId, g.attemptId,
                               CorrectionRow(g.caseId, g.attemptId, "PENDING"));
      (b.(corrections := table), o)
    else if g.status.ResubmissionRequested? then
      var (table, o) := Insert(s, b.resubmissions, RESUBMISSION + g.eventId, g.caseId, g.attemptId,
                               ResubmissionRow(g.caseId, g.attemptId, "PKG-PLACEHOLDER", "1.0.0", "REQUESTED"));
      (b.(resubmissions := table), o)
    else if IsApproval(g.status) then
      var (table, o) := Insert(s, b.approvals, APPROVAL + g.eventId, g.caseId, g.attemptId,
                               ApprovalRow(g.caseId, g.attemptId, "APPROVED"));
      (b.(approvals := table), o)
    else if IsInspection(g.status) then
      var (table, o) := Insert(s, b.inspections, INSPECTION + g.eventId, g.caseId, g.attemptId,
                               InspectionRow(g.caseId, g.attemptId, MilestoneOf(g.status), g.status));
      (b.(inspections := table), o)
    else (b, Returned(""))
  }

  // ---------------------------------------------------------------------- ingestion

  datatype Ingestion = Ingestion(
    eventId: string,
    caseId: string,
    attemptId: string,
    rawStatus: string,
    evidenceIds: set<string>,
    receivedAt: Option<int>)

  function SignalOf(eventId: string, row: EventRow): Signal {
    Signal(eventId, row.caseId, row.attemptId, row.status)
  }

  function EventFor(req: Ingestion, version: string, m: Mapping, now: int): EventRow {
    EventRow(req.caseId, req.attemptId, req.rawStatus, m.status, m.confidence, m.autoAdvance,
             req.evidenceIds + m.requiredEvidence, version, if req.receivedAt.Some? then req.receivedAt.value else now)
  }

  /** `ingest_external_status_event` over `persist_external_status_event`: an event id
      already stored keeps its row, and it is the stored row that is signalled. */
  function Ingest(s: Store, b: Book, req: Ingestion, sel: Selection, now: int): (Book, Outcome<Signal>) {
    if !LinksHold(s, req.caseId, req.attemptId) then (b, Raised(LookupError))
    else if req.rawStatus !in sel.mappings then (b, Raised(ValidationError))
    else if req.eventId in b.events then (b, Returned(SignalOf(req.eventId, b.events[req.eventId])))
    else
      var row := EventFor(req, sel.version, sel.mappings[req.rawStatus], now);
      (b.(events := b.events[req.eventId := row]), Returned(SignalOf(req.eventId, row)))
  }

  // --------------------------------------------------------------------- in place

  class StatusBook {
    const db: Database
    var events: map<string, EventRow>
    var corrections: map<string, CorrectionRow>
    var resubmissions: map<string, ResubmissionRow>
    var approvals: map<string, ApprovalRow>
    var inspections: map<string, InspectionRow>

    function Contents(): Book
      reads this
    {
      Book(events, corrections, resubmissions, approvals, inspections)
    }

    constructor (db: Database)
      ensures this.db == db && Contents() == BLANK
    {
      this.db := db;
      events, corrections, resubmissions, approvals, inspections := map[], map[], map[], map[], map[];
    }

    method CheckLinks(caseId: string, attemptId: string) returns (ok: bool)
      ensures ok <==> LinksHold(db.Tables(), caseId, attemptId)
    {
      if caseId !in db.cases { return false; }
      if attemptId !in db.attempts { return false; }
      return db.attempts[attemptId].caseId == caseId;
    }

    method PersistCorrectionTask(id: string, row: CorrectionRow) returns (o: Outcome<string>)
      modifies this`corrections
      ensures (corrections, o) == Insert(db.Tables(), old(corrections), id, row.caseId, row.attemptId, row)
    {
      if id in corrections { return Returned(id); }
      var ok := CheckLinks(row.caseId, row.attemptId);
      if !ok { return Raised(LookupError); }
      corrections := corrections[id := row];
      return Returned(id);
    }

    method PersistResubmissionPackage(id: string, row: ResubmissionRow) returns (o: Outcome<string>)
      modifies this`resubmissions
      ensures (resubmissions, o) == Insert(db.Tables(), old(resubmissions), id, row.caseId, row.attemptId, row)
    {
      if id in resubmissions { return Returned(id); }
      var ok := CheckLinks(row.caseId, row.attemptId);
      if !ok { return Raised(LookupError); }
      resubmissions := resubmissions[id := row];
      return Returned(id);
    }

    method PersistApprovalRecord(id: string, row: ApprovalRow) returns (o: Outcome<string>)
      modifies this`approvals
      ensures (approvals, o) == Insert(db.Tables(), old(approvals), id, row.caseId, row.attemptId, row)
    {
      if id in approvals { return Returned(id); }
      var ok := CheckLinks(row.caseId, row.attemptId);
      if !ok { return Raised(LookupError); }
      approvals := approvals[id := row];
      return Returned(id);
    }

    method PersistInspectionMilestone(id: string, row: InspectionRow) returns (o: Outcome<string>)
      modifies this`inspections
      ensures (inspections, o) == Insert(db.Tables(), old(inspections), id, row.caseId, row.attemptId, row)
    {
      if id in inspections { return Returned(id); }
      var ok := CheckLinks(row.caseId, row.attemptId);
      if !ok { return Raised(LookupError); }
      inspections := inspections[id := row];
      return Returned(id);
    }

    /** The StatusEvent signal handler. */
    method PersistStatusEventArtifact(g: Signal) returns (o: Outcome<string>)
      modifies this
      ensures Contents() == Handle(old(db.Tables()), old(Contents()), g).0
      ensures o == Handle(old(db.Tables()), old(Contents()), g).1
    {
      hide LinksHold;
      if g.status.CommentIssued? {
        o := PersistCorrectionTask(CORRECTION + g.eventId, CorrectionRow(g.caseId, g.attemptId, "PENDING"));
      } else if g.status.ResubmissionRequested? {
        o := PersistResubmissionPackage(RESUBMISSION + g.eventId,
               ResubmissionRow(g.caseId, g.attemptId, "PKG-PLACEHOLDER", "1.0.0", "REQUESTED"));
      } else if IsApproval(g.status) {
        o := PersistApprovalRecord(APPROVAL + g.eventId, ApprovalRow(g.caseId, g.attemptId, "APPROVED"));
      } else if IsInspection(g.status) {
        o := PersistInspectionMilestone(INSPECTION + g.eventId,
               InspectionRow(g.caseId, g.attemptId, MilestoneOf(g.status), g.status));
      } else {
        o := Returned("");
      }
    }

    method IngestExternalStatusEvent(req: Ingestion, sel: Selection, now: int) returns (o: Outcome<Signal>)
      modifies this`events
      ensures Contents() == Ingest(old(db.Tables()), old(Contents()), req, sel, now).0
      ensures o == Ingest(old(db.Tables()), old(Contents()), req, sel, now).1
    {
      var ok := CheckLinks(req.caseId, req.attemptId);
      if !ok { return Raised(LookupError); }
      if req.rawStatus !in sel.mappings { return Raised(ValidationError); }
      if req.eventId !in events {
        var m := sel.mappings[req.rawStatus];
        var receivedAt := if req.receivedAt.Some? then req.receivedAt.value else now;
        events := events[req.eventId :=
          EventRow(req.caseId, req.attemptId, req.rawStatus, m.status, m.confidence, m.autoAdvance,
                   req.evidenceIds + m.requiredEvidence, sel.version, receivedAt)];
      }
      return Returned(SignalOf(req.eventId, events[req.eventId]));
    }
  }

  // -------------------------------------------------------------- runs, and the closed form

  /** The rest of the database, the book, and the events whose signal has been delivered. */
  datatype World = World(store: Store, book: Book, delivered: set<string>)

  datatype Step =
    | Take(req: Ingestion, sel: Selection, now: int)
    | Deliver(eventId: string)          // a signal built from the stored event, any number of times
    | Other(next: Store)

  /** Cases and attempts stay, and an attempt stays with its case. */
  predicate LinksStay(s: Store, t: Store) {
    && (forall c | c in s.cases :: c in t.cases)
    && (forall a | a in s.attempts :: a in t.attempts && t.attempts[a].caseId == s.attempts[a].caseId)
  }

  predicate Allowed(w: World, step: Step) {
    match step
    case Take(_, _, _) => true
    case Deliver(id) => id in w.book.events
    case Other(next) => LinksStay(w.store, next)
  }

  function After(w: World, step: Step): World
    requires Allowed(w, step)
  {
    match step
    case Take(req, sel, now) => w.(book := Ingest(w.store, w.book, req, sel, now).0)
    case Deliver(id) =>
      w.(book := Handle(w.store, w.book, SignalOf(id, w.book.events[id])).0, delivered := w.delivered + {id})
    case Other(next) => w.(store := next)
  }

  predicate Legal(w: World, steps: seq<Step>)
    decreases |steps|
  {
    steps == [] || (Allowed(w, steps[0]) && Legal(After(w, steps[0]), steps[1..]))
  }

  function Run(w: World, steps: seq<Step>): World
    requires Legal(w, steps)
    decreases |steps|
  {
    if steps == [] then w else Run(After(w, steps[0]), steps[1..])
  }

  function CorrectionFor(e: EventRow): Option<CorrectionRow> {
    if e.status.CommentIssued? then Some(CorrectionRow(e.caseId, e.attemptId, "PENDING")) else None
  }

  function ResubmissionFor(e: EventRow): Option<ResubmissionRow> {
    if e.status.ResubmissionRequested?
    then Some(ResubmissionRow(e.caseId, e.attemptId, "PKG-PLACEHOLDER", "1.0.0", "REQUESTED")) else None
  }

  function ApprovalFor(e: EventRow): Option<ApprovalRow> {
    if IsApproval(e.status) then Some(ApprovalRow(e.caseId, e.attemptId, "APPROVED")) else None
  }

  function InspectionFor(e: EventRow): Option<InspectionRow> {
    if IsInspection(e.status) then Some(InspectionRow(e.caseId, e.attemptId, MilestoneOf(e.status), e.status)) else None
  }

  /** A table holds exactly the rows of the delivered events that call for one. */
  ghost predicate Exact<T(!new)>(table: map<string, T>, events: map<string, EventRow>, delivered: set<string>,
                                 prefix: string, rowFor: EventRow -> Option<T>)
  {
    && delivered <= events.Keys
    && (forall id | id in delivered && rowFor(events[id]).Some? ::
          prefix + id in table && table[prefix + id] == rowFor(events[id]).value)
    && (forall key | key in table :: exists id :: id in delivered && key == prefix + id && rowFor(events[id]).Some?)
  }

  /** The closed form of the four tables: it mentions only the stored events and the set of
      delivered ids. */
  ghost predicate Settled(b: Book, delivered: set<string>) {
    && Exact(b.corrections, b.events, delivered, CORRECTION, CorrectionFor)
    && Exact(b.resubmissions, b.events, delivered, RESUBMISSION, ResubmissionFor)
    && Exact(b.approvals, b.events, delivered, APPROVAL, ApprovalFor)
    && Exact(b.inspections, b.events, delivered, INSPECTION, InspectionFor)
  }

  predicate EventsLinked(w: World) {
    forall id | id in w.book.events :: LinksHold(w.store, w.book.events[id].caseId, w.book.events[id].attemptId)
  }

  ghost predicate Inv(w: World) {
    Settled(w.book, w.delivered) && EventsLinked(w)
  }

  /** A table after the delivery of an event. */
  function Delivering<T>(s: Store, table: map<string, T>, prefix: string, rowFor: EventRow -> Option<T>, id: string, e: EventRow)
    : (map<string, T>, Outcome<string>)
  {
    match rowFor(e)
    case Some(row) => Insert(s, table, prefix + id, e.caseId, e.attemptId, row)
    case None => (table, Returned(""))
  }

  lemma ExactDelivered<T(!new)>(s: Store, table: map<string, T>, events: map<string, EventRow>, delivered: set<string>,
                                prefix: string, rowFor: EventRow -> Option<T>, id: string)
    requires Exact(table, events, delivered, prefix, rowFor)
    requires id in events && LinksHold(s, events[id].caseId, events[id].attemptId)
    ensures var (after, o) := Delivering(s, table, prefix, rowFor, id, events[id]);
            o.Returned? && Exact(after, events, delivered + {id}, prefix, rowFor)
  {
    forall other | prefix + other == prefix + id ensures other == id {
      SuffixCancels(prefix, other, id);
    }
  }

  /** Each class of event touches only its own table. */
  lemma HandleByTable(s: Store, b: Book, id: string, e: EventRow)
    ensures var (after, o) := Handle(s, b, SignalOf(id, e));
            var c := Delivering(s, b.corrections, CORRECTION, CorrectionFor, id, e);
            var r := Delivering(s, b.resubmissions, RESUBMISSION, ResubmissionFor, id, e);
            var a := Delivering(s, b.approvals, APPROVAL, ApprovalFor, id, e);
            var i := Delivering(s, b.inspections, INSPECTION, InspectionFor, id, e);
            && after == Book(b.events, c.0, r.0, a.0, i.0)
            && (c.1.Returned? && r.1.Returned? && a.1.Returned? && i.1.Returned? ==> o.Returned?)
  {
    hide Insert;
  }

  lemma ExactMoreEvents<T(!new)>(table: map<string, T>, a: map<string, EventRow>, b: map<string, EventRow>,
                                 delivered: set<string>, prefix: string, rowFor: EventRow -> Option<T>)
    requires Exact(table, a, delivered, prefix, rowFor)
    requires forall id | id in a :: id in b && b[id] == a[id]
    ensures Exact(table, b, delivered, prefix, rowFor)
  {
  }

  lemma ExactUnique<T(!new)>(x: map<string, T>, y: map<string, T>, events: map<string, EventRow>, delivered: set<string>,
                             prefix: string, rowFor: EventRow -> Option<T>)
    requires Exact(x, events, delivered, prefix, rowFor) && Exact(y, events, delivered, prefix, rowFor)
    ensures x == y
  {
    assert forall key | key in x :: key in y && y[key] == x[key];
    assert forall key | key in y :: key in x;
  }

  lemma DeliverKeeps(w: World, id: string)
    requires Inv(w) && id in w.book.events
    ensures Inv(After(w, Deliver(id)))
    ensures Handle(w.store, w.book, SignalOf(id, w.book.events[id])).1.Returned?
  {
    hide Exact, LinksHold, Insert, Handle, Delivering;
    var b, e := w.book, w.book.events[id];
    HandleByTable(w.store, b, id, e);
    ExactDelivered(w.store, b.corrections, b.events, w.delivered, CORRECTION, CorrectionFor, id);
    ExactDelivered(w.store, b.resubmissions, b.events, w.delivered, RESUBMISSION, ResubmissionFor, id);
    ExactDelivered(w.store, b.approvals, b.events, w.delivered, APPROVAL, ApprovalFor, id);
    ExactDelivered(w.store, b.inspections, b.events, w.delivered, INSPECTION, InspectionFor, id);
  }

  lemma TakeKeeps(w: World, req: Ingestion, sel: Selection, now: int)
    requires Inv(w)
    ensures Inv(After(w, Take(req, sel, now)))
  {
    hide Exact, LinksHold;
    var a, b := w.book, Ingest(w.store, w.book, req, sel, now).0;
    assert forall id | id in a.events :: id in b.events && b.events[id] == a.events[id];
    ExactMoreEvents(a.corrections, a.events, b.events, w.delivered, CORRECTION, CorrectionFor);
    ExactMoreEvents(a.resubmissions, a.events, b.events, w.delivered, RESUBMISSION, ResubmissionFor);
    ExactMoreEvents(a.approvals, a.events, b.events, w.delivered, APPROVAL, ApprovalFor);
    ExactMoreEvents(a.inspections, a.events, b.events, w.delivered, INSPECTION, InspectionFor);
  }

  lemma StepKeeps(w: World, step: Step)
    requires Inv(w) && Allowed(w, step)
    ensures Inv(After(w, step))
  {
    hide Settled;
    match step {
      case Take(req, sel, now) => TakeKeeps(w, req, sel, now);
      case Deliver(id) => DeliverKeeps(w, id);
      case Other(next) =>
    }
  }

  lemma {:induction false} RunKeeps(w: World, steps: seq<Step>)
    requires Inv(w) && Legal(w, steps)
    ensures Inv(Run(w, steps))
    decreases |steps|
  {
    hide Inv, Allowed;
    if steps != [] {
      StepKeeps(w, steps[0]);
      RunKeeps(After(w, steps[0]), steps[1..]);
    }
  }

  lemma Opening(s: Store)
    ensures Inv(World(s, BLANK, {}))
  {
  }

  /** Whatever the order and duplication of deliveries, two runs that end with the same
      stored events and have delivered the same set of them end with the same artifacts. */
  lemma Confluence(s: Store, t: Store, a: seq<Step>, b: seq<Step>)
    requires Legal(World(s, BLANK, {}), a) && Legal(World(t, BLANK, {}), b)
    requires var x, y := Run(World(s, BLANK, {}), a), Run(World(t, BLANK, {}), b);
             x.book.events == y.book.events && x.delivered == y.delivered
    ensures Run(World(s, BLANK, {}), a).book == Run(World(t, BLANK, {}), b).book
  {
    hide Exact, Run, Legal;
    var x, y := Run(World(s, BLANK, {}), a), Run(World(t, BLANK, {}), b);
    Opening(s);
    Opening(t);
    RunKeeps(World(s, BLANK, {}), a);
    RunKeeps(World(t, BLANK, {}), b);
    ExactUnique(x.book.corrections, y.book.corrections, x.book.events, x.delivered, CORRECTION, CorrectionFor);
    ExactUnique(x.book.resubmissions, y.book.resubmissions, x.book.events, x.delivered, RESUBMISSION, ResubmissionFor);
    ExactUnique(x.book.approvals, y.book.approvals, x.book.events, x.delivered, APPROVAL, ApprovalFor);
    ExactUnique(x.book.inspections, y.book.inspections, x.book.events, x.delivered, INSPECTION, InspectionFor);
  }

  /** No signal built from a stored event ever meets a missing or mismatched link. */
  lemma NoLinkageError(s: Store, steps: seq<Step>, id: string)
    requires Legal(World(s, BLANK, {}), steps)
    requires id in Run(World(s, BLANK, {}), steps).book.events
    ensures var w := Run(World(s, BLANK, {}), steps);
            Handle(w.store, w.book, SignalOf(id, w.book.events[id])).1.Returned?
  {
    Opening(s);
    RunKeeps(World(s, BLANK, {}), steps);
    DeliverKeeps(Run(World(s, BLANK, {}), steps), id);
  }

  predicate HandledClass(c: StatusClass) {
    c in {CommentIssued, ResubmissionRequested, ApprovalReported, ApprovalConfirmed, ApprovalPendingInspection,
          ApprovalFinal, InspectionScheduled, InspectionPassed, InspectionFailed}
  }

  function Count(b: bool): nat { if b then 1 else 0 }

  /** Artifacts written for an event. */
  function ArtifactsFor(b: Book, id: string): nat {
    Count(CORRECTION + id in b.corrections) + Count(RESUBMISSION + id in b.resubmissions)
    + Count(APPROVAL + id in b.approvals) + Count(INSPECTION + id in b.inspections)
  }

  lemma ExactHas<T(!new)>(table: map<string, T>, events: map<string, EventRow>, delivered: set<string>,
                          prefix: string, rowFor: EventRow -> Option<T>, id: string)
    requires Exact(table, events, delivered, prefix, rowFor)
    ensures prefix + id in table <==> id in delivered && rowFor(events[id]).Some?
  {
    forall other | prefix + other == prefix + id ensures other == id {
      SuffixCancels(prefix, other, id);
    }
  }

  /** A stored event has exactly one artifact if it was delivered and its class is one of
      the nine handled ones, and none otherwise. */
  lemma OneArtifactPerHandledEvent(s: Store, steps: seq<Step>, id: string)
    requires Legal(World(s, BLANK, {}), steps)
    requires id in Run(World(s, BLANK, {}), steps).book.events
    ensures var w := Run(World(s, BLANK, {}), steps);
            ArtifactsFor(w.book, id) == Count(id in w.delivered && HandledClass(w.book.events[id].status))
  {
    hide Exact, Run, Legal;
    Opening(s);
    RunKeeps(World(s, BLANK, {}), steps);
    var w := Run(World(s, BLANK, {}), steps);
    var b := w.book;
    ExactHas(b.corrections, b.events, w.delivered, CORRECTION, CorrectionFor, id);
    ExactHas(b.resubmissions, b.events, w.delivered, RESUBMISSION, ResubmissionFor, id);
    ExactHas(b.approvals, b.events, w.delivered, APPROVAL, ApprovalFor, id);
    ExactHas(b.inspections, b.events, w.delivered, INSPECTION, InspectionFor, id);
  }
}
