/** The loops that store gate evidence from the adapters, and when the gate behind them
    then passes. */
module Evidence {
  import opened Contracts
  import opened Tables
  import opened Transitions

  /** An adapter record; its case is the requesting one. */
  datatype Record<T> = Record(id: string, body: T)

  /** Which rows a persist that lost on a key reports: those of the case, or those with the
      records' ids. */
  datatype Reload = ByCase | ByIds

  predicate Taken<T>(rows: seq<Fact<T>>, id: string) {
    exists i :: 0 <= i < |rows| && rows[i].id == id
  }

  /** The rows the loop adds to the session: a record whose id the table does not hold,
      whoever owns the row that does. */
  function Pending<T>(rows: seq<Fact<T>>, caseId: string, records: seq<Record<T>>): seq<Fact<T>> {
    if records == [] then []
    else
      var n := |records| - 1;
      Pending(rows, caseId, records[..n])
      + (if Taken(rows, records[n].id) then [] else [Fact(records[n].id, caseId, records[n].body)])
  }

  predicate DistinctIds<T>(rows: seq<Fact<T>>) {
    forall i, j | 0 <= i < j < |rows| :: rows[i].id != rows[j].id
  }

  function IdsOf<T>(records: seq<Record<T>>): seq<string> {
    seq(|records|, i requires 0 <= i < |records| => records[i].id)
  }

  function Selected<T>(rows: seq<Fact<T>>, caseId: string, ids: seq<string>, reload: Reload): seq<string> {
    if rows == [] then []
    else
      var n := |rows| - 1;
      Selected(rows[..n], caseId, ids, reload)
      + (if (if reload == ByCase then rows[n].caseId == caseId else rows[n].id in ids) then [rows[n].id] else [])
  }

  /** One persist call over one table. The flush fails on a record given twice, and on a
      case that does not exist; then nothing is stored and existing rows are reported. */
  function Persist<T>(rows: seq<Fact<T>>, caseExists: bool, caseId: string, records: seq<Record<T>>, reload: Reload)
    : (seq<Fact<T>>, Outcome<seq<string>>)
  {
    if records == [] then (rows, Raised(LookupError))
    else
      var pending := Pending(rows, caseId, records);
      if DistinctIds(pending) && (caseExists || pending == []) then (rows + pending, Returned(IdsOf(records)))
      else
        var existing := Selected(rows, caseId, IdsOf(records), reload);
        (rows, if existing == [] then Raised(RuntimeError) else Returned(existing))
  }

  // ----------------------------------------------------------------------- in place

  method CheckDistinct<T>(rows: seq<Fact<T>>) returns (ok: bool)
    ensures ok <==> DistinctIds(rows)
  {
    for i := 0 to |rows|
      invariant DistinctIds(rows[..i])
    {
      for j := 0 to i
        invariant forall k | 0 <= k < j :: rows[k].id != rows[i].id
      {
        if rows[j].id == rows[i].id { return false; }
      }
    }
    assert rows[..|rows|] == rows;
    return true;
  }

  method SelectRows<T>(rows: seq<Fact<T>>, caseId: string, ids: seq<string>, reload: Reload) returns (found: seq<string>)
    ensures found == Selected(rows, caseId, ids, reload)
  {
    found := [];
    for i := 0 to |rows|
      invariant found == Selected(rows[..i], caseId, ids, reload)
    {
      assert rows[..i + 1][..i] == rows[..i];
      if (reload == ByCase && rows[i].caseId == caseId) || (reload == ByIds && rows[i].id in ids) {
        found := found + [rows[i].id];
      }
    }
    assert rows[..|rows|] == rows;
  }

  method PersistRecords<T>(rows: seq<Fact<T>>, caseExists: bool, caseId: string, records: seq<Record<T>>, reload: Reload)
    returns (after: seq<Fact<T>>, o: Outcome<seq<string>>)
    ensures (after, o) == Persist(rows, caseExists, caseId, records, reload)
  {
    if records == [] { return rows, Raised(LookupError); }
    var pending, ids := [], [];
    for i := 0 to |records|
      invariant pending == Pending(rows, caseId, records[..i])
      invariant ids == IdsOf(records[..i])
    {
      assert records[..i + 1][..i] == records[..i];
      if !Taken(rows, records[i].id) {
        pending := pending + [Fact(records[i].id, caseId, records[i].body)];
      }
      ids := ids + [records[i].id];
    }
    assert records[..|records|] == records;
    var distinct := CheckDistinct(pending);
    if distinct && (caseExists || pending == []) {
      return rows + pending, Returned(ids);
    }
    var existing := SelectRows(rows, caseId, ids, reload);
    return rows, if existing == [] then Raised(RuntimeError) else Returned(existing);
  }

  // ------------------------------------------------------------------ what it means

  lemma {:induction false} PendingRows<T>(rows: seq<Fact<T>>, caseId: string, records: seq<Record<T>>)
    ensures forall f :: f in Pending(rows, caseId, records)
              <==> f.caseId == caseId && Record(f.id, f.body) in records && !Taken(rows, f.id)
  {
    if records != [] {
      var n := |records| - 1;
      PendingRows(rows, caseId, records[..n]);
      assert records == records[..n] + [records[n]];
    }
  }

  lemma {:induction false} NothingPending<T>(rows: seq<Fact<T>>, caseId: string, records: seq<Record<T>>)
    requires forall r | r in records :: Taken(rows, r.id)
    ensures Pending(rows, caseId, records) == []
  {
    if records != [] {
      assert records[|records| - 1] in records;
      NothingPending(rows, caseId, records[..|records| - 1]);
    }
  }

  lemma MemberTaken<T>(rows: seq<Fact<T>>, f: Fact<T>)
    requires f in rows
    ensures Taken(rows, f.id)
  {
    var i :| 0 <= i < |rows| && rows[i] == f;
  }

  lemma StillTaken<T>(rows: seq<Fact<T>>, more: seq<Fact<T>>, id: string)
    requires Taken(rows, id)
    ensures Taken(rows + more, id)
  {
    var i :| 0 <= i < |rows| && rows[i].id == id;
    MemberTaken(rows + more, rows[i]);
  }

  lemma AllTakenAfter<T>(rows: seq<Fact<T>>, caseId: string, records: seq<Record<T>>, r: Record<T>)
    requires r in records
    ensures Taken(rows + Pending(rows, caseId, records), r.id)
  {
    hide Pending, Taken;
    if Taken(rows, r.id) {
      StillTaken(rows, Pending(rows, caseId, records), r.id);
    } else {
      PendingRows(rows, caseId, records);
      assert Record(r.id, r.body) == r;
      MemberTaken(rows + Pending(rows, caseId, records), Fact(r.id, caseId, r.body));
    }
  }

  /** Storing the same records again changes nothing and answers the same. */
  lemma PersistIsIdempotent<T>(rows: seq<Fact<T>>, caseExists: bool, caseId: string, records: seq<Record<T>>, reload: Reload)
    ensures var (after, o) := Persist(rows, caseExists, caseId, records, reload);
            Persist(after, caseExists, caseId, records, reload) == (after, o)
  {
    hide Pending, Taken, IdsOf, Selected;
    var pending := Pending(rows, caseId, records);
    if DistinctIds(pending) && (caseExists || pending == []) {
      forall r | r in records ensures Taken(rows + pending, r.id) {
        AllTakenAfter(rows, caseId, records, r);
      }
      NothingPending(rows + pending, caseId, records);
      assert rows + pending + [] == rows + pending;
    }
  }

  /** A record id that the table does not hold yet, whoever would own it. */
  ghost predicate SomeFree<T(!new)>(rows: seq<Fact<T>>, records: seq<Record<T>>) {
    exists r :: r in records && !Taken(rows, r.id)
  }

  ghost predicate Storable<T>(rows: seq<Fact<T>>, caseId: string, records: seq<Record<T>>) {
    records != [] && DistinctIds(Pending(rows, caseId, records))
  }

  /** After a persist for an existing case, the case has evidence if and only if it had
      some already, or some record id was free: ids held by another case are skipped. */
  lemma PersistThenHasFact<T(!new)>(rows: seq<Fact<T>>, caseId: string, records: seq<Record<T>>, reload: Reload)
    requires Storable(rows, caseId, records)
    ensures HasFact(Persist(rows, true, caseId, records, reload).0, caseId)
            <==> HasFact(rows, caseId) || SomeFree(rows, records)
  {
    var pending := Pending(rows, caseId, records);
    PendingRows(rows, caseId, records);
    if HasFact(rows, caseId) {
      var f :| f in rows && f.caseId == caseId;
      assert f in rows + pending;
    }
    if SomeFree(rows, records) {
      var r :| r in records && !Taken(rows, r.id);
      assert Fact(r.id, caseId, r.body) in pending;
      assert Fact(r.id, caseId, r.body) in rows + pending;
    }
  }

  /** The same for dated evidence: fresh if and only if it was, or a free record is. */
  lemma PersistThenFresh(rows: seq<Fact<int>>, caseId: string, records: seq<Record<int>>, reload: Reload, deadline: int)
    requires Storable(rows, caseId, records)
    ensures FreshSince(Persist(rows, true, caseId, records, reload).0, caseId, deadline)
            <==> FreshSince(rows, caseId, deadline)
                 || exists r :: r in records && !Taken(rows, r.id) && r.body >= deadline
  {
    var pending := Pending(rows, caseId, records);
    PendingRows(rows, caseId, records);
    if FreshSince(rows, caseId, deadline) {
      var f :| f in rows && f.caseId == caseId && f.body >= deadline;
      assert f in rows + pending;
    }
    if r :| r in records && !Taken(rows, r.id) && r.body >= deadline {
      assert Fact(r.id, caseId, r.body) in pending;
      assert Fact(r.id, caseId, r.body) in rows + pending;
    }
  }

  lemma GateOfPick(s: Store, req: TransitionRequest, pick: nat)
    ensures var rows := OfCase(s.requirements, req.caseId);
            RequirementGate(s, req, pick).Applied? <==> rows != [] && rows[pick % |rows|].body == "FRESH"
  {
    hide OfCase;
  }

  ghost predicate AllFresh(rows: seq<Fact<string>>) {
    rows != [] && forall f | f in rows :: f.body == "FRESH"
  }

  lemma SmallRemainder(i: nat, n: nat)
    requires i < n
    ensures i % n == i
  {
  }

  lemma StaleRowIsPicked(s: Store, req: TransitionRequest) returns (pick: nat)
    requires !AllFresh(OfCase(s.requirements, req.caseId))
    ensures !RequirementGate(s, req, pick).Applied?
  {
    hide RequirementGate, OfCase;
    var rows := OfCase(s.requirements, req.caseId);
    pick := 0;
    if rows != [] {
      var f :| f in rows && f.body != "FRESH";
      pick :| 0 <= pick < |rows| && rows[pick] == f;
      SmallRemainder(pick, |rows|);
    }
    GateOfPick(s, req, pick);
  }

  /** The unordered requirement-set query can be relied on exactly if the case has sets and
      all of them are FRESH. */
  lemma RequirementGateForEveryPick(s: Store, req: TransitionRequest)
    ensures (forall pick: nat :: RequirementGate(s, req, pick).Applied?)
            <==> HasFact(s.requirements, req.caseId)
                 && forall f | f in s.requirements && f.caseId == req.caseId :: f.body == "FRESH"
  {
    hide RequirementGate, OfCase;
    var rows := OfCase(s.requirements, req.caseId);
    if AllFresh(rows) {
      forall pick: nat ensures RequirementGate(s, req, pick).Applied? {
        GateOfPick(s, req, pick);
      }
      assert rows[0] in rows;
    } else {
      var pick := StaleRowIsPicked(s, req);
    }
  }

  /** Evidence ids shared between cases: the second case's persist succeeds, names all the
      ids, and leaves its jurisdiction gate shut. */
  lemma SharedIdsLeaveTheGateShut(s: Store, caseId: string, records: seq<Record<()>>, req: TransitionRequest, pick: nat)
    requires records != [] && !HasFact(s.resolutions, caseId) && forall r | r in records :: Taken(s.resolutions, r.id)
    requires caseId in s.cases && s.cases[caseId].caseState == IntakeComplete
    requires req.caseId == caseId && Edge(req, IntakeComplete, JurisdictionComplete)
    ensures var (rows, o) := Persist(s.resolutions, true, caseId, records, ByCase);
            && o == Returned(IdsOf(records))
            && Decide(s.(resolutions := rows), req, pick)
               == Refused(req, JurisdictionRequiredDenied, JurisdictionResolutionRequired)
  {
    NothingPending(s.resolutions, caseId, records);
  }
}
