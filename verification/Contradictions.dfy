/** Opening and resolving contradictions, the steps that shut and open the approval gate. */
module Contradictions {
  import opened Contracts
  import opened Tables
  import opened Transitions
  import opened Protocol
  import opened ProtocolInvariant
  import Interleavings

  datatype Response = Ok(row: ContradictionRow) | AlreadyExists | NotFound | AlreadyResolved

  /** `create_contradiction`: a taken id and a missing case both fail the insert, and are
      answered alike. */
  function Create(s: Store, id: string, caseId: string, blocking: bool): (Store, Response) {
    if id in s.contradictions || caseId !in s.cases then (s, AlreadyExists)
    else
      var row := ContradictionRow(caseId, blocking, true);
      (s.(contradictions := s.contradictions[id := row]), Ok(row))
  }

  /** `resolve_contradiction`. */
  function Resolve(s: Store, id: string): (Store, Response) {
    if id !in s.contradictions then (s, NotFound)
    else if !s.contradictions[id].open then (s, AlreadyResolved)
    else
      var row := s.contradictions[id].(open := false);
      (s.(contradictions := s.contradictions[id := row]), Ok(row))
  }

  method CreateContradiction(db: Database, id: string, caseId: string, blocking: bool) returns (r: Response)
    modifies db`contradictions
    ensures (db.Tables(), r) == Create(old(db.Tables()), id, caseId, blocking)
  {
    if id in db.contradictions || caseId !in db.cases { return AlreadyExists; }
    var row := ContradictionRow(caseId, blocking, true);
    db.contradictions := db.contradictions[id := row];
    return Ok(row);
  }

  method ResolveContradiction(db: Database, id: string) returns (r: Response)
    modifies db`contradictions
    ensures (db.Tables(), r) == Resolve(old(db.Tables()), id)
  {
    if id !in db.contradictions { return NotFound; }
    var row := db.contradictions[id];
    if !row.open { return AlreadyResolved; }
    row := row.(open := false);
    db.contradictions := db.contradictions[id := row];
    return Ok(row);
  }

  lemma OnlyContradictionsAccrue(s: Store, rows: map<string, ContradictionRow>)
    requires ContradictionsAge(s.contradictions, rows)
    ensures Accrues(s, s.(contradictions := rows))
  {
  }

  lemma EndpointsAge(s: Store, id: string, caseId: string, blocking: bool)
    ensures var t := Create(s, id, caseId, blocking).0;
            t == s.(contradictions := t.contradictions) && ContradictionsAge(s.contradictions, t.contradictions)
    ensures var t := Resolve(s, id).0;
            t == s.(contradictions := t.contradictions) && ContradictionsAge(s.contradictions, t.contradictions)
  {
  }

  /** Both endpoints are steps the transition protocol allows beside it. */
  lemma EndpointsAccrue(s: Store, id: string, caseId: string, blocking: bool)
    ensures Accrues(s, Create(s, id, caseId, blocking).0)
    ensures Accrues(s, Resolve(s, id).0)
  {
    EndpointsAge(s, id, caseId, blocking);
    hide Accrues, Create, Resolve;
    OnlyContradictionsAccrue(s, Create(s, id, caseId, blocking).0.contradictions);
    OnlyContradictionsAccrue(s, Resolve(s, id).0.contradictions);
  }

  /** Opening a contradiction shuts the gate of its case exactly if it is blocking; other
      cases are not affected. */
  lemma CreateShutsTheGate(s: Store, id: string, caseId: string, blocking: bool, other: string)
    requires Create(s, id, caseId, blocking).1.Ok?
    ensures OpenBlocker(Create(s, id, caseId, blocking).0, other)
            <==> OpenBlocker(s, other) || (other == caseId && blocking)
  {
    var t := Create(s, id, caseId, blocking).0;
    if OpenBlocker(s, other) {
      var k :| k in s.contradictions && s.contradictions[k].caseId == other && s.contradictions[k].blocking
               && s.contradictions[k].open;
      assert t.contradictions[k] == s.contradictions[k];
    }
    if other == caseId && blocking { assert t.contradictions[id].open; }
  }

  /** Resolving a contradiction opens the gate of a case exactly if no other one blocks it. */
  lemma ResolveOpensTheGate(s: Store, id: string, caseId: string)
    requires Resolve(s, id).1.Ok?
    ensures OpenBlocker(Resolve(s, id).0, caseId)
            <==> exists k :: k in s.contradictions && k != id && s.contradictions[k].caseId == caseId
                             && s.contradictions[k].blocking && s.contradictions[k].open
  {
    var t := Resolve(s, id).0;
    assert forall k | k in s.contradictions && k != id :: t.contradictions[k] == s.contradictions[k];
  }

  /** A contradiction is resolved once: in every later database of any run of the protocol
      it is still there, for the same case, still resolved, and resolving it is refused. */
  lemma ResolvedForGood(w: World, actions: seq<Action>, id: string)
    requires Reachable(w) && Legal(w, actions)
    requires id in w.store.contradictions && !w.store.contradictions[id].open
    ensures var s := Run(w, actions).store;
            && id in s.contradictions && !s.contradictions[id].open
            && s.contradictions[id].caseId == w.store.contradictions[id].caseId
            && Resolve(s, id) == (s, AlreadyResolved)
  {
    hide Legal, Run, Inv;
    ReachableInv(w);
    Interleavings.RunExtends(w, actions);
  }
}
