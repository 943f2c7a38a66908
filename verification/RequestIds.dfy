/** The ids the workflow derives instead of drawing: a retry computes the same one, and
    different steps compute different ones. */
module RequestIds {
  import opened Contracts
  import opened Strings

  // ------------------------------------------------------------------ workflow ids

  const WORKFLOW_PREFIX := "permit-case/"

  /** Python's whitespace, which `strip` removes. */
  predicate Whitespace(c: char) {
    '\t' <= c <= '\r' || '\U{1c}' <= c <= ' ' || c == '\U{85}' || c == '\U{a0}' || c == '\U{1680}'
    || '\U{2000}' <= c <= '\U{200a}' || c == '\U{2028}' || c == '\U{2029}' || c == '\U{202f}'
    || c == '\U{205f}' || c == '\U{3000}'
  }

  predicate Blank(s: string) {
    forall c | c in s :: Whitespace(c)
  }

  /** `permit_case_workflow_id`; None where it raises. */
  function WorkflowId(caseId: string): Option<string> {
    if Blank(caseId) then None else Some(WORKFLOW_PREFIX + caseId)
  }

  function AfterSlash(s: string): string {
    if s == "" then "" else if s[0] == '/' then s[1..] else AfterSlash(s[1..])
  }

  /** `_case_id_from_workflow_id`; None where it raises. */
  function CaseOf(workflowId: string): Option<string> {
    if WORKFLOW_PREFIX <= workflowId then Some(AfterSlash(workflowId)) else None
  }

  lemma {:induction false} AfterFirstSlash(x: string, rest: string)
    requires '/' !in x
    ensures AfterSlash(x + "/" + rest) == rest
  {
    var s := x + "/" + rest;
    if x != "" {
      assert s[1..] == x[1..] + "/" + rest;
      AfterFirstSlash(x[1..], rest);
    }
  }

  /** The case id is read back from its workflow id, slashes and all, and every workflow
      id of this form is the one of the case read from it, unless that is blank. */
  lemma CaseIdRoundTrip(workflowId: string, caseId: string)
    ensures CaseOf(workflowId) == Some(caseId) <==> workflowId == WORKFLOW_PREFIX + caseId
    ensures WorkflowId(caseId) == Some(workflowId) <==> CaseOf(workflowId) == Some(caseId) && !Blank(caseId)
  {
    var x := "permit-case";
    assert WORKFLOW_PREFIX == x + "/";
    assert '/' !in x by { assert forall i | 0 <= i < |x| :: x[i] != '/'; }
    AfterFirstSlash(x, caseId);
    if WORKFLOW_PREFIX <= workflowId {
      var rest := workflowId[|WORKFLOW_PREFIX|..];
      assert workflowId == x + "/" + rest;
      AfterFirstSlash(x, rest);
    }
  }

  // ----------------------------------------------------------------- request ids

  function Label(attempt: nat): string {
    "attempt-" + Decimal(attempt)
  }

  /** `_transition_request_id` and `_activity_request_id`. */
  function RequestId(workflowId: string, runId: string, step: string, attempt: nat): string {
    workflowId + "/" + runId + "/" + step + "/" + Label(attempt)
  }

  lemma LabelPlain(attempt: nat)
    ensures '/' !in Label(attempt)
  {
    var head := "attempt-";
    assert forall i | 0 <= i < |head| :: head[i] != '/';
    assert Label(attempt)[..|head|] == head && Label(attempt)[|head|..] == Decimal(attempt);
  }

  lemma LabelInjective(m: nat, n: nat)
    requires Label(m) == Label(n)
    ensures m == n
  {
    SuffixCancels("attempt-", Decimal(m), Decimal(n));
    DecimalInjective(m, n);
  }

  lemma CutLabel(x: string, m: nat, y: string, n: nat)
    requires x + "/" + Label(m) == y + "/" + Label(n)
    ensures x == y && m == n
  {
    LabelPlain(m);
    LabelPlain(n);
    CutAtLast(x, Label(m), y, Label(n), '/');
    LabelInjective(m, n);
  }

  /** With slash-free run ids and step names, a request id determines workflow, run, step
      and attempt, although workflow ids contain slashes. */
  lemma RequestIdInjective(w: string, r: string, t: string, m: nat, w': string, r': string, t': string, n: nat)
    requires '/' !in r && '/' !in t && '/' !in r' && '/' !in t'
    requires RequestId(w, r, t, m) == RequestId(w', r', t', n)
    ensures w == w' && r == r' && t == t' && m == n
  {
    CutLabel(w + "/" + r + "/" + t, m, w' + "/" + r' + "/" + t', n);
    CutAtLast(w + "/" + r, t, w' + "/" + r', t', '/');
    CutAtLast(w, r, w', r', '/');
  }

  /** A slash in a run id can be read as part of the workflow id. */
  lemma SlashesMakeRequestIdsClash(w: string, x: string, r: string, t: string, n: nat)
    ensures RequestId(w, x + "/" + r, t, n) == RequestId(w + "/" + x, r, t, n)
    ensures w != w + "/" + x
  {
    assert w + "/" + (x + "/" + r) == (w + "/" + x) + "/" + r;
    assert |w| < |w + "/" + x|;
  }

  // ----------------------------------------------------------------- submission ids

  const ATTEMPT_STEP := "submission_attempt"
  const ADAPTER_STEP := "submission_adapter"

  /** `submission_attempt_id_for_workflow`. */
  function AttemptId(workflowId: string, runId: string, attempt: nat): string {
    RequestId(workflowId, runId, ATTEMPT_STEP, attempt)
  }

  /** `submission_attempt_idempotency_key`. */
  function SubmitKey(caseId: string, attempt: nat): string {
    "submit/" + caseId + "/" + Label(attempt)
  }

  function FallbackId(attemptId: string): string {
    "MFP-" + attemptId
  }

  /** Idempotency keys of different cases or attempts differ, whatever the case ids. */
  lemma SubmitKeyInjective(c: string, m: nat, d: string, n: nat)
    requires SubmitKey(c, m) == SubmitKey(d, n)
    ensures c == d && m == n
  {
    CutLabel("submit/" + c, m, "submit/" + d, n);
    SuffixCancels("submit/", c, d);
  }

  lemma FallbackIdInjective(a: string, b: string)
    requires FallbackId(a) == FallbackId(b)
    ensures a == b
  {
    SuffixCancels("MFP-", a, b);
  }

  lemma StepsPlain()
    ensures '/' !in ATTEMPT_STEP && '/' !in ADAPTER_STEP
  {
    assert forall i | 0 <= i < |ATTEMPT_STEP| :: ATTEMPT_STEP[i] != '/';
    assert forall i | 0 <= i < |ADAPTER_STEP| :: ADAPTER_STEP[i] != '/';
  }

  // ------------------------------------------------------------------ emergency ids

  const ENTRY := "emergency_hold_entry"
  const EXIT := "emergency_hold_exit"

  lemma HoldStepsDiffer()
    ensures '/' !in ENTRY && '/' !in EXIT && ENTRY != EXIT
  {
    assert forall i | 0 <= i < |ENTRY| :: ENTRY[i] != '/';
    assert forall i | 0 <= i < |EXIT| :: EXIT[i] != '/';
    assert |ENTRY| != |EXIT|;
  }

  /** The emergency counters of one run of the workflow. */
  class HoldSignals {
    const workflowId: string
    const runId: string
    var entryAttempt: nat
    var exitAttempt: nat
    ghost var issued: seq<string>       // every id handed out so far, in order

    ghost predicate Valid()
      reads this
    {
      && '/' !in runId
      && (forall id | id in issued ::
            || (exists n: nat :: n <= entryAttempt && id == RequestId(workflowId, runId, ENTRY, n))
            || (exists n: nat :: n <= exitAttempt && id == RequestId(workflowId, runId, EXIT, n)))
      && (forall i, j | 0 <= i < j < |issued| :: issued[i] != issued[j])
    }

    constructor (workflowId: string, runId: string)
      requires '/' !in runId
      ensures Valid() && issued == []
      ensures this.workflowId == workflowId && this.runId == runId
    {
      this.workflowId, this.runId := workflowId, runId;
      entryAttempt, exitAttempt, issued := 0, 0, [];
    }

    /** The id of the transition into the hold: new, and not used for any other step. */
    method EnterHold() returns (id: string)
      requires Valid()
      modifies this
      ensures Valid() && issued == old(issued) + [id] && id !in old(issued)
      ensures entryAttempt == old(entryAttempt) + 1 && exitAttempt == old(exitAttempt)
      ensures id == RequestId(workflowId, runId, ENTRY, entryAttempt)
    {
      entryAttempt := entryAttempt + 1;
      id := RequestId(workflowId, runId, ENTRY, entryAttempt);
      NotYetIssued(id, ENTRY, entryAttempt, EXIT, exitAttempt);
      issued := issued + [id];
    }

    method LeaveHold() returns (id: string)
      requires Valid()
      modifies this
      ensures Valid() && issued == old(issued) + [id] && id !in old(issued)
      ensures exitAttempt == old(exitAttempt) + 1 && entryAttempt == old(entryAttempt)
      ensures id == RequestId(workflowId, runId, EXIT, exitAttempt)
    {
      exitAttempt := exitAttempt + 1;
      id := RequestId(workflowId, runId, EXIT, exitAttempt);
      NotYetIssued(id, EXIT, exitAttempt, ENTRY, entryAttempt);
      issued := issued + [id];
    }

    lemma NotYetIssued(id: string, step: string, attempt: nat, other: string, otherAttempt: nat)
      requires '/' !in runId
      requires (step == ENTRY && other == EXIT) || (step == EXIT && other == ENTRY)
      requires id == RequestId(workflowId, runId, step, attempt)
      requires forall k | k in issued ::
                 || (exists n: nat :: n < attempt && k == RequestId(workflowId, runId, step, n))
                 || (exists n: nat :: n <= otherAttempt && k == RequestId(workflowId, runId, other, n))
      ensures id !in issued
    {
      hide RequestId;
      HoldStepsDiffer();
      if id in issued {
        if n: nat :| n < attempt && id == RequestId(workflowId, runId, step, n) {
          RequestIdInjective(workflowId, runId, step, attempt, workflowId, runId, step, n);
        } else {
          var n: nat :| n <= otherAttempt && id == RequestId(workflowId, runId, other, n);
          RequestIdInjective(workflowId, runId, step, attempt, workflowId, runId, other, n);
        }
      }
    }
  }

  /** An emergency id is never the id of one of the run's ordinary transitions. */
  lemma EmergencyIdsStandApart(w: string, r: string, step: string, m: nat, n: nat)
    requires '/' !in r && '/' !in step && step != ENTRY && step != EXIT
    ensures RequestId(w, r, step, m) != RequestId(w, r, ENTRY, n)
    ensures RequestId(w, r, step, m) != RequestId(w, r, EXIT, n)
  {
    HoldStepsDiffer();
    if RequestId(w, r, step, m) == RequestId(w, r, ENTRY, n) {
      RequestIdInjective(w, r, step, m, w, r, ENTRY, n);
    }
    if RequestId(w, r, step, m) == RequestId(w, r, EXIT, n) {
      RequestIdInjective(w, r, step, m, w, r, EXIT, n);
    }
  }
}
