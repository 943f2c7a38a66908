# Permit-case model

A Dafny model of the permit-case system: the guarded case-state protocol, the workflow that drives a
permit case through it, the packages and submissions it makes on the way, and the review, status-event
and governance endpoints around it. `dafny verify dfyconfig.toml` checks the whole project.

## How it is laid out

- `Contracts`, `Strings`, `Tables`: payload types and their JSON form, string cutting, and the database,
  as the value `Store` and as the class `Database` whose fields the activities update.
- `Transitions`: the guard and the ledger commit of one `apply_state_transition` call, read off the tables
  as functions, and the activity itself, in place, against them.
- `Protocol`, `ProtocolInvariant`: any number of attempts interleaved step by step over one database
  (ledger lookup, row lock and decision, commit or lost primary key, reload, crash), beside commits of the
  rest of the system and package transactions, which share the case row's lock with one another from their
  read to their write.
- `Histories`, `Guarantees`, `Interleavings`: what holds in every reachable database, and how a call made
  alone relates to the interleaved steps.
- `ProtocolWriters`, `WorkflowWorlds`: what the other modules commit, and whole workflow runs, as runs of
  that protocol.
- `Templates`, `Registry`, `Packages`, `PackageHistories`, `PackageRaces`: rendering, evidence storage, and
  packages over any run of persist calls, one at a time or overlapping.
- `RequestIds`, `Submission`, `SubmissionHistories`: derived ids, the submission adapter, and its attempts
  over any run of calls from any workflow runs.
- `Evidence`, `Activities`, `Retries`, `Workflow`, `WorkflowOutcomes`: the evidence loops, the activities,
  their workers dying between an upload and an answer and being retried, the workflow as a class, and where
  its runs end.
- `Answers`, `Contents`, `FirstCalls`, `Rates`, `Endpoints`: what a transition, a package, a first submission
  call, a posted review and the other endpoints answer and store, field by field, read off the tables.
- `RunResults`, `RunSubmissions`, `RunEndings`: from each state of a case, when a new run of the workflow
  returns, with what, and every table it leaves.
- `Views`, `Neighbours`, `Strangers`: what a set of cases sees of the database, activities among the commits
  of other cases, and why the activities of other cases are out of view.
- `Independence`, `StatusEvents`, `Governance`, `Contradictions`, `Releases`: the endpoints.

Each imperative method is proved equal, in the tables it leaves and the value it returns, to a function of
the tables it started from; the theorems are about those functions and about runs made of them.

## What the code does that its descriptions do not say

- `persist_submission_package` decides the case's next state from a read made without `FOR UPDATE`. The
  inserts before that read reference the case row and so hold a key-share lock on it, which keeps every
  transition out until the transaction ends; two overlapping package writes are not kept apart, and the
  second one moves the case from DOCUMENT_COMPLETE to itself (`Histories.SilentSteps`).
- Packages are deduplicated by a lookup with no key behind it. A write keeps one package per request exactly
  if the request still has none when it writes (`PackageHistories.WriteKeepsOneIffStillNone`), and a run of
  overlapping calls keeps one per request exactly if all of its writes do
  (`PackageRaces.OnePackagePerRequestIff`).
- The adapter's answer and its retry differ exactly if the case's support level is empty
  (`SubmissionHistories.RetryAnswersTheSame`). A retry that fails while its error handler reaches the
  database turns a manual fallback into a failure (`SubmissionHistories.BrokenRetry`).
- A resubmission uses attempt 1 and its idempotency key again: it gets the first attempt's outcome back and
  makes no new receipt (`WorkflowOutcomes.ResubmissionReusesTheAttempt`).
- A workflow run on a case at SUBMITTED or CORRECTION_PENDING cannot build its result, because the initial
  request and result are required fields (`WorkflowOutcomes.NoResultFromWaitingStates`).
- A run on a case in a state the workflow has no branch for asks for the approval all the same, is told the
  case is elsewhere, and raises (`RunEndings.RunFromUnforeseen`).
- A posted review decision can be refused when posted again: independence is checked before the idempotency
  key (`Independence.ReplayAnsweredIffBelowThreshold`).
- A portal-support intent can be applied after a later rejection; any approving review is enough
  (`Governance.ApplicableIffEverApproved`).
- Release artifacts are keyed by artifact id alone, so a new release that ships an artifact of an old one is
  refused as already existing (`Releases.CreatedIffAllNew`).
- Evidence ids held by another case are skipped, and the gate stays shut (`Evidence.SharedIdsLeaveTheGateShut`).

## Assumptions

Guard evaluation is one read of the tables under the case lock. A row that references a case holds a
key-share lock on it until its transaction ends, which excludes `FOR UPDATE` and not itself. All attempts of
one request id carry the same request. Evidence tables only grow, and a contradiction only goes from open to
resolved. Drawn ids are new. Fallback rows and submission attempts come only from the adapter. The digest,
the JSON encoding of a manifest, the runtime adapters, clocks and drawn ids are parameters.

## Model

| member | source | states |
|---|---|---|
| Contracts.ParseInvertsDump | src/sps/workflows/permit_case/contracts.py:328-358 | a transition result stored as JSON, with the invariants its guard stands for, parses back to itself |
| Contracts.ArmsAreExclusive | src/sps/workflows/permit_case/contracts.py:328-358 | no payload validates against both arms of the result union |
| Contracts.ParsesIff | src/sps/workflows/permit_case/contracts.py:328-358 | a payload is read as a result exactly if its fields are those stored for it, but that the tag and what is stored as null may be missing |
| Tables.FindRow | src/sps/workflows/permit_case/activities_impl.py:1106-1107 | a primary-key lookup in the ledger finds a row with the id exactly if there is one |
| Tables.LatestFallback | src/sps/workflows/permit_case/activities_impl.py:1408-1434 | the newest fallback of a case, none exactly if the case has none |
| Transitions.QueryLatest | src/sps/workflows/permit_case/activities_impl.py:1306-1311 | the query for the newest record of a case finds one of the case that no other is later than |
| Transitions.LatestIsFresh | src/sps/workflows/permit_case/activities_impl.py:1302-1381 | the latest-record gate passes if and only if any record of the case is recent enough |
| Transitions.ValidateOverride | src/sps/workflows/permit_case/activities_impl.py:1018-1067 | it lets a request through exactly if it names an override of its case, unexpired and naming the transition; each of the four refusals has its exact condition |
| Transitions.ApplyApprovalGate | src/sps/workflows/permit_case/activities_impl.py:1155-1225 | override first, else open blocking contradictions, then the review in either case |
| Transitions.ApplySubmittedGate | src/sps/workflows/permit_case/activities_impl.py:1426-1457 | SUBMITTED is refused exactly if the case's newest fallback has no confirmed proof stored as evidence |
| Transitions.EvaluateGuard | src/sps/workflows/permit_case/activities_impl.py:1118-1497 | the checks made under the lock decide as the declarative guard does |
| Transitions.ApplyStateTransition | src/sps/workflows/permit_case/activities_impl.py:1070-1624 | one call leaves exactly the case state, audit row and ledger row of its decision, or nothing, and answers the stored result if there is one |
| Transitions.TransitionIsIdempotent | src/sps/workflows/permit_case/activities_impl.py:1106-1117 | a call repeated after it committed answers the same and changes nothing, wherever the case has gone |
| Answers.ApprovalRefusedIff | src/sps/workflows/permit_case/activities_impl.py:1155-1225 | each of the five refusals of an approval, with its reason, guard and time, exactly by the override given, the open blockers and the review, read off the tables |
| Answers.EvidenceRefusedIff | src/sps/workflows/permit_case/activities_impl.py:1268-1381 | so the "required" and the "stale" answers of the requirement, compliance and incentives gates |
| Answers.RecordRefusedIff | src/sps/workflows/permit_case/activities_impl.py:1226-1457 | so the refusals for a missing project, jurisdiction, package, fallback or proof |
| Answers.PathRefusedIff | src/sps/workflows/permit_case/activities_impl.py:1125-1503 | so the refusals for a case in another state, a hold left for SUBMITTED, and an edge the path does not have |
| Answers.ReviewAcceptsIff | src/sps/workflows/permit_case/activities_impl.py:1159-1188 | a review lets an approval through exactly if one with the id named is stored for the case with an accepting outcome |
| Answers.OverriddenIff | src/sps/workflows/permit_case/activities_impl.py:1018-1067 | an override covers a request exactly if the row named is the case's, unexpired, and names the transition |
| Answers.OpenBlockerIff | src/sps/workflows/permit_case/activities_impl.py:1204-1225 | approval is blocked exactly while the case has an open blocking contradiction |
| Answers.PicksFreshIff | src/sps/workflows/permit_case/activities_impl.py:1268-1301 | the unordered query finds a set exactly if the case has one, and passes exactly if the one it picks is FRESH |
| Answers.ProvenIff | src/sps/workflows/permit_case/activities_impl.py:1426-1457 | SUBMITTED is open exactly if the case has no fallback or its newest one has a confirmed proof with its evidence |
| Answers.CommitInFull | src/sps/workflows/permit_case/activities_impl.py:1500-1557 | a first call adds one ledger row and one audit row with the fields of its request and the answer, and moves the case exactly if it was applied |
| Answers.ReplayInFull | src/sps/workflows/permit_case/activities_impl.py:1106-1117 | a later call answers what the stored payload says, a denial where there is no payload, and raises exactly where it cannot be read |
| Answers.MissingInFull | src/sps/workflows/permit_case/activities_impl.py:1118-1124 | a call for a case that does not exist raises and writes nothing |
| Answers.DayIsADay | src/sps/workflows/permit_case/activities_impl.py:1302-1381 | the days of the freshness windows, in microseconds |
| ProtocolInvariant.StoredRows | src/sps/workflows/permit_case/activities_impl.py:1585-1612 | a stored row always has a payload that parses, written for the one request of its id |
| ProtocolInvariant.StepKeeps | src/sps/workflows/permit_case/activities_impl.py:1098-1612 | every step of every attempt, and of the rest of the system, keeps the protocol invariant |
| ProtocolInvariant.ReachableInv | src/sps/workflows/permit_case/activities_impl.py:1098-1612 | the invariant holds in every world any interleaving reaches |
| Histories.ExactlyOnce | src/sps/workflows/permit_case/activities_impl.py:1098-1612 | under all interleavings, races and crashes a request id commits at most one ledger row, with exactly one audit event and at most one state change |
| Histories.AuditMatchesLedger | src/sps/workflows/permit_case/activities_impl.py:1500-1541 | each ledger row has an audit event of the same request and result |
| Histories.AttemptsAgree | src/sps/workflows/permit_case/activities_impl.py:1544-1612 | all attempts of one request id that return give the same result, the one the stored row parses to |
| Histories.OnlyMissingCaseFails | src/sps/workflows/permit_case/activities_impl.py:1118-1124 | an attempt that ends without a result and without a crash found, when it went to lock it, that its case did not exist |
| Histories.HistoryDeterminesState | src/sps/workflows/permit_case/activities_impl.py:1118-1541 | the state of a case is its initial state folded over its applied rows and silent package steps, each starting where the one before ended |
| Histories.SilentSteps | src/sps/workflows/permit_case/activities_impl.py:1906-1980 | a silent step starts at INCENTIVES_COMPLETE, or at DOCUMENT_COMPLETE exactly when another package write of the case came between its read and its write; it never leaves any other state, and has its package |
| Histories.FlowIsConserved | src/sps/workflows/permit_case/activities_impl.py:1125-1503 | entries into a state minus exits from it equal being there now minus having started there |
| Histories.SubmittedOnlyFromDocumentComplete | src/sps/workflows/permit_case/activities_impl.py:1137-1145 | a row applied into SUBMITTED comes from DOCUMENT_COMPLETE, holds or not |
| Histories.EvidenceAccumulates | src/sps/workflows/permit_case/activities_impl.py:1226-1497 | a hold-free case created at INTAKE_PENDING is on the path, with the evidence of every earlier gate stored, and never at REVIEW_PENDING or APPROVED_FOR_SUBMISSION |
| Guarantees.AppliedIff | src/sps/workflows/permit_case/activities_impl.py:1125-1503 | exactly when a transition is applied: state matches, and hold entry, or hold exit not to SUBMITTED, or a path edge with its gate's evidence |
| Guarantees.ApprovalIsSound | src/sps/workflows/permit_case/activities_impl.py:1155-1225 | every applied approval rests on an accepting review of the case, and on no open blocker or an unexpired override naming this transition |
| Guarantees.ApprovalOrHoldExit | src/sps/workflows/permit_case/activities_impl.py:1146-1225 | the only other way into APPROVED_FOR_SUBMISSION is out of a hold |
| Guarantees.FreshnessHolds | src/sps/workflows/permit_case/activities_impl.py:1302-1381 | rows applied into COMPLIANCE_COMPLETE and INCENTIVES_COMPLETE keep a record no older than 30 and 3 days at their time, in every later database |
| Guarantees.SubmittedOncePerReturn | src/sps/workflows/permit_case/activities_impl.py:1125-1503 | in a hold-free life from INTAKE_PENDING, submissions minus returns is one while the case is in the submission loop and zero otherwise |
| Guarantees.AppliedIsAccepted | src/sps/workflows/permit_case/activities_impl.py:1137-1503 | an applied result is the one asked for, at the time of the request |
| Interleavings.RunExtends | src/sps/workflows/permit_case/activities_impl.py:1098-1612 | later databases only extend the history and the evidence of earlier ones |
| Interleavings.CallAloneIsARun | src/sps/workflows/permit_case/activities_impl.py:1098-1557 | with the case unlocked, a call run from lookup to answer has the effect and result of one sequential call, a missing case included |
| ProtocolWriters.ActivityReaches | src/sps/workflows/permit_case/activities_base.py:21-110 | every activity of the workflow, made alone in a reachable database, is a run of the transition protocol |
| ProtocolWriters.DyingReaches | src/sps/failpoints.py:60-87 | so is an attempt whose worker dies, with what it uploaded or committed |
| ProtocolWriters.PackageWriteReaches | src/sps/workflows/permit_case/activities_impl.py:1906-1980 | a package transaction is the protocol's read and write, and rows the protocol does not look at |
| ProtocolWriters.AdapterWorkAccrues | src/sps/workflows/permit_case/activities_impl.py:2134-2287 | the submission adapter's transaction is a step the protocol allows beside its attempts |
| ProtocolWriters.FactsAccrue | src/sps/workflows/permit_case/activities_impl.py:296-378 | so is every evidence loop's |
| ProtocolWriters.ReviewPostAccrues | src/sps/api/routes/reviews.py:450-575 | so is a posted review decision |
| ProtocolWriters.IntakeAccrues | src/sps/api/routes/cases_create_impl.py:51-89 | so is the creation of a case and its project |
| WorkflowWorlds.WorkflowIsARun | src/sps/workflows/permit_case/workflow.py:397-982 | a whole workflow run, from any reachable database, is a run of the transition protocol |
| WorkflowWorlds.CrashedWorkflowIsARun | src/sps/workflows/permit_case/workflow.py:397-982 | so is one whose activities crash, so every theorem about reachable databases holds of what workflows leave |
| Templates.RenderTemplate | src/sps/documents/generator.py:36-57 | the loop replaces the keys one after another, and reports the placeholders left |
| Templates.SequentialIsSimultaneous | src/sps/documents/generator.py:36-57 | where texts, keys and printed values have no braces, replacing keys in any order is substituting them all at once |
| Templates.ScalarsArePlain | src/sps/documents/generator.py:42-45 | integers and booleans are printed without braces, so only text can make the order show |
| Templates.OrderDoesNotMatter | src/sps/documents/generator.py:36-57 | dictionaries with the same items render the same document |
| Templates.OrderShowsIff | src/sps/documents/generator.py:36-57 | two orders of two variables agree on the placeholder of one exactly if its value holds no placeholder of the other, or the other stands for its own placeholder |
| Templates.ReplaceChangesIff | src/sps/documents/generator.py:42-45 | replacing changes a text exactly if the pattern occurs in it and the value is another text |
| Templates.BracesMakeOrderMatter | src/sps/documents/generator.py:42-45 | an instance in which the order shows |
| Templates.SurvivesIffMissing | src/sps/documents/generator.py:47-57 | the placeholders reported are exactly the template's holes whose key was not given, in order |
| Templates.CaseIdWins | src/sps/documents/generator.py:78-82 | the runtime case id replaces a fixture's, and no other key is touched |
| Contents.ShownInFull | src/sps/documents/generator.py:42-45 | text is printed as it is, truth values as True and False, integers by their decimal digits after a minus sign where negative |
| Contents.RenderedInFull | src/sps/documents/generator.py:64-104 | for plain texts a document is its template with every hole filled whose key is given, the runtime case id standing for case_id whatever the fixture says |
| Contents.OnePlaceholder | src/sps/documents/generator.py:64-104 | a template with one placeholder reads back with the case id, the given value, or the placeholder itself in its place |
| Registry.ObjectKeyInjective | src/sps/evidence/ids.py:23-45 | object keys determine the evidence id |
| Registry.UriRoundTrip | src/sps/documents/registry.py:105-114 | a printed storage URI parses back to its bucket and key exactly for names without the characters the parser stops at or removes, on a host it accepts |
| Registry.PutBytes | src/sps/storage/s3.py:62-94 | content is stored exactly if it has the length and, in either case of its letters, the digest it was announced with |
| Registry.Register | src/sps/documents/registry.py:30-103 | a registration stores its content under its id's key and returns an entry that reads back |
| Registry.ReadArtifact | src/sps/documents/registry.py:105-114 | reading a URI gives what its bucket and key hold, or the error of an unsupported or missing one |
| Endpoints.UriParts | src/sps/documents/registry.py:110-114 | how a URI is read: a scheme in any case, an authority, any number of slashes, and a key up to a query or fragment |
| Endpoints.StoredUnder | src/sps/evidence/ids.py:13-45 | an evidence id is the prefix and 26 characters of Crockford's alphabet, stored under its first two |
| Endpoints.DigestsAgreeIff | src/sps/storage/s3.py:62-94 | two digests agree exactly if they are the same but for the case of their letters |
| Registry.EveryRegistrationReadsBack | src/sps/documents/registry.py:43-114 | over any sequence of registrations with fresh ids, every URI handed out reads exactly the registered bytes |
| Packages.RegisterAll | src/sps/workflows/permit_case/activities_impl.py:1830-1881 | every rendered document and then the manifest that refers to them is uploaded, in order |
| Packages.InsertRows | src/sps/workflows/permit_case/activities_impl.py:1906-1972 | the inserts succeed exactly if no drawn artifact id is taken, with a document row per document in order |
| Packages.PersistSubmissionPackage | src/sps/workflows/permit_case/activities_impl.py:1752-2040 | one call: the stored package of the request, or all rows of a new one with the case repointed, or an error and no row |
| PackageHistories.PackagesStayConsistent | src/sps/workflows/permit_case/activities_impl.py:1830-1980 | over every run: manifest references match document rows one to one in order, everything reads back with its digest, one package per request, and current_package_id names the last |
| PackageHistories.PersistIsIdempotent | src/sps/workflows/permit_case/activities_impl.py:1802-1819 | a call that answered names a stored package of its case and request, and repeats to the same answer with no change |
| PackageHistories.OnlyMissingCaseFails | src/sps/workflows/permit_case/activities_impl.py:1796-2016 | a call fails exactly for missing document data or a missing case, and then changes no table |
| PackageHistories.DocumentsAreRendered | src/sps/workflows/permit_case/activities_impl.py:1830-1962 | document row k of a new package reads back the k-th template rendered for the case |
| Contents.DocumentsInFull | src/sps/workflows/permit_case/activities_impl.py:1830-1980 | the k-th document row of a new package names an artifact whose stored content is the template filled at once with the fixture's values and the runtime case id, with its digest and length |
| Contents.PackageInFull | src/sps/workflows/permit_case/activities_impl.py:1906-1980 | a call that finds no package leaves one package row, its document rows, its evidence rows and the case pointing at it, advanced exactly from INCENTIVES_COMPLETE, and no other change |
| Contents.CallAnswers | src/sps/workflows/permit_case/activities_impl.py:1796-2030 | what a call answers and whether it writes: no documents, a package found, a new one, or an insert that fails |
| Contents.FoundIsNewest | src/sps/workflows/permit_case/activities_impl.py:1802-1819 | the package found for a request is the last one written for it |
| Contents.CollisionIff | src/sps/workflows/permit_case/activities_impl.py:1906-1980 | the inserts fit exactly if no id drawn for the manifest and the documents is taken or drawn twice |
| PackageHistories.WriteKeepsOneIffStillNone | src/sps/workflows/permit_case/activities_impl.py:1802-1819 | a write keeps one package per request exactly if the request has none at that moment |
| PackageHistories.ConcurrentPersistsDuplicate | src/sps/workflows/permit_case/activities_impl.py:1802-1819 | two calls that both look before either writes both succeed, with two packages |
| PackageRaces.OverlappingCallsStaySturdy | src/sps/workflows/permit_case/activities_impl.py:1796-1980 | with lookup and upload, and write, of every call as separate moves, in any order and with calls that die: manifests match their documents and read back, package ids are distinct, and current_package_id names the last written |
| PackageRaces.OnePackagePerRequestIff | src/sps/workflows/permit_case/activities_impl.py:1796-1980 | such a run ends with one package per request exactly if each of its writes found that its request still had none |
| PackageRaces.CallIsBeginAndFinish | src/sps/workflows/permit_case/activities_impl.py:1796-1980 | an uninterrupted call is its two moves |
| PackageHistories.WriteIsTheSilentStep | src/sps/workflows/permit_case/activities_impl.py:1974-1980 | an uninterrupted write moves the case as the protocol's silent step does |
| RequestIds.CaseIdRoundTrip | src/sps/workflows/permit_case/workflow.py:78-81 | the case id is read back from exactly its workflow id |
| RequestIds.RequestIdInjective | src/sps/workflows/permit_case/workflow.py:69-75 | with slash-free run and step, a request id determines workflow, run, step and attempt |
| RequestIds.SlashesMakeRequestIdsClash | src/sps/workflows/permit_case/workflow.py:69-75 | with a slash in the run id, different workflows get the same request id |
| RequestIds.SubmitKeyInjective | src/sps/workflows/permit_case/contracts.py:443-444 | an idempotency key determines case and attempt, whatever the case ids |
| RequestIds.HoldSignals.EnterHold | src/sps/workflows/permit_case/workflow.py:1023-1052 | the id of each hold entry is new among all emergency ids of the run |
| RequestIds.HoldSignals.LeaveHold | src/sps/workflows/permit_case/workflow.py:1062-1088 | the id of each hold exit is new among all emergency ids of the run |
| RequestIds.EmergencyIdsStandApart | src/sps/workflows/permit_case/workflow.py:1038-1081 | an emergency id is never that of an ordinary transition of the run |
| Endpoints.HoldIdsInFull | src/sps/workflows/permit_case/workflow.py:1022-1097 | the ids of the hold's two transitions, spelled out |
| Submission.LoadExisting | src/sps/workflows/permit_case/activities_impl.py:2072-2093 | an attempt is read back with its fallback; two fallbacks raise |
| Submission.ReloadRaced | src/sps/workflows/permit_case/activities_impl.py:2289-2319 | the one attempt with the request id or key is loaded; none or several raise |
| Submission.RunWork | src/sps/workflows/permit_case/activities_impl.py:2134-2287 | the transaction commits an attempt with its fallback or its receipt, or no row where a key is taken |
| Submission.DeterministicSubmissionAdapter | src/sps/workflows/permit_case/activities_impl.py:2045-2360 | one call, with the lookup, the work, the reload after a lost key and the error handler |
| SubmissionHistories.SubmissionsStaySound | src/sps/workflows/permit_case/activities_impl.py:2114-2354 | over every interleaved run: at most one attempt per case, none pending, submitted exactly with its stored receipt, otherwise exactly with its fallback |
| SubmissionHistories.CallIsSteps | src/sps/workflows/permit_case/activities_impl.py:2045-2360 | a whole adapter call, broken or not, leaves what at most its work and its error handler leave |
| SubmissionHistories.EventsAreSteps | src/sps/workflows/permit_case/activities_impl.py:2045-2360 | what whole calls and other commits leave after a legal run, a longer legal run leaves |
| SubmissionHistories.CallsStaySound | src/sps/workflows/permit_case/activities_impl.py:2045-2360 | over every sequence of whole calls, broken or not, and other commits, attempts are as sound as over the interleaved steps |
| SubmissionHistories.SubmittedIsAbsorbing | src/sps/workflows/permit_case/activities_impl.py:2337-2354 | a submitted attempt never changes; another can only be marked failed |
| SubmissionHistories.TakenIffAttempted | src/sps/db/models_submission.py:33-75 | a workflow-keyed call loses on a unique key exactly if its case has an attempt, from any run |
| SubmissionHistories.FirstCallMakesTheAttempt | src/sps/workflows/permit_case/activities_impl.py:2134-2287 | the first call of a case succeeds, with a fallback or a receipt by the support level |
| SubmissionHistories.LaterCallsGetTheAttempt | src/sps/workflows/permit_case/activities_impl.py:2118-2132 | every later call, from any run, answers the case's attempt and changes nothing |
| SubmissionHistories.RetryAnswersTheSame | src/sps/workflows/permit_case/activities_impl.py:2072-2093 | a retry answers the same exactly if the support level is not empty |
| SubmissionHistories.AdapterAgreesWithGates | src/sps/workflows/permit_case/activities_impl.py:1404-1457 | after an answer, in every later database, SUBMITTED is open exactly on SUCCESS and MANUAL_SUBMISSION_REQUIRED exactly otherwise |
| SubmissionHistories.BrokenRetry | src/sps/workflows/permit_case/activities_impl.py:2331-2360 | a failing retry leaves the attempt alone exactly if it was submitted, and else marks it failed with its fallback stored |
| FirstCalls.FirstCallInFull | src/sps/workflows/permit_case/activities_impl.py:2134-2287 | the first call of a case answers UNSUPPORTED_WORKFLOW and adds a fallback row exactly for the levels UNSUPPORTED and PARTIALLY_SUPPORTED_READ_ONLY, and for every other level, the empty one included, answers SUCCESS and adds a receipt; every row is given field by field |
| FirstCalls.AttachmentsIff | src/sps/workflows/permit_case/activities_impl.py:2094-2114 | what a fallback asks for: the artifacts of the planned sources, the manifest alone where there is no plan |
| FirstCalls.LoadInFull | src/sps/workflows/permit_case/activities_impl.py:2072-2093 | an attempt is answered as its row says, with the one fallback that names it |
| FirstCalls.LookupsInFull | src/sps/workflows/permit_case/activities_impl.py:2115-2160 | a call whose attempt is stored answers it, or raises and marks it failed where it has two fallbacks; one without its case or package raises and changes nothing |
| FirstCalls.ReloadInFull | src/sps/workflows/permit_case/activities_impl.py:2301-2331 | a call that loses on a key answers the one attempt with its request id or its idempotency key, and raises where there is none or more |
| FirstCalls.FailureInFull | src/sps/workflows/permit_case/activities_impl.py:2332-2360 | a failing call marks a committed attempt that was not submitted as failed, and changes nothing else |
| FirstCalls.IdsInFull | src/sps/workflows/permit_case/workflow.py:69-81 | the ids a run derives for its activities, attempts and fallbacks, and the idempotency key, spelled out |
| Evidence.PersistRecords | src/sps/workflows/permit_case/activities_impl.py:296-378 | the loop stores the records with new ids, or nothing and reports existing rows |
| Evidence.PersistIsIdempotent | src/sps/workflows/permit_case/activities_impl.py:296-378 | storing the same records again changes nothing and answers the same |
| Evidence.PersistThenHasFact | src/sps/workflows/permit_case/activities_impl.py:300-322 | afterwards the case has evidence if and only if it had some or a record id was free |
| Evidence.PersistThenFresh | src/sps/workflows/permit_case/activities_impl.py:568-600 | afterwards the case is fresh if and only if it was or a free record is |
| Evidence.RequirementGateForEveryPick | src/sps/workflows/permit_case/activities_impl.py:1268-1301 | the unordered query passes the gate whatever row it picks if and only if the case has sets and all are FRESH |
| Evidence.SharedIdsLeaveTheGateShut | src/sps/workflows/permit_case/activities_impl.py:300-322 | ids all held by other cases: the persist succeeds and the gate refuses |
| Endpoints.LoopAnswers | src/sps/workflows/permit_case/activities_impl.py:296-378 | a loop answers the ids it was given where it stores, and else those of the rows it finds, of the case or of the ids, or raises |
| Activities.PerformInPlace | src/sps/workflows/permit_case/activities_base.py:21-110 | each activity, executed once, leaves and answers what its specification says |
| Activities.RepeatIsHarmless | src/sps/workflows/permit_case/activities_impl.py:1106-1117 | executing any activity again changes nothing and tells the workflow the same |
| Retries.RetriesCollapse | src/sps/failpoints.py:60-87 | any number of attempts dying after any of their uploads or after their commit leave the rows, the content behind them and the answer of one execution |
| Retries.PerformBlind | src/sps/workflows/permit_case/activities_impl.py:1752-2360 | an activity leaves the same rows and answers the same whatever is in object storage, and adds to it exactly what it registers |
| Retries.NothingLeft | src/sps/workflows/permit_case/activities_impl.py:1802-1819 | an activity that has committed uploads nothing when executed again |
| Retries.Execute | src/sps/failpoints.py:60-87 | the retry loop, in place, leaves and answers what the schedule of dying attempts among the commits of others says |
| Neighbours.PerformSeen | src/sps/workflows/permit_case/activities_impl.py:296-2360 | an activity does on the rows of its cases, and answers, what it does on the whole database |
| Neighbours.AmongIsAlone | src/sps/failpoints.py:60-87 | whatever other cases commit before each attempt, a schedule of dying attempts leaves the rows of its cases, and answers, as if they were alone |
| Neighbours.WholeSlice | src/sps/failpoints.py:60-87 | with the whole database in view, what is seen is all there is |
| Strangers.NeighboursAreForeign | src/sps/workflows/permit_case/activities_impl.py:296-2360 | what an activity of another case commits, or leaves when its worker dies, changes nothing in view |
| Strangers.ForeignInTurn | src/sps/workflows/permit_case/activities_impl.py:296-2360 | commits of others one after another are commits of others |
| Workflow.PermitCaseWorkflow.RunSubmissionStep | src/sps/workflows/permit_case/workflow.py:186-286 | the submission step, under any crashes and among commits of other cases, leaves the case's rows and content, and answers, what it does without |
| Workflow.PermitCaseWorkflow.RunIntakeComplete | src/sps/workflows/permit_case/workflow.py:452-611 | so do the four evidence stages |
| Workflow.PermitCaseWorkflow.RunReview | src/sps/workflows/permit_case/workflow.py:881-982 | so do the approval, the wait for the first review signal and the second attempt |
| Workflow.PermitCaseWorkflow.ReceiveReviewDecision | src/sps/workflows/permit_case/workflow.py:985-996 | the first review signal is kept |
| Workflow.PermitCaseWorkflow.Run | src/sps/workflows/permit_case/workflow.py:397-982 | from any start state, under any schedule of crashes between uploads and answers, and whatever other cases commit before each attempt, the case's rows, the content behind them and the outcome are those of the crash-free run alone in the database |
| WorkflowOutcomes.RunEnds | src/sps/workflows/permit_case/workflow.py:397-982 | a new run that returns has its final transition applied and leaves the case in an end state of the one it started from |
| WorkflowOutcomes.NoResultFromWaitingStates | src/sps/workflows/permit_case/workflow.py:754-831 | a run at SUBMITTED or CORRECTION_PENDING changes nothing and fails to build its result |
| WorkflowOutcomes.ResubmissionReusesTheAttempt | src/sps/workflows/permit_case/workflow.py:833-889 | the submission step of a case with an attempt makes no attempt, receipt or fallback and moves the case by the old outcome |
| RunResults.RunFromIntakePending | src/sps/workflows/permit_case/workflow.py:419-451 | a new run at INTAKE_PENDING returns exactly if the case has a project; in every row, what the run answers and each table it leaves is read off the tables it starts from and the adapters |
| RunResults.RunFromIntakeComplete | src/sps/workflows/permit_case/workflow.py:452-611 | a new run at INTAKE_COMPLETE stocks one evidence table after another with exactly the records whose ids are free, stops before the first gate that is shut, and returns exactly if all four are open |
| RunResults.RunFromComplianceComplete | src/sps/workflows/permit_case/workflow.py:613-661 | a new run at COMPLIANCE_COMPLETE adds the assessments whose ids are free, and returns, with the case at INCENTIVES_COMPLETE, exactly if the case had or was given one no older than three days |
| RunResults.UnstorableStage | src/sps/workflows/permit_case/workflow.py:452-661 | a stage whose adapter gives nothing, or a free id twice, stores nothing, and goes on exactly if it was given records and finds rows there |
| RunResults.RunStoringNoAssessment | src/sps/workflows/permit_case/workflow.py:613-661 | so for a run at COMPLIANCE_COMPLETE: it returns exactly if it finds rows and the case has a fresh one |
| RunResults.RunFromCommentReview | src/sps/workflows/permit_case/workflow.py:777-809 | a new run at COMMENT_REVIEW_PENDING always returns, with the case at CORRECTION_PENDING |
| RunResults.MissingCaseIsCreated | src/sps/workflows/permit_case/activities_impl.py:69-131 | a run for a case that does not exist goes as for one created at REVIEW_PENDING, fully supported |
| RunResults.GateOfLeg | src/sps/workflows/permit_case/activities_impl.py:1226-1497 | when the gate of each leg of a run is open |
| RunResults.RequestInFull | src/sps/workflows/permit_case/workflow.py:120-184 | what a run asks for, and in whose name |
| RunSubmissions.RunsThatPackage | src/sps/workflows/permit_case/workflow.py:663-752 | a new run at INCENTIVES_COMPLETE or DOCUMENT_COMPLETE adds a package and submits: it raises exactly without documents or after a failed attempt, and ends at SUBMITTED exactly if the case's attempt was submitted or it had none and its support level allows one, else at MANUAL_SUBMISSION_REQUIRED |
| RunSubmissions.RunFromResubmission | src/sps/workflows/permit_case/workflow.py:833-880 | so does one at RESUBMISSION_PENDING, with its second package, after moving the case to DOCUMENT_COMPLETE |
| RunEndings.RunFromReviewPending | src/sps/workflows/permit_case/workflow.py:885-982 | a new run at REVIEW_PENDING returns, with the case approved, exactly if there is no open blocker and the first signal names a stored decision of the case that accepts |
| RunEndings.RunFromUnforeseen | src/sps/workflows/permit_case/workflow.py:885-926 | from any state no branch is for, a run asks for the approval, is told the case is elsewhere, raises and leaves the case where it is |
| Independence.StatusOfRate | src/sps/api/routes/reviews.py:281-288 | the rate thresholds are 2P > T+1, 20P > 7(T+1) and 4P > T+1 |
| Independence.MetricsAlwaysValid | src/sps/api/routes/reviews.py:211-253 | the branch that calls the metrics invalid is never taken |
| Independence.CheckReviewerIndependence | src/sps/api/routes/reviews.py:291-393 | the check counts the 90-day window and refuses as specified |
| Independence.InsertReview | src/sps/api/routes/reviews.py:450-575 | one POST's transaction: independence, then the key, then one review row and one audit row |
| Independence.ReviewDesk.CreateReviewDecision | src/sps/api/routes/reviews.py:450-575 | the endpoint: the review with its dissent in one transaction, and the signal, sent exactly for a decision just stored |
| Independence.DissentsFollowDecisions | src/sps/api/routes/reviews.py:523-546 | over every history there is exactly one dissent for each decision accepted with dissent, and none else |
| Independence.PostWrites | src/sps/api/routes/reviews.py:450-575 | only an admitted POST writes, exactly its row and audit event, with 2P at most T+1 |
| Independence.ReplayAnsweredIffBelowThreshold | src/sps/api/routes/reviews.py:481-508 | a repeated POST is answered with the stored row exactly while its pair is below the threshold, and never writes |
| Independence.ReplayCanBeRefused | src/sps/api/routes/reviews.py:481-508 | a decision just admitted can be refused when posted again |
| Independence.EveryDecisionWasAdmitted | src/sps/api/routes/reviews.py:291-393 | over every history each stored decision saw 2P at most T+1 in its window, none is by its subject's author, and ids and keys are distinct |
| Independence.PairBound | src/sps/api/routes/reviews.py:211-288 | in any stretch of 90 days, a pair's decisions beyond the first are at most half of those in the window up to its last |
| Independence.OneWindowBound | src/sps/api/routes/reviews.py:211-288 | a history of n decisions inside one window has 2(k-1) at most n for every pair |
| Rates.CountsAreRows | src/sps/api/routes/reviews.py:211-253 | the counts are numbers of stored decisions: in the window, of the reviewer on the author in it, and of the pair in a stretch of time |
| Rates.PostInFull | src/sps/api/routes/reviews.py:291-575 | what a POST is answered and writes, by those numbers over 90 days in microseconds: self-approval, threshold, replay, conflict, failure, or the stored row with its status |
| Endpoints.DissentInFull | src/sps/api/routes/reviews.py:523-546 | an accepting dissent leaves its open artifact with what the reviewer gave; a taken artifact id undoes the review; no other decision leaves one |
| StatusEvents.StatusBook.PersistCorrectionTask | src/sps/workflows/permit_case/activities_records.py:20-110 | an existing row is kept, bad links raise, otherwise exactly the row is added |
| StatusEvents.StatusBook.PersistResubmissionPackage | src/sps/workflows/permit_case/activities_records.py:114-201 | an existing row is kept, bad links raise, otherwise exactly the row is added |
| StatusEvents.StatusBook.PersistApprovalRecord | src/sps/workflows/permit_case/activities_records.py:205-291 | an existing row is kept, bad links raise, otherwise exactly the row is added |
| StatusEvents.StatusBook.PersistInspectionMilestone | src/sps/workflows/permit_case/activities_records.py:295-392 | an existing row is kept, bad links raise, otherwise exactly the row is added |
| StatusEvents.StatusBook.PersistStatusEventArtifact | src/sps/workflows/permit_case/workflow.py:288-371 | each handled class of event writes its artifact under an id made from the event's |
| StatusEvents.StatusBook.IngestExternalStatusEvent | src/sps/api/routes/cases_operations_impl.py:107-203 | a known event keeps its row and that row is what is signalled; bad links and unknown statuses are refused; a new row has the mapping's status, confidence and version |
| StatusEvents.Confluence | src/sps/workflows/permit_case/workflow.py:288-371 | runs that end with the same events and the same set of delivered ids end with the same artifacts, whatever the order and duplication |
| StatusEvents.NoLinkageError | src/sps/workflows/permit_case/activities_impl.py:871-929 | no signal built from a stored event meets a missing or mismatched link |
| StatusEvents.OneArtifactPerHandledEvent | src/sps/workflows/permit_case/workflow.py:288-371 | a delivered event has exactly one artifact for the nine handled classes and none otherwise |
| Endpoints.IngestInFull | src/sps/api/routes/cases_operations_impl.py:107-203 | the order and the exact condition of each refusal, and every field of a stored event, its mapping's status among them |
| Endpoints.HandleInFull | src/sps/workflows/permit_case/workflow.py:288-319 | the correction and resubmission rows an event writes, and under which ids; the eight other classes write nothing |
| Endpoints.DecisionsInFull | src/sps/workflows/permit_case/workflow.py:320-371 | the approval and inspection rows, only a passed inspection being the final milestone |
| Governance.NewestApproval | src/sps/services/admin_portal_support.py:58-70 | the newest approving review of an intent, none exactly if no review approves |
| Governance.PortalSupportDesk.CreateIntent | src/sps/api/routes/admin_portal_support.py:64-114 | a new intent is stored pending; a taken id changes nothing |
| Governance.PortalSupportDesk.RecordReview | src/sps/api/routes/admin_portal_support.py:117-181 | a review is stored once per id and key and relabels its intent |
| Governance.PortalSupportDesk.UpsertMetadata | src/sps/services/admin_portal_support.py:73-99 | the family's row takes the intent's values, or one row is added |
| Governance.PortalSupportDesk.ApplyIntent | src/sps/api/routes/admin_portal_support.py:190-236 | an approved intent is applied to its family's metadata and labelled APPLIED |
| Governance.EveryHistoryIsGoverned | src/sps/api/routes/admin_portal_support.py:64-236 | over every history metadata carries the last applied intent of its family, one row each, each application follows an approving review, and a status is the label of the last event |
| Governance.ApplicableIffEverApproved | src/sps/services/admin_portal_support.py:58-70 | an intent can be applied if and only if some review of it approves |
| Governance.RejectedIntentCanBeApplied | src/sps/api/routes/admin_portal_support.py:190-236 | an intent approved and then rejected can be applied |
| Endpoints.ApprovesIff | src/sps/services/admin_portal_support.py:58-70 | a review approves exactly if its outcome spells APPROVED in any mixture of cases |
| Endpoints.LabelInFull | src/sps/api/routes/admin_portal_support.py:117-181 | a label is the outcome with its letters in upper case |
| Endpoints.RecordInFull | src/sps/api/routes/admin_portal_support.py:117-181 | the exact condition of each answer to a review, and what an accepted one stores and relabels |
| Endpoints.IntentsInFull | src/sps/api/routes/admin_portal_support.py:64-236 | the exact condition of each answer to a new intent and to an application, and the labels they set |
| Endpoints.UpsertInFull | src/sps/services/admin_portal_support.py:73-99 | an applied intent goes into the one row of its family or a new one under the drawn id, and touches no other |
| Contradictions.CreateContradiction | src/sps/api/routes/contradictions.py:102-144 | a new contradiction is stored open; a taken id or a missing case changes nothing |
| Contradictions.ResolveContradiction | src/sps/api/routes/contradictions.py:151-191 | an open contradiction is closed; others are refused |
| Contradictions.CreateShutsTheGate | src/sps/api/routes/contradictions.py:102-144 | opening a contradiction shuts the gate of its case exactly if it is blocking, and of no other case |
| Contradictions.EndpointsAccrue | src/sps/api/routes/contradictions.py:102-191 | both endpoints are steps the transition protocol allows beside it |
| Contradictions.ResolveOpensTheGate | src/sps/api/routes/contradictions.py:170-183 | resolving opens a case's gate exactly if no other open blocker is left |
| Contradictions.ResolvedForGood | src/sps/api/routes/contradictions.py:170-183 | a resolved contradiction stays resolved in every later database of any run |
| Endpoints.CreateInFull | src/sps/api/routes/contradictions.py:102-144 | a contradiction is opened exactly if its id is free and its case exists |
| Endpoints.ResolveInFull | src/sps/api/routes/contradictions.py:151-191 | the exact condition of each answer, and the row a resolution leaves |
| Releases.BuildComponents | src/sps/services/release_bundle_manifest.py:173-222 | the builder succeeds exactly on entries with files and distinct ids under a schema that manifests conform to, with one artifact and digest each, and else stops at the first bad entry or at the schema |
| Releases.ValidateAgainstSchema | src/sps/services/release_bundle_manifest.py:138-170 | no fault exactly if the fields conform; else all missing names, or all unexpected ones, or the first field of a wrong kind |
| Releases.ShippedSchemaFits | model/sps/contracts/release-bundle-manifest.schema.json:7-60 | every manifest the builder makes conforms to the schema the repository ships |
| Releases.ValidIff | src/sps/api/routes/releases.py:90-123 | references are accepted exactly if ids are distinct and are those of the digests |
| Releases.BuilderOutputIsValid | src/sps/services/release_bundle_manifest.py:195-222 | what the builder assembles always passes the reference check, each digest being its artifact's checksum |
| Releases.ReleaseShelf.CreateReleaseBundle | src/sps/api/routes/releases.py:127-202 | the bundle and all its artifact rows are stored, or neither |
| Releases.CreateKeepsComplete | src/sps/api/routes/releases.py:127-202 | a stored bundle's digests always name exactly its artifact rows |
| Releases.CreatedIffAllNew | src/sps/api/routes/releases.py:127-202 | a valid request is stored exactly if its release id and all its artifact ids are new |
| Endpoints.ManifestInFull | src/sps/services/release_bundle_manifest.py:186-240 | the given adapter versions win over the configured ones, those over the runtime's, and everything else is taken over |
| Endpoints.ComplaintIff | src/sps/services/release_bundle_manifest.py:195-222 | why the builder stops at an entry: no file, no artifact id, or one an earlier entry has |
| Endpoints.ValidateInFull | src/sps/api/routes/releases.py:90-123 | the ids named by each refusal are exactly those given twice, those without a digest, and the digests without an artifact |
| Endpoints.BundleAnswers | src/sps/api/routes/releases.py:127-202 | the exact condition of each of the three answers |
| Endpoints.BundleInFull | src/sps/api/routes/releases.py:127-202 | a stored bundle has its digests and, for each artifact, the row that names it |

## Left out

- HTTP routing, roles and tokens, field validation, logging, and the Temporal client and worker wiring.
- Postgres, S3 and SHA-256: tables are values with keys and row locks, the object store a map, the digest a function.
- Time zones: instants are integers, so the filling in of a missing zone is not modelled. UTF-8: content is text.
- The request fields the guard does not read (causation id, evidence ids, notes), and the evidence ids and notes of a review row.
- Override surfaces other than `FROM->TO` are opaque names; how enums are spelled is not modelled.
- Registry.UriRoundTrip: which hosts `urlsplit` refuses (brackets, Unicode normalisation) is a parameter.
- Templates.SequentialIsSimultaneous: the text Python prints for a floating-point value is a given of the value.
- The texts a submission plan copies into a fallback (reason, channel, instructions, proof types, owner); `last_error` of a failed attempt; document artifact ids, which nothing reads.
- Workflow.PermitCaseWorkflow.Run: commits on the case itself during its run are the review rows stored in the wait; what holds with others is what the theorems about interleavings say. Other cases are taken to share no id with it: evidence fixtures that do are `Evidence.SharedIdsLeaveTheGateShut`. Default retries never give up, so an activity error that recurs would be retried for ever; the model ends the run with that error.
- RunResults.RunFromIntakeComplete: assumes that each adapter gives records and no free id twice; what a stage does otherwise is `RunResults.UnstorableStage`.
- RunSubmissions.RunsThatPackage: assumes that the case has no package for this run's request yet; a call that finds one is `Contents.CallAnswers`.
- Contents.RenderedInFull: is about texts without braces; what the order of the keys shows otherwise is `Templates.OrderShowsIff`.
- Independence.OneWindowBound: is about POSTs in sequence, because the code takes no lock and concurrent ones can each miss the other's row.
- `persist_review_decision` stores a review without the independence check; the workflow no longer calls it.
- Failpoint bookkeeping (fired keys and counts): any schedule of crashes is allowed instead.
- Emergency validation (`validate_emergency_artifact`, `validate_reviewer_confirmation`): existence checks before a hold.
- StatusEvents.StatusBook.IngestExternalStatusEvent: how a raw status is mapped is a parameter.
- Releases.BuildComponents: artifact-id extraction from YAML and front matter, and reading the schema file, are parameters; approvals are opaque. Rollback rehearsals.
- `upper()` and `lower()` are modelled on ASCII letters.
- The other two admin governance services, which repeat this one; retention and purge; redaction; list and read endpoints; fixtures, migrations and tools.
