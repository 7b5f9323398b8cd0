# A verified model of the ai-platform core

The project models the parts of ai-platform whose correctness depends on more than one
function: the Redis run queue, the browser authentication contexts with their refresh and
rotation protocols, the signed cookie, the streaming checks of uploaded worksheets, the
evidence contract for tool calls, and the decoding of public context keys. The claims are about
all inputs, all reachable states or all interleaved runs of the code as written; where the code
does not meet a property, a concrete input or run shows it and the exact condition for it is
proved.

`dafny verify dfyconfig.toml` checks everything.

## How it is organised

- **Run queue** (`app/queue.py`). `RunQueueScripts` gives every Lua script as a function from the
  Redis structures and the Redis clock to new structures and a reply. `RunQueueStore` is the same
  data as an object whose methods update it in place, each proved equal to its script.
  `RunQueueCoherence` states when list, order, rows, index, leases and fences agree, and proves
  each script keeps it. `RunQueueWorld` interleaves scripts of any number of clients with the
  separate reads of any number of reclaimers; `RunQueueInvariant` proves exactly which events keep
  the global invariant, `RunQueueSteady` what no event breaks, `RunQueueBalance` what every run
  conserves, and `RunQueueTheorems`, `RunQueueOwnership` and `RunQueueScenarios` draw the
  conclusions. `RunQueueScan` proves the windowed lease search against a plain search, and
  `RunQueueReclaim` runs a reclaimer's pass on the object, with other clients between its calls, and
  shows it to be such a run.
- **Authentication** (`app/auth_sessions.py`, `app/auth.py`). `AuthScripts` has the V1 and V2
  scripts as functions, `AuthStore` as methods of an object. `AuthContexts` is about one context
  over its lifetime, `AuthLinks` about authorities, rotation and expiry, `AuthRefresh` about the
  refresh procedure and its waiting loop with other clients in between. `Base64Url` and
  `AuthCookie` are the cookie.
- **Uploaded files** (`app/file_parser_contracts.py`). `XmlCollection` is the streaming recogniser
  of an exact collection, `CellReference` and `Worksheet` the worksheet preflight,
  `WorksheetTree` what the preflight means for the tree of the sheet.
- **Tool evidence** (`app/required_tool_contract.py`): `ToolEvidence`, `ToolCompletion`,
  `ToolRuntime`.
- **Context keys** (`app/public_context_keys.py`): `KeyDecoder`.
- `Sequences`, `Options` and `Decimals` hold what several of these share.

## Where the code falls short of a property

- *Two run names with one field.* The queue index and the fences use `tenant:run`, and both parts
  may contain a colon. `CollidingNamesDuplicate` gives a run in which cancelling one run makes the
  other's message enqueue twice, `CollidingFenceBlocks` one in which a reconciler's fence on one run
  shuts out the worker of the other. `RemoveKeepsIff` and `AcquireKeepsIff` say exactly when a
  removal or a claim keeps the structures in agreement, and `ColonFreeTenants` that tenants without
  a colon never collide.
- *A reclaimer that reads too late.* A dead-lettering decided from a retry row, with no processing
  row seen, leaves the processing row of a later lease behind. `HazardReachable` gives the run, for
  every attempt limit, and `HazardSettlesTwice` what follows from it. Runs without that event are called calm. Fences,
  positions, attempt counts and lease ownership hold on every legal run with distinct fields, the
  caps on every legal run. What fails is conservation, and only by a later settlement: on every
  legal run the settlements exceed what conservation allows by exactly the settlements of messages
  that were not being processed (`BooksBalance`), and an event keeps conservation exactly when it is
  no such settlement (`NextConservesIff`). `NextKeepsExactly` proves that the late dead-lettering and
  events under colliding names break the invariant, and that no other event does; with distinct
  fields only the late dead-lettering is left (`NextKeepsIff`).
- *A removal after a delivery.* Removing a run whose message waits for a retry keeps its retry row:
  the message can never be enqueued again (`RemovalStrandsExactly`, `StrandedForever`).
- *Evidence of a builtin among invocations.* The decision over all invocations raises instead of
  deciding when a builtin is available and its record comes before any call that fails:
  `BashRaises` gives the input, `InvocationDecision` the exact condition. The one caller
  (app/executors/claude_agent_worker.py:141) takes its capabilities from
  app/executors/claude/capability_policy.py:262-284, which adds skills and MCP tools only, and such
  a caller never sees the exception (`SkillsAndToolsNeverRaise`).
- *A cell after the last column.* A cell without a reference takes the next column unchecked:
  `ColumnOverrun` gives an accepted sheet with column 16385, `ColumnsWithinIff` says exactly when an
  accepted sheet stays within the last column, on its events and, in `TreeWithinIff`, on its tree.

## Model

| member | source | states |
|---|---|---|
| RunQueueCoherence.RankIsPosition | app/queue.py:77-89 | in agreeing structures the rank of a waiting message in the sequence order is its index in the list |
| RunQueueCoherence.EnqueueKeeps | app/queue.py:52-123 | enqueueing keeps list, order, rows, run index, leases and fences in agreement |
| RunQueueCoherence.RemoveKeeps | app/queue.py:138-187 | if no other waiting run shares the name's index field, removing a run keeps the agreement and removes exactly the messages of that run |
| RunQueueCoherence.LeaseKeeps | app/queue.py:241-353 | leasing at any claimed position keeps the agreement |
| RunQueueCoherence.DeadLetterInvalidKeeps | app/queue.py:399-454 | dead-lettering an invalid entry keeps the agreement |
| RunQueueCoherence.AcquireKeepsIff | app/queue.py:458-614 | acquiring a fence keeps the agreement exactly when it is refused or no entry in processing shares the field of the claimed run |
| RunQueueCoherence.RequeueKeeps | app/queue.py:678-773 | requeueing an expired lease keeps the agreement |
| RunQueueCoherence.DeadLetterExpiredKeepsIff | app/queue.py:804-868 | dead-lettering an expired lease keeps the agreement exactly when it does not leave a processing row of a removed entry |
| RunQueueCoherence.HeartbeatKeeps | app/queue.py:872-961 | a heartbeat, also one that finds the clock gone back, keeps the agreement |
| RunQueueCoherence.SettleKeeps | app/queue.py:965-1022 | ack and fail keep the agreement though they never check how many entries were removed |
| RunQueueInvariant.NextKeepsIff | app/queue.py:2513-2608 | with distinct fields every permitted event of a run keeps the whole invariant, except the late dead-lettering of a reclaimer, which never does |
| RunQueueInvariant.NextKeepsExactly | app/queue.py:2513-2608 | whatever the names, a permitted event keeps the whole invariant exactly when it is neither the late dead-lettering nor a removal or claim under a field another run uses |
| RunQueueInvariant.InvariantFrom | app/queue.py:36-1064 | the invariant holds along every calm run that starts in it |
| RunQueueInvariant.InvariantAlways | app/queue.py:36-1064 | every world a calm run reaches satisfies the whole invariant, conservation and exact processing rows included |
| RunQueueSteady.NextSteady | app/queue.py:36-1064 | every permitted event, the late dead-lettering included, keeps the waiting structures in agreement, entries distinct and apart, fences exclusive, rows genuine and attempts counted |
| RunQueueSteady.SteadyAlways | app/queue.py:36-1064 | with distinct fields all of that holds in every world of every legal run |
| RunQueueTheorems.WaitingReported | app/queue.py:1366-1418 | re-enqueueing the k-th waiting message changes nothing and reports, as the read-back does, position k+1 and its own sequence |
| RunQueueTheorems.EnqueueClassified | app/queue.py:52-123 | after any legal run with distinct fields an unfenced enqueue answers by where the message is, its position if it waits, a refusal if it is processed or stranded, and the read-back agrees; after a calm run every other message gets a new place at the end |
| RunQueueTheorems.AdmissionsConserved | app/queue.py:94-117 | after a calm run admissions of a message equal its settlements plus its at most one live copy |
| RunQueueBalance.NextConservesIff | app/queue.py:861-866 | an event keeps conservation exactly when it does not settle a message that is not being processed |
| RunQueueBalance.BooksBalance | app/queue.py:36-1064 | on every legal run, whatever the names, admissions plus the settlements of messages not being processed equal waiting plus processing plus settled |
| RunQueueBalance.AdmissionsAccounted | app/queue.py:987-1022 | the same message by message, with at most one live copy; a calm run has no surplus |
| RunQueueTheorems.DeliveriesBounded | app/queue.py:287-305 | on every legal run with distinct fields each lease hands out the next attempt number, never above the limit, whatever reclaimers interleave; after a calm run a retry row at the limit is that of a message still processed under it |
| RunQueueTheorems.CapsRespected | app/queue.py:245-285 | on every legal run, whatever the names, the processing list never exceeds the global, tenant or user cap |
| RunQueueTheorems.FenceExcludes | app/queue.py:458-643 | on every legal run with distinct fields, while a fence stands nothing of its run waits or is processed, and no next event brings anything back |
| RunQueueTheorems.LostFenceStaysLost | app/queue.py:618-643 | a holder whose fence was released, taken over or has expired never again renews or releases one |
| RunQueueTheorems.RemovalStrandsExactly | app/queue.py:138-187 | a removal settles all waiting messages of the run and strands exactly those delivered before |
| RunQueueTheorems.StrandedForever | app/queue.py:94-96 | on every legal run with distinct fields a stranded message is refused by every later enqueue although it is not live |
| RunQueueTheorems.HazardSettlesTwice | app/queue.py:861-866 | after the late dead-lettering the worker's ack still succeeds, and settlements exceed admissions |
| RunQueueOwnership.SupersededForever | app/queue.py:872-1064 | a superseded handle is refused by heartbeat, verify, ack and fail for ever |
| RunQueueOwnership.SecondHandleSupersedes | app/queue.py:325-343 | two handles of one message are never both current: once a second one owns the lease the first is superseded |
| RunQueueOwnership.PunctualStaysOwner | app/queue.py:678-733 | on every legal run with distinct fields a worker whose successful heartbeats are at most the visibility timeout apart stays owner until it settles, and its ack then succeeds unless the run is fenced |
| RunQueueScenarios.ColonFreeTenants | app/queue.py:1225-1226 | tenants without a colon give unambiguous index fields |
| RunQueueCoherence.RemoveKeepsIff | app/queue.py:138-187 | a removal keeps the agreement exactly when no waiting message of another run shares its field |
| RunQueueScenarios.CollidingNamesDuplicate | app/queue.py:138-187 | a run in which colliding names lead to the same message waiting twice |
| RunQueueScenarios.CollidingFenceBlocks | app/queue.py:458-614 | a run in which a fence claimed under a colliding name refuses ack, fail and heartbeat of the worker of another run |
| RunQueueScenarios.HazardReachable | app/queue.py:2513-2608 | for every attempt limit and visibility timeout a legal, calm run that reaches the late dead-lettering |
| RunQueueScan.WalkIsChoice | app/queue.py:2185-2311 | the linear walk delivers the oldest message that is valid, unfenced and within quota, and expels exactly the invalid ones before it |
| RunQueueScan.PurgeList | app/queue.py:427-442 | expelling invalid entries keeps the valid ones and everything behind them in order, and processing, rows and fences |
| RunQueueScan.PurgeLetters | app/queue.py:1280-1282 | the dead-letter list afterwards: the expelled entries, oldest first, behind the earlier ones, cut to the retention |
| RunQueueScan.ScanWindow | app/queue.py:2185-2311 | one window delivers, restarts after an expulsion, or moves on, and the rest of the search stays the one asked for |
| RunQueueScan.LeaseWithQuota | app/queue.py:2185-2311 | with any positive window the restarting search ends in the state and delivery of the plain choice; it terminates |
| RunQueueStore.Store.Enqueue | app/queue.py:36-123 | the in-place enqueue has exactly the effect and reply of its script |
| RunQueueStore.Store.RemoveQueuedRun | app/queue.py:127-187 | the same for removal, whose loop unindexes, unlists and counts message by message |
| RunQueueStore.Store.CountProcessing | app/queue.py:257-270 | the counting loop returns the number of processing entries of the tenant and of the user |
| RunQueueStore.Store.LeaseRun | app/queue.py:191-353 | the same for the lease with its caps |
| RunQueueStore.Store.DeadLetterInvalidRun | app/queue.py:357-454 | the same for an invalid entry |
| RunQueueStore.Store.AcquireRunFence | app/queue.py:458-614 | the same for a fence, whose loops look for live rows, queued rows and list entries of the run |
| RunQueueStore.Store.RenewRunFence | app/queue.py:627-642 | the same for renewal |
| RunQueueStore.Store.ReleaseRunFence | app/queue.py:618-623 | the same for release |
| RunQueueStore.Store.RequeueRun | app/queue.py:646-773 | the same for a requeue |
| RunQueueStore.Store.DeadLetterExpiredRun | app/queue.py:777-868 | the same for an expired lease |
| RunQueueStore.Store.HeartbeatRun | app/queue.py:872-961 | the same for a heartbeat |
| RunQueueStore.Store.AckRun | app/queue.py:965-990 | the same for an ack |
| RunQueueStore.Store.FailRun | app/queue.py:994-1022 | the same for a failure |
| RunQueueStore.Store.VerifyRun | app/queue.py:1040-1063 | the same for an ownership check, which changes nothing |
| RunQueueStore.Store.Perform | app/queue.py:36-1064 | running any script on the object has the effect and reply of that script |
| RunQueueReclaim.ReclaimPass | app/queue.py:2500-2608 | with arbitrary calls of others between its own, a pass leaves what the scripts say, counts its requeues and dead letters, and keeps the rules of a reclaimer to the end of its list as long as the others keep theirs |
| RunQueueReclaim.MovesAreRun | app/queue.py:2500-2608 | the calls of a pass and of the others are a legal run, and the object is left in its last state |
| RunQueueReclaim.PassSteady | app/queue.py:2500-2608 | so the object after a pass satisfies what holds on every legal run |
| AuthContexts.ContextStep | app/auth_sessions.py:795-922 | every script leaves a live context alone or has exactly its stated effect, and never moves its deadline |
| AuthContexts.SubjectEpochDeterminesPrincipal | app/auth_sessions.py:869-921 | over a context lifetime equal subject epochs mean the same tenant, user and ten authorization fields; no epoch goes back |
| AuthContexts.CommitNeedsLatest | app/auth_sessions.py:860-921 | a commit succeeds only for the latest begun operation and its token, and uses it up |
| AuthContexts.BeginSpendsEarlier | app/auth_sessions.py:820-841 | a begin takes a larger epoch and makes every earlier one uncommittable |
| AuthContexts.SpentForever | app/auth_sessions.py:860-921 | a spent operation is never committed again in the context's lifetime |
| AuthContexts.MarkerStory | app/auth_sessions.py:823-832 | every refresh marker is zero, untouched, or names the last committed refresh with no login or logout begun since |
| AuthContexts.PeerRefreshSound | app/auth.py:337-378 | evidence of a peer's refresh implies a credential-bearing refresh committed after the first read, no login or logout since, identity unchanged throughout |
| AuthContexts.GrantReported | app/auth_sessions.py:766-791 | a read and a begin report exactly the grant of the stored context |
| AuthContexts.CleanupNeutral | app/auth_sessions.py:845-921 | committing the principal back without a credential only gives up the lease |
| AuthContexts.HeldOrSpentAlways | app/auth_sessions.py:860-921 | whatever other clients do in the context's lifetime, a begun refresh is still held with the principal it was given, or is spent |
| AuthContexts.LateCommitCareful | app/auth.py:419-425 | a late commit of an operation changes nothing once the operation is spent, and giving the lease back only gives up that lease |
| AuthLinks.NextLinked | app/auth_sessions.py:307-423 | every script keeps authorities, their contexts and credentials linked with equal deadlines |
| AuthLinks.LinkedAlways | app/auth_sessions.py:307-423 | every store reached by any run of scripts is linked |
| AuthLinks.AuthorityStep | app/auth_sessions.py:558-639 | a live authority keeps its deadline and moves only by a rotation from its exact identity, one generation on |
| AuthLinks.AuthorityOverTime | app/auth_sessions.py:585-639 | over an authority's lifetime generations never go back and the deadline stands |
| AuthLinks.StaleForever | app/auth_sessions.py:382-389 | an identity of an earlier generation is refused by every script, which then changes nothing, for ever |
| AuthLinks.TicketUsedOnce | app/auth_sessions.py:585-639 | a used or replaced rotation ticket opens nothing again |
| AuthLinks.RotationSpendsTicket | app/auth_sessions.py:585-639 | a rotation needs the stored ticket and leaves none |
| AuthLinks.RepairExact | app/auth_sessions.py:670-729 | the exact answer to a repair request from a base cookie |
| AuthLinks.ReconcileExact | app/auth_sessions.py:643-666 | reconciliation accepts exactly the authority's current identity |
| AuthLinks.LostReplyRepaired | app/auth_sessions.py:643-729 | after a rotation, until the next one or expiry, only the exact successor is repaired or reconciled, the old identity included among the refused, and nobody is told the authority is at the base |
| AuthLinks.NeverRenewed | app/auth_sessions.py:400-423 | no run moves an authority's deadline; all its contexts share it and no credential outlives its context |
| AuthLinks.MigrationInherits | app/auth_sessions.py:469-501 | migrating a V1 context inherits its deadline |
| AuthLinks.MarkerBounded | app/auth_sessions.py:823-832 | in every reachable store the refresh marker is at most the operation epoch |
| AuthStore.AuthorizationChanged | app/auth_sessions.py:869-897 | the field-by-field comparison is true exactly when some authorization field differs, missing and empty company fields being equal |
| AuthStore.Sessions.BootstrapOld | app/auth_sessions.py:30-104 | the in-place V1 bootstrap has exactly the effect and reply of its script |
| AuthStore.Sessions.BeginOld | app/auth_sessions.py:108-174 | the same for V1 begin |
| AuthStore.Sessions.CommitOld | app/auth_sessions.py:178-257 | the same for V1 commit |
| AuthStore.Sessions.BootstrapContext | app/auth_sessions.py:426-554 | the same for V2 bootstrap, including migration of a V1 context |
| AuthStore.Sessions.RotateContext | app/auth_sessions.py:558-639 | the same for rotation |
| AuthStore.Sessions.ReconcileRotation | app/auth_sessions.py:643-666 | the same for reconciliation |
| AuthStore.Sessions.RepairRotation | app/auth_sessions.py:670-729 | the same for repair |
| AuthStore.Sessions.IssueRotationTicket | app/auth_sessions.py:733-762 | the same for a rotation ticket |
| AuthStore.Sessions.ReadContext | app/auth_sessions.py:766-791 | the same for the principal snapshot |
| AuthStore.Sessions.BeginOperation | app/auth_sessions.py:795-841 | the same for V2 begin |
| AuthStore.Sessions.CommitOperation | app/auth_sessions.py:845-921 | the same for V2 commit with an optional credential |
| AuthStore.Sessions.StoreLoginCredential | app/auth_sessions.py:925-940 | the same for a stored credential |
| AuthRefresh.AwaitLease | app/auth.py:344-362 | with arbitrary calls of others before each of its own, the loop makes exactly the calls `Trace` lists; a lease obtained is this refresh's own and reports the stored grant, and a result seen carries the evidence in the store |
| AuthRefresh.EvidenceBacks | app/auth.py:337-378 | the evidence the loop tests implies the peer's refresh behind it |
| AuthRefresh.RefreshSession | app/auth.py:324-425 | with arbitrary calls of others before each of its own: an adopted result, seen in a look or in the reply to the own begin, is backed by a peer's refresh if the clock does not go back and the last call comes before the context's deadline; with a lease, the calls are those of the plan, newer operations are left alone, and a lease given back changes nothing a reader sees |
| AuthRefresh.UseLease | app/auth.py:363-425 | the plan decided from the reply and the verdict, exactly the calls it makes with others before each, and its outcome; every commit leaves newer operations alone and a give-back goes unnoticed |
| AuthRefresh.CommitRenews | app/auth.py:392-398 | a committed refresh leaves the new principal, no lease, and a marker naming its operation |
| AuthRefresh.GiveBackAlwaysNeutral | app/auth.py:419-425 | for every run of other calls after a begin, in the context's lifetime, each commit of that operation leaves newer logins, logouts and refreshes alone, and giving the lease back changes nothing but the lease |
| AuthRefresh.LeaseAfterPeer | app/auth.py:373-379 | a peer's whole refresh between the first read and the own begin leaves a free lease whose reply is the evidence: the second test is reached |
| Base64Url.DecodeEncode | app/auth.py:149-155 | decoding an encoding returns the bytes; the encoding has (4n+2)/3 letters of the alphabet |
| Base64Url.EncodeDecode | app/auth_sessions.py:1156-1158 | a string is the encoding of what it decodes to exactly when its trailing bits are zero, and fails to decode exactly when one letter is left over |
| AuthCookie.DigestShape | app/auth_sessions.py:1083-1089 | every keyed digest is 43 letters of the alphabet |
| AuthCookie.AcceptedIsPrinted | app/auth_sessions.py:1138-1183 | an accepted V2 cookie is the printed form of its valid identity, whatever JSON reader is used |
| AuthCookie.AcceptedCanonical | app/auth_sessions.py:1148-1183 | the payload of an accepted cookie is canonical base 64 |
| AuthCookie.PrintedParses | app/auth_sessions.py:1126-1183 | parsing the printed form of a valid identity returns it, for a reader that reads the printed JSON texts right |
| AuthCookie.ParseExact | app/auth_sessions.py:1104-1183 | both directions: a cookie is accepted for an identity exactly when the identity is valid and the cookie is its printed form |
| AuthCookie.ReadPrintedLawful | app/auth_sessions.py:1104-1115 | the printed JSON text determines its three fields: a reader with that law exists |
| AuthCookie.PrintInjective | app/auth_sessions.py:1126-1135 | different identities have different cookies |
| XmlCollection.ExactCollectionItems | app/file_parser_contracts.py:289-360 | the streaming loop computes the recogniser's verdict and items on any events |
| XmlCollection.RecogniseExact | app/file_parser_contracts.py:289-360 | on the events of any tree it succeeds with given items exactly when root, single collection, leaf children and tags are as required and the items are the children in order |
| CellReference.Coordinates | app/file_parser_contracts.py:520-538 | the scanner of a cell reference computes letters, digits and range checks as specified |
| CellReference.ColumnOfLetters | app/file_parser_contracts.py:530-534 | writing a column in bijective base 26 and reading it gives the column back |
| CellReference.LettersOfColumn | app/file_parser_contracts.py:530-534 | reading capitals and writing the column gives the capitals back |
| CellReference.EveryCellReadable | app/file_parser_contracts.py:520-538 | every cell of the largest sheet has a reference that is read back as it |
| CellReference.SameCell | app/file_parser_contracts.py:520-538 | references to one cell have the same letters up to case and the same row number |
| Worksheet.PreflightSheet | app/file_parser_contracts.py:559-659 | the streaming preflight computes the specified verdict, facts and running cell count on any events |
| Worksheet.AcceptedAscends | app/file_parser_contracts.py:559-659 | the cells of an accepted sheet ascend strictly by row and column |
| Worksheet.ColumnsWithinIff | app/file_parser_contracts.py:559-659 | an accepted sheet stays within the last column exactly when no cell without a reference follows a cell in that column |
| Worksheet.ColumnOverrun | app/file_parser_contracts.py:559-659 | such a sheet is accepted, with a cell in column 16385 |
| Worksheet.Distinct | app/file_parser_contracts.py:559-659 | so the number of stored cells is the number of distinct cells |
| Worksheet.MaximaExact | app/file_parser_contracts.py:559-659 | the recorded maxima are attained and bound every cell |
| Worksheet.FactsExact | app/file_parser_contracts.py:559-659 | an accepted sheet stores at most maximal row times maximal column cells and its facts are those of its cells |
| Worksheet.WorkbookWithinCap | app/file_parser_contracts.py:662-693 | the cells of all sheets of an accepted workbook stay within the cap |
| Worksheet.PreflightWorkbook | app/file_parser_contracts.py:662-693 | the loop over sheets computes the workbook's verdict, facts and total |
| WorksheetTree.RunBelow | app/file_parser_contracts.py:559-659 | below a cell a subtree only adds dimensions, or is refused for hiding a row |
| WorksheetTree.PreflightExact | app/file_parser_contracts.py:559-659 | on the events of any tree the preflight accepts exactly when the outermost rows ascend, hold only well placed cells and fit the cap, and reads exactly those cells and the dimensions in order |
| WorksheetTree.TreeWithinIff | app/file_parser_contracts.py:559-659 | an accepted sheet stays within the last column exactly when in none of its outermost rows a cell without a reference follows one in that column |
| ToolEvidence.ValidateInvocations | app/required_tool_contract.py:498-526 | accepts exactly when every record is valid and bound and the records of each call are one start and one end; returns the records |
| ToolEvidence.RefusedForever | app/required_tool_contract.py:513-522 | a record the state table refuses makes its call incomplete whatever follows |
| ToolEvidence.InterleavingIrrelevant | app/required_tool_contract.py:498-526 | two validations agree on any two interleavings that keep each call's own order, malformed records included |
| ToolCompletion.PassesExact | app/required_tool_contract.py:1198-1218 | the test on the request, completion and failure lists holds exactly for one request followed by one acceptable end of the same call |
| ToolCompletion.SelectedDecision | app/required_tool_contract.py:1124-1230 | the decision and its reason, exactly, for any declarations and evidence |
| ToolCompletion.GroupExact | app/required_tool_contract.py:1266-1278 | for the records of one call the decision on one declaration is the per-call condition |
| ToolCompletion.InvocationDecision | app/required_tool_contract.py:1233-1280 | accepts exactly when every call has one available skill or MCP owner and is a request followed by a completion or permitted failure, all bound and with the owner's digest; raises exactly when the evidence is orderly and a builtin's record comes before any call that does not hold |
| ToolCompletion.BashRaises | app/required_tool_contract.py:163-164 | one Bash completion with Bash available makes the decision raise |
| ToolCompletion.SkillsAndToolsNeverRaise | app/executors/claude/capability_policy.py:262-284 | with only skills and MCP tools available the decision never raises |
| ToolCompletion.InterleavingIrrelevant | app/required_tool_contract.py:1233-1280 | two decisions allow alike on any two interleavings that keep each call's own order, malformed records included |
| ToolRuntime.OwnerError | app/required_tool_contract.py:1453-1502 | no error exactly when every call id has one owner across all evidence and a required completion is a local completion |
| ToolRuntime.RuntimeEvidence | app/required_tool_contract.py:1419-1450 | no error exactly when Bash evidence, capability check and owners all agree; what is normalized and which error is given |
| ToolRuntime.RequiredBacked | app/required_tool_contract.py:1419-1502 | accepted required evidence stands for a Bash call of this run that started and completed |
| ToolRuntime.CallsDisjoint | app/required_tool_contract.py:1453-1478 | in accepted evidence a skill or MCP call id is never a Bash call id |
| KeyDecoder.Candidates | app/public_context_keys.py:124-140 | the work-list loop terminates; its candidates are the non-empty strings within eight changing decodes, without repetition; the budget is exhausted exactly when something still changes |
| KeyDecoder.BudgetSuffices | app/public_context_keys.py:124-140 | unless exhausted, eight decodes reach everything any number of decodes reaches |
| KeyDecoder.Images | app/public_context_keys.py:143-166 | the normalized and token candidates are the distinct non-empty images of the candidates |
| KeyDecoder.IsPublicKey | app/public_context_keys.py:209-236 | a value is public exactly when its stripped text is not empty, settles within the budget, decodes to nothing refused however often, and is kept by the sanitiser |
| KeyDecoder.AcceptableForever | app/public_context_keys.py:209-234 | a key that passes the alias and token checks passes them after any number of further decodes |
| KeyDecoder.PublicForever | app/public_context_keys.py:209-234 | and so it does when each check strips its key first |

## Left out

- OAuth state scripts of `app/auth_sessions.py`: single-use records that would only add easy members.
- Redis transport, connection handling, routes and settings: input and output.
- `get_run_queue_position` and the bounded removal fallback of `app/queue.py`: sequences of separate reads that change nothing in agreeing structures.
- Textual codec of lease handles: a handle is the triple it stands for.
- Message ids: the SHA-256 of a raw entry is taken to be injective, so a message is its raw entry.
- Redis clock: microseconds for the queue and milliseconds for the authentication keys; expired keys are gone at the start of each script.
- Lua numbers: exact integers, with the epoch bound the scripts check.
- Ticket branch of the V2 bootstrap script: its callers always pass an empty ticket digest.
- HMAC-SHA-256 and the JSON reader: parameters, of which only the digest length and the reading of printed texts are used; a missing or short secret is not modelled.
- AuthCookie.Print: the printer is modelled for valid identities only, which is where the code calls it.
- Base64Url.Decode: strings over the alphabet only; the library's skipping of other characters is not modelled, because the cookie parser refuses them first.
- Unicode tables: which letters exist enters the cell scanner only as the ten letters outside ASCII whose upper case is made of Latin capitals; every other letter is refused either way.
- Worksheet dimension text: kept as the element; only the bounds taken from it enter the facts.
- Tool evidence strings, those of a capability declaration excepted: each constant the contract knows is a constructor and every other string is one more; a dictionary with wrong keys or types is one malformed value.
- Percent decoders, normalisation, tokenisation, white space, alias tables and the sanitiser of context keys: parameters of the rules; the results hold for any of them, and `PublicForever` for those that treat white space around a key as the library's do.
- Archive part and package target paths of `app/file_parser_contracts.py`: string rewriting outside the streaming checks.
- `app/executor_reconciler.py`, `app/worker.py`, `app/data_retention.py`: they rest on repository and provider behaviour outside the model.
