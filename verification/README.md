# FlowFabric: a Dafny model of its state machines

FlowFabric runs executions that belong to flows.  A flow is a graph of executions; an edge makes
a downstream execution wait for an upstream one, and the edges into one downstream form an edge
group with a policy (all of, any of, a quorum).  When an execution ends, a completion event enters
an outbox, and dispatchers carry the outcome along the edges: a group becomes satisfied and its
downstream runnable, or impossible and its downstream skipped, which ends it and continues the
cascade.  Workers hold executions under leases fenced by an epoch, and budgets meter what
executions spend.  The ferriskey client prints commands in the RESP protocol.

The project models the Postgres backend's transactions on these tables, the client's printer, the
outbox subscribers, the paged listings and the report time stamp.  Each transaction is a function
from the tables before to the tables after; beside it stands a class with mutable tables whose
methods do what the transaction does, row by row and loop by loop, and are proved equal to the
function.  Results about whole runs are proved about the functions.

| file | content |
|---|---|
| `Common.dfy` | options, machine-integer casts, JSON values |
| `EdgePolicy.dfy` | group policies: the decision, its exactness and finality, the stored form |
| `FlowModel.dfy`, `FlowStore.dfy` | the flow tables, every transaction on them, any interleaving of them |
| `FlowGraph.dfy` | revision, counts, membership, compare-and-set, policy freeze over every run |
| `FlowCounters.dfy` | conservation of the group counters under concurrent dispatchers |
| `EarlyDispatch.dfy` | runs in which a completion overtakes the apply of its edge |
| `HopMeaning.dfy` | what one hop of the cascade does to each row |
| `Cascade.dfy`, `Confluence.dfy`, `CascadeResult.dfy`, `QuietMeaning.dfy` | the skip cascade: termination, leastness, order independence, what its end means |
| `LeaseModel.dfy`, `LeaseStore.dfy`, `LeaseProofs.dfy`, `LeaseMeaning.dfy` | claims, fences, reclaims: token order, permanent fencing, accounting, when each call succeeds |
| `BudgetModel.dfy`, `BudgetStore.dfy`, `BudgetProofs.dfy`, `BudgetMeaning.dfy` | budgets: limit safety, ledger conservation, replay erasure, what each answer means |
| `Decimal.dfy`, `Resp.dfy`, `RespWriter.dfy` | RESP printing, an independent reader, the round trip |
| `Calendar.dfy` | the report time stamp against the Gregorian calendar |
| `Subscription.dfy`, `SubscriptionProofs.dfy` | outbox subscribers: delivery, resumption, catching up |
| `Listing.dfy` | cursor-paged listings and walks over a changing table |

## Where the code does not keep a property, and exactly when it does

- A quorum of 2^31 or more reads as negative after the cast and is satisfied at once
  (`EdgePolicy.EvaluateExact`).  A group without upstreams is impossible for a positive quorum but
  stays pending for ever under the other two policies (same lemma, and `PoliciesAsQuorum`).
- `apply_dependency_to_child` counts the edge towards the downstream the caller names, and whether
  or not the edge has been dispatched already.  Right counts stay right exactly when the downstream
  is the edge's own, the edge has not been dispatched, and no other edge was dispatched into the
  group before it had a row (`FlowCounters.ApplyCountsIff`).
- A dispatcher advances every outgoing edge, applied or not.  Counts and history both survive a hop
  exactly when the edge was applied before (`FlowCounters.AdvanceConservesIffApplied`); an early hop
  on a group without a row or with nothing running only reads right until the apply
  (`FlowCounters.HopCountsIff`).  So a completion that overtakes the apply is lost: the run in
  `EarlyDispatch.LostCompletion` ends with nothing to dispatch and the downstream pending for ever.
- A decision already taken survives a hop exactly when the bucket had a running upstream or the
  outcome is harmless (`FlowCounters.HopKeepsDecisionIff`).  The run in
  `EarlyDispatch.ReleasedThenSkipped` skips an execution that had been released.
- The fence compares the epoch of the handle's own attempt row only.  A handle is lost exactly when a
  claim takes the current row or a resume the latest row, both read off the tables before the call;
  a reclaim never loses one (`LeaseProofs.TokenLostIffRowTaken`).  Its holder can then end the
  execution under the new holder (`LeaseProofs.OldHolderEndsExecution`), as in the run of
  `LeaseProofs.OldHolderRun`.
- A hard limit of 2^63 or more is not protected: an admitted amount can be cast to a negative one
  (`BudgetProofs.LimitHoldsExactly`, `HugeLimitGoesNegative`).
- `reset_budget` clears the counters and leaves the ledger.  The books stay in order exactly when
  nobody owed anything (`BudgetProofs.ResetInOrderIffNothingOwed`); otherwise a later release takes
  from others (`ReleaseAfterResetTakesFromOthers`) and a spend within its limit can be aborted by
  the ledger column (`ResetLeavesLedgerFull`), exactly when the execution's row has no room
  (`SafeCallAbortsIffLedgerFull`).
- The size reserved for a fenced command leaves the fence out; it is exact exactly for commands
  without one (`RespWriter.Cmd.CmdLen`).

## Model

| member | source | states |
|---|---|---|
| EdgePolicy.FuturesReduce | crates/ff-backend-postgres/src/dispatch.rs:494-541 | A policy is met by every (by no) way the running upstreams can end iff it is met (unmet) when all of them fail (succeed) |
| EdgePolicy.EvaluateExact | crates/ff-backend-postgres/src/dispatch.rs:494-541 | Satisfied iff every future meets the policy, Impossible iff none does, never Pending with nothing running: exactly for quorums below 2^31 and groups with an upstream; a satisfied group cancels its siblings iff its policy is AnyOf or Quorum with CancelRemaining |
| EdgePolicy.CancelExact | crates/ff-backend-postgres/src/dispatch.rs:506-530 | For all counters: the cancel flag of a satisfied group is true iff the policy is AnyOf or Quorum with CancelRemaining |
| EdgePolicy.PoliciesAsQuorum | crates/ff-backend-postgres/src/dispatch.rs:494-541 | AnyOf decides like a quorum of one and AllOf like a quorum of all, exactly when there is an upstream |
| EdgePolicy.DecisionStable | crates/ff-backend-postgres/src/dispatch.rs:494-541 | Moving upstreams out of the running bucket never revises a decision taken |
| EdgePolicy.DecisionFinal | crates/ff-backend-postgres/src/dispatch.rs:300-315 | A decision taken outlives every sequence of further outcomes on a group with fixed edges |
| EdgePolicy.PolicyRoundTrip | crates/ff-backend-postgres/src/flow.rs:147-192 | The policy the cascade decodes from the stored JSON is the policy that was encoded |
| EdgePolicy.DecodeTolerant | crates/ff-backend-postgres/src/dispatch.rs:543-569 | Every JSON decodes: unknown kind to AllOf, missing or oversized quorum to 1, on-satisfied to LetRun iff it says so |
| EdgePolicy.OutcomeKindExact | crates/ff-backend-postgres/src/dispatch.rs:170-179 | An outcome counts as success or skip iff it is the one word for it, and as a failure otherwise |
| FlowStore.Store.CreateFlow | crates/ff-backend-postgres/src/flow_staging.rs:82-129 | Keeps the graph invariant and takes nothing back; the flow is there afterwards, and a new one has no members and no edges |
| FlowStore.Store.InsertExecution | crates/ff-backend-postgres/src/exec_core.rs:95-190 | Keeps the graph invariant; a new execution belongs to no flow, an existing one is left alone |
| FlowStore.Store.FinishExecution | crates/ff-backend-postgres/src/attempt.rs:566-606 | Keeps the graph invariant; the row ends in the given phase with flow and skip mark unchanged; the completion event carries the row's flow and the outcome, gets a new id and can be claimed; no other row or event changes |
| FlowStore.Store.AddExecutionToFlow | crates/ff-backend-postgres/src/flow_staging.rs:141-267 | Keeps the graph invariant; taken in iff the flow is there and not closed and the execution is there and free, each other answer with its reason; the execution is then a member and the count answered is the number of members; a refusal changes nothing |
| FlowStore.Store.StageDependencyEdge | crates/ff-backend-postgres/src/flow_staging.rs:286-446 | Keeps the graph invariant; staged iff the flow is open at the expected revision, both ends are distinct members and the edge is new; the revision answered is members plus edges; a refusal changes nothing |
| FlowStore.Store.ApplyDependencyToChild | crates/ff-backend-postgres/src/flow_staging.rs:463-564 | Keeps the graph invariant and every policy; the edge ends applied; right counts stay right iff the downstream is the edge's own, the edge was not dispatched before, and no edge was dispatched into the group before it had a row; the number answered is then that of the applied edges still waiting |
| FlowStore.Store.SetEdgeGroupPolicy | crates/ff-backend-postgres/src/flow.rs:782-873 | Keeps the graph invariant; refused iff the quorum is zero or an edge is staged; the policy read back through the stored JSON is the accepted one, every other group's unchanged |
| FlowStore.Store.BumpCounters | crates/ff-backend-postgres/src/dispatch.rs:300-345 | One upstream moves from running to its outcome, and the decision is the one for the new counters |
| FlowStore.Store.Release | crates/ff-backend-postgres/src/dispatch.rs:346-432 | A live downstream is eligible now, runnable if it was blocked, otherwise unchanged; one that has ended keeps its row; the members recorded, once, are exactly the live unskipped executions with an edge into the group, the winner excepted |
| FlowStore.Store.AdvanceEdgeGroup | crates/ff-backend-postgres/src/dispatch.rs:252-480 | One hop is the model's hop, keeps the graph invariant, releases, skips or leaves the downstream column by column as the decision says, lists exactly the siblings to cancel, and no event already in the outbox changes |
| HopMeaning.HopDoes | crates/ff-backend-postgres/src/dispatch.rs:252-480 | A satisfied hop makes a live downstream eligible and unblocked, an impossible one ends it skipped with a new event, a pending one changes no row; siblings are flagged once and listed by membership; nothing else changes |
| FlowStore.Store.DispatchCompletion | crates/ff-backend-postgres/src/dispatch.rs:77-154 | A call that wins the claim is one dispatching run of claim and one hop per outgoing edge, leaves nothing owed and reports the number of edges; a lost claim changes nothing |
| FlowGraph.GraphBookkeeping | crates/ff-backend-postgres/src/flow_staging.rs:82-446 | In every reachable state revision is nodes plus edges, both counts are exact, every edge joins two distinct members, and no flow membership or edge is ever taken back |
| FlowGraph.RevisionSpentOnce | crates/ff-backend-postgres/src/flow_staging.rs:316-372 | At most one stage call per expected revision succeeds in any run |
| FlowGraph.PolicyIsLastAccepted | crates/ff-backend-postgres/src/flow.rs:782-873 | The policy the cascade reads is always the last accepted one, AllOf before any |
| FlowGraph.PolicyFrozen | crates/ff-backend-postgres/src/flow.rs:782-873 | Once an edge into a downstream is staged its policy is the same in every later state |
| FlowCounters.StepKeepsInv | crates/ff-backend-postgres/src/dispatch.rs:77-480 | Every transaction, in any interleaving that applies edges in time, keeps counters, outbox, outstanding work and history consistent |
| FlowCounters.NotYetAdvanced | crates/ff-backend-postgres/src/dispatch.rs:84-129 | An unclaimed event has advanced none of its edges, so none is counted twice |
| FlowCounters.CountersConserved | crates/ff-backend-postgres/src/dispatch.rs:304-340 | Over every run, running is the number of applied edges not yet advanced and success, fail and skip are the advanced edges by their own upstream's outcome |
| FlowCounters.EmptyConserved | crates/ff-backend-postgres/src/flow_staging.rs:82-129 | The empty tables satisfy every invariant, so every run from them does |
| FlowCounters.ApplyCountsIff | crates/ff-backend-postgres/src/flow_staging.rs:463-564 | From right counts, an apply leaves them right iff the downstream named is the edge's own, the edge has not been dispatched, and the group has a row or nothing counted into it |
| FlowCounters.HopKeepsDecisionIff | crates/ff-backend-postgres/src/dispatch.rs:300-315 | A hop keeps a decision taken iff it leaves a nonempty running bucket or its outcome is harmless for the policy |
| FlowCounters.LateFailureSkipsReleased | crates/ff-backend-postgres/src/dispatch.rs:433-475 | With nothing running, a failure skips a live downstream that AllOf had released |
| FlowCounters.HopCountsIff | crates/ff-backend-postgres/src/dispatch.rs:117-129 | Right after a first hop the counts read right iff the edge was applied, its group has no row or nothing was running |
| FlowCounters.AdvanceConservesIffApplied | crates/ff-backend-postgres/src/dispatch.rs:117-129 | A first hop for a claimed event keeps the counts and the history they rest on iff the edge was applied before |
| EarlyDispatch.LostCompletion | crates/ff-backend-postgres/src/dispatch.rs:284-291 | A run from the empty tables: the completion overtakes the apply, and at the end nothing is left to dispatch while the downstream stays pending with wrong counts |
| EarlyDispatch.ReleasedThenSkipped | crates/ff-backend-postgres/src/dispatch.rs:433-475 | A run from the empty tables: an execution released by every applied upstream is skipped when an upstream whose edge was not applied fails |
| Cascade.AdvanceKeepsLoad | crates/ff-backend-postgres/src/dispatch.rs:433-475 | A skip trades exactly one live execution for one new event |
| Cascade.CascadeEnds | crates/ff-backend-postgres/src/dispatch.rs:77-154 | On every graph, cycles included, and with no discipline at all, each claimed event lowers live executions plus unclaimed events by exactly one and the length of a run is bounded |
| Cascade.DispatchLength | crates/ff-backend-postgres/src/dispatch.rs:77-154 | With edges applied in time, the length of a dispatching run is exactly the rank it uses up |
| Cascade.QuiescenceReachable | crates/ff-backend-postgres/src/dispatch.rs:77-154 | From every state with fresh event ids and outstanding work on existing rows, some dispatching run reaches a state with nothing left to do |
| Cascade.AppliedGraphOrderly | crates/ff-backend-postgres/src/dispatch.rs:117-129 | On a graph whose edges are all applied every dispatching run keeps the discipline |
| Confluence.QuietAdvanced | crates/ff-backend-postgres/src/dispatch.rs:77-480 | At a quiet end an edge has been advanced with an outcome iff its upstream ends that way |
| Confluence.QuietVerdict | crates/ff-backend-postgres/src/dispatch.rs:300-340 | At a quiet end each group's decision is the one read off the starting tables and the skipped set |
| Confluence.SkippedIsLeast | crates/ff-backend-postgres/src/dispatch.rs:77-480 | The set of executions skipped is closed under impossibility and inside every closed set |
| CascadeResult.CascadeConfluent | crates/ff-backend-postgres/src/dispatch.rs:77-480 | Any two orders of dispatching, by any number of dispatchers, end with the same skipped set, execution rows, counters, flags and pending cancels, after equally many steps |
| QuietMeaning.QuietRow | crates/ff-backend-postgres/src/dispatch.rs:343-475 | At a quiet end a member some upstream reached has the row its verdict on the starting tables says: eligible and not blocked when satisfied, skipped when impossible, untouched when pending; one that none reached is untouched |
| QuietMeaning.QuietCancels | crates/ff-backend-postgres/src/dispatch.rs:366-432 | At a quiet end a group neither flagged nor pending before is pending cancel, and flagged, iff an upstream reached it, its policy asks to cancel and enough upstreams succeed |
| LeaseStore.Store.TryClaim | crates/ff-backend-postgres/src/attempt.rs:137-294 | Minted iff the execution is runnable and eligible, on its current index, with the lease live until exactly the time given and nothing left to claim; keeps rows and handles in agreement; the token is above all earlier ones of its execution and the newest on its row |
| LeaseStore.Store.ClaimFromResumeGrant | crates/ff-backend-postgres/src/attempt.rs:298-408 | The row of the highest index changes hands under the next epoch iff its lease is out; without a row the answer is NotFound; the same promises for the token given out |
| LeaseStore.Store.FenceCheck | crates/ff-backend-postgres/src/attempt.rs:416-445 | A token passes iff it was given out and is the newest on its row |
| LeaseStore.Store.Renew | crates/ff-backend-postgres/src/attempt.rs:449-489 | Done iff the handle is the newest on its row, otherwise nothing changes; when done the lease is live until exactly the new time, the outcome is unchanged, and a resume of the highest row is refused exactly until then |
| LeaseStore.Store.Progress | crates/ff-backend-postgres/src/attempt.rs:493-533 | Done iff the handle is the newest on its row, otherwise nothing changes; when done nothing modelled moves |
| LeaseStore.Store.Complete | crates/ff-backend-postgres/src/attempt.rs:537-619 | Done iff the handle is the newest on its row, otherwise nothing changes; when done the row succeeded and is not live, the execution is Terminal, and every claim answers NoGrantAvailable and no grant is given |
| LeaseStore.Store.Fail | crates/ff-backend-postgres/src/attempt.rs:623-765 | Done iff the handle is the newest on its row, otherwise nothing changes; when done a retryable failure leaves every claim a first handle on exactly the next index, and any other leaves the execution Terminal with nothing to claim; the row's lease is not live |
| LeaseStore.Store.Delay | crates/ff-backend-postgres/src/attempt.rs:769-826 | Done iff the handle is the newest on its row, otherwise nothing changes; when done the execution is Runnable at the same index with nothing to claim, and a resume of the highest row mints the next epoch |
| LeaseStore.Store.WaitChildren | crates/ff-backend-postgres/src/attempt.rs:830-885 | Done iff the handle is the newest on its row, otherwise nothing changes; when done the execution is Runnable at the same index with nothing to claim, the row waits for children, and a resume of the highest row mints the next epoch |
| LeaseStore.Store.IssueReclaimGrant | crates/ff-backend-postgres/src/claim_grant.rs:233-377 | Granted iff the execution is Active under the cap, its lease is flagged lost, missing, run out or held by no one, and the id is new; each refusal by its reason, changing nothing |
| LeaseStore.Store.ReclaimExecution | crates/ff-backend-postgres/src/claim_grant.rs:404-706 | By the grant issued last: Minted iff it names the worker and has not run out, the execution has not ended and the cap is not reached; at the cap the execution is Terminal and the grant gone; every other refusal changes nothing; the insert never meets an old row; tokens increase |
| LeaseMeaning.WorkDoes | crates/ff-backend-postgres/src/attempt.rs:449-885 | What each fenced operation leaves for the next claim, resume and reclaim to answer, and that nothing but the handle's row and core moves |
| LeaseMeaning.ClaimDoes | crates/ff-backend-postgres/src/attempt.rs:137-294 | A claim succeeds iff the execution is runnable and eligible, and gives the current row under a lease live until exactly the time given |
| LeaseMeaning.ResumeDoes | crates/ff-backend-postgres/src/attempt.rs:298-408 | A resume succeeds iff the lease on the highest row is out, keeps its index and raises its epoch by one |
| LeaseMeaning.IssueDoes | crates/ff-backend-postgres/src/claim_grant.rs:233-377 | When a reclaim grant is given, refused for the cap, or refused for the lease, each as an if-and-only-if on the tables |
| LeaseMeaning.ReclaimDoes | crates/ff-backend-postgres/src/claim_grant.rs:404-706 | When a reclaim mints, ends the execution at the cap, or is refused, read off the grant, the core and the clock before the call |
| LeaseMeaning.GrantThenReclaim | crates/ff-backend-postgres/src/claim_grant.rs:233-706 | A grant just given mints for its worker iff it has not run out and the cap is not reached |
| LeaseProofs.RunForward | crates/ff-backend-postgres/src/attempt.rs:137-885 | In every reachable state each attempt row's index is at most its execution's counter, and no row is lost and no epoch or counter falls |
| LeaseProofs.ReclaimNeverCollides | crates/ff-backend-postgres/src/claim_grant.rs:604-661 | The plain insert of a reclaim never meets an existing row |
| LeaseProofs.TokensIncrease | crates/ff-backend-postgres/src/attempt.rs:192-207 | Over every run the tokens minted for one execution strictly increase, attempt index first, epoch second |
| LeaseProofs.StaleTokenFencedForever | crates/ff-backend-postgres/src/attempt.rs:416-445 | After a newer token on a row, every fenced operation under an older one returns LeaseConflict and changes nothing, for the rest of the run |
| LeaseProofs.TokenLostIffRowTaken | crates/ff-backend-postgres/src/attempt.rs:416-445 | After any call a token that passed fails the fence iff, by the tables before it, the call was a claim taking its row as the current one or a resume taking it with its lease out |
| LeaseProofs.OldHolderEndsExecution | crates/ff-backend-postgres/src/attempt.rs:537-619 | A holder whose row a successful claim of the execution does not take can end the execution while the newer token still passes on an untouched row |
| LeaseProofs.OldHolderRun | crates/ff-backend-postgres/src/claim_grant.rs:404-706 | A run that gets there: claim, expiry, grant, reclaim, and the first holder's completion ends the execution under the second |
| LeaseProofs.FencePassesNewestOnly | crates/ff-backend-postgres/src/attempt.rs:416-445 | On consistent tables a token passes iff it was given out and is the newest on its row |
| LeaseProofs.StepKeepsHandles | crates/ff-backend-postgres/src/attempt.rs:137-885 | Every transaction keeps each row at the epoch of a handle given out for it, no row behind a handle, handles in order |
| LeaseProofs.ReclaimRaisesEpoch | crates/ff-backend-postgres/src/claim_grant.rs:582-669 | A reclaim opens the next index above the interrupted epoch, marks the old row, counts itself within the cap and uses up its grant |
| LeaseProofs.ReclaimsBounded | crates/ff-backend-postgres/src/claim_grant.rs:488-580 | Under a cap of m at most m reclaims of an execution succeed in any run |
| LeaseProofs.GrantsConserved | crates/ff-backend-postgres/src/claim_grant.rs:334-461 | Grants issued plus those there before are grants consumed plus those still there, so one grant gives at most one handle |
| BudgetModel.OutcomeRoundTrip | crates/ff-backend-postgres/src/budget.rs:75-141 | A stored outcome decodes to itself, so a replay returns the first answer |
| BudgetModel.OutcomeReadTolerant | crates/ff-backend-postgres/src/budget.rs:101-141 | A record reads as corrupt iff its kind is unknown; missing fields read as empty or zero |
| BudgetModel.FirstOver | crates/ff-backend-postgres/src/budget.rs:314-379 | The position found is over its limit and none before it is |
| BudgetModel.StepInRange | crates/ff-backend-postgres/src/budget.rs:391-402 | No transaction leaves a counter outside its 64-bit column |
| BudgetStore.Store.CheckHard | crates/ff-backend-postgres/src/budget.rs:314-381 | The admission loop finds the first hard breach, seeds exactly the rows looked at, and projects each value |
| BudgetStore.ApplyOne | crates/ff-backend-postgres/src/budget.rs:1089-1128 | One round adds to the counter and the ledger row, or reports the overflow that aborts the transaction |
| BudgetStore.ApplyAll | crates/ff-backend-postgres/src/budget.rs:1085-1139 | The apply loop adds every amount or finds that some counter does not fit; the breach noted is of the first dimension whose projected value is above a nonzero soft limit, and none is noted iff there is no such dimension |
| BudgetStore.Store.Spend | crates/ff-backend-postgres/src/budget.rs:953-1175 | A replay changes nothing; otherwise the answer is the first hard breach, OutOfRange, the first soft breach or Ok by the limits and counters before the call, breach counters move with it only, and amounts land exactly when admitted; records stay decodable, none is lost, no dimension leaves its limit |
| BudgetMeaning.SpendAnswers | crates/ff-backend-postgres/src/budget.rs:314-435 | The answer in every case, by the first dimension over its hard limit, the columns' room and the first dimension over its soft limit |
| BudgetMeaning.SoftBreachIff | crates/ff-backend-postgres/src/budget.rs:404-435 | SoftBreach(d, v, l) iff the call is admitted and d is the first listed dimension whose projected value v is above a nonzero soft limit l; Ok iff admitted and there is none |
| BudgetMeaning.SoftBreachIsStored | crates/ff-backend-postgres/src/budget.rs:391-415 | With counters not negative and amounts below 2^63 the value answered is the counter stored, and it is above the limit |
| BudgetMeaning.SpendCounts | crates/ff-backend-postgres/src/budget.rs:339-435 | The soft breach count rises by one iff the answer is a soft breach, the breach count and last breach move iff it is a hard one; limits and other budgets never move |
| BudgetMeaning.SpendLands | crates/ff-backend-postgres/src/budget.rs:1085-1128 | Each listed counter and ledger row gains exactly its amount when the call is admitted; no other row moves, and none otherwise |
| BudgetStore.LowerAll | crates/ff-backend-postgres/src/budget.rs:1226-1243 | Every ledger row of the execution is taken off its counter, clamped at zero, or some difference does not fit |
| BudgetStore.Store.ReleaseBudget | crates/ff-backend-postgres/src/budget.rs:1185-1258 | Equals the model and keeps the same; the execution's rows are gone, and on books in order each counter falls by exactly what it owed |
| BudgetStore.Store.ResetBudget | crates/ff-backend-postgres/src/budget.rs:587-678 | Equals the model and keeps the same; books in order stay so iff nobody owed anything on the dimension |
| BudgetStore.Store.CreateBudget | crates/ff-backend-postgres/src/budget.rs:527-581 | Equals the model and keeps the same; no existing budget changes |
| BudgetStore.BuildLimits | crates/ff-backend-postgres/src/budget.rs:507-525 | The loop gives each dimension the last limit listed for it |
| BudgetMeaning.LimitMapIs | crates/ff-backend-postgres/src/budget.rs:507-525 | Each listed dimension has the limit at its last position, and no other dimension has one |
| BudgetMeaning.CreateDoes | crates/ff-backend-postgres/src/budget.rs:527-581 | Created iff the lists are of one length and the budget is new, with the last limit listed for each dimension and nothing counted; otherwise nothing changes |
| BudgetMeaning.ResetDoes | crates/ff-backend-postgres/src/budget.rs:587-678 | Exactly the budget's counters are zeroed and its last breach forgotten |
| BudgetMeaning.ReleaseInOrderFinishes | crates/ff-backend-postgres/src/budget.rs:1226-1243 | On books in order a release never aborts |
| BudgetProofs.LimitHoldsExactly | crates/ff-backend-postgres/src/budget.rs:338-343 | The admission test protects a limit iff the limit is below 2^63 |
| BudgetProofs.HardLimitSafety | crates/ff-backend-postgres/src/budget.rs:314-415 | Over every run of reports, spends, releases, resets and creations a limited dimension stays between zero and its limit |
| BudgetProofs.SafeCallAbortsIffLedgerFull | crates/ff-backend-postgres/src/budget.rs:1085-1128 | A call within the limits of safe dimensions never overflows a counter and is aborted iff it is a spend and a ledger row of the execution has no room |
| BudgetProofs.InOrderNeverAborts | crates/ff-backend-postgres/src/budget.rs:1085-1128 | While the books are in order no admitted call on safe dimensions is aborted |
| BudgetProofs.HugeLimitGoesNegative | crates/ff-backend-postgres/src/budget.rs:338-402 | On a budget just created with a limit from 2^63 on, a report of just the limit is accepted and leaves the counter negative |
| BudgetProofs.ResetLeavesLedgerFull | crates/ff-backend-postgres/src/budget.rs:631-642 | On a budget just created, a spend, a reset and the same spend: within the limit, counter at zero, and aborted |
| BudgetProofs.HardBreachChangesNoCounter | crates/ff-backend-postgres/src/budget.rs:339-379 | A call is refused iff some dimension passes its limit, and then no counter and no ledger entry moves |
| BudgetProofs.LedgerConserved | crates/ff-backend-postgres/src/budget.rs:1103-1139 | Over every run without a reset of the budget, a counter is what executions owe plus applied reports plus what was unattributed at the start |
| BudgetProofs.ReleaseUndoesOwnSpends | crates/ff-backend-postgres/src/budget.rs:1205-1254 | A release lowers the counter by exactly what the execution owes, so the clamp never fires, and removes that entry only |
| BudgetProofs.ResetInOrderIffNothingOwed | crates/ff-backend-postgres/src/budget.rs:631-642 | A reset leaves books in order iff nobody owed anything on the dimension |
| BudgetProofs.ReleaseAfterResetTakesFromOthers | crates/ff-backend-postgres/src/budget.rs:1226-1243 | On a budget just created, after a spend, a reset and another execution's spend, releasing the first takes from the second |
| BudgetProofs.PlaceholderUnreachable | crates/ff-backend-postgres/src/budget.rs:270-276 | No reachable record is the empty placeholder |
| BudgetProofs.ReplayReturnsFirst | crates/ff-backend-postgres/src/budget.rs:240-282 | After a call under a key, however much later, a report under it returns the first outcome and a spend AlreadyApplied, and nothing changes |
| BudgetProofs.RecordedKeysExact | crates/ff-backend-postgres/src/budget.rs:971-1012 | The recorded keys are exactly those there at the start and those of the calls carried out since |
| BudgetProofs.ReplaysErasable | crates/ff-backend-postgres/src/budget.rs:240-282 | Leaving out every call that repeats a key recorded at the start or used by an earlier call of the run leaves the whole final state unchanged |
| Decimal.CountDigits | ferriskey/src/cmd.rs:143-162 | Counting four digits at a time gives the length of the decimal text |
| Decimal.ValueOfDigits | ferriskey/src/cmd.rs:218-219 | Decimal text reads back to its number |
| Resp.FenceIsPing | ferriskey/src/cmd.rs:43-44 | The fence bytes are the printed PING command |
| Resp.ReadCommandOfPrint | ferriskey/src/cmd.rs:207-245 | Reading a printed command gives its words and exactly the bytes that follow |
| Resp.ReadCommandExtends | ferriskey/src/cmd.rs:207-245 | What has been read is not changed by what follows, so no command is a prefix of another |
| Resp.ReadAllJoin | ferriskey/src/pipeline.rs:153-173 | Streams that read in full can be joined |
| Resp.PipelineRoundTrip | ferriskey/src/pipeline.rs:147-173 | The bytes of any pipeline, fenced, atomic or with pre-packed streams, read back to exactly its commands with nothing left over |
| Resp.PipelineInjective | ferriskey/src/pipeline.rs:147-173 | Pipelines with the same bytes carry the same commands |
| Resp.MeaningIs | ferriskey/src/cmd.rs:207-245 | A command means one array with each argument's own bytes, the scan cursor (0 when unset) as a decimal number, and one PING when fenced |
| RespWriter.BuiltReadsBack | ferriskey/src/cmd.rs:207-251 | Arguments written one by one and packed read back as exactly those words |
| RespWriter.ArgAppends | ferriskey/src/cmd.rs:248-251 | Appending bytes and an end offset appends one argument and leaves the others alone |
| RespWriter.ArgsLen | ferriskey/src/cmd.rs:165-185 | The computed size is the exact length of the printed command |
| RespWriter.WriteBulk | ferriskey/src/cmd.rs:231-238 | One argument is printed as a bulk string |
| RespWriter.WriteItems | ferriskey/src/cmd.rs:223-239 | The argument loop prints the arguments in order, the cursor as its number |
| RespWriter.WriteCommand | ferriskey/src/cmd.rs:207-245 | The buffer grows by exactly the printed command and its fence |
| RespWriter.Cmd.constructor | ferriskey/src/cmd.rs:295-304 | A new command is empty and valid |
| RespWriter.Cmd.FromPackedCommand | ferriskey/src/cmd.rs:313-322 | A pre-packed command holds the bytes and no arguments |
| RespWriter.Cmd.WriteArg | ferriskey/src/cmd.rs:247-251 | The argument list grows by the argument, offsets stay valid |
| RespWriter.Cmd.SetFenced | ferriskey/src/cmd.rs:451-454 | Only the fence flag changes |
| RespWriter.Cmd.ArgsIter | ferriskey/src/cmd.rs:399-410 | The forward walk over the offsets gives the argument list |
| RespWriter.Cmd.ArgIdx | ferriskey/src/cmd.rs:414-446 | The backward walk gives the argument the forward walk gives, and none for a cursor or out of range |
| RespWriter.Cmd.CmdLen | ferriskey/src/cmd.rs:187-193 | The reserved size is the exact byte length iff the command is pre-packed or not fenced |
| RespWriter.Cmd.WritePackedCommand | ferriskey/src/cmd.rs:359-385 | The buffer grows by exactly the packed command, pre-packed bytes verbatim |
| RespWriter.WriteEach | ferriskey/src/pipeline.rs:161-171 | The loop over the commands appends each packed command in order |
| RespWriter.WritePipeline | ferriskey/src/pipeline.rs:153-173 | The buffer grows by exactly the pipeline's bytes, framed by MULTI and EXEC when atomic |
| RespWriter.EncodePipeline | ferriskey/src/pipeline.rs:147-151 | The encoded bytes are the pipeline's |
| Calendar.YearStep | benches/harness/src/report.rs:296-298 | The leap rule agrees with the closed-form day count |
| Calendar.SecondsInjective | benches/harness/src/report.rs:258-294 | No two valid dates have the same second count |
| Calendar.TextRoundTrip | benches/harness/src/report.rs:290-293 | The formatted text reads back to the date |
| Calendar.YearOf | benches/harness/src/report.rs:268-276 | The year loop leaves a day inside the year it stops at |
| Calendar.MonthOf | benches/harness/src/report.rs:277-289 | The month loop stops inside the twelve months at a day of that month |
| Calendar.FormatSecs | benches/harness/src/report.rs:258-294 | For every 64-bit second count the text reads back as the valid date whose Gregorian second count it is |
| Subscription.TailStart | crates/ff-backend-postgres/src/completion.rs:171-179 | Tailing from the newest visible id starts right after the visible rows |
| Subscription.NoFilterPasses | crates/ff-backend-postgres/src/lease_event_subscribe.rs:52-73 | Without a filter every completion row passes, and every lease row that can be read and is of a known kind |
| Subscription.OtherNamespace | crates/ff-backend-postgres/src/completion.rs:138-157 | A namespace filter alone passes a row iff its namespace is the one named; a row without one never passes |
| Subscription.TagsReadDifferently | crates/ff-backend-postgres/src/completion.rs:138-157 | A completion row passes a tag only as key=value, a lease row only as the bare value, so no row passes both |
| Subscription.Subscriber.Completions | crates/ff-backend-postgres/src/completion.rs:162-187 | A completion subscriber starts at the newest visible row with the key=value tag filter |
| Subscription.Subscriber.Leases | crates/ff-backend-postgres/src/lease_event_subscribe.rs:84-125 | A lease subscriber starts strictly after its cursor, or without one at the newest visible row, with the value-only tag filter |
| Subscription.Subscriber.Send | crates/ff-backend-postgres/src/completion.rs:323-325 | A send succeeds iff the consumer is still there |
| Subscription.Subscriber.ForwardPage | crates/ff-backend-postgres/src/completion.rs:316-326 | The row loop is the model's: cursor first, then the filter, then the send |
| Subscription.Subscriber.Replay | crates/ff-backend-postgres/src/completion.rs:275-331 | The page loop is the model's: until an empty page, a failed query or a departed consumer |
| Subscription.Subscriber.OnSignal | crates/ff-backend-postgres/src/lease_event_subscribe.rs:150-214 | One turn of the loop is the model's, the disconnect notice included |
| Subscription.Subscriber.SubscriberLoop | crates/ff-backend-postgres/src/completion.rs:193-261 | The loop over any finite run of signals is the model's |
| SubscriptionProofs.PageIsNext | crates/ff-backend-postgres/src/completion.rs:282-291 | A page is the stretch of the outbox right after the cursor, cut at 256 rows |
| SubscriptionProofs.DrainCatchesUp | crates/ff-backend-postgres/src/completion.rs:275-331 | Enough successful queries that see the first m rows bring the replay past all of them |
| SubscriptionProofs.SubscriberDelivers | crates/ff-backend-postgres/src/lease_event_subscribe.rs:143-410 | Over every run of failures, wake-ups and reconnects, what is delivered is a prefix of the wanted rows above the cursor without repeat or gap, exactly those up to the position reached while the consumer stays, with one exact notice per lost connection; a consumer that leaves ends it and nothing else does |
| SubscriptionProofs.ResumeExact | crates/ff-backend-postgres/src/lease_event_subscribe.rs:185-198 | The rows a subscriber sent before a notice and the rows any run of a second one started at its cursor sends are together a prefix of what was due, and all of it once the second has sent all |
| Listing.Fetch | crates/ff-backend-postgres/src/exec_core.rs:494-509 | The query returns the least ids above the cursor, in order, up to its limit |
| Listing.ListExecutions | crates/ff-backend-postgres/src/exec_core.rs:470-521 | A page: the ids right after the cursor in order, next cursor iff more remain; limit capped at 1000, zero gives an empty page |
| Listing.ListLanes | crates/ff-backend-postgres/src/admin.rs:54-102 | The same page promise for lanes |
| Listing.ListFlows | crates/ff-backend-postgres/src/flow.rs:391-444 | The same page promise for flows |
| Listing.WalkIncreases | crates/ff-backend-postgres/src/exec_core.rs:470-521 | A completed walk lists strictly increasing ids, whatever happens to the table between pages |
| Listing.WalkComplete | crates/ff-backend-postgres/src/exec_core.rs:470-521 | Every id present at every call of the walk is listed |
| Listing.WalkSound | crates/ff-backend-postgres/src/exec_core.rs:470-521 | Every listed id was in the table of one of the calls |
| Listing.WalkListsOnce | crates/ff-backend-postgres/src/exec_core.rs:470-521 | Ids present throughout are listed exactly once, ids never present never, none twice |

## Left out

- CascadeResult.CascadeConfluent: the recorded sibling list of a cancelled group and the ids of outbox events depend on the order of dispatch and are not part of the result compared.
- FlowCounters.CountersConserved: counters are unbounded; the 32-bit width of the columns is modelled only where a quorum is cast to it.
- FlowStore.Store.DispatchCompletion: the retry wrapper around a hop and a dispatcher that dies between hops are not modelled; a hop commits or changes nothing.
- FlowStore.Store.AddExecutionToFlow: partitions, timestamps and the public state columns are not shown.
- LeaseStore.Store.TryClaim: the scan for a candidate row (priority order, capabilities, lanes) is not modelled; the call is given the row it chose.
- LeaseStore.Store.Fail: takes the retryable flag; the classification it comes from is a two-way table.
- LeaseStore.Store.Complete: outbox rows written by the lease operations belong to `FlowStore.Store.FinishExecution`.
- LeaseProofs.RunForward: the 32-bit saturation of the attempt index and saturating time arithmetic are not modelled; other writers are any step that loses no row and lowers no counter, so trimming is excluded.
- LeaseStore.Store.IssueReclaimGrant: grant ids are abstract numbers; claim-kind grants and hashing are not modelled.
- BudgetStore.Store.Spend: expiry of idempotency records, breach time stamps and dimension keys beyond the name are not modelled; limits are a map rather than the JSON they are stored in.
- BudgetProofs.LedgerConserved: needs amounts below 2^63, as larger ones are cast to negative numbers.
- RespWriter.ArgsLen: overflow of the platform's size type is not modelled, nor is the reserved capacity.
- Subscription.Subscriber.SubscriberLoop: rows become visible in event-id order and their columns decode; a lease row whose columns do not decode would not move the cursor. Payload building and cursor bytes are not modelled.
- Listing.ListLanes: ids are well formed; a malformed lane id is an error in the source.
- Suspension, cancellation of flows, retention trimming, quota policies and scheduled budget resets.
- Connection pools, LISTEN/NOTIFY transport, migrations, tracing, handle signing and identifier parsing.
- The ferriskey client beyond printing, and the rest of the benchmark harness.
