# A verified model of the replicated-log protocol

This project models the Multi-Paxos group of this repository: a group of members that elect a leader, replicate
its log, commit what a quorum holds and answer clients, with leader leases and commit wait over a TrueTime clock.
It states the protocol's guarantees as theorems over all runs and proves them with Dafny.

## How the model is laid out

The model has three layers.

* **Specification functions** give each handler's result as a value: `FollowerRole`, `LeaderRole`, `CandidateRole`,
  `PreCandidateRole` and `StateMachine`, over the member states of `Views`, the logs of `Wal`, the order statistics
  of `Quorums` and the clock of `TrueTime`.
* **Classes** are the handlers as the repository writes them: objects updated in place, with its loops.
  `WriteAheadLogs`, `SharedContexts`, `Followers`, `Leaders`, `Candidates`, `PreCandidates`, `PaxosStates` and
  `LeaseWatchers` prove every method equal to its specification function, on the whole new state and the answer.
* **The group** (`Group`) is a transition system: any number of members, a network that may lose, delay, reorder and
  repeat every message, true time, and readings of each member's clock that contain true time. `Facts` summarises
  what each handler guarantees. One module for each family of guarantees proves an invariant that every event keeps:
  `ElectionSafety`, `LeaseSafety`, `LogMatching`, `CommitCounting`, `Durability`, `InFlightQueues`, `ProbeAnchors`,
  `ClientWrites`. `EntryMerge` and `Survival` treat what an election preserves, `Takeovers` what a stale request does to
  one, `Deliveries` where requests come from and what delivering an old one costs, `Positions` what last terms, votes and
  promises say of logs, `Leaderships` what a leader gains while it leads, `Outcomes` what the outcome of each handler means
  to the others, `ResponseHandling` which responses a leader can act on, `Reconciliation` the probing loop, `SafeTime` safe
  reads. `Runs` states the results for every state of every execution. `Scenario` exhibits an execution that meets every assumption below.

Every event of the group uses the specification functions, so the theorems are about the same branches, constants
and error cases as the handlers; the classes tie those functions to code with assignments and loops.

Times are integers in nanoseconds. Terms and slots are natural numbers. Identifiers, entries and client commands are
opaque values.

## What is assumed, and where

Elections, votes and promises, leases and their renewal, Log Matching, entry identity, coverage, the copying of logs, what commits rest on, the survival of a
quorum's value, in-flight queues, safe time, external consistency and the conservation of client writes need no
assumption beyond correct clocks, unforged messages, and vote responses that reach only the campaign that asked. A stale
request can leave a log with a gap (`StaleAcceptOpensGap`, `StaleLastSlotOpensGap`), so these results compare logs slot by
slot: `Same` says that both hold one entry at a slot or neither holds any. Two results need more of the run:

* `InOrder`, for durable commits: links deliver accept requests in the order of dispatch. `AcknowledgedSlotStaysIff` says
  exactly when an acknowledged slot stays where it is without that.
* `WinsTopped`, for the responses of a term: whoever wins the term takes over with a log without gaps up to its last
  slot. `GaplessTakeoverIff` says exactly when an election leaves one, and `LeadershipKeepsGaps` that it stays that way.
  For a leader with such a log, anchors are never missing either.

Four things that one might expect do not hold in every run, and the model says exactly when they do:

* A member that counts for a commit has a copy of the leader's log. It does when it acknowledged the slot, but a match
  slot may also come from its promise: `SeedsAreCopiesIff`, `SeedCommitsWithoutQuorum`.
* A pending write lies above the committed slot: `PendingLiesAboveCommittedIff`, `TakeoverReachesCommittedIff`,
  `StaleAcceptReusesCommittedSlot`.
* A leader can handle every response on the network: `ResponsesHandledIff`, `ShortLogAnswerableIff`,
  `StaleLastSlotCanPanic`.
* An uncommitted entry at a leader has no timestamp below the safe time: `LeadershipReadsSafeIff`,
  `SafeTimeIsSoundIff`, `HeartbeatOverPendingWrite`.

## Where the code differs from its documentation

* The event loop raises the term before the vote handler compares it (`spx_core/src/state_machine/state.rs:29-38`,
  `spx_core/src/roles/follower.rs:157`), so a member as composed grants no vote: `ComposedNeverPromises`. The group
  uses the evident intent, deciding against the old term and raising it afterwards. This is the one place where
  the model departs from the code.
* Commit wait ends when the clock's `earliest` bound has passed the timestamp, where README.md:104 says `latest`. The
  model follows the code.
* A leader that receives a pre-vote request steps down while its lease is still running instead of after it
  (`spx_core/src/roles/leader.rs:650`). The group allows a leader to step down at any moment, which covers both.

## Model

| member | source | states |
|---|---|---|
| Runs.OneLeaderPerTermEver | spx_core/src/state_machine/state.rs:30-38 | election safety over whole runs: at whatever two moments, two members that lead in one term are the same member |
| Runs.LeaseOverBeforeWinEver | spx_core/src/roles/leader.rs:435-451 | lease disjointness over whole runs: any expiry that any leader ever stores lies before the true time at which any higher term is won, whichever comes first in the run |
| Runs.OneLeaseHolder | README.md:92-98 | at no instant are there two leaders whose leases both definitely still run, whatever their clocks answer |
| Runs.UncommittedAlwaysCovers | spx_core/src/roles/follower.rs:360-395 | in every reachable state and role, each log entry above the committed slot is in the uncommitted log, and identical |
| Runs.LogsMatchEver | spx_core/src/roles/follower.rs:315-380 | Log Matching in every run: two members' logs, taken at any two moments, that hold an entry of the same slot and term are the same through that slot, gaps included, under loss, repetition and reordering |
| Runs.EntriesMatchEver | spx_core/src/roles/leader.rs:319-330 | in every run, two entries of one slot and term that members hold at whatever moments, in their logs or uncommitted, are the same entry |
| Runs.AcceptCopiesEver | spx_core/src/roles/follower.rs:360-395 | at every delivery of an accept request in every run, success leaves the follower with the leader's whole log at dispatch and anything else leaves its log alone; a slot is newly committed only with that log, and the leader had committed it by then |
| Deliveries.SentArose | spx_core/src/roles/leader.rs:225-275 | every accept request on the network was dispatched at some earlier step by the member that led in its term, and carries that leader's log after an anchor that it held, as it stood at that step |
| Deliveries.AcknowledgedSlotStaysIff | spx_core/src/roles/follower.rs:360-380 | what reordering costs: as long as a member is in the term of a request that it accepted, its log has always been the leader's through the acknowledged slot if and only if each request that it has accepted since reaches that slot |
| Deliveries.AnnouncedMinimumBindsSuccessors | spx_core/src/roles/leader.rs:356-371 | why the announced minimum is capped at the lease: in every run, every write that a leader of a later term accepts, whenever, is stamped later than any minimum that was announced |
| Runs.CommitsAreCounted | spx_core/src/roles/leader.rs:465-503 | in every run, those that count when a leader commits a slot are a quorum, each the leader, acknowledging, or seeded that far by its promise |
| Runs.TermLogStays | spx_core/src/roles/leader.rs:314-334 | in every run, the log of a term never changes again through a slot that the last slot of its leader has reached |
| Runs.CommitsAreDurable | spx_core/src/roles/leader.rs:465-503 | with ordered links, at each step after a leader commits a slot, the leader and whoever acknowledged the slot is in a higher term or its log is the one that the leader committed with, through the slot, gaps included |
| Runs.QueuesAreOrdered | spx_core/src/roles/leader.rs:41-64 | in every run, a leader's in-flight queues ascend and end at the sent slot, so popping from the front removes exactly the batches that an acknowledgement covers |
| Runs.AnchorsNeverMissing | spx_core/src/roles/leader.rs:236-250 | in every state of every run, a leader's positions are in range, and if its own log has no gap the anchor of each exists, so no broadcast panics |
| Runs.ResponsesHandledIff | spx_core/src/roles/leader.rs:509-538 | up to any moment of a run, whoever leads a term that it took over without a gap can handle every response of the term, however stale, if and only if each follower that judged a request of the term without its anchor had a last slot that the leader, if still leading, reached |
| Runs.ExternallyConsistent | spx_core/src/roles/leader.rs:295-334 | in every run, if the reply to one write precedes the arrival of another in true time, on whatever leaders, the log entry of the first carries the smaller timestamp |
| Runs.EveryWriteIsPendingOrSettled | spx_core/src/roles/leader.rs:336-337 | in every run, while its leader leads, a write up to the last slot is either pending or settled after its slot committed, never both, and answered at most once |
| Runs.PendingLiesAboveCommittedIff | spx_core/src/roles/leader.rs:319-337 | up to any moment of a run, all pending writes always lie above their leader's committed slot if and only if each write reached a leader whose last slot reached its committed slot |
| Scenario.RunWithCommitExists | spx_core/src/roles/leader.rs:295-507 | the assumptions about runs can all be met: in some run of two members one is elected, accepts two writes, replicates the first, commits it on the acknowledgement and answers it after commit wait |
| Survival.QuorumValueSurvives | spx_core/src/roles/candidate.rs:200-231 | if each promiser that the winner recorded in some quorum held an entry when it promised, above the winner's committed slot, and nothing that the winner has at that slot is of a higher term, the winner's log holds it, stamped with the new term |
| Survival.PromiseReports | spx_core/src/roles/follower.rs:209-217 | in a run, a promise carries the last log term and slot and lists the whole uncommitted log of the member that gives it, as they stand at that step |
| Survival.CollectStep | spx_core/src/roles/candidate.rs:122-134 | every event keeps a candidate's pending entries the highest-term join of what its own campaign was promised, and its match slots those that promises to it seed |
| Survival.AnswerArose | spx_core/src/roles/follower.rs:117-218 | every answer on the network was given by some member at some earlier step of the run |
| Positions.LastTermIsOfLastEntry | spx_core/src/roles/follower.rs:376-380 | in every state of every run and in every role, the last log term is the term of the entry that the log holds at the last slot, if it holds one there |
| Positions.PositionStep | spx_core/src/roles/leader.rs:195-198 | every event, without assumption, keeps that: accepting, taking over and writing included |
| Positions.VotesGoToCurrentLogs | spx_core/src/roles/follower.rs:169-198 | in every run, a vote goes to a candidate that was behind the voter neither in its last term nor in its last slot when it started to campaign, by its own position then |
| Positions.AskArose | spx_core/src/context/mod.rs:240-247 | every vote request on the network was sent at some earlier step by a member that started to campaign, and names its position then |
| Positions.SeedsArose | spx_core/src/roles/leader.rs:142-173 | the match slots recorded for a term are those with which the member that won it started |
| Positions.SeedsArePromised | spx_core/src/roles/candidate.rs:125-132 | in every run, a match slot with which a leader starts is 0, or its owner promised to this campaign with the candidate's last term, and the slot is as far as the last slots of both went then |
| Positions.SeedsAreCopiesIff | spx_core/src/roles/candidate.rs:125-132 | in every run, through such a match slot both logs agreed, if they had no gap, when the promise was given; and after the takeover the giver's is still a copy if and only if nothing up to the slot is taken over |
| Positions.LeadersStartPastTheirLog | spx_core/src/roles/leader.rs:195-209 | in every run, a new leader has nothing in flight, is placed just past its own log for every follower, and first sends a request without entries from there |
| Leaderships.NothingGoesBack | spx_core/src/roles/leader.rs:429-503 | in every run, while a leader leads, its lease, its committed and last slot, and each contact and match slot never go back |
| Leaderships.HandledCounts | spx_core/src/roles/leader.rs:431-465 | in every run, a response that a leader has handled counts for the rest of its leadership: the contact as of the echoed time, and a success for its slot |
| Leaderships.MajorityRenewsLease | spx_core/src/roles/leader.rs:431-451 | in every run, once a leader has handled responses to requests of its term sent at some time or later, from followers that make a majority with it, its lease lasts a full length from that time for the rest of the leadership |
| Leaderships.ReplyCommitsIff | spx_core/src/roles/leader.rs:453-503 | a response commits a slot if and only if it is news to the leader, the slot is within the log, and the leader and the followers known to have it by now are a majority |
| Leaderships.MajorityCommits | spx_core/src/roles/leader.rs:465-503 | in every run, such a slot stays committed from then on |
| Reconciliation.Reconcile | spx_core/src/roles/leader.rs:509-538 | the reject, adjust, redispatch loop ends after at most two rejections for each distinct term of the follower's log plus two, and leaves the follower with the leader's log; other followers' progress is untouched |
| Reconciliation.RejectionDrops | spx_core/src/roles/follower.rs:317-359 | every rejection moves the probe back, to an anchor with strictly less left to reject |
| Reconciliation.AnswerProbe | spx_core/src/roles/follower.rs:315-374 | a probe succeeds exactly when the anchor's entries have one term; success leaves the leader's log, failure changes nothing and yields a hint |
| Reconciliation.ProbeAgain | spx_core/src/roles/leader.rs:509-538 | after a rejection the leader probes a new position or repeats the old anchor once, and what is left to reject decreases |
| Reconciliation.ComparableAligned | spx_core/src/roles/leader.rs:520-534 | under Log Matching, where two logs conflict, every leader entry of the follower's term lies before the conflict and is shared |
| Reconciliation.MembersComparable | spx_core/src/roles/leader.rs:225-275 | in every state with matching logs, a leader and a follower whose logs have no gap up to their last slots meet the loop's preconditions |
| ElectionSafety.ElectionStep | spx_core/src/roles/candidate.rs:105-177 | every event keeps: one ballot per member and term, every tally and every win backed by ballots of that campaign, boards over exactly the peers |
| ElectionSafety.OneLeaderPerTerm | spx_core/src/roles/candidate.rs:189-198 | two wins of one term are wins of one member, since vote quorums meet |
| ElectionSafety.VoteElection | spx_core/src/roles/follower.rs:126-204 | answering a vote request keeps the invariant: a grant is the member's first ballot in that term |
| ElectionSafety.PreVoteElection | spx_core/src/roles/precandidate.rs:78-91 | starting a campaign keeps the invariant: the candidate's own vote is its first ballot in the new term |
| ElectionSafety.TallyIsQuorum | spx_core/src/roles/candidate.rs:189-198 | the tally is complete if and only if the promisers and the candidate itself are a majority of the group |
| LeaseSafety.LeaseStep | spx_core/src/context/mod.rs:210-229 | every event keeps: each expiry that a leader ever stored is backed by a quorum whose own leases reach as far and which votes in higher terms only later |
| LeaseSafety.LeaseOverBeforeWin | README.md:96-98 | a stored expiry of a lower term lies before the true time of any win of a higher term |
| LeaseSafety.LeasesAreDisjoint | README.md:96-98 | two leaders whose leases are definitely still running are one member |
| LeaseSafety.RenewalBacked | spx_core/src/roles/leader.rs:435-451 | the lease renewed from the quorum-th newest contact is backed by the leader and the followers in recent contact |
| LeaseSafety.VotersBack | spx_core/src/roles/candidate.rs:137-149 | a new leader's first lease, counted from the vote dispatch, is backed by everyone who voted for it |
| LogMatching.LogStep | spx_core/src/roles/leader.rs:175-207 | every event, without assumption, keeps: each log and each request in flight is, up to every entry and gaps included, the log of the leader of that entry's term; each entry held, reported or pending is the one that its term's leader wrote; and the uncommitted log is complete above the committed slot |
| LogMatching.LogsMatch | spx_core/src/roles/follower.rs:315-380 | in a state, two members' logs with an entry of the same slot and term are the same through it |
| LogMatching.RequestMatches | spx_core/src/roles/leader.rs:239-275 | the same between a member's log and the entries of any request in flight, however old |
| LogMatching.AcceptRefinesCopy | spx_core/src/roles/follower.rs:360-395 | accepting is copying: success leaves the leader's log as of dispatch, and commits as far as the leader had committed by then and its log went; anything else leaves the follower as it was |
| LogMatching.AcceptKeepsSlotIff | spx_core/src/roles/follower.rs:362 | truncation is unconditional: a slot of the follower's log survives an accepted request exactly when the leader's log at dispatch held it, which for a slot of the term's log means that the request reaches that far |
| LogMatching.GaplessTakeoverIff | spx_core/src/roles/leader.rs:183-207 | exactly when an election leaves a winner without gaps, from a log that reached some slot without one, whatever its last slot said |
| LogMatching.TakeOverContext | spx_core/src/roles/leader.rs:183-200 | restamping, gaps or not, keeps the winner's log matched, now against its own term's log, and its uncommitted log covering it |
| LogMatching.WriteLog | spx_core/src/roles/leader.rs:314-334 | a client write extends the leader's log and its term's log and keeps Log Matching |
| CommitCounting.CountStep | spx_core/src/roles/leader.rs:453-503 | every event, without assumption, keeps every match slot resting on an acknowledgement or a seed, and every commit on a quorum of those |
| CommitCounting.QuorumCommits | spx_core/src/roles/leader.rs:470-488 | a slot that enough match slots reach is one that a quorum counts for, the leader in it |
| Durability.DurabilityStep | spx_core/src/roles/leader.rs:453-503 | with ordered links, every event keeps the term's log through an acknowledged slot on its member, and whole on its leader, while they stay in the term |
| Durability.AcknowledgedIsDurable | spx_core/src/roles/leader.rs:453-465 | whoever acknowledged a slot in a term holds the term's log through it as long as it stays in the term |
| Durability.CommittedIsDurable | spx_core/src/roles/leader.rs:478-488 | those that count for a committed slot are a quorum with the leader in it; the leader and each that acknowledged holds the term's log through the slot while in the term, and any other was seeded that far |
| Durability.SeededCopyIsCurrentIff | spx_core/src/roles/candidate.rs:125-132 | a promise that ends in the candidate's last term seeds the shorter length, through which both logs agree; once the winner has restamped, the follower's log is its copy through that slot if and only if nothing up to there is taken over |
| Durability.SeedCommitsWithoutQuorum | spx_core/src/roles/candidate.rs:125-132 | a concrete candidate of five members, and promise, whose seed lets one acknowledgement commit a restamped entry that only two members need hold |
| InFlightQueues.QueueStep | spx_core/src/roles/leader.rs:281-288 | every event, without assumption, keeps every queue ascending and within both the sent slot and the leader's log |
| InFlightQueues.AckRemovesExactlyAcknowledged | spx_core/src/roles/leader.rs:48-57 | popping from the front of an ascending queue removes exactly the batches at or below the acknowledged slot |
| ProbeAnchors.ProgressStep | spx_core/src/roles/leader.rs:457-465 | every event, without assumption, keeps positions in range, and successes and mismatches within the log of their term |
| ProbeAnchors.AnchorsAlwaysPresent | spx_core/src/roles/leader.rs:245-250 | in a state, the anchors of a leader without gaps are all in its log, and a response addressed to it can be handled if and only if it is of an older term or its hint stays within the log of the term |
| ProbeAnchors.ReprobeAnchorIff | spx_core/src/roles/leader.rs:511-534 | the probe after a rejection has its anchor exactly when it starts no later than just past the leader's log |
| ProbeAnchors.JudgeBoundedIff | spx_core/src/roles/follower.rs:317-374 | a follower's success or mismatch stays within the log of the request's term, and a hint does if and only if, in case it misses the anchor, its last slot does |
| ResponseHandling.AllHandleableIff | spx_core/src/roles/follower.rs:317-331 | an event leaves every response of a term whose leader has no gap one that can be handled if and only if the follower that answers in it, missing the anchor, has a last slot that the request's leader reaches |
| ResponseHandling.JudgesExactly | spx_core/src/roles/follower.rs:267-313 | a request is judged exactly when the lease runs and a follower already follows its sender, whether or not the term rises, or another role gives up for it in its own term; only a leader in lease leaves one unanswered, and every other answer carries just the term |
| ResponseHandling.AdoptionKeepsJudging | spx_core/src/state_machine/state.rs:30-37 | hearing of a higher term from anyone first changes nothing in what a follower judges from then on, and leaves any other role nothing to judge |
| Outcomes.AdoptionKeepsLeader | spx_core/src/state_machine/state.rs:29-38 | a higher term leaves a follower with the leader that it knew and any other role with none, forgets the vote, and changes nothing else |
| Outcomes.FollowsAfterRequest | spx_core/src/roles/follower.rs:267-313 | whom a member follows after an accept request, in every role and whether or not the request is judged |
| Outcomes.FollowsAfterVote | spx_core/src/state_machine/state.rs:29-45 | whom a member follows after a vote request, and which vote it has on record |
| Outcomes.ExpiryEndsLeadership | spx_core/src/roles/leader.rs:641-647 | when its lease is definitely over, a leader follows nobody, and no other role changes |
| Outcomes.CampaignOutcomeIff | spx_core/src/roles/candidate.rs:105-177 | a response lets a candidate win exactly when those who voted and itself are a majority and the lease counted from the dispatch still runs for sure; it gives up exactly when that lease may be over by then, or all have answered without a majority; otherwise it waits |
| Outcomes.DryRunOutcomeIff | spx_core/src/roles/precandidate.rs:55-101 | a dry run turns into a campaign in the next term, counted from the earliest bound of the clock, exactly when a majority grants it, and ends exactly when all have answered without one |
| Outcomes.GrantIsRemembered | spx_core/src/roles/follower.rs:126-139 | after a vote, every request up to its term is turned down with the name of the candidate voted for |
| Outcomes.RefusalTellsWhy | spx_core/src/roles/follower.rs:126-198 | each field of a rejection: the known leader always, the vote, the last term and the last slot exactly when they are the reason |
| Outcomes.BusyRolesTurnDown | spx_core/src/roles/candidate.rs:71-83 | campaigners and leaders in lease turn down requests up to their term as such, and stay as they are |
| Outcomes.AcceptedPosition | spx_core/src/roles/follower.rs:376-380 | after an accepted request with entries, last slot and last term are those of the last entry that the log then holds; without entries they stay |
| Outcomes.AcceptedSafeTime | spx_core/src/roles/follower.rs:382-400 | what an accepted request commits, and how far it lets the follower read: up to the newly committed entry, or a millisecond before the announced minimum |
| Outcomes.NewestContactKept | spx_core/src/roles/leader.rs:430-435 | the newest contact of the responder is kept and the others are left alone |
| Outcomes.AcknowledgedMovesOn | spx_core/src/roles/leader.rs:459-465 | after an acknowledgement the next request repeats nothing acknowledged, and nothing in flight beyond but possibly its first slot |
| Outcomes.TimeoutStartsOver | spx_core/src/roles/leader.rs:388-404 | the timeout check clears exactly the followers whose oldest batch has waited for more than a minute, and these are sent everything from their next slot again |
| Outcomes.FlushSendsIff | spx_core/src/roles/leader.rs:376-386 | a flush sends to every follower exactly when writes are buffered, and leaves none buffered |
| Outcomes.HeartbeatReachesAll | spx_core/src/roles/leader.rs:352-374 | a heartbeat announces one minimum to every follower and lets the leader read up to a millisecond before it |
| Outcomes.MinimumIsCapped | spx_core/src/roles/leader.rs:356-363 | the announced minimum is the latest time within both the latest bound of the clock and the lease |
| Outcomes.CommitForgets | spx_core/src/roles/leader.rs:490-503 | committing forgets exactly the uncommitted entries up to the slot and raises the safe time to the entry there |
| Outcomes.SafeTimeRises | spx_core/src/context/mod.rs:253-260 | safe time rises to the time offered if that is later, and nothing else changes |
| Outcomes.LeaseOverIff | spx_core/src/context/mod.rs:224-229 | a lease is over exactly when there is none or it is past at every true time that the reading allows |
| Outcomes.LeaseLastsFullLength | spx_core/src/context/mod.rs:215-218 | an extended lease is the shortest one that lasts a full length from whatever true time the reading allows |
| ResponseHandling.ToppedIsHonest | spx_core/src/roles/follower.rs:376-380 | a follower whose last slot is the top of its log meets the condition for every request in flight |
| ProbeAnchors.ShortLogAnswerableIff | spx_core/src/roles/follower.rs:317-331 | a short-log hint can be answered exactly when the follower's last slot is not past the leader's |
| ProbeAnchors.MismatchAnswerable | spx_core/src/roles/follower.rs:332-359 | a term-mismatch hint can always be answered when the anchor is in the leader's log |
| ProbeAnchors.StaleLastSlotCanPanic | spx_core/src/roles/follower.rs:376-380 | a concrete follower and requests of the next term's leader, all with matching logs, by which a stale last slot leads to a hint without an anchor |
| ProbeAnchors.SecondDispatches | spx_core/src/roles/leader.rs:225-291 | the first two of those requests, and the batch noted, are what that leader dispatches from its starting position |
| ProbeAnchors.LastDispatch | spx_core/src/roles/leader.rs:225-291 | the last of them is what it dispatches, and notes, after the lost batch |
| ClientWrites.WritesStep | spx_core/src/roles/leader.rs:295-350 | every event, without assumption, keeps: each write has its entry in its term's log, stamped no earlier than it arrived; pending and waiting writes wait on that stamp; settled ones are committed; no command is answered twice |
| ClientWrites.ExternalConsistency | README.md:100-104 | in a state, a reply that precedes the arrival of a write belongs to an entry with a smaller timestamp |
| ClientWrites.WritesAreConserved | spx_core/src/roles/leader.rs:295-312 | in a state, a write of a present leadership is pending if and only if it is not settled |
| ClientWrites.PendingWaitsOnEntry | spx_core/src/roles/leader.rs:322-337 | a pending write waits on the very timestamp that the entry at its slot of the leader's log carries |
| Takeovers.TakeoverReachesCommittedIff | spx_core/src/roles/candidate.rs:215-231 | a winner's last slot reaches its committed slot if and only if a pending or an own uncommitted entry does, or it has none of its own and its last slot did |
| Takeovers.StaleAcceptReusesCommittedSlot | spx_core/src/roles/follower.rs:360-380 | a concrete stale request that cuts a follower committed through nine back to six, so that as the next leader it files its first write at slot seven |
| Takeovers.StaleAcceptOpensGap | spx_core/src/roles/follower.rs:360-380 | a concrete stale request after which a follower's promise lists slots past its log, so that the candidate takes over with slot seven missing |
| Takeovers.StaleLastSlotOpensGap | spx_core/src/roles/follower.rs:376-380 | a concrete delayed empty request that cuts a follower's log but not its last slot, so that on winning, with nothing reported, it lacks two committed slots |
| Takeovers.OnlyWritesCloseTheGap | spx_core/src/roles/leader.rs:320-330 | during a leadership only a client write changes whether the last slot reaches the committed slot, and none undoes it |
| Takeovers.LeadershipKeepsGaps | spx_core/src/roles/leader.rs:319-330 | during a leadership no event opens or closes a gap in the leader's log up to its last slot |
| Takeovers.PendingAboveIff | spx_core/src/roles/leader.rs:314-350 | an event keeps all pending writes above their leaders' committed slots if and only if a write that it brings reaches a leader whose last slot reaches its committed slot |
| EntryMerge.MergeIsJoin | spx_core/src/roles/candidate.rs:200-213 | merging a promise into the highest-term join of what was offered gives the join with the promise included |
| EntryMerge.JoinUnique | spx_core/src/roles/candidate.rs:201-206 | when slot and term determine the entry there is one highest-term join |
| EntryMerge.PromiseOrderIsIrrelevant | spx_core/src/roles/candidate.rs:122-134 | promises recorded in any order, with any repetition, give the same pending entries |
| EntryMerge.FlushIsJoin | spx_core/src/roles/candidate.rs:215-231 | flushing is the highest-term join of promises and own log above the committed slot, and leaves the rest of the own log alone |
| EntryMerge.MergeKeepsUnlessHigher | spx_core/src/roles/candidate.rs:200-213 | an entry already collected gives way only to one of a higher term |
| EntryMerge.FlushKeepsUnlessHigher | spx_core/src/roles/candidate.rs:215-231 | an own uncommitted entry gives way only to one of a higher term |
| EntryMerge.TakenOver | spx_core/src/roles/leader.rs:183-200 | an unsurpassed entry above the committed slot is what the winner's log and uncommitted log hold there, in its own term |
| Quorums.CommitCandidate | spx_core/src/roles/leader.rs:470-484 | sort, take and min yield the greatest slot up to the last one that quorum minus one followers have reached, or 0 |
| Quorums.QuorumContact | spx_core/src/roles/leader.rs:437-442 | sort and index yield the greatest time that quorum minus one followers have reached, if there are that many |
| Quorums.QuorumSlot | spx_core/src/roles/leader.rs:478-484 | the slot is reached by enough members, and no greater one up to the bound is |
| Quorums.QuorumsMeet | spx_core/src/context/mod.rs:170-172 | two quorums of a group have a member in common |
| SafeTime.LeadershipReadsSafeIff | spx_core/src/roles/leader.rs:352-368 | in every run, throughout a leadership safe time never goes back, and no uncommitted entry has had a timestamp below it if and only if that held at first and each write, heartbeat and commit met its own condition |
| SafeTime.SafeTimeIsSoundIff | spx_core/src/roles/leader.rs:352-368 | for a leadership that starts with ascending timestamps and whose clock never goes back, only heartbeats matter: each must find every uncommitted entry as late as its announced time less a millisecond |
| SafeTime.AnnouncedMinimumIsKept | spx_core/src/roles/leader.rs:356-368 | in a run, every entry written after a heartbeat in the same leadership has a timestamp no smaller than the minimum the heartbeat announced, as long as the clock does not go back |
| SafeTime.HeartbeatSafeIff | spx_core/src/roles/leader.rs:364-366 | a heartbeat keeps the safe time sound exactly when each uncommitted entry is as late as the announced time less a millisecond |
| SafeTime.HeartbeatOverPendingWrite | spx_core/src/roles/leader.rs:352-368 | whatever the state, a heartbeat eight seconds after a write that is still uncommitted puts it below the safe time |
| StateMachine.ComposedNeverPromises | spx_core/src/state_machine/state.rs:29-38 | with the term raised before the handler, every vote request is rejected |
| StateMachine.IntendedPromisesExactlyWhen | spx_core/src/roles/follower.rs:126-190 | with the term raised afterwards, a vote is granted exactly when term, lease and log position allow it |
| FollowerRole.OnVoteRequest | spx_core/src/roles/follower.rs:117-218 | a promise exactly under the grant conditions, with the member's own last term and slot and its whole uncommitted log; a rejection changes nothing |
| Wal.RangeIsSortedListing | spx_lib/src/write_ahead_log/wal.rs:43-48 | a range lists exactly the entries from its first slot on, in ascending slot order |
| Wal.HighestSlotForTerm | spx_lib/src/write_ahead_log/wal.rs:54-60 | the greatest slot of a term's entries, or none |
| Wal.LowestSlotForTerm | spx_lib/src/write_ahead_log/wal.rs:62-69 | the least slot of a term's entries, or none |
| TrueTime.Now | spx_lib/src/true_time/true_time.rs:17-24 | the interval contains exactly the true times within the uncertainty of the local clock |
| TrueTime.CommitWait | spx_lib/src/true_time/true_time.rs:37-41 | polling stops at the first reading that puts the time definitely in the past, whatever the true time in it |
| WriteAheadLogs.WriteAheadLog.Append | spx_lib/src/write_ahead_log/wal.rs:31-33 | puts the entry at its slot |
| WriteAheadLogs.WriteAheadLog.TruncateFrom | spx_lib/src/write_ahead_log/wal.rs:50-52 | keeps exactly the entries below the slot |
| WriteAheadLogs.WriteAheadLog.GetTerm | spx_lib/src/write_ahead_log/wal.rs:35-41 | the term at a slot, present exactly when there is an entry |
| WriteAheadLogs.WriteAheadLog.FindHighestAnchor | spx_lib/src/write_ahead_log/wal.rs:71-88 | the last entry of the greatest term up to the given one, or none when all terms are greater |
| SharedContexts.PaxosSharedContext.constructor | spx_core/src/context/mod.rs:86-112 | a new member's context: term 0, empty logs, a lease that is already over |
| SharedContexts.PaxosSharedContext.ExtendLeaderLeaseExpiryTime | spx_core/src/context/mod.rs:215-218 | the lease lasts a full length from the latest bound of the clock |
| SharedContexts.PaxosSharedContext.IsLeaderLeaseExpired | spx_core/src/context/mod.rs:224-229 | true exactly without a lease or when it is definitely past |
| SharedContexts.PaxosSharedContext.AdvanceTSafe | spx_core/src/context/mod.rs:254-260 | safe time moves forward only |
| SharedContexts.PaxosSharedContext.AdvanceCommitted | spx_core/src/roles/follower.rs:382-395 | moves the committed slot, the safe time with it, and forgets exactly the entries that are now committed |
| Followers.Follower.HandleVoteRequest | spx_core/src/roles/follower.rs:117-218 | answer, vote record and lease as specified, rejections in the code's order; nothing else changes |
| Followers.Follower.ReplaceAfterAnchor | spx_core/src/roles/follower.rs:361-380 | the truncate and append loop leaves the log, uncommitted log and last position as specified |
| Followers.Follower.HandleAcceptRequest | spx_core/src/roles/follower.rs:267-416 | answer and whole context as specified, for ignored, short, mismatching and matching requests |
| Leaders.FollowerState.AckBatchesUpTo | spx_core/src/roles/leader.rs:48-57 | the pop loop leaves the specified queue and the position alone |
| Leaders.FollowerState.ClearInFlightBatches | spx_core/src/roles/leader.rs:59-64 | empties the queue and puts the sent slot just before the next one |
| Leaders.Leader.constructor | spx_core/src/roles/leader.rs:142-173 | one separate state for each follower, no contact yet, nothing pending |
| Leaders.Leader.DispatchAcceptRequestToFollower | spx_core/src/roles/leader.rs:225-291 | the request is the log after the anchor; the batch is noted for that follower alone |
| Leaders.Leader.DispatchAcceptRequest | spx_core/src/roles/leader.rs:212-223 | the loop over the score board is the specified broadcast, in whatever order |
| Leaders.Leader.RestampUncommittedLogs | spx_core/src/roles/leader.rs:181-190 | the restamp loop gives every uncommitted entry the new term and lists them in slot order |
| Leaders.Leader.ProcessUncommittedLogs | spx_core/src/roles/leader.rs:175-210 | restamping, log, positions and first broadcast as specified |
| Leaders.Leader.HandleClientWrite | spx_core/src/roles/leader.rs:314-350 | entry, logs, pending write and batch signal as specified |
| Leaders.Leader.HandleWriteFlush | spx_core/src/roles/leader.rs:376-386 | nothing without buffered writes; otherwise a broadcast and an empty buffer |
| Leaders.Leader.HandleHeartbeatTimer | spx_core/src/roles/leader.rs:352-374 | safe time and broadcast with the minimum next timestamp, capped at the lease |
| Leaders.Leader.HandleAcceptTimeoutCheck | spx_core/src/roles/leader.rs:388-404 | the loop clears exactly the followers whose oldest batch has timed out |
| Leaders.Leader.NoteContact | spx_core/src/roles/leader.rs:429-451 | the newest contact is kept, and the lease renewed from the quorum's, never shortened |
| Leaders.Leader.AnswerCommitted | spx_core/src/roles/leader.rs:299-311 | every committed write is answered once, in slot order, each after a reading that puts its timestamp in the past |
| Leaders.Leader.CommitOnQuorum | spx_core/src/roles/leader.rs:468-503 | commits exactly what a quorum holds, if that is more, and splits off the writes to answer |
| Leaders.Leader.HandleSuccess | spx_core/src/roles/leader.rs:453-507 | acknowledgement, queue and commit as specified; stale successes change nothing |
| Leaders.Leader.HandleConflict | spx_core/src/roles/leader.rs:509-538 | queue, position and new probe as specified |
| Leaders.Leader.HandleAcceptResponse | spx_core/src/roles/leader.rs:406-539 | the whole handler: what it disregards, contact and lease, success and conflict |
| Candidates.Candidate.constructor | spx_core/src/roles/candidate.rs:35-50 | empty boards over the peers, positions just past the own log |
| Candidates.Candidate.MergeUncommittedLogs | spx_core/src/roles/candidate.rs:200-213 | the merge loop computes the specified merge |
| Candidates.Candidate.FlushUncommittedLogs | spx_core/src/roles/candidate.rs:215-231 | the flush loop computes the specified flush of the context |
| Candidates.Candidate.HandleVoteResponse | spx_core/src/roles/candidate.rs:105-177 | waiting, giving up or winning as specified, and on winning the new leader and its first requests |
| PreCandidates.PreCandidate.HandlePreVoteResponse | spx_core/src/roles/precandidate.rs:55-101 | waiting, giving up, or a campaign in the next term |
| PaxosStates.AdoptHigherTerm | spx_core/src/state_machine/state.rs:29-38 | a higher term is adopted and forces the member to follow the leader it knew as a follower |
| PaxosStates.ProcessVoteRequest | spx_core/src/state_machine/state.rs:29-45 | the intended vote step over role objects |
| PaxosStates.ProcessVoteRequestAsComposed | spx_core/src/state_machine/state.rs:17-48 | the literal vote step over role objects; it always rejects |
| PaxosStates.ProcessAcceptRequest | spx_core/src/state_machine/state.rs:17-48 | the accept step over role objects, in every role |
| PaxosStates.HandleElectionCountdown | spx_core/src/roles/follower.rs:248-265 | a dry run starts exactly when the lease is over |
| LeaseWatchers.LeaseWatcher.WaitUntilExpired | spx_core/src/context/lease_watcher.rs:34-58 | clears the lease at the first poll that finds the then stored expiry definitely past, and otherwise leaves what was last stored |

## Left out

- StateMachine.ProcessVoteRequest: decides against the term before the bump and raises it afterwards, unlike the event
  loop, because as composed no vote is ever granted and every election claim would be empty.
- Vote responses are tagged with the campaign that asked. The handler itself counts any promise that reaches it
  (spx_core/src/roles/candidate.rs:122-137), so a promise to an earlier campaign would break the tally.
- Global leader completeness across terms: match slots seeded from promises count older copies as replicated
  (`SeedCommitsWithoutQuorum`), so durability is claimed within a term. What an election preserves of a quorum's value
  is `QuorumValueSurvives`.
- Runs.CommitsAreDurable: needs links in order, because an old accept request may shorten a log
  (`AcknowledgedSlotStaysIff`), and promises nothing of a member that counts by a seeded match slot alone (`SeedsAreCopiesIff`).
- Runs.EveryWriteIsPendingOrSettled: gives no lower bound for a pending slot, because the code gives none
  (`PendingLiesAboveCommittedIff`).
- Handlers happen at one instant of true time. Only the wait before a reply takes time: the reply is an event of its own.
- A member that would panic takes no step; `AnchorsNeverMissing` and `ResponsesHandledIff` show when none does.
- Liveness of the group as a whole: a vote does not set the known leader, and requests of an unknown leader are
  ignored. Only the probing loop is shown to end.
- Safe time at followers across terms; `SafeTime` treats the leader that assigns the timestamps.
- The rules by which members grant pre-votes, the promise branch of the pre-candidate's vote handler, which no higher
  term reaches, and the fields of pre-vote responses that only feed log messages.
- A follower's forwarding of client writes, and how it learns a leader from responses: any leader may be learnt at any time.
- Timers, select loops, notifications, cancellation and task dispatch: timers are events that may happen at any moment.
- Wire formats and configuration: messages arrive as they were sent, timestamps included.
- The bounds of 32-bit terms and slots, membership change, and recovery after a crash, which the code does not have.
